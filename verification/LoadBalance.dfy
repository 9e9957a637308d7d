/** The least-loaded loop picker and how even it keeps the loops.

    A pick sees only the connections whose `addConnect` task has run; those
    still queued are in flight. The main thread reads one size after the other,
    and the best so far again for each comparison, while the loops drain at any
    time, in any order. */
module LoadBalance {

  /** A scan under way: the best loop so far and the next to compare it with,
      and, in the middle of a comparison, the size that was read first. `begun`
      is what was in flight when the scan began. */
  datatype Scan =
    | Idle
    | Between(best: nat, next: nat, begun: seq<nat>)
    | ReadNext(best: nat, next: nat, size: nat, begun: seq<nat>)
    | ReadBest(best: nat, next: nat, size: nat, begun: seq<nat>)

  /** `drained[i]` is the size of loop i's set, `flying[i]` its queued additions. */
  datatype State = State(drained: seq<nat>, flying: seq<nat>, scan: Scan)

  predicate Wf(s: State) {
    |s.drained| == |s.flying|
  }

  function Load(s: State, i: nat): nat
    requires Wf(s) && i < |s.drained|
  {
    s.drained[i] + s.flying[i]
  }

  function Total(xs: seq<nat>): nat {
    if xs == [] then 0 else Total(xs[..|xs| - 1]) + xs[|xs| - 1]
  }

  /** The first index with the least value. */
  predicate FirstLeast(xs: seq<nat>, k: nat) {
    && k < |xs|
    && (forall i :: 0 <= i < |xs| ==> xs[k] <= xs[i])
    && (forall i :: 0 <= i < k ==> xs[k] < xs[i])
  }

  /** `getNextLoop` when nothing drains meanwhile. */
  method GetNextLoop(sizes: seq<nat>) returns (k: nat)
    requires sizes != []
    ensures FirstLeast(sizes, k)
  {
    k := 0;
    for i := 1 to |sizes|
      invariant FirstLeast(sizes[..i], k)
    {
      if sizes[i] < sizes[k] {
        k := i;
      }
    }
    assert sizes[..|sizes|] == sizes;
  }

  // ---------------------------------------------------------------- runs

  /** The main thread begins a scan, reads either size of a comparison first and
      the other second, and hands the connection to the best loop; a loop drains. */
  datatype Event = Begin | LookAtNext | LookAtBest | Compare | Pick | Drain(k: nat)

  /** A scan begins while no more than `limit` additions are queued anywhere. */
  predicate Enabled(s: State, e: Event, limit: nat) {
    && Wf(s)
    && match e
       case Begin => s.scan.Idle? && s.drained != [] && Total(s.flying) <= limit
       case LookAtNext => s.scan.Between? && s.scan.best < |s.drained| && s.scan.next < |s.drained|
       case LookAtBest => s.scan.Between? && s.scan.best < |s.drained| && s.scan.next < |s.drained|
       case Compare => (s.scan.ReadNext? || s.scan.ReadBest?) && s.scan.best < |s.drained| && s.scan.next < |s.drained|
       case Pick => s.scan.Between? && s.scan.next == |s.drained| && s.scan.best < |s.drained|
       case Drain(k) => k < |s.flying| && s.flying[k] > 0
  }

  function Next(s: State, e: Event, limit: nat): State
    requires Enabled(s, e, limit)
  {
    var c := s.scan;
    match e
    case Begin => s.(scan := Between(0, 1, s.flying))
    case LookAtNext => s.(scan := ReadNext(c.best, c.next, s.drained[c.next], c.begun))
    case LookAtBest => s.(scan := ReadBest(c.best, c.next, s.drained[c.best], c.begun))
    case Compare =>
      var less := if c.ReadNext? then c.size < s.drained[c.best] else s.drained[c.next] < c.size;
      s.(scan := Between(if less then c.next else c.best, c.next + 1, c.begun))
    case Pick => s.(flying := s.flying[c.best := s.flying[c.best] + 1], scan := Idle)
    case Drain(k) => s.(drained := s.drained[k := s.drained[k] + 1], flying := s.flying[k := s.flying[k] - 1])
  }

  /** Loads differ by at most `gap`. */
  predicate Even(s: State, gap: nat) {
    Wf(s) && forall i, j :: 0 <= i < |s.drained| && 0 <= j < |s.drained| ==> Load(s, i) <= Load(s, j) + gap
  }

  /** A size of loop `k` read since the scan began. */
  predicate Seen(s: State, k: nat, size: nat)
    requires Wf(s) && k < |s.drained| && !s.scan.Idle? && |s.scan.begun| == |s.drained|
  {
    size <= Load(s, k) <= size + s.scan.begun[k]
  }

  /** The best so far is no worse than any loop looked at, but for what was in
      flight in the loops looked at. */
  predicate BestSoFar(s: State, limit: nat)
    requires Wf(s) && !s.scan.Idle?
  {
    var c := s.scan;
    && c.best < c.next <= |s.drained| == |c.begun|
    && Total(c.begun) <= limit
    && (forall k :: 0 <= k < |c.begun| ==> s.flying[k] <= c.begun[k])
    && (forall j :: 0 <= j < c.next ==> Load(s, c.best) <= Load(s, j) + Total(c.begun[..c.next]))
  }

  predicate Inv(s: State, limit: nat) {
    && Even(s, limit + 1)
    && (!s.scan.Idle? ==> BestSoFar(s, limit))
    && (s.scan.ReadNext? ==> s.scan.next < |s.drained| && Seen(s, s.scan.next, s.scan.size))
    && (s.scan.ReadBest? ==> s.scan.next < |s.drained| && Seen(s, s.scan.best, s.scan.size))
  }

  lemma {:induction false} PartOfTotal(xs: seq<nat>, i: nat)
    requires i < |xs|
    ensures xs[i] <= Total(xs)
    decreases |xs|
  {
    if i < |xs| - 1 {
      PartOfTotal(xs[..|xs| - 1], i);
    }
  }

  lemma TotalSnoc(xs: seq<nat>, n: nat)
    requires n < |xs|
    ensures Total(xs[..n + 1]) == Total(xs[..n]) + xs[n]
  {
    assert xs[..n + 1][..n] == xs[..n];
  }

  lemma BeginInv(s: State, limit: nat)
    requires Inv(s, limit) && Enabled(s, Begin, limit)
    ensures Inv(Next(s, Begin, limit), limit)
  {
    hide Total;
    SameLoads(s, Next(s, Begin, limit));
  }

  lemma SameLoads(s: State, t: State)
    requires Wf(s) && t.drained == s.drained && t.flying == s.flying
    ensures forall i :: 0 <= i < |t.drained| ==> Load(t, i) == Load(s, i)
  {
  }

  /** Draining moves connections from one count to the other: no load changes. */
  lemma DrainInv(s: State, k: nat, limit: nat)
    requires Inv(s, limit) && Enabled(s, Drain(k), limit)
    ensures Inv(Next(s, Drain(k), limit), limit)
  {
    hide Total;
    var t := Next(s, Drain(k), limit);
    assert forall i :: 0 <= i < |t.drained| ==> Load(t, i) == Load(s, i);
  }

  /** One comparison, with its two sizes read at different moments, costs at most
      what was in flight in one loop looked at. */
  lemma CompareInv(s: State, limit: nat)
    requires Inv(s, limit) && Enabled(s, Compare, limit)
    ensures Inv(Next(s, Compare, limit), limit)
  {
    var c := s.scan;
    var n := c.next;
    var t := Next(s, Compare, limit);
    TotalSnoc(c.begun, n);
    PartOfTotal(c.begun[..n], c.best);
    hide Total;
    SameLoads(s, t);
    assert c.begun[..n][c.best] == c.begun[c.best];
    assert Load(s, c.best) <= Load(s, n) + c.begun[c.best] || t.scan.best == n;
    assert t.scan.best == n ==> Load(s, n) <= Load(s, c.best) + c.begun[n];
    forall j | 0 <= j < n + 1 ensures Load(t, t.scan.best) <= Load(t, j) + Total(c.begun[..n + 1]) {
      assert Load(t, j) == Load(s, j);
      assert j < n ==> Load(s, c.best) <= Load(s, j) + Total(c.begun[..n]);
    }
  }

  lemma PickInv(s: State, limit: nat)
    requires Inv(s, limit) && Enabled(s, Pick, limit)
    ensures Inv(Next(s, Pick, limit), limit)
  {
    hide Total;
    var c := s.scan;
    var t := Next(s, Pick, limit);
    assert c.begun[..c.next] == c.begun;
    forall i, j | 0 <= i < |t.drained| && 0 <= j < |t.drained| ensures Load(t, i) <= Load(t, j) + limit + 1 {
      assert Load(s, i) <= Load(s, j) + limit + 1;
      assert Load(s, c.best) <= Load(s, j) + Total(c.begun[..c.next]);
    }
  }

  lemma NextInv(s: State, e: Event, limit: nat)
    requires Inv(s, limit) && Enabled(s, e, limit)
    ensures Inv(Next(s, e, limit), limit)
  {
    match e {
      case Begin => BeginInv(s, limit);
      case Compare => CompareInv(s, limit);
      case Pick => PickInv(s, limit);
      case Drain(k) => DrainInv(s, k, limit);
      case _ => LookInv(s, e, limit);
    }
  }

  lemma LookInv(s: State, e: Event, limit: nat)
    requires Inv(s, limit) && Enabled(s, e, limit) && (e.LookAtNext? || e.LookAtBest?)
    ensures Inv(Next(s, e, limit), limit)
  {
    hide Total;
    SameLoads(s, Next(s, e, limit));
  }

  /** `events` can happen one after the other from `s`. */
  predicate Possible(s: State, events: seq<Event>, limit: nat)
    decreases |events|
  {
    events == [] || (Enabled(s, events[0], limit) && Possible(Next(s, events[0], limit), events[1..], limit))
  }

  function After(s: State, events: seq<Event>, limit: nat): State
    requires Possible(s, events, limit)
    decreases |events|
  {
    if events == [] then s else After(Next(s, events[0], limit), events[1..], limit)
  }

  lemma {:induction false} RunInv(s: State, events: seq<Event>, limit: nat)
    requires Inv(s, limit) && Possible(s, events, limit)
    ensures Inv(After(s, events, limit), limit)
    decreases |events|
  {
    hide Inv, Enabled, Next;
    if events != [] {
      NextInv(s, events[0], limit);
      RunInv(Next(s, events[0], limit), events[1..], limit);
    }
  }

  /** However connections arrive, loops drain and the reads of a scan fall between
      the drains: with at most `limit` additions queued when a scan begins, no
      loop gets more than `limit + 1` ahead of another. */
  lemma LoadsStayEven(s: State, events: seq<Event>, limit: nat)
    requires Even(s, limit + 1) && s.scan.Idle? && Possible(s, events, limit)
    ensures Even(After(s, events, limit), limit + 1)
  {
    RunInv(s, events, limit);
    hide After, Possible;
    EvenOf(After(s, events, limit), limit);
  }

  lemma EvenOf(s: State, limit: nat)
    requires Inv(s, limit)
    ensures Even(s, limit + 1)
  {
  }

  /** The scan so far has the first of the smallest sizes. */
  predicate LeastSoFar(s: State) {
    s.scan.Between? && 0 < s.scan.next <= |s.drained| && FirstLeast(s.drained[..s.scan.next], s.scan.best)
  }

  /** A comparison in which nothing drains, whichever size is read first. */
  lemma QuietCompare(s: State, look: Event, limit: nat)
    requires Wf(s) && LeastSoFar(s) && s.scan.next < |s.drained| && (look.LookAtNext? || look.LookAtBest?)
    ensures Enabled(s, look, limit) && Enabled(Next(s, look, limit), Compare, limit)
    ensures var t := Next(Next(s, look, limit), Compare, limit);
            t.drained == s.drained && t.scan.Between? && t.scan.next == s.scan.next + 1 && LeastSoFar(t)
  {
    var n := s.scan.next;
    assert s.drained[..n + 1] == s.drained[..n] + [s.drained[n]];
  }

  /** A scan in which nothing drains begins with the first loop, and once it has
      looked at all it picks the first of the smallest. */
  lemma QuietScan(s: State, limit: nat)
    ensures Enabled(s, Begin, limit) ==> LeastSoFar(Next(s, Begin, limit))
    ensures Enabled(s, Pick, limit) && LeastSoFar(s) ==>
              exists k: nat :: FirstLeast(s.drained, k) && Next(s, Pick, limit).flying == s.flying[k := s.flying[k] + 1]
  {
    hide Total;
    if Enabled(s, Begin, limit) {
      assert s.drained[..1] == [s.drained[0]];
    }
    if Enabled(s, Pick, limit) && LeastSoFar(s) {
      assert s.drained[..|s.drained|] == s.drained;
    }
  }

  /** The loops as they are before the first connection. */
  function Fresh(loops: nat): (s: State)
    ensures Even(s, 0) && s.scan.Idle?
  {
    State(seq(loops, _ => 0), seq(loops, _ => 0), Idle)
  }

  // ---------------------------------------------------------------- the bound is met

  /** One undisturbed scan over two loops. */
  function OneScan(): seq<Event> {
    [Begin, LookAtNext, Compare, Pick]
  }

  /** `n` scans in a row, before any drain, all fall on the first loop. */
  function Burst(n: nat): seq<Event> {
    if n == 0 then [] else OneScan() + Burst(n - 1)
  }

  function Bursted(n: nat): State {
    State([0, 0], [n, 0], Idle)
  }

  lemma TotalOfPair(a: nat, b: nat)
    ensures Total([a, b]) == a + b
  {
    var pair: seq<nat>, one: seq<nat> := [a, b], [a];
    assert pair[..1] == one && one[..0] == [];
    assert Total(pair) == Total(one) + b && Total(one) == Total(one[..0]) + a;
  }

  /** The first event of a run. */
  lemma First(s: State, e: Event, rest: seq<Event>, limit: nat)
    requires Enabled(s, e, limit) && Possible(Next(s, e, limit), rest, limit)
    ensures Possible(s, [e] + rest, limit) && After(s, [e] + rest, limit) == After(Next(s, e, limit), rest, limit)
  {
    assert ([e] + rest)[1..] == rest;
  }

  /** A scan that finds equal sizes gives the connection to the first loop. */
  lemma ScanRuns(n: nat, limit: nat, rest: seq<Event>)
    requires n <= limit && Possible(Bursted(n + 1), rest, limit)
    ensures Possible(Bursted(n), OneScan() + rest, limit)
    ensures After(Bursted(n), OneScan() + rest, limit) == After(Bursted(n + 1), rest, limit)
  {
    TotalOfPair(n, 0);
    hide Possible, After, Total;
    var s0 := Bursted(n);
    var s1 := Next(s0, Begin, limit);
    var s2 := Next(s1, LookAtNext, limit);
    var s3 := Next(s2, Compare, limit);
    assert Next(s3, Pick, limit) == Bursted(n + 1);
    First(s3, Pick, rest, limit);
    First(s2, Compare, [Pick] + rest, limit);
    First(s1, LookAtNext, [Compare] + ([Pick] + rest), limit);
    First(s0, Begin, [LookAtNext] + ([Compare] + ([Pick] + rest)), limit);
    assert OneScan() + rest == [Begin] + ([LookAtNext] + ([Compare] + ([Pick] + rest)));
  }

  lemma {:induction false} BurstRuns(done: nat, n: nat, limit: nat)
    requires done + n <= limit + 1
    ensures Possible(Bursted(done), Burst(n), limit)
    ensures After(Bursted(done), Burst(n), limit) == Bursted(done + n)
    decreases n
  {
    hide Enabled, Next;
    if n > 0 {
      BurstRuns(done + 1, n - 1, limit);
      ScanRuns(done, limit, Burst(n - 1));
    }
  }

  /** For every limit there is a run that gets exactly `limit + 1` apart. */
  lemma BoundIsTight(limit: nat)
    ensures var s := Fresh(2);
            && Possible(s, Burst(limit + 1), limit)
            && !Even(After(s, Burst(limit + 1), limit), limit)
  {
    assert Fresh(2) == Bursted(0);
    BurstRuns(0, limit + 1, limit);
    var t := Bursted(limit + 1);
    assert Load(t, 0) == limit + 1 && Load(t, 1) == 0;
  }
}
