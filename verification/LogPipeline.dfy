/** The protocol of `asyncLogging`: front ends fill buffers, one back end writes them, and the
    buffers go back and forth. Every lock section is one atomic step, and so is
    every piece of the back end's unlocked work, so that a run is any
    interleaving of the two sides.

    A buffer is owned by exactly one `unique_ptr`; it is a value here, with an
    identity so that ownership can be spoken of. Its bytes are the records
    copied into it. */
module LogPipeline {
  import opened Options

  const LARGE: nat := 4000 * 1000
  const OVERLOAD: nat := 25

  datatype Buf = Buf(id: nat, recs: seq<string>)

  /** Bytes taken by records. */
  function Size(recs: seq<string>): nat {
    if recs == [] then 0 else Size(recs[..|recs| - 1]) + |recs[|recs| - 1]|
  }

  /** `adlBuffer::avail`, one byte being kept for the terminator. */
  function Avail(b: Buf): int {
    LARGE - 1 - Size(b.recs)
  }

  function Recs(bs: seq<Buf>): seq<string> {
    if bs == [] then [] else Recs(bs[..|bs| - 1]) + bs[|bs| - 1].recs
  }

  /** Where the back end stands in its loop. */
  datatype Phase = Idle | Loaded | Writing(written: nat)

  datatype State = State(
    // shared, under the mutex
    cur: Option<Buf>, prv: Option<Buf>, trans: seq<Buf>,
    // the back end's own; `file` is what it has handed over to be written
    new1: Option<Buf>, new2: Option<Buf>, write: seq<Buf>, phase: Phase, file: seq<string>,
    // identities given out by `new Buffer`
    next: nat)

  // ---------------------------------------------------------------- ownership

  function Owns(o: Option<Buf>, x: nat): nat {
    if o.Some? && o.value.id == x then 1 else 0
  }

  function OwnsIn(bs: seq<Buf>, x: nat): nat {
    if bs == [] then 0 else OwnsIn(bs[..|bs| - 1], x) + Owns(Some(bs[|bs| - 1]), x)
  }

  /** How many places hold the buffer `x`. */
  function Holders(s: State, x: nat): nat {
    Owns(s.cur, x) + Owns(s.prv, x) + OwnsIn(s.trans, x) + Owns(s.new1, x) + Owns(s.new2, x) + OwnsIn(s.write, x)
  }

  /** No buffer has two owners, and new identities are new. */
  ghost predicate SoleOwners(s: State) {
    forall x: nat :: Holders(s, x) <= (if x < s.next then 1 else 0)
  }

  predicate Empty(o: Option<Buf>) {
    o.Some? && o.value.recs == []
  }

  predicate Fits(bs: seq<Buf>) {
    forall i :: 0 <= i < |bs| ==> Size(bs[i].recs) <= LARGE - 2
  }

  /** The shape of the pool. `prv` is gone exactly when buffers are waiting for the
      back end, which is what makes the two refills of a round come out even. */
  predicate Shape(s: State) {
    && s.cur.Some?
    && (s.prv.Some? ==> Empty(s.prv))
    && (s.prv.None? <==> s.trans != [])
    && Fits([s.cur.value]) && Fits(s.trans) && Fits(s.write)
    && (s.phase.Idle? ==> s.write == [] && Empty(s.new1) && Empty(s.new2))
    && (!s.phase.Idle? ==>
          && s.new1.None? && s.write != []
          && (s.new2.Some? ==> Empty(s.new2))
          && (s.new2.None? <==> |s.write| >= 2))
    && (s.phase.Writing? ==> s.phase.written <= |s.write|)
  }

  /** The pool invariant. */
  ghost predicate Inv(s: State) {
    Shape(s) && SoleOwners(s)
  }

  /** The state `start()` leaves. */
  function Start(): State {
    State(Some(Buf(0, [])), Some(Buf(1, [])), [], Some(Buf(2, [])), Some(Buf(3, [])), [], Idle, [], 4)
  }

  // ---------------------------------------------------------------- steps

  predicate HasRoom(b: Buf, rec: string) {
    Avail(b) >= |rec| + 1
  }

  function Put(b: Buf, rec: string): Buf {
    b.(recs := b.recs + [rec])
  }

  /** `append` behind its guards (a record of LARGE bytes or more aborts). */
  function Append(s: State, rec: string): State
    requires s.cur.Some?
  {
    if HasRoom(s.cur.value, rec) then s.(cur := Some(Put(s.cur.value, rec)))
    else
      var spare := if s.prv.Some? then s.prv.value else Buf(s.next, []);
      s.(trans := s.trans + [s.cur.value],
         prv := None,
         cur := Some(if HasRoom(spare, rec) then Put(spare, rec) else spare),
         next := if s.prv.Some? then s.next else s.next + 1)
  }

  /** The back end's lock section: whatever woke it, take everything. */
  function Collect(s: State): State
    requires s.cur.Some? && s.phase.Idle?
  {
    s.(write := s.trans + [s.cur.value], trans := s.write,
       cur := s.new1, new1 := None,
       prv := if s.prv.None? then s.new2 else s.prv,
       new2 := if s.prv.None? then None else s.new2,
       phase := Loaded)
  }

  /** The overload rule. */
  function Trim(s: State): State
    requires s.phase.Loaded?
  {
    s.(write := if |s.write| >= OVERLOAD then s.write[..2] else s.write, phase := Writing(0))
  }

  function WriteOne(s: State): State
    requires s.phase.Writing? && s.phase.written < |s.write|
  {
    s.(file := s.file + s.write[s.phase.written].recs, phase := Writing(s.phase.written + 1))
  }

  /** `resize(2)`, and each missing spare from the back of the write list. */
  function Refill(s: State): State
    requires s.write != []
    requires s.new1.None? && s.new2.None? ==> |s.write| >= 2
  {
    var kept := if |s.write| > 2 then s.write[..2] else s.write;
    var n := |kept|;
    var (new1, rest) := if s.new1.None? then (Some(kept[n - 1].(recs := [])), kept[..n - 1]) else (s.new1, kept);
    var m := |rest|;
    var (new2, rest2) := if s.new2.None? then (Some(rest[m - 1].(recs := [])), rest[..m - 1]) else (s.new2, rest);
    s.(new1 := new1, new2 := new2, write := rest2, phase := Idle)
  }

  // ---------------------------------------------------------------- the pool invariant is kept

  lemma {:induction false} OwnsCat(a: seq<Buf>, b: seq<Buf>, x: nat)
    ensures OwnsIn(a + b, x) == OwnsIn(a, x) + OwnsIn(b, x)
    decreases |b|
  {
    if b == [] {
      assert a + b == a;
    } else {
      assert (a + b)[..|a + b| - 1] == a + b[..|b| - 1];
      OwnsCat(a, b[..|b| - 1], x);
    }
  }

  lemma OwnsSnoc(a: seq<Buf>, b: Buf, x: nat)
    ensures OwnsIn(a + [b], x) == OwnsIn(a, x) + Owns(Some(b), x)
  {
    assert (a + [b])[..|a|] == a;
  }

  /** A prefix of a list owns no more than the list. */
  lemma OwnsPrefix(a: seq<Buf>, n: nat, x: nat)
    requires n <= |a|
    ensures OwnsIn(a[..n], x) <= OwnsIn(a, x)
  {
    OwnsCat(a[..n], a[n..], x);
    assert a == a[..n] + a[n..];
  }

  lemma {:induction false} RecsCat(a: seq<Buf>, b: seq<Buf>)
    ensures Recs(a + b) == Recs(a) + Recs(b)
    decreases |b|
  {
    if b == [] {
      assert a + b == a;
    } else {
      assert (a + b)[..|a + b| - 1] == a + b[..|b| - 1];
      RecsCat(a, b[..|b| - 1]);
    }
  }

  lemma StartInv()
    ensures Inv(Start())
  {
    assert Size([]) == 0;
  }

  lemma SizePut(b: Buf, rec: string)
    ensures Size(Put(b, rec).recs) == Size(b.recs) + |rec|
  {
    assert (b.recs + [rec])[..|b.recs|] == b.recs;
  }

  lemma AppendShape(s: State, rec: string)
    requires Shape(s)
    ensures Shape(Append(s, rec))
  {
    SizePut(s.cur.value, rec);
    if !HasRoom(s.cur.value, rec) {
      var spare := if s.prv.Some? then s.prv.value else Buf(s.next, []);
      SizePut(spare, rec);
    }
  }

  /** A buffer changes hands, or a new one appears. */
  lemma AppendHolders(s: State, rec: string, x: nat)
    requires s.cur.Some?
    ensures Holders(Append(s, rec), x) == Holders(s, x) + if Append(s, rec).next > s.next && x == s.next then 1 else 0
  {
    hide HasRoom, OwnsIn, Put;
    OwnsSnoc(s.trans, s.cur.value, x);
    PutKeeps(s.cur.value, rec);
    PutKeeps(if s.prv.Some? then s.prv.value else Buf(s.next, []), rec);
  }

  lemma PutKeeps(b: Buf, rec: string)
    ensures Put(b, rec).id == b.id
  {
  }

  lemma AppendInv(s: State, rec: string)
    requires Inv(s)
    ensures Inv(Append(s, rec))
  {
    var t := Append(s, rec);
    AppendShape(s, rec);
    assert t.next == s.next || t.next == s.next + 1;
    hide Append, Holders, Shape;
    forall x: nat ensures Holders(t, x) <= (if x < t.next then 1 else 0) {
      assert Holders(s, x) <= (if x < s.next then 1 else 0);
      AppendHolders(s, rec, x);
    }
  }

  lemma CollectInv(s: State)
    requires Inv(s) && s.phase.Idle?
    ensures Inv(Collect(s))
  {
    var t := Collect(s);
    forall x: nat ensures Holders(t, x) <= (if x < t.next then 1 else 0) {
      assert Holders(s, x) <= (if x < s.next then 1 else 0);
      OwnsSnoc(s.trans, s.cur.value, x);
    }
  }

  lemma TrimInv(s: State)
    requires Inv(s) && s.phase.Loaded?
    ensures Inv(Trim(s))
  {
    var t := Trim(s);
    forall x: nat ensures Holders(t, x) <= (if x < t.next then 1 else 0) {
      assert Holders(s, x) <= (if x < s.next then 1 else 0);
      OwnsPrefix(s.write, |t.write|, x);
      assert t.write == s.write[..|t.write|];
    }
  }

  lemma WriteOneInv(s: State)
    requires Inv(s) && s.phase.Writing? && s.phase.written < |s.write|
    ensures Inv(WriteOne(s))
  {
    var t := WriteOne(s);
    forall x: nat ensures Holders(t, x) <= (if x < t.next then 1 else 0) {
      assert Holders(s, x) <= (if x < s.next then 1 else 0);
    }
  }

  lemma OwnsPair(bs: seq<Buf>, x: nat)
    requires |bs| == 1 || |bs| == 2
    ensures OwnsIn(bs, x) == Owns(Some(bs[0]), x) + if |bs| == 2 then Owns(Some(bs[1]), x) else 0
  {
    if |bs| == 1 {
      OwnsSnoc([], bs[0], x);
      assert [] + [bs[0]] == bs;
    } else {
      OwnsSnoc([bs[0]], bs[1], x);
      OwnsSnoc([], bs[0], x);
      assert [] + [bs[0]] == [bs[0]] && [bs[0]] + [bs[1]] == bs;
    }
  }

  /** What a refill leaves: the write list empty, both spares there and empty,
      one of the first two buffers in each place that was short of one. */
  lemma RefillShape(s: State)
    requires Shape(s) && s.phase.Writing?
    ensures var t := Refill(s);
            && t == s.(new1 := t.new1, new2 := t.new2, write := [], phase := Idle)
            && t.new1 == Some(s.write[if |s.write| >= 2 then 1 else 0].(recs := []))
            && t.new2 == if |s.write| >= 2 then Some(s.write[0].(recs := [])) else s.new2
  {
  }

  /** A round ends with an empty write list and both spares refilled, so the
      next swap hands the front end an empty list. */
  lemma RefillInv(s: State)
    requires Inv(s) && s.phase.Writing?
    ensures Inv(Refill(s))
  {
    hide Refill;
    var t := Refill(s);
    RefillShape(s);
    var n := if |s.write| >= 2 then 2 else 1;
    forall x: nat ensures Holders(t, x) <= (if x < t.next then 1 else 0) {
      assert Holders(s, x) <= (if x < s.next then 1 else 0);
      OwnsPrefix(s.write, n, x);
      OwnsPair(s.write[..n], x);
    }
  }

  // ---------------------------------------------------------------- the record pipeline

  /** The buffers of the batch not yet written. */
  function Unwritten(s: State): seq<Buf>
    requires s.phase.Writing? ==> s.phase.written <= |s.write|
  {
    if s.phase.Writing? then s.write[s.phase.written..] else s.write
  }

  /** The records the front end still holds. */
  function Front(s: State): seq<string>
    requires s.cur.Some?
  {
    Recs(s.trans) + s.cur.value.recs
  }

  /** Every record on its way, in order: written, being written, waiting, filling. */
  function Pipeline(s: State): seq<string>
    requires s.cur.Some? && (s.phase.Writing? ==> s.phase.written <= |s.write|)
  {
    s.file + Recs(Unwritten(s)) + Front(s)
  }

  lemma RecsSnoc(a: seq<Buf>, b: Buf)
    ensures Recs(a + [b]) == Recs(a) + b.recs
  {
    assert (a + [b])[..|a|] == a;
  }

  lemma RecsCons(b: Buf, rest: seq<Buf>)
    ensures Recs([b] + rest) == b.recs + Recs(rest)
  {
    RecsCat([b], rest);
    RecsSnoc([], b);
    assert [] + [b] == [b];
  }

  lemma AppendFront(s: State, rec: string)
    requires Inv(s) && |rec| < LARGE
    ensures Append(s, rec).cur.Some?
    ensures Front(Append(s, rec)) == Front(s) + if |rec| <= LARGE - 2 then [rec] else []
  {
    var t := Append(s, rec);
    assert Size([]) == 0;
    if HasRoom(s.cur.value, rec) {
      assert Size(s.cur.value.recs) >= 0;
    } else {
      RecsSnoc(s.trans, s.cur.value);
      assert t.cur.value.recs == if |rec| <= LARGE - 2 then [rec] else [];
    }
  }

  lemma Regroup<T>(a: seq<T>, b: seq<T>, c: seq<T>)
    ensures a + (b + c) == (a + b) + c
  {
  }

  /** A record that passes the guard is kept, behind all others, exactly when
      it leaves two bytes of a buffer free; one of LARGE - 1 bytes is lost. */
  lemma AppendPipeline(s: State, rec: string)
    requires Inv(s) && |rec| < LARGE
    ensures Append(s, rec).cur.Some?
    ensures Pipeline(Append(s, rec)) == Pipeline(s) + if |rec| <= LARGE - 2 then [rec] else []
  {
    AppendFront(s, rec);
    assert Unwritten(Append(s, rec)) == Unwritten(s);
    hide Recs, Front, Unwritten;
    Regroup(s.file + Recs(Unwritten(s)), Front(s), if |rec| <= LARGE - 2 then [rec] else []);
  }

  lemma CollectPipeline(s: State)
    requires Inv(s) && s.phase.Idle?
    ensures Collect(s).cur.Some? && Pipeline(Collect(s)) == Pipeline(s)
  {
    RecsSnoc(s.trans, s.cur.value);
  }

  /** The batch as the overload rule sees it. */
  function KeptBuffers(s: State): nat {
    if |s.write| >= OVERLOAD then 2 else |s.write|
  }

  function Lost(s: State): seq<string> {
    Recs(s.write[KeptBuffers(s)..])
  }

  /** What a round of `OVERLOAD` buffers or more throws away: the records of its
      third buffer onward, whole ones, and nothing else. */
  lemma TrimPipeline(s: State)
    requires Inv(s) && s.phase.Loaded?
    ensures Trim(s).cur.Some?
    ensures var before := s.file + Recs(s.write[..KeptBuffers(s)]);
            Pipeline(s) == before + Lost(s) + Front(s) && Pipeline(Trim(s)) == before + Front(s)
  {
    var n := KeptBuffers(s);
    var t := Trim(s);
    assert t.write[0..] == t.write == s.write[..n];
    assert s.write == s.write[..n] + s.write[n..];
    RecsCat(s.write[..n], s.write[n..]);
    Regroup(s.file, Recs(s.write[..n]), Lost(s));
  }

  /** The rule in figures: a round of 25 buffers or more keeps the records of its
      first two, any other keeps them all. */
  lemma OverloadIs(s: State)
    requires Inv(s) && s.phase.Loaded?
    ensures Trim(s).cur.Some?
    ensures Pipeline(Trim(s)) == if |s.write| >= 25 then s.file + Recs(s.write[..2]) + Front(s) else Pipeline(s)
  {
    TrimPipeline(s);
    hide Inv, Pipeline, Front, Trim;
    assert |s.write| < 25 ==> s.write[KeptBuffers(s)..] == [];
  }

  /** A buffer is allocated exactly when the current one has no room and others
      already wait for the back end. */
  lemma AllocatesIff(s: State, rec: string)
    requires Inv(s)
    ensures Append(s, rec).next == s.next + (if Size(s.cur.value.recs) + |rec| > LARGE - 2 && s.trans != [] then 1 else 0)
  {
  }

  lemma WriteOnePipeline(s: State)
    requires Inv(s) && s.phase.Writing? && s.phase.written < |s.write|
    ensures Pipeline(WriteOne(s)) == Pipeline(s)
  {
    hide Recs;
    var k := s.phase.written;
    var b, rest := s.write[k], s.write[k + 1..];
    assert Unwritten(s) == [b] + rest;
    RecsCons(b, rest);
    Regroup(s.file, b.recs, Recs(rest));
  }

  lemma RefillPipeline(s: State)
    requires Inv(s) && s.phase.Writing? && s.phase.written == |s.write|
    ensures Pipeline(Refill(s)) == Pipeline(s)
  {
    RefillShape(s);
    hide Refill;
    assert s.write[|s.write|..] == [];
  }

  // ---------------------------------------------------------------- every run

  datatype Event = DoAppend(rec: string) | DoCollect | DoTrim | DoWrite | DoRefill

  /** What may happen next. A record of LARGE bytes or more aborts the program,
      so no run goes on after it. */
  predicate Enabled(s: State, e: Event) {
    match e
    case DoAppend(rec) => |rec| < LARGE
    case DoCollect => s.phase.Idle?
    case DoTrim => s.phase.Loaded?
    case DoWrite => s.phase.Writing? && s.phase.written < |s.write|
    case DoRefill => s.phase.Writing? && s.phase.written == |s.write|
  }

  /** What happened to the records: every one accepted by the guard, in order;
      the indices of those on their way or written; and the indices of those
      dropped by overloaded rounds. */
  datatype Ledger = Ledger(history: seq<string>, live: seq<nat>, overloaded: set<nat>)

  predicate Ascending(live: seq<nat>) {
    forall i, j :: 0 <= i < j < |live| ==> live[i] < live[j]
  }

  predicate Within(live: seq<nat>, n: nat) {
    forall k :: 0 <= k < |live| ==> live[k] < n
  }

  /** An index is left out exactly when an overloaded round dropped it or its
      record had the one length that no buffer takes. */
  predicate Counted(l: Ledger, i: nat)
    requires i < |l.history|
  {
    i in l.live <==> i !in l.overloaded && |l.history[i]| != LARGE - 1
  }

  ghost predicate Accounts(l: Ledger) {
    && Ascending(l.live) && Within(l.live, |l.history|)
    && (forall i :: i in l.overloaded ==> i < |l.history|)
    && (forall i :: 0 <= i < |l.history| ==> Counted(l, i))
  }

  function Select(history: seq<string>, live: seq<nat>): seq<string>
    requires Within(live, |history|)
  {
    seq(|live|, i requires 0 <= i < |live| => history[live[i]])
  }

  function Enter(l: Ledger, rec: string): Ledger {
    Ledger(l.history + [rec], if |rec| == LARGE - 1 then l.live else l.live + [|l.history|], l.overloaded)
  }

  function Drop(l: Ledger, a: nat, n: nat): Ledger
    requires a + n <= |l.live|
  {
    var gone := l.live[a..a + n];
    Ledger(l.history, l.live[..a] + l.live[a + n..], l.overloaded + set i | i in gone)
  }

  lemma LiveSnoc(live: seq<nat>, n: nat)
    requires Ascending(live) && Within(live, n)
    ensures Ascending(live + [n]) && Within(live + [n], n + 1) && Within(live, n + 1)
    ensures n !in live
  {
  }

  lemma EnterCounted(l: Ledger, rec: string, i: nat)
    requires i < |l.history| && Counted(l, i)
    ensures Counted(Enter(l, rec), i)
  {
  }

  lemma EnterLast(l: Ledger, rec: string)
    requires Accounts(l)
    ensures Counted(Enter(l, rec), |l.history|)
  {
    LiveSnoc(l.live, |l.history|);
    hide Ascending, Within;
  }

  lemma EnterAccounts(l: Ledger, rec: string)
    requires Accounts(l)
    ensures Accounts(Enter(l, rec))
  {
    hide Ascending, Within, Counted;
    var t := Enter(l, rec);
    LiveSnoc(l.live, |l.history|);
    EnterLast(l, rec);
    forall i | 0 <= i < |t.history| ensures Counted(t, i) {
      if i < |l.history| {
        EnterCounted(l, rec, i);
      }
    }
  }

  lemma SelectMore(history: seq<string>, live: seq<nat>, rec: string)
    requires Within(live, |history|)
    ensures Within(live, |history + [rec]|) && Within(live + [|history|], |history + [rec]|)
    ensures Select(history + [rec], live) == Select(history, live)
    ensures Select(history + [rec], live + [|history|]) == Select(history, live) + [rec]
  {
  }

  lemma EnterSelects(l: Ledger, rec: string)
    requires Accounts(l) && Accounts(Enter(l, rec))
    ensures Select(Enter(l, rec).history, Enter(l, rec).live) ==
            Select(l.history, l.live) + if |rec| == LARGE - 1 then [] else [rec]
  {
    hide Select, Ascending, Counted;
    SelectMore(l.history, l.live, rec);
  }

  /** Where an index may stand when a range is marked. */
  lemma InParts(live: seq<nat>, a: nat, n: nat, i: nat)
    requires a + n <= |live|
    ensures i in live <==> i in live[..a] || i in live[a..a + n] || i in live[a + n..]
  {
    if i in live {
      var k :| 0 <= k < |live| && live[k] == i;
      assert k < a ==> live[..a][k] == i;
      assert a <= k < a + n ==> live[a..a + n][k - a] == i;
      assert a + n <= k ==> live[a + n..][k - a - n] == i;
    }
  }

  lemma DropApart(live: seq<nat>, a: nat, n: nat, i: nat)
    requires Ascending(live) && a + n <= |live| && i in live[a..a + n]
    ensures i !in live[..a] && i !in live[a + n..]
  {
  }

  lemma DropLive(live: seq<nat>, a: nat, n: nat, m: nat)
    requires Ascending(live) && Within(live, m) && a + n <= |live|
    ensures Ascending(live[..a] + live[a + n..]) && Within(live[..a] + live[a + n..], m)
  {
    var rest := live[..a] + live[a + n..];
    assert forall k :: 0 <= k < |rest| ==> rest[k] == live[if k < a then k else k + n];
  }

  lemma DropCounted(l: Ledger, a: nat, n: nat, i: nat)
    requires a + n <= |l.live| && Ascending(l.live) && i < |l.history| && Counted(l, i)
    ensures Counted(Drop(l, a, n), i)
  {
    hide Ascending;
    InParts(l.live, a, n, i);
    if i in l.live[a..a + n] {
      DropApart(l.live, a, n, i);
    }
  }

  lemma DropBounded(l: Ledger, a: nat, n: nat)
    requires a + n <= |l.live| && Within(l.live, |l.history|) && forall i :: i in l.overloaded ==> i < |l.history|
    ensures forall i :: i in Drop(l, a, n).overloaded ==> i < |l.history|
  {
  }

  lemma DropAccounts(l: Ledger, a: nat, n: nat)
    requires Accounts(l) && a + n <= |l.live|
    ensures Accounts(Drop(l, a, n))
  {
    hide Ascending, Within, Counted;
    var t := Drop(l, a, n);
    DropLive(l.live, a, n, |l.history|);
    DropBounded(l, a, n);
    forall i | 0 <= i < |t.history| ensures Counted(t, i) {
      DropCounted(l, a, n, i);
    }
  }

  lemma SelectRest(history: seq<string>, live: seq<nat>, a: nat, n: nat)
    requires Within(live, |history|) && a + n <= |live|
    ensures var rest := live[..a] + live[a + n..];
            Within(rest, |history|) && Select(history, rest) == Select(history, live)[..a] + Select(history, live)[a + n..]
  {
  }

  /** Cutting a range out of the indices cuts it out of what they select. */
  lemma DropSelects(l: Ledger, x: seq<string>, lost: seq<string>, y: seq<string>)
    requires Accounts(l) && x + lost + y == Select(l.history, l.live)
    ensures |x| + |lost| <= |l.live| && Accounts(Drop(l, |x|, |lost|))
    ensures x + y == Select(l.history, Drop(l, |x|, |lost|).live)
  {
    var a, n := |x|, |lost|;
    var p := x + lost + y;
    assert x == p[..a] && y == p[a + n..];
    assert |p| == |l.live|;
    DropAccounts(l, a, n);
    hide Select, Ascending, Counted, Within;
    SelectRest(l.history, l.live, a, n);
  }

  datatype Run = Run(s: State, ledger: Ledger)

  /** Nothing lost, doubled or reordered: the pipeline is the history at the
      live indices, which ascend and leave out only what `Accounts` says. */
  ghost predicate Faithful(r: Run) {
    Inv(r.s) && Accounts(r.ledger) && Pipeline(r.s) == Select(r.ledger.history, r.ledger.live)
  }

  /** How many records of the pipeline stand before those a trim drops. */
  function Standing(s: State): nat {
    |s.file + Recs(s.write[..KeptBuffers(s)])|
  }

  function Next(r: Run, e: Event): (t: Run)
    requires Faithful(r) && Enabled(r.s, e)
  {
    match e
    case DoAppend(rec) => Run(Append(r.s, rec), Enter(r.ledger, rec))
    case DoCollect => r.(s := Collect(r.s))
    case DoTrim =>
      TrimPipeline(r.s);
      Run(Trim(r.s), Drop(r.ledger, Standing(r.s), |Lost(r.s)|))
    case DoWrite => r.(s := WriteOne(r.s))
    case DoRefill => r.(s := Refill(r.s))
  }

  lemma NextAppend(r: Run, rec: string)
    requires Faithful(r) && |rec| < LARGE
    ensures Faithful(Next(r, DoAppend(rec)))
  {
    hide Append, Inv, Ascending, Counted, Within, Enter, Pipeline, Select;
    AppendInv(r.s, rec);
    AppendPipeline(r.s, rec);
    EnterAccounts(r.ledger, rec);
    EnterSelects(r.ledger, rec);
  }

  lemma NextTrim(r: Run)
    requires Faithful(r) && r.s.phase.Loaded?
    ensures Faithful(Next(r, DoTrim))
  {
    hide Trim, SoleOwners, Ascending, Counted, Within, Lost, Recs, Pipeline, Front, Select, Fits;
    TrimInv(r.s);
    TrimPipeline(r.s);
    DropSelects(r.ledger, r.s.file + Recs(r.s.write[..KeptBuffers(r.s)]), Lost(r.s), Front(r.s));
  }

  /** Each step of a run keeps all of it. */
  lemma NextFaithful(r: Run, e: Event)
    requires Faithful(r) && Enabled(r.s, e)
    ensures Faithful(Next(r, e))
  {
    match e {
      case DoAppend(rec) => NextAppend(r, rec);
      case DoCollect => CollectInv(r.s); CollectPipeline(r.s);
      case DoTrim => NextTrim(r);
      case DoWrite => WriteOneInv(r.s); WriteOnePipeline(r.s);
      case DoRefill => RefillInv(r.s); RefillPipeline(r.s);
    }
  }

  /** The run of a list of events, if each of them could happen in its turn. */
  function Execute(events: seq<Event>): (r: Option<Run>)
    ensures r.Some? ==> Faithful(r.value)
    decreases |events|
  {
    if events == [] then
      StartFaithful();
      Some(Run(Start(), Ledger([], [], {})))
    else
      var before := Execute(events[..|events| - 1]);
      var e := events[|events| - 1];
      if before.Some? && Enabled(before.value.s, e) then
        NextFaithful(before.value, e);
        Some(Next(before.value, e))
      else None
  }

  lemma StartFaithful()
    ensures Faithful(Run(Start(), Ledger([], [], {})))
  {
    StartInv();
  }

  predicate Overloads(s: State, e: Event) {
    e == DoTrim && |s.write| >= 25
  }

  /** The run is never overloaded and no record has the length no buffer takes. */
  predicate Benign(events: seq<Event>)
    decreases |events|
  {
    events == [] ||
    (var before := events[..|events| - 1];
     var e := events[|events| - 1];
     && Benign(before)
     && (e.DoAppend? ==> |e.rec| != LARGE - 1)
     && (Execute(before).Some? ==> !Overloads(Execute(before).value.s, e)))
  }

  function Appended(events: seq<Event>): seq<string> {
    if events == [] then []
    else
      var e := events[|events| - 1];
      Appended(events[..|events| - 1]) + if e.DoAppend? then [e.rec] else []
  }

  /** The history of a run is what was appended. */
  lemma {:induction false} HistoryIsAppended(events: seq<Event>)
    requires Execute(events).Some?
    ensures Execute(events).value.ledger.history == Appended(events)
    decreases |events|
  {
    hide Faithful, Append, Collect, Trim, WriteOne, Refill, Enabled;
    if events != [] {
      HistoryIsAppended(events[..|events| - 1]);
    }
  }

  lemma BenignStep(r: Run, e: Event)
    requires Faithful(r) && Enabled(r.s, e)
    requires e.DoAppend? ==> |e.rec| != LARGE - 1
    requires !Overloads(r.s, e)
    ensures Faithful(Next(r, e))
    ensures Pipeline(Next(r, e).s) == Pipeline(r.s) + if e.DoAppend? then [e.rec] else []
  {
    hide Append, Collect, Trim, WriteOne, Refill, SoleOwners, Fits, Accounts, Pipeline, Select;
    NextFaithful(r, e);
    match e {
      case DoAppend(rec) => AppendPipeline(r.s, rec);
      case DoCollect => CollectPipeline(r.s);
      case DoTrim => QuietTrim(r.s);
      case DoWrite => WriteOnePipeline(r.s);
      case DoRefill => RefillPipeline(r.s);
    }
  }

  lemma QuietTrim(s: State)
    requires Inv(s) && s.phase.Loaded? && |s.write| < OVERLOAD
    ensures Trim(s).cur.Some? && Pipeline(Trim(s)) == Pipeline(s)
  {
    hide Trim, Inv, Pipeline, Front;
    TrimPipeline(s);
    assert s.write[KeptBuffers(s)..] == [];
  }

  /** In a benign run, whatever the interleaving, written ++ being written ++
      waiting ++ filling is exactly what was appended. */
  lemma {:induction false} BenignRun(events: seq<Event>)
    requires Execute(events).Some? && Benign(events)
    ensures Pipeline(Execute(events).value.s) == Appended(events)
    decreases |events|
  {
    hide Faithful, Pipeline, Next, Enabled, Overloads;
    if events == [] {
      StartPipeline();
    } else {
      var before := events[..|events| - 1];
      BenignRun(before);
      BenignStep(Execute(before).value, events[|events| - 1]);
    }
  }

  lemma StartPipeline()
    ensures Pipeline(Start()) == []
  {
  }

  /** The `for` loop over the batch. */
  function WriteAll(s: State): (t: State)
    requires s.phase.Writing? && s.phase.written <= |s.write|
    ensures t == s.(file := t.file, phase := Writing(|s.write|))
    decreases |s.write| - s.phase.written
  {
    if s.phase.written == |s.write| then s else WriteAll(WriteOne(s))
  }

  lemma {:induction false} WriteAllFile(s: State)
    requires s.phase.Writing? && s.phase.written <= |s.write|
    ensures WriteAll(s).file == s.file + Recs(s.write[s.phase.written..])
    decreases |s.write| - s.phase.written
  {
    var k := s.phase.written;
    if k == |s.write| {
      assert s.write[k..] == [];
    } else {
      WriteAllFile(WriteOne(s));
      assert s.write[k..] == [s.write[k]] + s.write[k + 1..];
      RecsCons(s.write[k], s.write[k + 1..]);
      hide Recs, WriteAll;
      Regroup(s.file, s.write[k].recs, Recs(s.write[k + 1..]));
    }
  }

  /** A round writes everything that was appended before its lock section, behind
      what was written already; with 25 buffers or more, the first two of them. */
  lemma RoundWrites(s: State)
    requires Inv(s) && s.phase.Idle?
    ensures var batch := s.trans + [s.cur.value];
            var t := WriteAll(Trim(Collect(s)));
            && t.phase == Writing(|t.write|) && t.write != [] && t.new1.None?
            && t.file == s.file + Recs(if |batch| >= 25 then batch[..2] else batch)
            && (|batch| < 25 ==> t.file == Pipeline(s))
  {
    var c := Collect(s);
    var m := Trim(c);
    WriteAllFile(m);
    assert m.write[0..] == m.write;
    RecsSnoc(s.trans, s.cur.value);
    hide Recs, WriteAll, Inv;
    Regroup(s.file, Recs(s.trans), s.cur.value.recs);
    assert Unwritten(s) == [] && s.file + [] == s.file;
    NoRecs();
  }

  lemma NoRecs()
    ensures Recs([]) == []
  {
  }
}
