/** `BoundedBlockingQueue`: a monitor with two condition variables that only
    ever calls `notify_one`, over any number of threads, with spurious wakeups.
    A thread that waits is asleep on one of the two conditions; once notified
    (or woken for no reason) it runs again only when it gets the lock back, and
    other threads may get there first. */
module BoundedQueue {
  import opened Options

  type Tid = nat

  datatype State<T> = State(
    cap: nat, items: seq<T>,
    arg: map<Tid, T>,                              // what a thread in `put` last asked to put
    putAsleep: set<Tid>, putWoken: set<Tid>,       // on notFull; woken, lock not yet back
    takeAsleep: set<Tid>, takeWoken: set<Tid>,     // on notEmpty; woken, lock not yet back
    put: seq<T>, taken: seq<T>)                    // everything pushed and popped so far

  function Start<T>(cap: nat): State<T> {
    State(cap, [], map[], {}, {}, {}, {}, [], [])
  }

  predicate Inside<T>(s: State<T>, t: Tid) {
    t in s.putAsleep || t in s.putWoken || t in s.takeAsleep || t in s.takeWoken
  }

  /** `notify_one` on a condition with these sleepers may wake `w`. */
  predicate MayWake(asleep: set<Tid>, w: Option<Tid>) {
    if asleep == {} then w == None else w.Some? && w.value in asleep
  }

  function Woken(w: Option<Tid>): set<Tid> {
    if w.None? then {} else {w.value}
  }

  /** One turn of `put` with the lock held: sleep when full, else push and
      notify one taker. `put` re-runs it every time it gets the lock back. */
  function PutTurn<T>(s: State<T>, t: Tid, v: T, w: Option<Tid>): State<T> {
    if |s.items| == s.cap then
      s.(putAsleep := s.putAsleep + {t}, putWoken := s.putWoken - {t}, arg := s.arg[t := v])
    else
      s.(items := s.items + [v], put := s.put + [v],
         putWoken := s.putWoken - {t},
         takeAsleep := s.takeAsleep - Woken(w), takeWoken := s.takeWoken + Woken(w))
  }

  function TakeTurn<T>(s: State<T>, t: Tid, w: Option<Tid>): State<T> {
    if s.items == [] then
      s.(takeAsleep := s.takeAsleep + {t}, takeWoken := s.takeWoken - {t})
    else
      s.(items := s.items[1..], taken := s.taken + [s.items[0]],
         takeWoken := s.takeWoken - {t},
         putAsleep := s.putAsleep - Woken(w), putWoken := s.putWoken + Woken(w))
  }

  datatype Event<T> =
    | CallPut(t: Tid, v: T, w: Option<Tid>) | ResumePut(t: Tid, w: Option<Tid>) | WakePut(t: Tid)
    | CallTake(t: Tid, w: Option<Tid>) | ResumeTake(t: Tid, w: Option<Tid>) | WakeTake(t: Tid)

  predicate Enabled<T>(s: State<T>, e: Event<T>) {
    match e
    case CallPut(t, v, w) => !Inside(s, t) && (|s.items| != s.cap ==> MayWake(s.takeAsleep, w))
    case ResumePut(t, w) => t in s.putWoken && t in s.arg && (|s.items| != s.cap ==> MayWake(s.takeAsleep, w))
    case WakePut(t) => t in s.putAsleep
    case CallTake(t, w) => !Inside(s, t) && (s.items != [] ==> MayWake(s.putAsleep, w))
    case ResumeTake(t, w) => t in s.takeWoken && (s.items != [] ==> MayWake(s.putAsleep, w))
    case WakeTake(t) => t in s.takeAsleep
  }

  function Next<T>(s: State<T>, e: Event<T>): State<T>
    requires Enabled(s, e)
  {
    match e
    case CallPut(t, v, w) => PutTurn(s, t, v, w)
    case ResumePut(t, w) => PutTurn(s, t, s.arg[t], w)
    case WakePut(t) => s.(putAsleep := s.putAsleep - {t}, putWoken := s.putWoken + {t})
    case CallTake(t, w) => TakeTurn(s, t, w)
    case ResumeTake(t, w) => TakeTurn(s, t, w)
    case WakeTake(t) => s.(takeAsleep := s.takeAsleep - {t}, takeWoken := s.takeWoken + {t})
  }

  /** No wakeup is lost: while a taker sleeps there are at most as many items as
      takers on their way, while a putter sleeps at most as many free places as
      putters on their way. And the queue is first in, first out. */
  ghost predicate Inv<T>(s: State<T>) {
    && |s.items| <= s.cap
    && (s.takeAsleep != {} ==> |s.items| <= |s.takeWoken|)
    && (s.putAsleep != {} ==> s.cap - |s.items| <= |s.putWoken|)
    && s.taken + s.items == s.put
    && s.putAsleep !! s.putWoken && s.takeAsleep !! s.takeWoken
    && s.putAsleep + s.putWoken <= s.arg.Keys
  }

  lemma CardMinus(a: set<Tid>, t: Tid)
    ensures |a - {t}| == |a| - if t in a then 1 else 0
  {
    if t !in a {
      assert a - {t} == a;
    }
  }

  lemma CardPlus(a: set<Tid>, t: Tid)
    requires t !in a
    ensures |a + {t}| == |a| + 1
  {
  }

  /** Notifying one of the sleepers: unless nobody is left asleep, one more is on
      the way. */
  lemma Notified(asleep: set<Tid>, woken: set<Tid>, w: Option<Tid>)
    requires MayWake(asleep, w) && asleep !! woken
    ensures asleep - Woken(w) !! woken + Woken(w)
    ensures asleep - Woken(w) != {} ==> |woken + Woken(w)| == |woken| + 1
    ensures |woken + Woken(w)| >= |woken|
    ensures (asleep - Woken(w)) + (woken + Woken(w)) == asleep + woken
  {
    if w.Some? {
      CardPlus(woken, w.value);
    } else {
      assert woken + Woken(w) == woken;
    }
  }

  lemma PutSleepInv<T>(s: State<T>, t: Tid, v: T, w: Option<Tid>)
    requires Inv(s) && |s.items| == s.cap
    ensures Inv(PutTurn(s, t, v, w))
  {
    CardMinus(s.putWoken, t);
  }

  lemma PutPushInv<T>(s: State<T>, t: Tid, v: T, w: Option<Tid>)
    requires Inv(s) && t !in s.putAsleep && |s.items| != s.cap && MayWake(s.takeAsleep, w)
    ensures Inv(PutTurn(s, t, v, w))
  {
    var n := PutTurn(s, t, v, w);
    CardMinus(s.putWoken, t);
    Notified(s.takeAsleep, s.takeWoken, w);
    assert n.taken + n.items == (s.taken + s.items) + [v];
    assert forall x :: x in n.putAsleep + n.putWoken ==> x in s.putAsleep + s.putWoken;
  }

  lemma PutTurnInv<T>(s: State<T>, t: Tid, v: T, w: Option<Tid>)
    requires Inv(s) && t !in s.putAsleep
    requires |s.items| != s.cap ==> MayWake(s.takeAsleep, w)
    ensures Inv(PutTurn(s, t, v, w))
  {
    hide PutTurn;
    if |s.items| == s.cap {
      PutSleepInv(s, t, v, w);
    } else {
      PutPushInv(s, t, v, w);
    }
  }

  lemma TakeTurnInv<T>(s: State<T>, t: Tid, w: Option<Tid>)
    requires Inv(s) && t !in s.takeAsleep
    requires s.items != [] ==> MayWake(s.putAsleep, w)
    ensures Inv(TakeTurn(s, t, w))
  {
    var n := TakeTurn(s, t, w);
    CardMinus(s.takeWoken, t);
    if s.items != [] {
      Notified(s.putAsleep, s.putWoken, w);
      assert s.items == [s.items[0]] + s.items[1..];
      assert n.taken + n.items == s.taken + ([s.items[0]] + s.items[1..]);
    }
  }

  lemma NextInv<T>(s: State<T>, e: Event<T>)
    requires Inv(s) && Enabled(s, e)
    ensures Inv(Next(s, e))
  {
    match e {
      case CallPut(t, v, w) => PutTurnInv(s, t, v, w);
      case ResumePut(t, w) => PutTurnInv(s, t, s.arg[t], w);
      case WakePut(t) => CardPlus(s.putWoken, t);
      case CallTake(t, w) => TakeTurnInv(s, t, w);
      case ResumeTake(t, w) => TakeTurnInv(s, t, w);
      case WakeTake(t) => CardPlus(s.takeWoken, t);
    }
  }

  /** The state after a list of events, if each could happen in its turn. */
  function Execute<T>(cap: nat, events: seq<Event<T>>): (r: Option<State<T>>)
    ensures r.Some? ==> Inv(r.value) && r.value.cap == cap
    decreases |events|
  {
    if events == [] then Some(Start(cap))
    else
      var before := Execute(cap, events[..|events| - 1]);
      var e := events[|events| - 1];
      if before.Some? && Enabled(before.value, e) then
        NextInv(before.value, e);
        Some(Next(before.value, e))
      else None
  }

  /** Somebody sleeps on either side and nobody is on the way. */
  predicate Stuck<T>(s: State<T>) {
    s.putAsleep != {} && s.takeAsleep != {} && s.putWoken == {} && s.takeWoken == {}
  }

  /** Whoever sleeps with nobody of its kind on the way sleeps for a reason. */
  lemma SleepersHaveReason<T>(cap: nat, events: seq<Event<T>>)
    requires Execute(cap, events).Some?
    ensures var s := Execute(cap, events).value;
            && (s.takeAsleep != {} && s.takeWoken == {} ==> s.items == [])
            && (s.putAsleep != {} && s.putWoken == {} ==> |s.items| == cap)
            && s.taken <= s.put && |s.put| - |s.taken| <= cap
  {
    var s := Execute(cap, events).value;
    assert s.put == s.taken + s.items;
  }

  lemma ExecuteSnoc<T>(cap: nat, events: seq<Event<T>>, e: Event<T>)
    requires Execute(cap, events).Some? && Enabled(Execute(cap, events).value, e)
    ensures Execute(cap, events + [e]) == Some(Next(Execute(cap, events).value, e))
  {
    assert (events + [e])[..|events|] == events;
  }

  /** With no capacity, a putter and a taker are enough to get stuck. */
  lemma NoCapacity<T>(v: T) returns (events: seq<Event<T>>)
    ensures Execute(0, events).Some? && Stuck(Execute(0, events).value)
  {
    var one: Event<T> := CallPut(0, v, None);
    var two: Event<T> := CallTake(1, None);
    ExecuteSnoc(0, [], one);
    var s := Execute(0, [] + [one]).value;
    assert 0 in s.putAsleep;
    ExecuteSnoc(0, [] + [one], two);
    events := [] + [one] + [two];
    assert 1 in Next(s, two).takeAsleep && 0 in Next(s, two).putAsleep;
  }

  /** A queue can get stuck exactly when it has no capacity. */
  lemma StuckIff<T>(cap: nat, v: T)
    ensures (exists events: seq<Event<T>> :: Execute(cap, events).Some? && Stuck(Execute(cap, events).value)) <==> cap == 0
  {
    if cap == 0 {
      var events := NoCapacity(v);
    } else {
      forall events: seq<Event<T>> | Execute(cap, events).Some? ensures !Stuck(Execute(cap, events).value) {
        SleepersHaveReason(cap, events);
      }
    }
  }

  // ---------------------------------------------------------------- what the calls put and take

  /** A putter or a taker has the lock and finds what it needs. */
  predicate GoesIn<T>(cap: nat, size: nat, e: Event<T>) {
    (e.CallPut? || e.ResumePut?) && size < cap
  }

  predicate GoesOut<T>(size: nat, e: Event<T>) {
    (e.CallTake? || e.ResumeTake?) && size > 0
  }

  /** How many items are in the queue, by the calls alone. */
  function Size<T>(cap: nat, events: seq<Event<T>>): (n: nat)
    ensures n <= cap
    decreases |events|
  {
    if events == [] then 0
    else
      var before := Size(cap, events[..|events| - 1]);
      var e := events[|events| - 1];
      if GoesIn(cap, before, e) then before + 1 else if GoesOut(before, e) then before - 1 else before
  }

  /** What thread `t` was given to put in its last call. */
  function LastCall<T>(events: seq<Event<T>>, t: Tid): Option<T> {
    if events == [] then None
    else
      var e := events[|events| - 1];
      if e.CallPut? && e.t == t then Some(e.v) else LastCall(events[..|events| - 1], t)
  }

  /** What the calls put, in the order in which they get it in: at once, or when
      the thread of the call is back and finds room. */
  function Puts<T>(cap: nat, events: seq<Event<T>>): seq<T>
    decreases |events|
  {
    if events == [] then []
    else
      var before := events[..|events| - 1];
      var e := events[|events| - 1];
      Puts(cap, before) +
      if !GoesIn(cap, Size(cap, before), e) || LastCall(events, e.t).None? then [] else [LastCall(events, e.t).value]
  }

  /** How many calls have taken an item. */
  function Takes<T>(cap: nat, events: seq<Event<T>>): nat
    decreases |events|
  {
    if events == [] then 0
    else
      var before := events[..|events| - 1];
      Takes(cap, before) + if GoesOut(Size(cap, before), events[|events| - 1]) then 1 else 0
  }

  /** The last call of `t` is a `put`, or a `take`, that has not been served. */
  function InPut<T>(cap: nat, events: seq<Event<T>>, t: Tid): bool
    decreases |events|
  {
    if events == [] then false
    else
      var before := events[..|events| - 1];
      var e := events[|events| - 1];
      if (e.CallPut? || e.ResumePut?) && e.t == t then !GoesIn(cap, Size(cap, before), e) else InPut(cap, before, t)
  }

  function InTake<T>(cap: nat, events: seq<Event<T>>, t: Tid): bool
    decreases |events|
  {
    if events == [] then false
    else
      var before := events[..|events| - 1];
      var e := events[|events| - 1];
      if (e.CallTake? || e.ResumeTake?) && e.t == t then !GoesOut(Size(cap, before), e) else InTake(cap, before, t)
  }

  /** Exactly the threads whose call has not been served wait, asleep or woken. */
  ghost predicate Waits<T>(cap: nat, events: seq<Event<T>>, s: State<T>) {
    && (forall t :: PutWaits(s, t) <==> InPut(cap, events, t))
    && (forall t :: TakeWaits(s, t) <==> InTake(cap, events, t))
  }

  lemma InSnoc<T>(cap: nat, events: seq<Event<T>>, e: Event<T>, t: Tid)
    ensures InPut(cap, events + [e], t) ==
            if (e.CallPut? || e.ResumePut?) && e.t == t then !GoesIn(cap, Size(cap, events), e) else InPut(cap, events, t)
    ensures InTake(cap, events + [e], t) ==
            if (e.CallTake? || e.ResumeTake?) && e.t == t then !GoesOut(Size(cap, events), e) else InTake(cap, events, t)
  {
    hide GoesIn, GoesOut, Size;
    assert (events + [e])[..|events|] == events;
  }

  predicate PutWaits<T>(s: State<T>, t: Tid) {
    t in s.putAsleep || t in s.putWoken
  }

  predicate TakeWaits<T>(s: State<T>, t: Tid) {
    t in s.takeAsleep || t in s.takeWoken
  }

  lemma PutTurnWaits<T>(s: State<T>, u: Tid, v: T, w: Option<Tid>, t: Tid)
    requires u !in s.putAsleep && (|s.items| != s.cap ==> MayWake(s.takeAsleep, w))
    ensures var n := PutTurn(s, u, v, w);
            && (PutWaits(n, t) <==> if u == t then |s.items| == s.cap else PutWaits(s, t))
            && (TakeWaits(n, t) <==> TakeWaits(s, t))
  {
  }

  lemma TakeTurnWaits<T>(s: State<T>, u: Tid, w: Option<Tid>, t: Tid)
    requires u !in s.takeAsleep && (s.items != [] ==> MayWake(s.putAsleep, w))
    ensures var n := TakeTurn(s, u, w);
            && (TakeWaits(n, t) <==> if u == t then s.items == [] else TakeWaits(s, t))
            && (PutWaits(n, t) <==> PutWaits(s, t))
  {
  }

  /** Who waits after an event. */
  lemma NextWaits<T>(s: State<T>, e: Event<T>, t: Tid)
    requires Inv(s) && Enabled(s, e)
    ensures var n := Next(s, e);
            && (PutWaits(n, t) <==>
                if (e.CallPut? || e.ResumePut?) && e.t == t then !GoesIn(s.cap, |s.items|, e) else PutWaits(s, t))
            && (TakeWaits(n, t) <==>
                if (e.CallTake? || e.ResumeTake?) && e.t == t then !GoesOut(|s.items|, e) else TakeWaits(s, t))
  {
    hide PutTurn, TakeTurn, MayWake;
    match e {
      case CallPut(u, v, w) => PutTurnWaits(s, u, v, w, t);
      case ResumePut(u, w) => PutTurnWaits(s, u, s.arg[u], w, t);
      case CallTake(u, w) => TakeTurnWaits(s, u, w, t);
      case ResumeTake(u, w) => TakeTurnWaits(s, u, w, t);
      case _ =>
    }
  }

  lemma WaitsNext<T>(cap: nat, events: seq<Event<T>>, s: State<T>, e: Event<T>)
    requires Inv(s) && Enabled(s, e) && s.cap == cap && |s.items| == Size(cap, events) && Waits(cap, events, s)
    ensures Waits(cap, events + [e], Next(s, e))
  {
    hide Inv, Enabled, Next, InPut, InTake, Size, GoesIn, GoesOut, PutWaits, TakeWaits;
    var n := Next(s, e);
    forall t
      ensures PutWaits(n, t) <==> InPut(cap, events + [e], t)
      ensures TakeWaits(n, t) <==> InTake(cap, events + [e], t)
    {
      NextWaits(s, e, t);
      InSnoc(cap, events, e, t);
    }
  }

  /** Whoever is inside `put` remembers what its last call was given. */
  ghost predicate Remembers<T>(s: State<T>, events: seq<Event<T>>) {
    forall t :: t in s.putAsleep || t in s.putWoken ==> t in s.arg && LastCall(events, t) == Some(s.arg[t])
  }

  lemma RemembersNext<T>(s: State<T>, events: seq<Event<T>>, e: Event<T>)
    requires Inv(s) && Enabled(s, e) && Remembers(s, events)
    ensures Remembers(Next(s, e), events + [e])
  {
    hide Inv, Enabled, Next, LastCall;
    var n := Next(s, e);
    forall t | t in n.putAsleep || t in n.putWoken ensures t in n.arg && LastCall(events + [e], t) == Some(n.arg[t]) {
      CallSnoc(events, e, t);
      StillAsked(s, e, t);
    }
  }

  lemma CallSnoc<T>(events: seq<Event<T>>, e: Event<T>, t: Tid)
    ensures LastCall(events + [e], t) == if e.CallPut? && e.t == t then Some(e.v) else LastCall(events, t)
  {
    assert (events + [e])[..|events|] == events;
  }

  /** Whoever waits to put after an event was just called, or waited before with
      the same value. */
  lemma StillAsked<T>(s: State<T>, e: Event<T>, t: Tid)
    requires Inv(s) && Enabled(s, e) && (t in Next(s, e).putAsleep || t in Next(s, e).putWoken)
    ensures var n := Next(s, e);
            && t in n.arg
            && if e.CallPut? && e.t == t then n.arg[t] == e.v
               else (t in s.putAsleep || t in s.putWoken) && t in s.arg && n.arg[t] == s.arg[t]
  {
  }

  /** What one event puts and takes. */
  lemma NextLogs<T>(s: State<T>, events: seq<Event<T>>, e: Event<T>)
    requires Inv(s) && Enabled(s, e) && Remembers(s, events)
    ensures var n := Next(s, e);
            var given := LastCall(events + [e], e.t);
            && n.put == s.put + (if GoesIn(s.cap, |s.items|, e) && given.Some? then [given.value] else [])
            && (GoesIn(s.cap, |s.items|, e) ==> given.Some?)
            && |n.taken| == |s.taken| + (if GoesOut(|s.items|, e) then 1 else 0)
            && |n.items| == |s.items| + (if GoesIn(s.cap, |s.items|, e) then 1 else 0) - (if GoesOut(|s.items|, e) then 1 else 0)
  {
    assert (events + [e])[..|events|] == events;
    if e.ResumePut? {
      assert LastCall(events + [e], e.t) == LastCall(events, e.t);
    }
  }

  /** The state says what the calls say. */
  ghost predicate Logged<T>(cap: nat, events: seq<Event<T>>, s: State<T>) {
    && s.cap == cap && Remembers(s, events) && |s.items| == Size(cap, events) && Waits(cap, events, s)
    && s.put == Puts(cap, events) && |s.taken| == Takes(cap, events)
  }

  lemma LogSnoc<T>(cap: nat, events: seq<Event<T>>, e: Event<T>)
    ensures var n := Size(cap, events);
            var given := LastCall(events + [e], e.t);
            && Size(cap, events + [e]) == (if GoesIn(cap, n, e) then n + 1 else if GoesOut(n, e) then n - 1 else n)
            && Puts(cap, events + [e]) == Puts(cap, events) + (if !GoesIn(cap, n, e) || given.None? then [] else [given.value])
            && Takes(cap, events + [e]) == Takes(cap, events) + if GoesOut(n, e) then 1 else 0
  {
    hide LastCall, GoesIn, GoesOut;
    assert (events + [e])[..|events|] == events;
  }

  lemma KeepsCap<T>(s: State<T>, e: Event<T>)
    requires Enabled(s, e)
    ensures Next(s, e).cap == s.cap
  {
  }

  lemma LoggedNext<T>(cap: nat, events: seq<Event<T>>, s: State<T>, e: Event<T>)
    requires Inv(s) && Enabled(s, e) && Logged(cap, events, s)
    ensures Logged(cap, events + [e], Next(s, e))
  {
    hide Inv, Enabled, Next, LastCall, Remembers, Waits, Size, Puts, Takes;
    KeepsCap(s, e);
    WaitsNext(cap, events, s, e);
    RemembersNext(s, events, e);
    NextLogs(s, events, e);
    LogSnoc(cap, events, e);
  }

  lemma {:induction false} RunLogs<T>(cap: nat, events: seq<Event<T>>)
    requires Execute(cap, events).Some?
    ensures Logged(cap, events, Execute(cap, events).value)
    decreases |events|
  {
    hide Inv, Enabled, Next, Logged;
    if events == [] {
      StartLogged<T>(cap);
    } else {
      var before, e := events[..|events| - 1], events[|events| - 1];
      RunLogs(cap, before);
      assert before + [e] == events;
      LoggedNext(cap, before, Execute(cap, before).value, e);
    }
  }

  lemma StartLogged<T>(cap: nat)
    ensures Logged<T>(cap, [], Start(cap))
  {
  }

  /** First in, first out, for every run: what has been taken is exactly the first
      of what the calls put, as many as calls have taken; the rest is in the
      queue; and exactly the threads whose call is not served wait. */
  lemma FirstInFirstOut<T>(cap: nat, events: seq<Event<T>>)
    requires Execute(cap, events).Some?
    ensures var s := Execute(cap, events).value;
            && Takes(cap, events) <= |Puts(cap, events)|
            && s.taken == Puts(cap, events)[..Takes(cap, events)]
            && s.items == Puts(cap, events)[Takes(cap, events)..]
            && |s.items| == Size(cap, events) && Waits(cap, events, s)
  {
    RunLogs(cap, events);
    hide Puts, Takes, Size, Waits;
    var s := Execute(cap, events).value;
    assert s.taken + s.items == s.put;
    assert (s.taken + s.items)[..|s.taken|] == s.taken && (s.taken + s.items)[|s.taken|..] == s.items;
  }
}
