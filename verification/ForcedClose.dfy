/** A forced close comes in time: one that is queued when a round of tasks begins
    has happened when the round ends, before the next poll, and the connection is
    destroyed by the end of the round after that. */
module ForcedClose {
  import Registry
  import opened Lifecycle

  // ---------------------------------------------------------------- only established connections are asked to close

  /** A forced close is queued only for a connection that was established. */
  predicate Asked(s: State) {
    forall i :: 0 <= i < |s.todo| && s.todo[i].ForceCloseInLoop? ==>
      s.todo[i].c in s.conns && Rank(s.conns[s.todo[i].c].phase) >= 1
  }

  predicate Askable(s: State, f: Functor) {
    f.ForceCloseInLoop? ==> f.c in s.conns && Rank(s.conns[f.c].phase) >= 1
  }

  lemma AskedMore(s: State, t: State, more: seq<Functor>)
    requires Asked(s) && Forward(s, t) && t.todo == s.todo + more
    requires forall k :: 0 <= k < |more| ==> Askable(t, more[k])
    ensures Asked(t)
  {
    hide Rank;
    forall i | 0 <= i < |t.todo| && t.todo[i].ForceCloseInLoop?
      ensures t.todo[i].c in t.conns && Rank(t.conns[t.todo[i].c].phase) >= 1
    {
      if i < |s.todo| {
        assert t.todo[i] == s.todo[i];
      } else {
        assert t.todo[i] == more[i - |s.todo|];
      }
    }
  }

  lemma AskedSame(s: State, t: State)
    requires Asked(s) && Forward(s, t) && t.todo == s.todo
    ensures Asked(t)
  {
    hide Asked, Forward;
    assert s.todo + [] == s.todo;
    AskedMore(s, t, []);
  }

  lemma AskedOne(s: State, t: State, f: Functor)
    requires Asked(s) && Forward(s, t) && t.todo == s.todo + [f] && Askable(t, f)
    ensures Asked(t)
  {
    hide Asked, Forward, Askable;
    AskedMore(s, t, [f]);
  }

  lemma ActAsked(s: State, a: Act)
    requires Asked(s)
    ensures Asked(DoAct(s, a))
  {
    ActForward(s, a);
    hide Asked, Forward, Registry.Perform, Owned, Registry.IsWriting;
    var t := DoAct(s, a);
    if t.todo == s.todo {
      AskedSame(s, t);
    } else {
      AskedOne(s, t, if a.CallForceClose? then ForceCloseInLoop(a.c) else Notify(a.c));
    }
  }

  lemma {:induction false} ActsAsked(s: State, acts: seq<Act>)
    requires Asked(s)
    ensures Asked(DoActs(s, acts))
    decreases |acts|
  {
    hide Asked, DoAct;
    if acts != [] {
      ActsAsked(s, acts[..|acts| - 1]);
      ActAsked(DoActs(s, acts[..|acts| - 1]), acts[|acts| - 1]);
    }
  }

  lemma CloseAsked(s: State, c: Id)
    requires Asked(s) && Known(s, c)
    ensures Asked(HandleClose(s, c))
  {
    CloseForward(s, c);
    hide Asked, Forward, Registry.Perform;
    if Live(s.conns[c].phase) {
      AskedOne(s, HandleClose(s, c), Destroy(c));
    } else {
      AskedSame(s, HandleClose(s, c));
    }
  }

  lemma CloseAndReadAsked(s: State, c: Id, ev: bv32, r: ReadResult)
    requires Asked(s) && Known(s, c)
    ensures Asked(CloseAndRead(s, c, ev, r))
  {
    hide Asked, HandleClose, Hangup, ReadFlag, Known;
    var t := if Hangup(ev) then HandleClose(s, c) else s;
    CloseAsked(s, c);
    if Known(t, c) {
      CloseAsked(t, c);
    }
  }

  lemma WriteAsked(s: State, c: Id, drained: Drain)
    requires Asked(s) && Known(s, c)
    ensures Asked(HandleWrite(s, c, drained))
  {
    WriteForward(s, c, drained);
    hide Asked, Forward, Registry.Perform, Registry.IsWriting;
    var t := HandleWrite(s, c, drained);
    if t.todo == s.todo {
      AskedSame(s, t);
    } else {
      AskedOne(s, t, Notify(c));
    }
  }

  lemma EventAsked(s: State, c: Id, ev: bv32, r: ReadResult, acts: seq<Act>, drained: Drain)
    requires Asked(s) && Known(s, c)
    ensures Asked(HandleEvent(s, c, ev, r, acts, drained))
  {
    hide Asked, CloseAndRead, DoActs, HandleWrite, Flag, Known;
    var t := DoActs(CloseAndRead(s, c, ev, r), acts);
    CloseAndReadAsked(s, c, ev, r);
    ActsAsked(CloseAndRead(s, c, ev, r), acts);
    if Known(t, c) {
      WriteAsked(t, c, drained);
    }
  }

  lemma PopAsked(s: State)
    requires Asked(s) && s.todo != [] && s.left > 0
    ensures Asked(Pop(s))
  {
    hide Rank;
    var t := Pop(s);
    assert forall i :: 0 <= i < |t.todo| ==> t.todo[i] == s.todo[i + 1];
  }

  lemma TaskAsked(s: State, f: Functor)
    requires Asked(s) && Known(s, f.c)
    ensures Asked(RunFunctor(s, f))
  {
    TaskForward(s, f);
    hide Asked, Forward, Registry.Perform, Registry.RemoveChannel, HandleClose;
    if f.ForceCloseInLoop? {
      CloseAsked(s, f.c);
    } else {
      AskedSame(s, RunFunctor(s, f));
    }
  }

  lemma PostAsked(s: State)
    requires Asked(s) && !s.posting.Nothing?
    ensures Asked(Post(s))
  {
    PostForward(s);
    hide Asked, Forward, Owned;
    if s.posting.Leaving? {
      AskedSame(s, Post(s));
    } else {
      AskedOne(s, Post(s), if s.posting.Both? then AddConnect(s.posting.c) else Establish(s.posting.c));
    }
  }

  lemma NextAsked(s: State, e: Event)
    requires Asked(s) && Enabled(s, e)
    ensures Asked(Next(s, e))
  {
    NextForward(s, e);
    hide Asked, Forward, Post, HandleEvent, RunFunctor, DoActs, Owned, Reportable, FreshFd, ClosesTwice;
    match e {
      case PostNext => PostAsked(s);
      case Dispatch(r, acts, drained) =>
        TakeAsked(s);
        EventAsked(Take(s), s.active[0].0, s.active[0].1, r, acts, drained);
      case RunNext(acts) =>
        PopAsked(s);
        TaskAsked(Pop(s), s.todo[0]);
        ActsAsked(RunFunctor(Pop(s), s.todo[0]), acts);
      case _ => AskedSame(s, Next(s, e));
    }
  }

  lemma TakeAsked(s: State)
    requires Asked(s) && s.active != []
    ensures Asked(Take(s))
  {
  }

  /** In every run, whatever is asked to close was established. */
  lemma {:induction false} RunAsked(events: seq<Event>)
    requires Execute(events).Some?
    ensures Asked(Execute(events).value)
    decreases |events|
  {
    hide Asked, Next, Enabled, Inv;
    if events == [] {
      NobodyAsked();
    } else {
      RunAsked(events[..|events| - 1]);
      NextAsked(Execute(events[..|events| - 1]).value, events[|events| - 1]);
    }
  }

  lemma NobodyAsked()
    ensures Asked(Start())
  {
  }

  // ---------------------------------------------------------------- a round with the close in it

  /** The close of `c` is among the tasks of the round still to run. */
  predicate InRound(s: State, c: Id) {
    exists i :: 0 <= i < s.left && i < |s.todo| && s.todo[i] == ForceCloseInLoop(c)
  }

  /** `c` is closed, or will be in this round. */
  predicate Closing(s: State, c: Id) {
    && s.place.Running? && c in s.conns && Rank(s.conns[c].phase) >= 1
    && (s.conns[c].phase.Disconnected? || InRound(s, c))
  }

  /** The tasks of the round are as they were, with others behind them. */
  predicate Extends(s: State, t: State) {
    t.place == s.place && t.left == s.left && s.todo <= t.todo
  }

  lemma ClosingKept(s: State, t: State, c: Id)
    requires Closing(s, c) && Forward(s, t) && Extends(s, t)
    ensures Closing(t, c)
  {
    assert Later(s.conns[c], t.conns[c]);
    if s.conns[c].phase.Disconnected? {
      assert Rank(t.conns[c].phase) == 3;
    } else {
      var i :| 0 <= i < s.left && i < |s.todo| && s.todo[i] == ForceCloseInLoop(c);
      assert t.todo[i] == s.todo[i];
    }
  }

  lemma ActExtends(s: State, a: Act)
    ensures Extends(s, DoAct(s, a))
  {
    hide Registry.Perform, Owned, Registry.IsWriting;
  }

  lemma {:induction false} ActsExtend(s: State, acts: seq<Act>)
    ensures Extends(s, DoActs(s, acts))
    decreases |acts|
  {
    hide DoAct;
    if acts != [] {
      ActsExtend(s, acts[..|acts| - 1]);
      ActExtends(DoActs(s, acts[..|acts| - 1]), acts[|acts| - 1]);
    }
  }

  lemma TaskExtends(s: State, f: Functor)
    requires Known(s, f.c)
    ensures Extends(s, RunFunctor(s, f))
  {
    hide Registry.Perform, Registry.RemoveChannel;
  }

  /** The close itself. */
  lemma CloseRuns(m: State, c: Id)
    requires Known(m, c) && m.place.Running? && Rank(m.conns[c].phase) >= 1
    ensures Closing(RunFunctor(m, ForceCloseInLoop(c)), c)
  {
    hide Registry.Perform;
  }

  /** Taking off a task that is not the close. */
  lemma PopClosing(s: State, c: Id)
    requires Closing(s, c) && s.todo != [] && s.left > 0 && s.todo[0] != ForceCloseInLoop(c)
    ensures Closing(Pop(s), c)
  {
    var t := Pop(s);
    if !s.conns[c].phase.Disconnected? {
      var i :| 0 <= i < s.left && i < |s.todo| && s.todo[i] == ForceCloseInLoop(c);
      assert t.todo[i - 1] == s.todo[i];
    }
  }

  lemma TaskClosing(s: State, c: Id)
    requires Closing(s, c) && s.todo != [] && s.left > 0 && Known(Pop(s), s.todo[0].c)
    ensures Closing(RunFunctor(Pop(s), s.todo[0]), c)
  {
    var m, f := Pop(s), s.todo[0];
    if f == ForceCloseInLoop(c) {
      hide RunFunctor, InRound;
      CloseRuns(m, c);
    } else {
      PopClosing(s, c);
      TaskForward(m, f);
      TaskExtends(m, f);
      hide Closing, RunFunctor, Forward, Extends;
      ClosingKept(m, RunFunctor(m, f), c);
    }
  }

  lemma RunClosing(s: State, acts: seq<Act>, c: Id)
    requires Closing(s, c) && Enabled(s, RunNext(acts))
    ensures Closing(Next(s, RunNext(acts)), c)
  {
    hide Closing, RunFunctor, DoActs, Forward, Extends;
    var t := RunFunctor(Pop(s), s.todo[0]);
    TaskClosing(s, c);
    ActsForward(t, acts);
    ActsExtend(t, acts);
    ClosingKept(t, DoActs(t, acts), c);
  }

  lemma OutsideExtends(s: State, e: Event)
    requires Enabled(s, e) && (e.NewConnection? || e.PostNext? || e.UserLetsGo?)
    ensures Extends(s, Next(s, e))
  {
    hide Owned, FreshFd;
  }

  lemma ClosingStep(s: State, e: Event, c: Id)
    requires Inv(s) && Closing(s, c) && Enabled(s, e) && !e.EndFunctors?
    ensures Closing(Next(s, e), c)
  {
    IsRunning(s, c);
    hide Inv, Closing, Next, Enabled, Forward, Extends;
    RunningOnly(s, e);
    if e.RunNext? {
      RunClosing(s, e.acts, c);
    } else {
      OutsideExtends(s, e);
      NextForward(s, e);
      ClosingKept(s, Next(s, e), c);
    }
  }

  lemma IsRunning(s: State, c: Id)
    requires Closing(s, c)
    ensures s.place.Running?
  {
  }

  lemma {:induction false} ClosingUntilEnd(s: State, mid: seq<Event>, c: Id)
    requires Inv(s) && Closing(s, c) && EndFunctors !in mid && After(s, mid).Some?
    ensures Closing(After(s, mid).value, c)
    decreases |mid|
  {
    hide Inv, Enabled, Next, Closing;
    if mid != [] {
      var before := mid[..|mid| - 1];
      assert forall e :: e in before ==> e in mid;
      ClosingUntilEnd(s, before, c);
      AfterInv(s, before);
      ClosingStep(After(s, before).value, mid[|mid| - 1], c);
    }
  }

  lemma BeginClosing(s: State, c: Id)
    requires Asked(s) && ForceCloseInLoop(c) in s.todo && Enabled(s, BeginFunctors)
    ensures Closing(Next(s, BeginFunctors), c)
  {
    var i :| 0 <= i < |s.todo| && s.todo[i] == ForceCloseInLoop(c);
    assert Next(s, BeginFunctors).todo[i] == ForceCloseInLoop(c);
  }

  lemma EndClosed(s: State, c: Id)
    requires Closing(s, c) && Enabled(s, EndFunctors)
    ensures var t := Next(s, EndFunctors); c in t.conns && t.conns[c].phase.Disconnected?
  {
    hide Owned;
  }

  function Round(mid: seq<Event>): seq<Event> {
    [BeginFunctors] + (mid + [EndFunctors])
  }

  /** A forced close queued when a round begins has happened when it ends, which
      is before the next poll, whatever tasks, user code and other threads do. */
  lemma QueuedCloseHappens(events: seq<Event>, mid: seq<Event>, c: Id)
    requires Execute(events).Some? && ForceCloseInLoop(c) in Execute(events).value.todo
    requires EndFunctors !in mid && Execute(events + Round(mid)).Some?
    ensures var t := Execute(events + Round(mid)).value; c in t.conns && t.conns[c].phase.Disconnected?
  {
    hide Inv, Asked, Execute, After, Enabled, Next, Closing;
    var s := Execute(events).value;
    RunAsked(events);
    ExecuteThen(events, Round(mid));
    AfterThen(s, [BeginFunctors], mid + [EndFunctors]);
    AfterOne(s, BeginFunctors);
    var b := Next(s, BeginFunctors);
    NextInv(s, BeginFunctors);
    BeginClosing(s, c);
    AfterThen(b, mid, [EndFunctors]);
    ClosingUntilEnd(b, mid, c);
    var m := After(b, mid).value;
    AfterOne(m, EndFunctors);
    EndClosed(m, c);
  }

  lemma StaysClosed(s: State, t: State, c: Id)
    requires Forward(s, t) && c in s.conns && s.conns[c].phase.Disconnected?
    ensures c in t.conns && t.conns[c].phase.Disconnected?
  {
    assert Later(s.conns[c], t.conns[c]);
    assert Rank(s.conns[c].phase) == 3;
  }

  // ---------------------------------------------------------------- from the call

  /** The state in which user code begins to act in a callback. */
  function Point(s: State, e: Event): State
    requires Enabled(s, e) && (e.Dispatch? || e.RunNext?)
  {
    if e.Dispatch? then CloseAndRead(Take(s), s.active[0].0, s.active[0].1, e.r)
    else RunFunctor(Pop(s), s.todo[0])
  }

  /** In the callback of event `e` user code's call number `k` is `forceClose` on
      `c`, which at that point is connected or disconnecting. */
  predicate CallsForceClose(s: State, e: Event, k: nat, c: Id)
    requires Enabled(s, e)
  {
    && (e.Dispatch? || e.RunNext?) && k < |e.acts| && e.acts[k] == CallForceClose(c)
    && var p := DoActs(Point(s, e), e.acts[..k]);
       && Known(p, c) && (p.conns[c].phase.Connected? || p.conns[c].phase.Disconnecting?)
  }

  /** The close of `c` is queued, behind the tasks of a round under way. */
  predicate Waiting(s: State, c: Id) {
    && c in s.conns && Rank(s.conns[c].phase) >= 1
    && exists i :: 0 <= i < |s.todo| && (s.place.Running? ==> s.left <= i) && s.todo[i] == ForceCloseInLoop(c)
  }

  lemma WaitingKept(s: State, t: State, c: Id)
    requires Waiting(s, c) && Forward(s, t) && Extends(s, t)
    ensures Waiting(t, c)
  {
    assert Later(s.conns[c], t.conns[c]);
    var i :| 0 <= i < |s.todo| && (s.place.Running? ==> s.left <= i) && s.todo[i] == ForceCloseInLoop(c);
    assert t.todo[i] == s.todo[i];
  }

  /** The call itself queues the close. */
  lemma CallQueues(p: State, c: Id)
    requires Known(p, c) && (p.conns[c].phase.Connected? || p.conns[c].phase.Disconnecting?) && p.left <= |p.todo|
    ensures Waiting(DoAct(p, CallForceClose(c)), c)
  {
    var t := DoAct(p, CallForceClose(c));
    assert t.todo == p.todo + [ForceCloseInLoop(c)];
    assert t.todo[|p.todo|] == ForceCloseInLoop(c);
  }

  lemma {:induction false} ActsWait(p: State, acts: seq<Act>, k: nat, c: Id)
    requires Inv(p) && k < |acts| && acts[k] == CallForceClose(c)
    requires var q := DoActs(p, acts[..k]);
             Known(q, c) && (q.conns[c].phase.Connected? || q.conns[c].phase.Disconnecting?)
    ensures Waiting(DoActs(p, acts), c)
    decreases |acts|
  {
    hide Inv, DoAct, Waiting, Forward, Extends, Known;
    var n := |acts| - 1;
    var before := DoActs(p, acts[..n]);
    if k == n {
      ActsInv(p, acts[..n]);
      LeftFits(before);
      CallQueues(before, c);
    } else {
      assert acts[..n][..k] == acts[..k];
      ActsWait(p, acts[..n], k, c);
      ActForward(before, acts[n]);
      ActExtends(before, acts[n]);
      WaitingKept(before, DoAct(before, acts[n]), c);
    }
  }

  lemma WriteExtends(s: State, c: Id, drained: Drain)
    requires Known(s, c)
    ensures Extends(s, HandleWrite(s, c, drained))
  {
    hide Registry.Perform, Registry.IsWriting;
  }

  lemma PointInv(s: State, e: Event)
    requires Inv(s) && Enabled(s, e) && (e.Dispatch? || e.RunNext?)
    ensures Inv(Point(s, e))
  {
    hide Inv, CloseAndRead, RunFunctor, NotActive, Live, ClosesTwice, Take, Pop;
    if e.Dispatch? {
      TakeInv(s);
      CloseAndReadInv(Take(s), s.active[0].0, s.active[0].1, e.r);
    } else {
      TaskInv(s);
    }
  }

  /** After the event the close is queued. */
  lemma CallAsksForClose(s: State, e: Event, k: nat, c: Id)
    requires Inv(s) && Enabled(s, e) && CallsForceClose(s, e, k, c)
    ensures Waiting(Next(s, e), c) && ForceCloseInLoop(c) in Next(s, e).todo
  {
    hide Inv, CloseAndRead, RunFunctor, DoActs, HandleWrite, Waiting, Forward, Extends, Flag, ClosesTwice;
    var p := Point(s, e);
    PointInv(s, e);
    ActsWait(p, e.acts, k, c);
    var q := DoActs(p, e.acts);
    if e.Dispatch? && Known(q, s.active[0].0) {
      WriteForward(q, s.active[0].0, e.drained);
      WriteExtends(q, s.active[0].0, e.drained);
      WaitingKept(q, HandleWrite(q, s.active[0].0, e.drained), c);
    }
    WaitingIsQueued(Next(s, e), c);
  }

  lemma WaitingIsQueued(s: State, c: Id)
    requires Waiting(s, c)
    ensures ForceCloseInLoop(c) in s.todo
  {
  }

  lemma CloseExtends(s: State, c: Id)
    requires Known(s, c)
    ensures Extends(s, HandleClose(s, c))
  {
    hide Registry.Perform;
  }

  lemma CloseAndReadExtends(s: State, c: Id, ev: bv32, r: ReadResult)
    requires Known(s, c)
    ensures Extends(s, CloseAndRead(s, c, ev, r))
  {
    hide HandleClose, Hangup, ReadFlag, Known;
    var t := if Hangup(ev) then HandleClose(s, c) else s;
    CloseExtends(s, c);
    if Known(t, c) {
      CloseExtends(t, c);
    }
  }

  lemma EventExtends(s: State, c: Id, ev: bv32, r: ReadResult, acts: seq<Act>, drained: Drain)
    requires Known(s, c)
    ensures Extends(s, HandleEvent(s, c, ev, r, acts, drained))
  {
    hide CloseAndRead, DoActs, HandleWrite, Flag, Known;
    var t := DoActs(CloseAndRead(s, c, ev, r), acts);
    CloseAndReadExtends(s, c, ev, r);
    ActsExtend(CloseAndRead(s, c, ev, r), acts);
    if Known(t, c) {
      WriteExtends(t, c, drained);
    }
  }

  lemma PopWaiting(s: State, c: Id)
    requires Waiting(s, c) && s.place.Running? && s.todo != [] && s.left > 0
    ensures Waiting(Pop(s), c)
  {
    var t := Pop(s);
    var i :| 0 <= i < |s.todo| && s.left <= i && s.todo[i] == ForceCloseInLoop(c);
    assert t.todo[i - 1] == s.todo[i];
  }

  lemma TaskWaiting(s: State, acts: seq<Act>, c: Id)
    requires Waiting(s, c) && Enabled(s, RunNext(acts))
    ensures Waiting(Next(s, RunNext(acts)), c)
  {
    PopWaiting(s, c);
    hide Waiting, RunFunctor, DoActs, Forward, Extends;
    var m := Pop(s);
    var t := RunFunctor(m, s.todo[0]);
    TaskForward(m, s.todo[0]);
    TaskExtends(m, s.todo[0]);
    WaitingKept(m, t, c);
    ActsForward(t, acts);
    ActsExtend(t, acts);
    WaitingKept(t, DoActs(t, acts), c);
  }

  /** Changes of place that run no task. */
  lemma PlaceWaiting(s: State, t: State, c: Id)
    requires Waiting(s, c) && Forward(s, t) && t.todo == s.todo && !t.place.Running?
    ensures Waiting(t, c)
  {
    assert Later(s.conns[c], t.conns[c]);
  }

  lemma DispatchExtends(s: State, e: Event)
    requires Enabled(s, e) && e.Dispatch?
    ensures Extends(s, Next(s, e))
  {
    hide HandleEvent, ClosesTwice;
    EventExtends(Take(s), s.active[0].0, s.active[0].1, e.r, e.acts, e.drained);
  }

  lemma WaitingStep(s: State, e: Event, c: Id)
    requires Waiting(s, c) && Enabled(s, e) && !e.BeginFunctors?
    ensures Waiting(Next(s, e), c)
  {
    NextForward(s, e);
    if e.RunNext? {
      TaskWaiting(s, e.acts, c);
    } else if e.PollReturns? || e.EndFunctors? {
      MovesPlace(s, e);
      PlaceWaiting(s, Next(s, e), c);
    } else {
      hide Waiting, Forward, Extends, Next;
      if e.Dispatch? {
        DispatchExtends(s, e);
      } else {
        OutsideExtends(s, e);
      }
      WaitingKept(s, Next(s, e), c);
    }
  }

  lemma MovesPlace(s: State, e: Event)
    requires Enabled(s, e) && (e.PollReturns? || e.EndFunctors?)
    ensures Next(s, e).todo == s.todo && !Next(s, e).place.Running?
  {
    hide Owned, Reportable;
  }

  lemma {:induction false} WaitingUntilBegin(events: seq<Event>, wait: seq<Event>, c: Id)
    requires Execute(events).Some? && Waiting(Execute(events).value, c)
    requires BeginFunctors !in wait && Execute(events + wait).Some?
    ensures Waiting(Execute(events + wait).value, c)
    decreases |wait|
  {
    hide Inv, Enabled, Next, Waiting;
    if wait == [] {
      assert events + wait == events;
    } else {
      var before, e := wait[..|wait| - 1], wait[|wait| - 1];
      assert (events + wait)[..|events + wait| - 1] == events + before;
      assert forall x :: x in before ==> x in wait;
      WaitingUntilBegin(events, before, c);
      WaitingStep(Execute(events + before).value, e, c);
    }
  }

  /** What user code asks for happens: whatever comes between the call of
      `forceClose` and the next round of tasks, and whatever the tasks of that
      round, user code and other threads do, the connection is closed when the
      round ends, before the next poll. */
  lemma ForcedWithinARound(pre: seq<Event>, e: Event, k: nat, wait: seq<Event>, mid: seq<Event>, c: Id)
    requires Execute(pre).Some? && Enabled(Execute(pre).value, e) && CallsForceClose(Execute(pre).value, e, k, c)
    requires BeginFunctors !in wait && EndFunctors !in mid && Execute(pre + [e] + wait + Round(mid)).Some?
    ensures var t := Execute(pre + [e] + wait + Round(mid)).value; c in t.conns && t.conns[c].phase.Disconnected?
  {
    var first := pre + [e];
    var all := first + wait;
    CalledThenWaiting(pre, e, k, wait, mid, c);
    hide Execute, Waiting;
    WaitingUntilBegin(first, wait, c);
    WaitingIsQueued(Execute(all).value, c);
    QueuedCloseHappens(all, mid, c);
  }

  lemma CalledThenWaiting(pre: seq<Event>, e: Event, k: nat, wait: seq<Event>, mid: seq<Event>, c: Id)
    requires Execute(pre).Some? && Enabled(Execute(pre).value, e) && CallsForceClose(Execute(pre).value, e, k, c)
    requires Execute(pre + [e] + wait + Round(mid)).Some?
    ensures Execute(pre + [e]).Some? && Waiting(Execute(pre + [e]).value, c) && Execute(pre + [e] + wait).Some?
  {
    hide Next, Enabled, Inv, CallsForceClose, Waiting;
    var whole := pre + [e] + wait + Round(mid);
    assert (pre + [e])[..|pre|] == pre;
    CallAsksForClose(Execute(pre).value, e, k, c);
    hide Execute;
    PhasesOnlyAdvance(whole, |pre + [e] + wait|);
    assert whole[..|pre + [e] + wait|] == pre + [e] + wait;
  }

  /** And by the end of the round after that, whatever comes between the two, the
      connection is destroyed and its channel removed; its socket is then open
      exactly if user code or the main thread still points to it. */
  lemma ForcedIsDestroyed(pre: seq<Event>, e: Event, k: nat, wait: seq<Event>, mid: seq<Event>,
                          between: seq<Event>, mid2: seq<Event>, c: Id)
    requires Execute(pre).Some? && Enabled(Execute(pre).value, e) && CallsForceClose(Execute(pre).value, e, k, c)
    requires BeginFunctors !in wait && EndFunctors !in mid && EndFunctors !in mid2
    requires Execute(pre + [e] + wait + Round(mid) + between + Round(mid2)).Some?
    ensures var t := Execute(pre + [e] + wait + Round(mid) + between + Round(mid2)).value;
            && Known(t, c) && t.conns[c].destroys == 1 && t.poller.chan[c].status.DELETED?
            && (t.conns[c].open <==> Lingers(t, c))
  {
    hide Execute, Lingers, Forward, CallsForceClose, Enabled;
    var first := pre + [e] + wait + Round(mid);
    var all := first + between;
    var whole := all + Round(mid2);
    PhasesOnlyAdvance(whole, |all|);
    assert whole[..|all|] == all;
    PhasesOnlyAdvance(all, |first|);
    assert all[..|first|] == first;
    ForcedWithinARound(pre, e, k, wait, mid, c);
    StaysClosed(Execute(first).value, Execute(all).value, c);
    ClosedWithinARound(all, mid2, c);
  }
}
