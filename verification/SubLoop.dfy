/** One loop with its connections as an object: the handlers of a connection,
    the dispatch of one poll's reports, and one round of tasks, each proved to
    be steps of `Lifecycle`. */
module SubLoop {
  import opened Options
  import opened Registry
  import opened TcpOutput
  import opened Lifecycle
  import Steps = Lifecycle

  /** What the outside decides for one report or one task. */
  datatype Choice = Choice(r: ReadResult, acts: seq<Act>, drained: Drain)

  /** The dispatch of one poll's reports, as events. */
  function Dispatches(choices: seq<Choice>): seq<Steps.Event> {
    seq(|choices|, i requires 0 <= i < |choices| => Dispatch(choices[i].r, choices[i].acts, choices[i].drained))
  }

  /** A round: its beginning, what happens in it, its end. */
  function Round(mid: seq<Steps.Event>): seq<Steps.Event> {
    [BeginFunctors] + (mid + [EndFunctors])
  }

  function TaskCount(mid: seq<Steps.Event>): nat {
    if mid == [] then 0 else TaskCount(mid[..|mid| - 1]) + if mid[|mid| - 1].RunNext? then 1 else 0
  }

  /** Everything a run of events keeps. */
  ghost predicate Sane(s: Steps.State) {
    Steps.Inv(s) && Holding(s)
  }

  class SubLoop {
    var conns: map<Lifecycle.Id, Conn>
    var poller: Poller
    var connectSet: set<Lifecycle.Id>
    var todo: seq<Functor>
    var left: nat
    var held: set<Lifecycle.Id>
    var kept: set<Lifecycle.Id>
    var posting: Posting
    var place: Place
    var active: seq<(Lifecycle.Id, bv32)>

    ghost function View(): Steps.State
      reads this
    {
      Steps.State.State(conns, poller, connectSet, todo, left, held, kept, posting, place, active, false)
    }

    constructor ()
      ensures View() == Steps.Start()
    {
      conns, poller, connectSet := map[], Poller(map[], map[], map[], 0), {};
      todo, left, held, kept, posting, place, active := [], 0, {}, {}, Nothing, Polling, [];
    }

    // -------------------------------------------------------------- owners

    predicate IsOwned(c: Lifecycle.Id)
      reads this
      ensures IsOwned(c) <==> Owned(View(), c)
    {
      || c in connectSet
      || Mentions(todo, c)
      || c in held
      || c in kept
      || (!posting.Nothing? && posting.c == c)
    }

    /** Whoever nothing owns: its socket is closed. */
    method CloseUnowned()
      requires Steps.Inv(View())
      modifies this`conns
      ensures Steps.Inv(View()) && View() == Reap(old(View()))
    {
      hide Steps.Inv, IsOwned, Owned, Reap;
      ghost var s := View();
      ReapInv(s);
      conns := map c | c in conns :: if IsOwned(c) then conns[c] else conns[c].(open := false);
      ReapIs(s, View());
    }

    // -------------------------------------------------------------- closing

    method QueueDestroy(c: Lifecycle.Id)
      modifies this`todo
      ensures todo == old(todo) + [Destroy(c)] && Mentions(todo, c)
    {
      todo := todo + [Destroy(c)];
      assert todo[|todo| - 1].c == c;
    }

    /** The set may let go of a connection that a task still holds. */
    method RmConnect(c: Lifecycle.Id)
      requires Mentions(todo, c)
      modifies this`connectSet
      ensures connectSet == old(connectSet) - {c} && IsOwned(c)
    {
      connectSet := connectSet - {c};
    }

    /** `TcpConnection::handleClose` with `TcpServer::removeConnection`: the
        connection is in its last phase, out of the set, still owned, and exactly
        one task is left to move it. */
    method HandleClose(c: Lifecycle.Id)
      requires Sane(View()) && Known(View(), c) && Live(conns[c].phase) && NotActive(View(), c)
      modifies this`conns, this`poller, this`todo, this`connectSet
      ensures Sane(View()) && View() == Steps.HandleClose(old(View()), c)
      ensures c in conns && conns[c].phase.Disconnected? && conns[c].closes == 1 && c !in connectSet && IsOwned(c)
      ensures Duties(todo, posting, c) == [Destroy(c)]
    {
      hide Steps.Inv, Holding, NotActive, Perform, Duties, Mentions, IsOwned, Owned;
      CloseInv(View(), c);
      CloseHolding(View(), c);
      ClosingFacts(View(), c);
      conns := conns[c := conns[c].(phase := Disconnected, closes := conns[c].closes + 1)];
      poller := Perform(poller, c, DisableAll);
      QueueDestroy(c);
      RmConnect(c);
    }

    // -------------------------------------------------------------- user code

    method DoAct(a: Act)
      requires Sane(View())
      modifies this`conns, this`poller, this`todo, this`kept
      ensures Sane(View()) && View() == Steps.DoAct(old(View()), a)
    {
      hide Perform, Steps.Inv, Holding, Reap, IsOwned, Owned;
      ActInv(View(), a);
      ActHolding(View(), a);
      var c := a.c;
      if c !in conns || c !in poller.chan {
        return;
      }
      match a {
        case CallForceClose(_) =>
          if Live(conns[c].phase) {
            conns := conns[c := conns[c].(phase := Disconnecting)];
            todo := todo + [ForceCloseInLoop(c)];
          }
        case CallShutdown(_) =>
          if conns[c].phase.Connected? {
            conns := conns[c := conns[c].(phase := Disconnecting)];
          }
        case CallSend(_, sent) =>
          if conns[c].phase.Connected? && !IsWriting(poller.chan[c]) {
            if sent.LeftOver? {
              poller := Perform(poller, c, EnableWriting);
            } else if sent.AllOut? && sent.notify {
              todo := todo + [Notify(c)];
            }
          }
        case Keep(_) =>
          if IsOwned(c) {
            kept := kept + {c};
          }
        case LetGo(_) => LetGo(c);
      }
    }

    method LetGo(c: Lifecycle.Id)
      requires Sane(View())
      modifies this`conns, this`kept
      ensures Sane(View()) && View() == Drop(old(View()), c)
    {
      hide Steps.Inv, Holding, Reap;
      DropInv(View(), c);
      DropHolding(View(), c);
      HoldersInv(View(), View().(kept := kept - {c}));
      kept := kept - {c};
      CloseUnowned();
    }

    /** User code in a callback. */
    method DoActs(acts: seq<Act>)
      requires Sane(View())
      modifies this`conns, this`poller, this`todo, this`kept
      ensures Sane(View()) && View() == Steps.DoActs(old(View()), acts)
    {
      hide Steps.DoAct, Sane;
      var i := 0;
      while i < |acts|
        invariant 0 <= i <= |acts| && Sane(View()) && View() == Steps.DoActs(old(View()), acts[..i])
      {
        assert acts[..i + 1][..i] == acts[..i];
        DoAct(acts[i]);
        i := i + 1;
      }
      assert acts[..i] == acts;
    }

    // -------------------------------------------------------------- events

    method HandleWrite(c: Lifecycle.Id, drained: Drain)
      requires Sane(View()) && Known(View(), c)
      modifies this`poller, this`todo
      ensures Sane(View()) && View() == Steps.HandleWrite(old(View()), c, drained)
    {
      hide Perform, Steps.Inv, Holding;
      WriteInv(View(), c, drained);
      WriteHolding(View(), c, drained);
      if IsWriting(poller.chan[c]) && drained.Drained? {
        poller := Perform(poller, c, DisableWriting);
        if drained.notify {
          todo := todo + [Notify(c)];
        }
      }
    }

    method CloseAndRead(c: Lifecycle.Id, ev: bv32, r: ReadResult)
      requires Sane(View()) && Known(View(), c) && Live(conns[c].phase) && NotActive(View(), c) && !ClosesTwice(ev, r)
      modifies this`conns, this`poller, this`todo, this`connectSet
      ensures Sane(View()) && View() == Steps.CloseAndRead(old(View()), c, ev, r)
    {
      hide Steps.Inv, Holding, NotActive, Steps.HandleClose, Live, Hangup, ReadFlag, IsOwned, Owned;
      if Hangup(ev) {
        HandleClose(c);
      } else if ReadFlag(ev) && r.Eof? {
        HandleClose(c);
      }
    }

    /** `Channel::handleEvent`: hang-up, read, write, on one mask. */
    method HandleEvent(c: Lifecycle.Id, ev: bv32, choice: Choice)
      requires Sane(View()) && Known(View(), c) && Live(conns[c].phase) && NotActive(View(), c) && !ClosesTwice(ev, choice.r)
      modifies this`conns, this`poller, this`todo, this`connectSet, this`kept
      ensures Sane(View()) && View() == Steps.HandleEvent(old(View()), c, ev, choice.r, choice.acts, choice.drained)
    {
      hide Sane, NotActive, Live, ClosesTwice, Steps.CloseAndRead, Steps.DoActs, Steps.HandleWrite, Flag;
      CloseAndRead(c, ev, choice.r);
      DoActs(choice.acts);
      if Flag(ev, EPOLLOUT) && c in conns && c in poller.chan {
        HandleWrite(c, choice.drained);
      }
    }

    method DispatchOne(ch: Choice)
      requires Sane(View()) && active != [] && !ClosesTwice(active[0].1, ch.r)
      modifies this`conns, this`poller, this`todo, this`connectSet, this`kept, this`active
      ensures Sane(View()) && active == old(active)[1..]
      ensures var e := Dispatch(ch.r, ch.acts, ch.drained);
              Steps.Enabled(old(View()), e) && View() == Steps.Next(old(View()), e)
    {
      hide Steps.Inv, Holding, NotActive, Live, ClosesTwice, Steps.HandleEvent;
      TakeInv(View());
      TakeHolding(View());
      var (c, ev) := active[0];
      active := active[1..];
      HandleEvent(c, ev, ch);
    }

    /** The loop over `activeChannels_`: exactly the dispatch of each report, in
        order. No report closes twice. */
    method DispatchAll(choices: seq<Choice>)
      requires Sane(View()) && |choices| == |active|
      requires forall i :: 0 <= i < |active| ==> !ClosesTwice(active[i].1, choices[i].r)
      modifies this`conns, this`poller, this`todo, this`connectSet, this`kept, this`active
      ensures Sane(View()) && active == []
      ensures After(old(View()), Dispatches(choices)) == Some(View())
    {
      hide Sane, After, ClosesTwice, Steps.Enabled, Steps.Next;
      var i := 0;
      AfterNothing(View());
      assert Dispatches(choices[..0]) == [];
      while i < |choices|
        invariant 0 <= i <= |choices| && active == old(active)[i..]
        invariant Sane(View()) && After(old(View()), Dispatches(choices[..i])) == Some(View())
      {
        assert active[0] == old(active)[i];
        var ch := choices[i];
        DispatchOne(ch);
        AfterSnoc(old(View()), Dispatches(choices[..i]), Dispatch(ch.r, ch.acts, ch.drained));
        assert Dispatches(choices[..i + 1]) == Dispatches(choices[..i]) + [Dispatch(ch.r, ch.acts, ch.drained)];
        i := i + 1;
      }
      assert choices[..i] == choices;
    }

    // -------------------------------------------------------------- tasks

    method ConnectEstablished(c: Lifecycle.Id)
      requires Known(View(), c) && conns[c].phase.Connecting?
      modifies this`conns, this`poller
      ensures View() == Steps.RunFunctor(old(View()), Establish(c))
    {
      hide Perform;
      conns := conns[c := conns[c].(phase := Connected)];
      poller := Perform(poller, c, EnableReading);
    }

    method ConnectDestroyed(c: Lifecycle.Id)
      requires Known(View(), c)
      modifies this`conns, this`poller
      ensures View() == Steps.RunFunctor(old(View()), Destroy(c))
    {
      hide RemoveChannel, Events;
      if conns[c].phase.Connected? {
        conns := conns[c := conns[c].(phase := Disconnected)];
        poller := Perform(poller, c, DisableAll);
      }
      poller := RemoveChannel(poller, c);
      conns := conns[c := conns[c].(destroys := conns[c].destroys + 1)];
    }

    /** One task. The source asserts the phase of a connection it establishes. */
    method RunFunctor(f: Functor)
      requires Known(View(), f.c) && (f.Establish? ==> conns[f.c].phase.Connecting?)
      requires f.ForceCloseInLoop? ==> Sane(View()) && NotActive(View(), f.c)
      modifies this`conns, this`poller, this`todo, this`connectSet
      ensures View() == Steps.RunFunctor(old(View()), f)
    {
      hide Steps.HandleClose, Perform, RemoveChannel, Steps.Inv, Holding, NotActive, IsOwned, Owned;
      match f {
        case AddConnect(c) => connectSet := connectSet + {c};
        case Establish(c) => ConnectEstablished(c);
        case ForceCloseInLoop(c) =>
          if Live(conns[c].phase) {
            HandleClose(c);
          }
        case Destroy(c) => ConnectDestroyed(c);
        case Notify(_) =>
      }
    }

    method RunOne(acts: seq<Act>)
      requires Sane(View()) && Steps.Enabled(View(), RunNext(acts))
      modifies this`conns, this`poller, this`todo, this`connectSet, this`kept, this`left
      ensures Sane(View()) && left == old(left) - 1 && View() == Steps.Next(old(View()), RunNext(acts))
    {
      hide Steps.Inv, Holding, Steps.RunFunctor, Steps.DoActs, NotActive;
      ghost var s := View();
      TaskInv(s);
      TaskHolding(s);
      PopHolding(s);
      var f := todo[0];
      if f.ForceCloseInLoop? {
        PopInv(s);
        RunningQuiet(Pop(s), f.c);
      }
      todo, left := todo[1..], left - 1;
      NoAbort(View(), f);
      RunFunctor(f);
      DoActs(acts);
    }

    method BeginTasks()
      requires Sane(View()) && Steps.Enabled(View(), BeginFunctors)
      modifies this`place, this`left, this`held
      ensures Sane(View()) && place.Running? && left == |todo| && View() == Steps.Next(old(View()), BeginFunctors)
    {
      hide Steps.Inv, Holding;
      BeginInv(View());
      BeginHolding(View());
      place, left, held := Running, |todo|, Ids(todo);
    }

    /** The end of the vector of tasks; a closed socket gives its descriptor back. */
    method DestroyTasks()
      requires Sane(View()) && Steps.Enabled(View(), EndFunctors)
      modifies this`place, this`held, this`conns
      ensures Sane(View()) && place.Polling? && held == {} && View() == Steps.Next(old(View()), EndFunctors)
    {
      hide Steps.Inv, Holding, Reap;
      EndInv(View());
      EndHolding(View());
      HoldersInv(View().(place := Polling), View().(place := Polling, held := {}));
      place, held := Polling, {};
      CloseUnowned();
    }

    // -------------------------------------------------------------- other threads

    /** The next step of `newConnection` on the main thread: the two posts, and
        the return that gives up its own pointer. */
    method PostNext()
      requires Sane(View()) && !posting.Nothing?
      modifies this`conns, this`todo, this`posting
      ensures Sane(View()) && View() == Post(old(View()))
    {
      hide Steps.Inv, Holding, Reap;
      PostInv(View());
      PostHolding(View());
      match posting {
        case Both(c) => todo, posting := todo + [AddConnect(c)], Second(c);
        case Second(c) => todo, posting := todo + [Establish(c)], Leaving(c);
        case Leaving(_) =>
          LeaveInv(View());
          posting := Nothing;
          CloseUnowned();
        case Nothing => assert false;
      }
    }

    method NewConnection(c: Lifecycle.Id, fd: Fd)
      requires Sane(View()) && posting.Nothing? && c !in conns && FreshFd(View(), fd)
      modifies this`conns, this`poller, this`posting
      ensures Sane(View()) && View() == Create(old(View()), c, fd)
    {
      hide Steps.Inv, Holding, FreshFd;
      CreateInv(View(), c, fd);
      CreateHolding(View(), c, fd);
      conns := conns[c := Conn(Connecting, true, 0, 0)];
      poller := poller.(chan := poller.chan[c := Channel(fd, NONE_EVENT, INIT)]);
      posting := Both(c);
    }

    /** What may happen during a round: a task, or a step of another thread. */
    method DuringRound(e: Steps.Event)
      requires Sane(View()) && place.Running? && Steps.Enabled(View(), e) && !e.EndFunctors?
      modifies this
      ensures Sane(View()) && place.Running? && View() == Steps.Next(old(View()), e)
      ensures left == old(left) - if e.RunNext? then 1 else 0
    {
      hide Sane, Create, Post, Drop, Steps.HandleEvent, Steps.RunFunctor, Steps.DoActs, Reportable, FreshFd, ClosesTwice;
      SaneRunning(View(), e);
      if !e.RunNext? {
        StaysRunning(View(), e);
      }
      match e {
        case NewConnection(c, fd) => NewConnection(c, fd);
        case PostNext => PostNext();
        case UserLetsGo(c) => LetGo(c);
        case RunNext(acts) => RunOne(acts);
        case _ => assert false;
      }
    }

    /** One round of tasks, for every interleaving with the other threads that
        can happen: exactly the tasks that were there at its start, in order;
        then the vector goes, and with it every connection nothing else owns. */
    method DoPendingFunctors(mid: seq<Steps.Event>)
      requires Sane(View()) && EndFunctors !in mid && After(View(), Round(mid)).Some?
      modifies this
      ensures Sane(View()) && place.Polling? && held == {}
      ensures After(old(View()), Round(mid)) == Some(View())
      ensures TaskCount(mid) == |old(todo)|
    {
      hide Sane, After, Steps.Enabled, Steps.Next;
      RoundParts(View(), mid, 0);
      BeginTasks();
      var i := 0;
      while i < |mid|
        invariant 0 <= i <= |mid| && place.Running? && left + TaskCount(mid[..i]) == |old(todo)|
        invariant Sane(View()) && After(old(View()), [BeginFunctors] + mid[..i]) == Some(View())
      {
        RoundParts(old(View()), mid, i);
        assert mid[i] in mid;
        DuringRound(mid[i]);
        assert mid[..i + 1][..i] == mid[..i];
        i := i + 1;
      }
      RoundParts(old(View()), mid, i);
      assert mid[..i] == mid;
      NoneLeft(View());
      DestroyTasks();
    }
  }

  // ---------------------------------------------------------------- around the object

  /** A state after owners have let go, by what it holds. */
  lemma ReapIs(s: Steps.State, t: Steps.State)
    requires !s.aborted && Steps.Inv(Reap(s)) && t == s.(conns := t.conns) && t.conns.Keys == s.conns.Keys
    requires forall c :: c in s.conns ==>
               t.conns[c] == if Owned(s, c) then s.conns[c] else s.conns[c].(open := false)
    ensures t == Reap(s)
  {
    NotAborted(Reap(s));
    hide Steps.Inv, Owned;
  }

  lemma NotAborted(s: Steps.State)
    requires Steps.Inv(s)
    ensures !s.aborted
  {
  }

  lemma ClosingFacts(s: Steps.State, c: Lifecycle.Id)
    requires Steps.Inv(s) && Known(s, c) && Live(s.conns[c].phase)
    ensures s.conns[c].closes == 0 && Duties(s.todo + [Destroy(c)], s.posting, c) == [Destroy(c)]
  {
    hide Steps.Inv, Tables, AllGood, Good, Lists, ActiveLive, Duties;
    Parts(s);
    GoodAt(s, c);
    LiveFacts(s, c);
    CloseDuty(s, c);
  }

  /** A task that leaves the invariant has not run into its assertion. */
  lemma NoAbort(t: Steps.State, f: Functor)
    requires Known(t, f.c) && Steps.Inv(Steps.RunFunctor(t, f))
    ensures f.Establish? ==> t.conns[f.c].phase.Connecting?
  {
    NotAborted(Steps.RunFunctor(t, f));
    hide Steps.Inv;
  }

  lemma SaneRunning(s: Steps.State, e: Steps.Event)
    requires Sane(s) && s.place.Running? && Steps.Enabled(s, e)
    ensures e.NewConnection? || e.PostNext? || e.UserLetsGo? || e.RunNext? || e.EndFunctors?
  {
    hide Steps.Inv, Holding;
    RunningOnly(s, e);
  }

  lemma StaysRunning(s: Steps.State, e: Steps.Event)
    requires s.place.Running? && Steps.Enabled(s, e)
    requires e.NewConnection? || e.PostNext? || e.UserLetsGo?
    ensures Steps.Next(s, e).place.Running? && Steps.Next(s, e).left == s.left
  {
    hide Owned;
  }

  lemma AfterNothing(s: Steps.State)
    ensures After(s, []) == Some(s)
  {
  }

  lemma NoneLeft(s: Steps.State)
    requires Steps.Enabled(s, EndFunctors)
    ensures s.left == 0
  {
  }

  /** A run that can happen, cut behind its first `k` events. */
  lemma {:induction false} Cut(s: Steps.State, events: seq<Steps.Event>, k: nat)
    requires k < |events| && After(s, events).Some?
    ensures After(s, events[..k]).Some? && Steps.Enabled(After(s, events[..k]).value, events[k])
    ensures After(s, events[..k + 1]) == Some(Steps.Next(After(s, events[..k]).value, events[k]))
    decreases |events|
  {
    hide Steps.Enabled, Steps.Next;
    var n := |events| - 1;
    if k == n {
      assert events[..k + 1] == events;
    } else {
      assert events[..n][..k] == events[..k] && events[..n][..k + 1] == events[..k + 1];
      Cut(s, events[..n], k);
    }
  }

  /** The moments of a round. */
  lemma RoundParts(s: Steps.State, mid: seq<Steps.Event>, i: nat)
    requires i <= |mid| && After(s, Round(mid)).Some?
    ensures Steps.Enabled(s, BeginFunctors) && After(s, [BeginFunctors] + mid[..0]) == Some(Steps.Next(s, BeginFunctors))
    ensures After(s, [BeginFunctors] + mid[..i]).Some?
    ensures var m := After(s, [BeginFunctors] + mid[..i]).value;
            if i < |mid| then Steps.Enabled(m, mid[i]) && After(s, [BeginFunctors] + mid[..i + 1]) == Some(Steps.Next(m, mid[i]))
            else Steps.Enabled(m, EndFunctors) && After(s, Round(mid)) == Some(Steps.Next(m, EndFunctors))
  {
    hide Steps.Enabled, Steps.Next, After;
    var all := Round(mid);
    AfterNothing(s);
    Cut(s, all, 0);
    assert all[..0] == [] && all[..1] == [BeginFunctors] + mid[..0];
    Cut(s, all, i + 1);
    assert all[..i + 1] == [BeginFunctors] + mid[..i];
    if i < |mid| {
      assert all[i + 1] == mid[i] && all[..i + 2] == [BeginFunctors] + mid[..i + 1];
    } else {
      assert all[i + 1] == EndFunctors && all[..i + 2] == all;
    }
  }
}
