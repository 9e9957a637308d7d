/** `EventLoop`: tasks handed to a loop from any thread, and the eventfd that
    gets the loop out of `epoll_wait` to run them.

    The eventfd's channel is registered edge triggered, so what wakes the loop
    is an edge (each write makes one) together with a counter above zero. */
module EventLoop {
  import opened Options

  /** In `epoll_wait`; in the handlers; between `callingPendingFunctors_ = true`
      and the swap; running the swapped tasks. */
  datatype Place = Polling | Handling | Swapping | Running

  datatype State<F> = State(
    place: Place, calling: bool,
    reported: bool,                    // the wakeup channel is among the active ones
    pending: seq<F>, batch: seq<F>,    // shared list; rest of the swapped list
    counter: nat, edge: bool,          // the eventfd as epoll sees it
    others: nat,                       // other threads between their push and their wakeup
    self: bool,                        // the loop thread between its push and its wakeup
    pushed: seq<F>, executed: seq<F>)  // all tasks so far, in order

  function Start<F>(): State<F> {
    State(Polling, false, false, [], [], 0, false, 0, false, [], [])
  }

  /** The next `epoll_wait` reports the eventfd. */
  predicate Readable<F>(s: State<F>) {
    s.edge && s.counter > 0
  }

  function Push<F>(s: State<F>, f: F): State<F> {
    s.(pending := s.pending + [f], pushed := s.pushed + [f])
  }

  function Wakeup<F>(s: State<F>): State<F> {
    s.(counter := s.counter + 1, edge := true)
  }

  datatype Event<F> =
    | OtherPush(f: F) | OtherWakeup                 // queueInLoop on another thread
    | PollReturns(wakeup: bool)                     // with the eventfd reported or without
    | ReadEventfd                                   // handleRead
    | SelfPush(f: F) | SelfWakeup                   // queueInLoop on the loop thread
    | BeginFunctors | Swap | RunOne | EndFunctors   // doPendingFunctors

  predicate Enabled<F>(s: State<F>, e: Event<F>) {
    match e
    case OtherPush(_) => true
    case OtherWakeup => s.others > 0
    case PollReturns(w) => s.place.Polling? && (w ==> Readable(s))
    case ReadEventfd => s.place.Handling? && s.reported
    case SelfPush(_) => (s.place.Handling? || s.place.Running?) && !s.self
    case SelfWakeup => s.self
    case BeginFunctors => s.place.Handling? && !s.reported
    case Swap => s.place.Swapping?
    case RunOne => s.place.Running? && !s.self && s.batch != []
    case EndFunctors => s.place.Running? && !s.self && s.batch == []
  }

  function Next<F>(s: State<F>, e: Event<F>): State<F>
    requires Enabled(s, e)
  {
    match e
    case OtherPush(f) => Push(s, f).(others := s.others + 1)
    case OtherWakeup => Wakeup(s).(others := s.others - 1)
    case PollReturns(w) => s.(place := Handling, reported := w, edge := s.edge && !w)
    case ReadEventfd => s.(counter := 0, reported := false)
    case SelfPush(f) => Push(s, f).(self := s.calling)
    case SelfWakeup => Wakeup(s).(self := false)
    case BeginFunctors => s.(place := Swapping, calling := true)
    case Swap => s.(place := Running, batch := s.pending, pending := [])
    case RunOne => s.(executed := s.executed + [s.batch[0]], batch := s.batch[1..])
    case EndFunctors => s.(place := Polling, calling := false)
  }

  /** Each task pushed is run once, in the order of the pushes; and whenever the
      loop has gone past its swap with tasks pending, something will wake it:
      the eventfd already is readable, or a thread has yet to write it. */
  ghost predicate Inv<F>(s: State<F>) {
    && s.executed + s.batch + s.pending == s.pushed
    && (s.batch != [] ==> s.place.Running?)
    && (s.calling <==> s.place.Swapping? || s.place.Running?)
    && (s.self ==> s.place.Running?)
    && ((s.place.Running? || s.place.Polling?) && s.pending != [] ==> Readable(s) || s.others > 0 || s.self)
  }

  lemma PushOrder<F>(a: seq<F>, b: seq<F>, c: seq<F>, f: F)
    ensures a + b + (c + [f]) == (a + b + c) + [f]
  {
  }

  lemma RunOrder<F>(a: seq<F>, b: seq<F>, c: seq<F>)
    requires b != []
    ensures (a + [b[0]]) + b[1..] + c == a + b + c
  {
    assert b == [b[0]] + b[1..];
  }

  lemma SwapOrder<F>(a: seq<F>, c: seq<F>)
    ensures a + [] + c == a + c + []
  {
  }

  lemma NextInv<F>(s: State<F>, e: Event<F>)
    requires Inv(s) && Enabled(s, e)
    ensures Inv(Next(s, e))
  {
    match e {
      case OtherPush(f) => PushOrder(s.executed, s.batch, s.pending, f);
      case SelfPush(f) => PushOrder(s.executed, s.batch, s.pending, f);
      case Swap => SwapOrder(s.executed, s.pending);
      case RunOne => RunOrder(s.executed, s.batch, s.pending);
      case _ =>
    }
  }

  /** The state after a list of events, if each could happen in its turn. */
  function Execute<F>(events: seq<Event<F>>): (r: Option<State<F>>)
    ensures r.Some? ==> Inv(r.value)
    decreases |events|
  {
    if events == [] then Some(Start())
    else
      var before := Execute(events[..|events| - 1]);
      var e := events[|events| - 1];
      if before.Some? && Enabled(before.value, e) then
        NextInv(before.value, e);
        Some(Next(before.value, e))
      else None
  }

  function Pushed<F>(events: seq<Event<F>>): seq<F> {
    if events == [] then []
    else
      var e := events[|events| - 1];
      Pushed(events[..|events| - 1]) + if e.OtherPush? || e.SelfPush? then [e.f] else []
  }

  lemma {:induction false} PushedIsHistory<F>(events: seq<Event<F>>)
    requires Execute(events).Some?
    ensures Execute(events).value.pushed == Pushed(events)
    decreases |events|
  {
    hide Inv, Enabled;
    if events != [] {
      PushedIsHistory(events[..|events| - 1]);
    }
  }

  /** In every run: what has run, is running and waits is what was queued, in
      order; and a loop that sleeps on queued tasks is about to be woken. */
  lemma ExactlyOnceNoLostWakeup<F>(events: seq<Event<F>>)
    requires Execute(events).Some?
    ensures var s := Execute(events).value;
            && s.executed + s.batch + s.pending == Pushed(events)
            && (s.place.Polling? && s.pending != [] && s.others == 0 ==> Enabled(s, PollReturns(true)))
  {
    PushedIsHistory(events);
  }

  /** From any reachable sleep with tasks queued and every pusher done, the
      loop's own next steps run the first of those tasks: the wakeup, the read,
      the swap; nothing further is needed from anyone. */
  lemma WokenLoopRuns<F>(events: seq<Event<F>>)
    requires Execute(events).Some?
    requires var s := Execute(events).value; s.place.Polling? && s.pending != [] && s.others == 0
    ensures var s := Execute(events).value;
            var todo: seq<Event<F>> := [PollReturns(true), ReadEventfd, BeginFunctors, Swap, RunOne];
            && Execute(events + todo).Some?
            && Execute(events + todo).value.executed == s.executed + [s.pending[0]]
  {
    var s := Execute(events).value;
    Extend(events, PollReturns(true));
    var e1 := events + [PollReturns(true)];
    Extend(e1, ReadEventfd);
    var e2 := e1 + [ReadEventfd];
    Extend(e2, BeginFunctors);
    var e3 := e2 + [BeginFunctors];
    Extend(e3, Swap);
    var e4 := e3 + [Swap];
    Extend(e4, RunOne);
    assert e4 + [RunOne] == events + [PollReturns(true), ReadEventfd, BeginFunctors, Swap, RunOne];
  }

  lemma Extend<F>(events: seq<Event<F>>, e: Event<F>)
    requires Execute(events).Some? && Enabled(Execute(events).value, e)
    ensures Execute(events + [e]) == Some(Next(Execute(events).value, e))
  {
    assert (events + [e])[..|events|] == events;
  }

  // ---------------------------------------------------------------- the object

  /** A task, as far as the loop can tell: it may queue further tasks. */
  datatype Task = Task(id: nat, posts: seq<Task>)

  /** What another thread does: its push, and later its write to the eventfd. */
  datatype Other = Pushes(t: Task) | Wakes

  function PushedBy(steps: seq<Other>): seq<Task> {
    if steps == [] then []
    else
      var x := steps[|steps| - 1];
      PushedBy(steps[..|steps| - 1]) + if x.Pushes? then [x.t] else []
  }

  /** What a round leaves queued: what each task posts, and what other threads
      push before the first task (`others[0]`) and around the others. */
  function Queued(ts: seq<Task>, others: seq<seq<Other>>): seq<Task>
    requires |others| == |ts| + 1
    decreases |ts|
  {
    if ts == [] then PushedBy(others[0])
    else
      var n := |ts| - 1;
      Queued(ts[..n], others[..n + 1]) + ts[n].posts + PushedBy(others[n + 1])
  }

  class Loop {
    var pending: seq<Task>
    var calling: bool
    var counter: nat
    var edge: bool
    /** Other threads between their push and their wakeup. */
    ghost var owed: nat
    ghost var executed: seq<Task>

    /** The next `epoll_wait` returns, or some thread has yet to make it. */
    ghost predicate WillWake()
      reads this
    {
      (edge && counter > 0) || owed > 0
    }

    constructor ()
      ensures pending == [] && !calling && counter == 0 && !edge && owed == 0 && executed == []
    {
      pending, calling, counter, edge, owed, executed := [], false, 0, false, 0, [];
    }

    method Wakeup()
      modifies this`counter, this`edge
      ensures edge && counter == old(counter) + 1
    {
      counter := counter + 1;
      edge := true;
    }

    /** A whole call, with nothing else in between. */
    method QueueInLoop(t: Task, inLoopThread: bool)
      modifies this`pending, this`counter, this`edge
      ensures pending == old(pending) + [t]
      ensures if !inLoopThread || calling then edge && counter == old(counter) + 1
              else edge == old(edge) && counter == old(counter)
    {
      pending := pending + [t];
      if !inLoopThread || calling {
        Wakeup();
      }
    }

    /** What a task posts. */
    method QueueAll(ts: seq<Task>)
      requires calling
      modifies this`pending, this`counter, this`edge
      ensures pending == old(pending) + ts
      ensures ts != [] || old(WillWake()) ==> WillWake()
    {
      var i := 0;
      while i < |ts|
        invariant 0 <= i <= |ts| && pending == old(pending) + ts[..i]
        invariant i > 0 || old(WillWake()) ==> WillWake()
      {
        QueueInLoop(ts[i], true);
        i := i + 1;
        assert ts[..i] == ts[..i - 1] + [ts[i - 1]];
      }
      assert ts[..i] == ts;
    }

    /** `queueInLoop` on another thread, in its two steps (`quit` makes a wakeup
        without a push). */
    method OtherStep(x: Other)
      modifies this`pending, this`counter, this`edge, this`owed
      ensures pending == old(pending) + PushedBy([x])
      ensures pending != old(pending) || old(WillWake()) ==> WillWake()
    {
      assert [x][..0] == [];
      match x {
        case Pushes(t) =>
          pending := pending + [t];
          owed := owed + 1;
        case Wakes =>
          Wakeup();
          owed := if owed > 0 then owed - 1 else 0;
      }
    }

    method OtherSteps(steps: seq<Other>)
      modifies this`pending, this`counter, this`edge, this`owed
      ensures pending == old(pending) + PushedBy(steps)
      ensures pending != old(pending) || old(WillWake()) ==> WillWake()
    {
      hide PushedBy;
      var i := 0;
      NonePushed();
      assert steps[..0] == [];
      while i < |steps|
        invariant 0 <= i <= |steps| && pending == old(pending) + PushedBy(steps[..i])
        invariant pending != old(pending) || old(WillWake()) ==> WillWake()
      {
        OtherStep(steps[i]);
        i := i + 1;
        PushedSnoc(steps, i);
      }
      assert steps[..i] == steps;
    }

    /** Runs exactly the tasks that were pending, in order. What they post and
        what other threads push meanwhile is left for the next round, in the
        order of the pushes, with a wakeup made for it or still owed. */
    method DoPendingFunctors(others: seq<seq<Other>>)
      requires !calling && |others| == |pending| + 1
      modifies this`pending, this`calling, this`counter, this`edge, this`owed, this`executed
      ensures executed == old(executed) + old(pending) && !calling
      ensures pending == Queued(old(pending), others)
      ensures pending != [] ==> WillWake()
    {
      hide Queued, PushedBy;
      calling := true;
      var functors := pending;
      pending := [];
      OtherSteps(others[0]);
      NoneRun(others);
      var i := 0;
      assert functors[..0] == [];
      while i < |functors|
        invariant 0 <= i <= |functors| && calling
        invariant executed == old(executed) + functors[..i] && pending == Queued(functors[..i], others[..i + 1])
        invariant pending != [] ==> WillWake()
      {
        executed := executed + [functors[i]];
        QueueAll(functors[i].posts);
        OtherSteps(others[i + 1]);
        i := i + 1;
        Prefixes(functors, others, i);
      }
      assert functors[..i] == functors && others[..i + 1] == others;
      calling := false;
    }
  }

  lemma NonePushed()
    ensures PushedBy([]) == []
  {
  }

  lemma PushedSnoc(steps: seq<Other>, i: nat)
    requires 0 < i <= |steps|
    ensures PushedBy(steps[..i]) == PushedBy(steps[..i - 1]) + PushedBy([steps[i - 1]])
  {
    assert steps[..i][..i - 1] == steps[..i - 1];
    assert [steps[i - 1]][..0] == [];
  }

  lemma NoneRun(others: seq<seq<Other>>)
    requires others != []
    ensures Queued([], others[..1]) == PushedBy(others[0])
  {
  }

  lemma Prefixes(ts: seq<Task>, others: seq<seq<Other>>, i: nat)
    requires 0 < i <= |ts| && |others| == |ts| + 1
    ensures ts[..i] == ts[..i - 1] + [ts[i - 1]]
    ensures Queued(ts[..i], others[..i + 1]) == Queued(ts[..i - 1], others[..i]) + ts[i - 1].posts + PushedBy(others[i])
  {
    assert ts[..i][..i - 1] == ts[..i - 1];
    assert others[..i + 1][..i] == others[..i];
  }
}
