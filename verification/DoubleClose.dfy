/** A run in which a connection's own assertion fails: accepted, established,
    and then reported with a hang-up that carries EPOLLRDHUP but not EPOLLIN,
    by a peer that is gone. It rests on a kernel that may report any mask; Linux
    sets EPOLLIN along with EPOLLRDHUP on a TCP socket. */
module DoubleClose {
  import opened Options
  import opened Registry
  import TcpOutput
  import opened Lifecycle

  const REPORT: bv32 := EPOLLHUP | EPOLLRDHUP

  const EVENTS: bv32 := NONE_EVENT | READ_EVENT

  function Opened(phase: TcpOutput.Phase): Conn {
    Conn(phase, true, 0, 0)
  }

  function Idle(c: Lifecycle.Id, fd: Fd): Poller {
    Poller(map[c := Channel(fd, NONE_EVENT, INIT)], map[], map[], 0)
  }

  function Listening(c: Lifecycle.Id, fd: Fd): Poller {
    Poller(map[c := Channel(fd, EVENTS, LISTEN)], map[fd := c], map[fd := (EVENTS, c)], 0)
  }

  /** The states of the run, one after the other. */
  function Moment(c: Lifecycle.Id, fd: Fd, k: nat): Lifecycle.State {
    var begun := Lifecycle.State.State(map[c := Opened(TcpOutput.Connecting)], Idle(c, fd), {}, [], 0, {}, {}, Both(c), Polling, [], false);
    var tasks := begun.(todo := [AddConnect(c), Establish(c)], posting := Leaving(c));
    var up := begun.(conns := map[c := Opened(TcpOutput.Connected)], poller := Listening(c, fd), connectSet := {c}, posting := Leaving(c));
    match k
    case 0 => Lifecycle.Start()
    case 1 => begun
    case 2 => begun.(todo := [AddConnect(c)], posting := Second(c))
    case 3 => tasks
    case 4 => tasks.(place := Handling)
    case 5 => tasks.(place := Running, left := 2, held := {c})
    case 6 => tasks.(place := Running, left := 1, held := {c}, todo := [Establish(c)], connectSet := {c})
    case 7 => up.(place := Running, held := {c})
    case 8 => up
    case _ => up.(place := Handling, active := [(c, REPORT)])
  }

  function Script(c: Lifecycle.Id, fd: Fd): seq<Lifecycle.Event> {
    [NewConnection(c, fd), PostNext, PostNext, PollReturns([]), BeginFunctors,
     RunNext([]), RunNext([]), EndFunctors, PollReturns([(c, REPORT)])]
  }

  lemma Accepted(c: Lifecycle.Id, fd: Fd, k: nat)
    requires k < 5
    ensures var s, e := Moment(c, fd, k), Script(c, fd)[k];
            Lifecycle.Enabled(s, e) && Lifecycle.Next(s, e) == Moment(c, fd, k + 1)
  {
    if k == 4 {
      assert Ids([AddConnect(c), Establish(c)]) == {c} by {
        assert [AddConnect(c), Establish(c)][0].c == c;
      }
    }
  }

  lemma Added(c: Lifecycle.Id, fd: Fd)
    ensures var s, e := Moment(c, fd, 5), Script(c, fd)[5];
            Lifecycle.Enabled(s, e) && Lifecycle.Next(s, e) == Moment(c, fd, 6)
  {
    assert [AddConnect(c), Establish(c)][1..] == [Establish(c)];
  }

  lemma Listened(c: Lifecycle.Id, fd: Fd)
    ensures Perform(Idle(c, fd), c, EnableReading) == Listening(c, fd)
  {
  }

  lemma MadeUp(c: Lifecycle.Id, fd: Fd)
    ensures var s, e := Moment(c, fd, 6), Script(c, fd)[6];
            Lifecycle.Enabled(s, e) && Lifecycle.Next(s, e) == Moment(c, fd, 7)
  {
    assert [Establish(c)][1..] == [];
    Listened(c, fd);
    hide Perform;
  }

  lemma RoundOver(c: Lifecycle.Id, fd: Fd)
    ensures var s, e := Moment(c, fd, 7), Script(c, fd)[7];
            Lifecycle.Enabled(s, e) && Lifecycle.Next(s, e) == Moment(c, fd, 8)
  {
    hide Mentions;
    var s := Moment(c, fd, 7).(place := Polling, held := {});
    assert Owned(s, c);
    assert Reap(s).conns == s.conns;
  }

  lemma Reported(c: Lifecycle.Id, fd: Fd)
    ensures var s, e := Moment(c, fd, 8), Script(c, fd)[8];
            Lifecycle.Enabled(s, e) && Lifecycle.Next(s, e) == Moment(c, fd, 9)
  {
  }

  lemma Happens(c: Lifecycle.Id, fd: Fd, k: nat)
    requires k < 9
    ensures var s, e := Moment(c, fd, k), Script(c, fd)[k];
            Lifecycle.Enabled(s, e) && Lifecycle.Next(s, e) == Moment(c, fd, k + 1)
  {
    hide Moment, Lifecycle.Next, Lifecycle.Enabled;
    match k {
      case 5 => Added(c, fd);
      case 6 => MadeUp(c, fd);
      case 7 => RoundOver(c, fd);
      case 8 => Reported(c, fd);
      case _ => Accepted(c, fd, k);
    }
  }

  lemma OneMore(events: seq<Lifecycle.Event>, e: Lifecycle.Event)
    requires Lifecycle.Execute(events).Some? && Lifecycle.Enabled(Lifecycle.Execute(events).value, e)
    ensures Lifecycle.Execute(events + [e]) == Some(Lifecycle.Next(Lifecycle.Execute(events).value, e))
  {
    hide Lifecycle.Next, Lifecycle.Enabled, Lifecycle.Inv;
    assert (events + [e])[..|events|] == events;
  }

  lemma Nothing()
    ensures Lifecycle.Execute([]) == Some(Lifecycle.Start())
  {
  }

  lemma {:induction false} Reaches(c: Lifecycle.Id, fd: Fd, k: nat)
    requires k <= 9
    ensures Lifecycle.Execute(Script(c, fd)[..k]) == Some(Moment(c, fd, k))
    decreases k, 1
  {
    hide Lifecycle.Next, Lifecycle.Enabled, Lifecycle.Inv, Lifecycle.Execute;
    if k == 0 {
      Nothing();
    } else {
      Onward(c, fd, k);
    }
  }

  lemma {:induction false} Onward(c: Lifecycle.Id, fd: Fd, k: nat)
    requires 0 < k <= 9
    ensures Lifecycle.Execute(Script(c, fd)[..k]) == Some(Moment(c, fd, k))
    decreases k, 0
  {
    hide Moment, Lifecycle.Next, Lifecycle.Enabled, Lifecycle.Inv, Lifecycle.Execute;
    var script := Script(c, fd);
    Reaches(c, fd, k - 1);
    Happens(c, fd, k - 1);
    OneMore(script[..k - 1], script[k - 1]);
    assert script[..k] == script[..k - 1] + [script[k - 1]];
  }

  lemma Mask()
    ensures ClosesTwice(REPORT, Eof)
  {
  }

  /** The report that closes twice can come, for any connection: the run gets
      there, and dispatching the report fires the assertion. */
  lemma AbortReachable(c: Lifecycle.Id, fd: Fd)
    ensures Lifecycle.Execute(Script(c, fd)).Some?
    ensures var s := Lifecycle.Execute(Script(c, fd)).value;
            && s.active == [(c, REPORT)] && Known(Take(s), c)
            && HandleEvent(Take(s), c, REPORT, Eof, [], NotYet).aborted
  {
    hide HandleEvent, Lifecycle.Inv, ClosesTwice, NotActive, Lifecycle.Execute, Live;
    Reaches(c, fd, 9);
    assert Script(c, fd)[..9] == Script(c, fd);
    var s := Moment(c, fd, 9);
    TakeInv(s);
    Mask();
    AbortsIff(Take(s), c, REPORT, Eof, [], NotYet);
  }
}
