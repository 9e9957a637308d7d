/** A run in which a socket outlives the round that destroys its connection: the
    peer closes while the main thread has not yet returned from `newConnection`. */
module LingeringRun {
  import opened Options
  import opened Registry
  import TcpOutput
  import opened Lifecycle
  import opened DoubleClose

  function Gone(destroys: nat, open: bool): Conn {
    Conn(TcpOutput.Disconnected, open, 1, destroys)
  }

  function Quieted(c: Lifecycle.Id, fd: Fd): Poller {
    Poller(map[c := Channel(fd, NONE_EVENT, NOT_LISTEN)], map[fd := c], map[], 0)
  }

  function Removed(c: Lifecycle.Id, fd: Fd): Poller {
    Poller(map[c := Channel(fd, NONE_EVENT, DELETED)], map[], map[], 0)
  }

  /** From the connection that is up, which `DoubleClose` has too. */
  function Stage(c: Lifecycle.Id, fd: Fd, k: nat): Lifecycle.State {
    var up := Moment(c, fd, 8);
    var closed := up.(conns := map[c := Gone(0, true)], poller := Quieted(c, fd), connectSet := {}, todo := [Destroy(c)], place := Handling);
    var done := up.(conns := map[c := Gone(1, true)], poller := Removed(c, fd), connectSet := {});
    match k
    case 0 => up
    case 1 => up.(place := Handling, active := [(c, EPOLLIN)])
    case 2 => closed
    case 3 => closed.(place := Running, left := 1, held := {c})
    case 4 => done.(place := Running, held := {c})
    case 5 => done
    case _ => done.(conns := map[c := Gone(1, false)], posting := Nothing)
  }

  function Ending(c: Lifecycle.Id): seq<Lifecycle.Event> {
    [PollReturns([(c, EPOLLIN)]), Dispatch(Eof, [], NotYet), BeginFunctors, RunNext([]), EndFunctors, PostNext]
  }

  lemma Polled(c: Lifecycle.Id, fd: Fd)
    ensures var s, e := Stage(c, fd, 0), Ending(c)[0];
            Lifecycle.Enabled(s, e) && Lifecycle.Next(s, e) == Stage(c, fd, 1)
  {
  }

  lemma Quieting(c: Lifecycle.Id, fd: Fd)
    ensures Perform(DoubleClose.Listening(c, fd), c, DisableAll) == Quieted(c, fd)
  {
    assert map[fd := (EVENTS, c)] - {fd} == map[];
  }

  lemma InFlag()
    ensures !Hangup(EPOLLIN) && ReadFlag(EPOLLIN) && !Flag(EPOLLIN, EPOLLOUT)
  {
  }

  lemma Closed(c: Lifecycle.Id, fd: Fd)
    ensures var s, e := Stage(c, fd, 1), Ending(c)[1];
            Lifecycle.Enabled(s, e) && Lifecycle.Next(s, e) == Stage(c, fd, 2)
  {
    Quieting(c, fd);
    InFlag();
    hide Perform, Hangup, ReadFlag, Flag;
    assert [(c, EPOLLIN)][1..] == [];
    assert [] + [Destroy(c)] == [Destroy(c)];
  }

  lemma Begun(c: Lifecycle.Id, fd: Fd)
    ensures var s, e := Stage(c, fd, 2), Ending(c)[2];
            Lifecycle.Enabled(s, e) && Lifecycle.Next(s, e) == Stage(c, fd, 3)
  {
    assert Ids([Destroy(c)]) == {c} by {
      assert [Destroy(c)][0].c == c;
    }
  }

  lemma Removing(c: Lifecycle.Id, fd: Fd)
    ensures RemoveChannel(Quieted(c, fd), c) == Removed(c, fd)
  {
    assert map[fd := c] - {fd} == map[];
  }

  lemma Destroyed(c: Lifecycle.Id, fd: Fd)
    ensures var s, e := Stage(c, fd, 3), Ending(c)[3];
            Lifecycle.Enabled(s, e) && Lifecycle.Next(s, e) == Stage(c, fd, 4)
  {
    Removing(c, fd);
    hide RemoveChannel;
    assert [Destroy(c)][1..] == [];
  }

  lemma Ended(c: Lifecycle.Id, fd: Fd)
    ensures var s, e := Stage(c, fd, 4), Ending(c)[4];
            Lifecycle.Enabled(s, e) && Lifecycle.Next(s, e) == Stage(c, fd, 5)
  {
    hide Mentions;
    var s := Stage(c, fd, 4).(place := Polling, held := {});
    assert Owned(s, c);
    assert Reap(s).conns == s.conns;
  }

  lemma Returned(c: Lifecycle.Id, fd: Fd)
    ensures var s, e := Stage(c, fd, 5), Ending(c)[5];
            Lifecycle.Enabled(s, e) && Lifecycle.Next(s, e) == Stage(c, fd, 6)
  {
    var s := Stage(c, fd, 5).(posting := Nothing);
    assert !Owned(s, c);
    assert Reap(s).conns == map[c := Gone(1, false)];
  }

  lemma Follows(c: Lifecycle.Id, fd: Fd, k: nat)
    requires k < 6
    ensures var s, e := Stage(c, fd, k), Ending(c)[k];
            Lifecycle.Enabled(s, e) && Lifecycle.Next(s, e) == Stage(c, fd, k + 1)
  {
    hide Stage, Lifecycle.Next, Lifecycle.Enabled;
    match k {
      case 0 => Polled(c, fd);
      case 1 => Closed(c, fd);
      case 2 => Begun(c, fd);
      case 3 => Destroyed(c, fd);
      case 4 => Ended(c, fd);
      case 5 => Returned(c, fd);
    }
  }

  function Life(c: Lifecycle.Id, fd: Fd, k: nat): seq<Lifecycle.Event>
    requires k <= 6
  {
    Script(c, fd)[..8] + Ending(c)[..k]
  }

  lemma LifeMore(c: Lifecycle.Id, fd: Fd, k: nat)
    requires k < 6
    ensures Life(c, fd, k + 1) == Life(c, fd, k) + [Ending(c)[k]]
  {
  }

  lemma UpFirst(c: Lifecycle.Id, fd: Fd)
    ensures Lifecycle.Execute(Life(c, fd, 0)) == Some(Stage(c, fd, 0))
  {
    hide Lifecycle.Execute, Moment;
    Reaches(c, fd, 8);
    assert Ending(c)[..0] == [];
    assert Script(c, fd)[..8] + [] == Script(c, fd)[..8];
  }

  lemma {:induction false} LifeReaches(c: Lifecycle.Id, fd: Fd, k: nat)
    requires k <= 6
    ensures Lifecycle.Execute(Life(c, fd, k)) == Some(Stage(c, fd, k))
    decreases k
  {
    hide Stage, Life, Lifecycle.Next, Lifecycle.Enabled, Lifecycle.Inv, Lifecycle.Execute;
    if k == 0 {
      UpFirst(c, fd);
    } else {
      LifeReaches(c, fd, k - 1);
      Follows(c, fd, k - 1);
      OneMore(Life(c, fd, k - 1), Ending(c)[k - 1]);
      LifeMore(c, fd, k - 1);
    }
  }

  /** The round is over and the connection destroyed, but its socket is open: the
      main thread lingers; when it returns, the socket closes. */
  lemma LingersReachable(c: Lifecycle.Id, fd: Fd)
    ensures Lifecycle.Execute(Life(c, fd, 5)).Some? && Lifecycle.Execute(Life(c, fd, 6)).Some?
    ensures var s := Lifecycle.Execute(Life(c, fd, 5)).value;
            && s.place.Polling? && c in s.conns && s.conns[c].destroys == 1 && s.conns[c].open && Lingers(s, c)
    ensures var t := Lifecycle.Execute(Life(c, fd, 6)).value;
            c in t.conns && !t.conns[c].open && !Lingers(t, c)
  {
    hide Lifecycle.Execute, Life;
    LifeReaches(c, fd, 5);
    LifeReaches(c, fd, 6);
  }
}
