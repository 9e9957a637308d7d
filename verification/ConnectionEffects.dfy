/** What each call and each report does to a connection, in the terms of its
    callers: phases, the EPOLLOUT bit of its mask, and the tasks it queues. */
module ConnectionEffects {
  import opened Registry
  import opened Lifecycle

  // ---------------------------------------------------------------- closing

  lemma {:induction false} ActsDoNotClose(s: State, acts: seq<Act>, c: Lifecycle.Id)
    requires c in s.conns && !s.conns[c].phase.Disconnected?
    ensures var t := DoActs(s, acts); c in t.conns && !t.conns[c].phase.Disconnected?
    decreases |acts|
  {
    hide DoAct;
    if acts != [] {
      ActsDoNotClose(s, acts[..|acts| - 1], c);
      ActDoesNotClose(DoActs(s, acts[..|acts| - 1]), acts[|acts| - 1], c);
    }
  }

  lemma ActDoesNotClose(s: State, a: Act, c: Lifecycle.Id)
    requires c in s.conns && !s.conns[c].phase.Disconnected?
    ensures var t := DoAct(s, a); c in t.conns && !t.conns[c].phase.Disconnected?
  {
    hide Perform, Owned;
  }

  lemma ReadBits(ev: bv32)
    ensures ReadFlag(ev) <==> ev & EPOLLIN != 0 || ev & EPOLLPRI != 0 || ev & EPOLLRDHUP != 0
  {
  }

  /** A report closes the connection it is about. */
  predicate Finishes(ev: bv32, r: ReadResult) {
    || (ev & EPOLLHUP != 0 && ev & EPOLLIN == 0)
    || (r.Eof? && (ev & EPOLLIN != 0 || ev & EPOLLPRI != 0 || ev & EPOLLRDHUP != 0))
  }

  lemma FirstPart(s: State, c: Lifecycle.Id, ev: bv32, r: ReadResult)
    requires Inv(s) && Known(s, c) && Live(s.conns[c].phase) && NotActive(s, c) && !ClosesTwice(ev, r)
    ensures var t := CloseAndRead(s, c, ev, r);
            c in t.conns && (t.conns[c].phase.Disconnected? <==> Finishes(ev, r))
  {
    ReadBits(ev);
    hide Inv, ReadFlag, NotActive, Perform;
  }

  lemma StillClosed(s: State, t: State, c: Lifecycle.Id)
    requires Forward(s, t) && c in s.conns && s.conns[c].phase.Disconnected?
    ensures c in t.conns && t.conns[c].phase.Disconnected?
  {
    assert Later(s.conns[c], t.conns[c]);
    assert Rank(s.conns[c].phase) == 3;
  }

  lemma WriteKeepsConns(s: State, c: Lifecycle.Id, drained: Drain)
    requires Known(s, c)
    ensures HandleWrite(s, c, drained).conns == s.conns
  {
    hide Perform;
  }

  /** A report closes its connection exactly when it is a hang-up without EPOLLIN,
      or carries one of the three read flags and the read finds the end; whatever
      user code does in the callback does not close it yet. */
  lemma ReportClosesIff(s: State, c: Lifecycle.Id, ev: bv32, r: ReadResult, acts: seq<Act>, drained: Drain)
    requires Inv(s) && Known(s, c) && Live(s.conns[c].phase) && NotActive(s, c) && !ClosesTwice(ev, r)
    ensures var t := HandleEvent(s, c, ev, r, acts, drained);
            c in t.conns && (t.conns[c].phase.Disconnected? <==> Finishes(ev, r))
  {
    hide Inv, CloseAndRead, ClosesTwice, HandleWrite, DoActs, Live, NotActive, Finishes, Forward, Flag;
    var p := CloseAndRead(s, c, ev, r);
    var q := DoActs(p, acts);
    FirstPart(s, c, ev, r);
    if Finishes(ev, r) {
      ActsForward(p, acts);
      StillClosed(p, q, c);
    } else {
      ActsDoNotClose(p, acts, c);
    }
    if Known(q, c) {
      WriteKeepsConns(q, c, drained);
    }
  }

  // ---------------------------------------------------------------- writing

  lemma WriteBits(e: bv32)
    ensures Events(e, EnableWriting) & WRITE_EVENT != 0 && Events(e, DisableWriting) & WRITE_EVENT == 0
  {
  }

  /** A mask change on a live connection. */
  lemma MaskBit(s: State, c: Lifecycle.Id, r: Request)
    requires Inv(s) && Known(s, c) && Live(s.conns[c].phase) && (r.EnableWriting? || r.DisableWriting?)
    ensures var t := Mask(s, c, r);
            Known(t, c) && (IsWriting(t.poller.chan[c]) <==> r.EnableWriting?)
  {
    hide Inv, Tables, AllGood, Good, Lists, ActiveLive, Perform, Events, EndsQuiet;
    Parts(s);
    LiveOpen(s, c);
    MaskTables(s, Mask(s, c, r), c, r);
    WriteBits(s.poller.chan[c].events);
  }

  /** A send on a connected connection: EPOLLOUT is asked for afterwards exactly if
      it was before or bytes were left over; the write-complete callback is queued
      exactly if nothing was waiting, everything went out, and one is set. */
  lemma SendEffect(s: State, c: Lifecycle.Id, sent: Sent)
    requires Inv(s) && Known(s, c) && s.conns[c].phase.Connected?
    ensures var t := DoAct(s, CallSend(c, sent));
            && Known(t, c) && t.conns == s.conns
            && (IsWriting(t.poller.chan[c]) <==> IsWriting(s.poller.chan[c]) || sent.LeftOver?)
            && t.todo == s.todo + if !IsWriting(s.poller.chan[c]) && sent == AllOut(true) then [Notify(c)] else []
  {
    hide Inv, IsWriting, Perform;
    if !IsWriting(s.poller.chan[c]) && sent.LeftOver? {
      MaskBit(s, c, EnableWriting);
    }
  }

  /** A write event: EPOLLOUT is given up exactly when the buffer is drained, and
      then the write-complete callback is queued if one is set. */
  lemma WriteEffect(s: State, c: Lifecycle.Id, drained: Drain)
    requires Inv(s) && Known(s, c)
    ensures var t := HandleWrite(s, c, drained);
            && Known(t, c) && t.conns == s.conns
            && (IsWriting(t.poller.chan[c]) <==> IsWriting(s.poller.chan[c]) && drained.NotYet?)
            && t.todo == s.todo + if IsWriting(s.poller.chan[c]) && drained == Drained(true) then [Notify(c)] else []
  {
    hide Inv, IsWriting, Perform;
    if IsWriting(s.poller.chan[c]) && drained.Drained? {
      WritingLive(s, c);
      MaskBit(s, c, DisableWriting);
    }
  }

  lemma WritingLive(s: State, c: Lifecycle.Id)
    requires Inv(s) && Known(s, c) && IsWriting(s.poller.chan[c])
    ensures Live(s.conns[c].phase)
  {
    hide Inv, Tables, AllGood, Good, Lists, ActiveLive, IsWriting;
    Parts(s);
    GoodAt(s, c);
    WritingIsLive(s, c);
  }

  /** A report without user calls that does not close: the write side is looked at
      exactly when the report carries EPOLLOUT. */
  lemma ReportWrites(s: State, c: Lifecycle.Id, ev: bv32, r: ReadResult, drained: Drain)
    requires Inv(s) && Known(s, c) && !Finishes(ev, r)
    ensures var t := HandleEvent(s, c, ev, r, [], drained);
            && Known(t, c)
            && (IsWriting(t.poller.chan[c]) <==> IsWriting(s.poller.chan[c]) && !(ev & EPOLLOUT != 0 && drained.Drained?))
  {
    ReadBits(ev);
    assert CloseAndRead(s, c, ev, r) == s;
    WriteEffect(s, c, drained);
    hide Inv, IsWriting, CloseAndRead, HandleWrite;
  }

  // ---------------------------------------------------------------- phases

  /** What a call does to the phase of its connection, and to no other's. */
  lemma CallPhases(s: State, a: Act, c: Lifecycle.Id)
    requires Known(s, a.c) && c in s.conns
    ensures var p := s.conns[c].phase;
            var t := DoAct(s, a);
            && c in t.conns
            && (t.conns[c].phase != p <==> c == a.c && p.Connected? && (a.CallForceClose? || a.CallShutdown?))
            && (t.conns[c].phase != p ==> t.conns[c].phase.Disconnecting?)
  {
    hide Perform, Owned;
  }

  // ---------------------------------------------------------------- pointers

  /** User code that is handed a pointer may keep it, and then owns the connection
      until it lets go; letting go closes the socket exactly if nobody else has a
      pointer. */
  lemma PointerEffect(s: State, c: Lifecycle.Id)
    requires Inv(s) && Holding(s) && Known(s, c) && Owned(s, c)
    ensures var t := DoAct(s, Keep(c)); c in t.kept && Owned(t, c) && t.conns == s.conns
    ensures var t := DoAct(s, LetGo(c));
            c !in t.kept && c in t.conns && (t.conns[c].open <==> Owned(s.(kept := s.kept - {c}), c))
  {
    hide Inv, Mentions;
    var t := DoAct(s, LetGo(c));
    DropHolding(s, c);
    assert Owned(t, c) <==> Owned(s.(kept := s.kept - {c}), c);
  }
}
