/** The output side of `TcpConnection`: direct writes, the output buffer, and
    the half close, against a kernel that takes as much as it likes. */
module TcpOutput {
  import opened Options

  datatype Phase = Disconnected | Connecting | Connected | Disconnecting

  /** What a `write` call returns; `EOther` is every other errno. */
  datatype Written = Wrote(n: nat) | EAgain | EPipe | EConnReset | EOther

  datatype State = State(
    phase: Phase,
    writing: bool,        // EPOLLOUT is among the channel's events
    queued: string,       // readable bytes of outputBuffer_
    // what the outside has seen
    wire: string,         // bytes the kernel took
    accepted: string,     // the messages, but for those dropped whole
    shut: nat,            // SHUT_WR calls
    early: bool,          // a SHUT_WR came while accepted bytes were not on the wire
    late: bool)           // a write call came after a SHUT_WR

  function Start(): State {
    State(Connecting, false, "", "", "", 0, false, false)
  }

  /** A result the kernel can give for a `write` of `len` bytes. */
  predicate Possible(r: Written, len: nat) {
    r.Wrote? ==> r.n <= len
  }

  function Taken(r: Written): nat {
    if r.Wrote? then r.n else 0
  }

  predicate Fatal(r: Written) {
    r.EPipe? || r.EConnReset?
  }

  // ---------------------------------------------------------------- steps

  function Established(s: State): State
    requires s.phase.Connecting?
  {
    s.(phase := Connected)
  }

  /** Nothing queued and not waiting for the socket: write at once. */
  predicate Direct(s: State) {
    !s.writing && s.queued == ""
  }

  /** `sendInLoop` with a message. */
  function SendInLoop(s: State, msg: string, r: Written): State
    requires Possible(r, |msg|)
  {
    if s.phase.Disconnected? then s
    else
      var n := if Direct(s) then Taken(r) else 0;
      var rest := msg[n..];
      var fault := Direct(s) && Fatal(r);
      var t := s.(wire := s.wire + msg[..n],
                  accepted := if fault then s.accepted else s.accepted + msg,
                  late := s.late || (Direct(s) && s.shut > 0));
      if !fault && rest != "" then t.(queued := s.queued + rest, writing := true) else t
  }

  /** `send` on the loop thread. */
  function Send(s: State, msg: string, r: Written): State
    requires Possible(r, |msg|)
  {
    if s.phase.Connected? then SendInLoop(s, msg, r) else s
  }

  function ShutdownWriteInLoop(s: State): State {
    if s.writing then s
    else s.(shut := s.shut + 1, early := s.early || s.wire != s.accepted)
  }

  function HandleWrite(s: State, r: Written): State
    requires Possible(r, |s.queued|)
  {
    if !s.writing then s
    else
      var n := Taken(r);
      var t := s.(wire := s.wire + s.queued[..n], queued := s.queued[n..], late := s.late || s.shut > 0);
      if n > 0 && t.queued == "" then
        var u := t.(writing := false);
        if u.phase.Disconnecting? then ShutdownWriteInLoop(u) else u
      else t
  }

  /** `shutdown` on the loop thread. */
  function Shutdown(s: State): State {
    if s.phase.Connected? then ShutdownWriteInLoop(s.(phase := Disconnecting)) else s
  }

  /** `forceClose`; the close itself is queued. */
  function ForceClose(s: State): State {
    if s.phase.Connected? || s.phase.Disconnecting? then s.(phase := Disconnecting) else s
  }

  /** `handleClose`, which disables all events. */
  function HandleClose(s: State): State
    requires s.phase.Connected? || s.phase.Disconnecting?
  {
    s.(phase := Disconnected, writing := false)
  }

  // ---------------------------------------------------------------- the invariant

  ghost predicate Inv(s: State) {
    // conservation: no accepted byte lost, doubled or reordered
    && s.wire + s.queued == s.accepted
    // interest in EPOLLOUT exactly while there is something to send
    && (!s.phase.Disconnected? ==> (s.writing <==> s.queued != ""))
    && (s.phase.Disconnected? ==> !s.writing)
    // the half close
    && s.shut <= 1 && !s.early && !s.late
    && (s.shut == 1 ==> s.queued == "" && (s.phase.Disconnecting? || s.phase.Disconnected?))
    && (s.phase.Connecting? ==> s.accepted == "" && s.shut == 0)
  }

  lemma SendInv(s: State, msg: string, r: Written)
    requires Inv(s) && Possible(r, |msg|)
    ensures Inv(Send(s, msg, r))
  {
    if s.phase.Connected? {
      var n := if Direct(s) then Taken(r) else 0;
      assert msg[..n] + msg[n..] == msg;
      assert n == 0 ==> s.wire + msg[..n] == s.wire && msg[n..] == msg;
      assert s.wire + (s.queued + msg) == (s.wire + s.queued) + msg;
      assert Direct(s) ==> s.wire + msg[..n] + msg[n..] == s.wire + msg;
    }
  }

  lemma HandleWriteInv(s: State, r: Written)
    requires Inv(s) && Possible(r, |s.queued|)
    ensures Inv(HandleWrite(s, r))
  {
    var n := Taken(r);
    assert s.queued == s.queued[..n] + s.queued[n..];
    assert s.wire + s.queued[..n] + s.queued[n..] == s.wire + s.queued;
  }

  datatype Event = DoEstablish | DoSend(msg: string, r: Written) | DoWrite(r: Written)
                 | DoShutdown | DoForceClose | DoClose

  predicate Enabled(s: State, e: Event) {
    match e
    case DoEstablish => s.phase.Connecting?
    case DoSend(msg, r) => Possible(r, |msg|)
    case DoWrite(r) => Possible(r, |s.queued|)
    case DoShutdown => true
    case DoForceClose => true
    case DoClose => s.phase.Connected? || s.phase.Disconnecting?
  }

  function Next(s: State, e: Event): State
    requires Enabled(s, e)
  {
    match e
    case DoEstablish => Established(s)
    case DoSend(msg, r) => Send(s, msg, r)
    case DoWrite(r) => HandleWrite(s, r)
    case DoShutdown => Shutdown(s)
    case DoForceClose => ForceClose(s)
    case DoClose => HandleClose(s)
  }

  lemma NextInv(s: State, e: Event)
    requires Inv(s) && Enabled(s, e)
    ensures Inv(Next(s, e))
  {
    match e {
      case DoSend(msg, r) => SendInv(s, msg, r);
      case DoWrite(r) => HandleWriteInv(s, r);
      case _ =>
    }
  }

  /** The state after a list of events, if each could happen in its turn. */
  function Execute(events: seq<Event>): (r: Option<State>)
    ensures r.Some? ==> Inv(r.value)
    decreases |events|
  {
    if events == [] then Some(Start())
    else
      var before := Execute(events[..|events| - 1]);
      var e := events[|events| - 1];
      if before.Some? && Enabled(before.value, e) then
        NextInv(before.value, e);
        Some(Next(before.value, e))
      else None
  }

  // ---------------------------------------------------------------- by the events alone

  datatype Stage = Before | Open | Closing | Gone

  /** How far a connection is, by what has happened to it. */
  function StageOf(events: seq<Event>): Stage {
    if events == [] then Before
    else
      var g := StageOf(events[..|events| - 1]);
      match events[|events| - 1]
      case DoEstablish => Open
      case DoShutdown => if g.Open? then Closing else g
      case DoForceClose => if g.Open? then Closing else g
      case DoClose => Gone
      case _ => g
  }

  predicate Ends(e: Event) {
    e.DoShutdown? || e.DoForceClose? || e.DoClose?
  }

  /** How many bytes wait, by what was sent and what the kernel took. */
  function Backlog(events: seq<Event>): nat {
    if events == [] then 0
    else
      var before := events[..|events| - 1];
      var b := Backlog(before);
      match events[|events| - 1]
      case DoSend(msg, r) =>
        if !StageOf(before).Open? then b
        else if b > 0 then b + |msg|
        else (
          match r
          case Wrote(n) => if n <= |msg| then |msg| - n else 0
          case EPipe => 0
          case EConnReset => 0
          case _ => |msg|
        )
      case DoWrite(r) => if !StageOf(before).Gone? && r.Wrote? && r.n <= b then b - r.n else b
      case _ => b
  }

  /** The messages that the connection takes on, in order: those sent between its
      establishment and the first shutdown or close, less the ones that found
      nothing waiting and were refused by a dead peer. */
  function Sent(events: seq<Event>): string {
    if events == [] then ""
    else
      var before := events[..|events| - 1];
      var e := events[|events| - 1];
      Sent(before) +
      if e.DoSend? && StageOf(before).Open? && !(Backlog(before) == 0 && (e.r.EPipe? || e.r.EConnReset?)) then e.msg else ""
  }

  /** The half closes: a shutdown that finds nothing waiting, or the write that
      takes the last byte of a connection that is to end. */
  function HalfCloses(events: seq<Event>): nat {
    if events == [] then 0
    else
      var before := events[..|events| - 1];
      var e := events[|events| - 1];
      var b := Backlog(before);
      HalfCloses(before) +
      if (e.DoShutdown? && StageOf(before).Open? && b == 0)
         || (e.DoWrite? && StageOf(before).Closing? && b > 0 && e.r == Wrote(b))
      then 1 else 0
  }

  predicate Matches(g: Stage, p: Phase) {
    match g
    case Before => p.Connecting?
    case Open => p.Connected?
    case Closing => p.Disconnecting?
    case Gone => p.Disconnected?
  }

  /** The state is what the events make it. */
  ghost predicate Follows(s: State, events: seq<Event>) {
    && Matches(StageOf(events), s.phase)
    && |s.queued| == Backlog(events)
    && s.accepted == Sent(events)
    && s.shut == HalfCloses(events)
  }

  lemma StageNext(s: State, events: seq<Event>, e: Event)
    requires Enabled(s, e) && Matches(StageOf(events), s.phase)
    ensures Matches(StageOf(events + [e]), Next(s, e).phase)
  {
    assert (events + [e])[..|events|] == events;
  }

  lemma BacklogNext(s: State, events: seq<Event>, e: Event)
    requires Inv(s) && Enabled(s, e) && Matches(StageOf(events), s.phase) && |s.queued| == Backlog(events)
    ensures |Next(s, e).queued| == Backlog(events + [e])
  {
    hide StageOf;
    assert (events + [e])[..|events|] == events;
  }

  lemma SentNext(s: State, events: seq<Event>, e: Event)
    requires Inv(s) && Enabled(s, e) && Follows(s, events)
    ensures Next(s, e).accepted == Sent(events + [e])
  {
    hide StageOf, Backlog, HalfCloses;
    assert (events + [e])[..|events|] == events;
  }

  lemma HalfCloseNext(s: State, events: seq<Event>, e: Event)
    requires Inv(s) && Enabled(s, e) && Follows(s, events)
    ensures Next(s, e).shut == HalfCloses(events + [e])
  {
    hide StageOf, Backlog, Sent;
    assert (events + [e])[..|events|] == events;
  }

  lemma FollowsNext(s: State, events: seq<Event>, e: Event)
    requires Inv(s) && Enabled(s, e) && Follows(s, events)
    ensures Follows(Next(s, e), events + [e])
  {
    hide StageOf, Backlog, Sent, HalfCloses, Next, Inv, Enabled;
    StageNext(s, events, e);
    BacklogNext(s, events, e);
    SentNext(s, events, e);
    HalfCloseNext(s, events, e);
  }

  lemma {:induction false} RunFollows(events: seq<Event>)
    requires Execute(events).Some?
    ensures Follows(Execute(events).value, events)
    decreases |events|
  {
    hide Inv, Next, Enabled, Follows;
    if events == [] {
      StartFollows();
    } else {
      var before, e := events[..|events| - 1], events[|events| - 1];
      RunFollows(before);
      assert before + [e] == events;
      FollowsNext(Execute(before).value, before, e);
    }
  }

  lemma StartFollows()
    ensures Follows(Start(), [])
  {
  }

  /** Established at `i`, and neither shut down nor closed since. */
  predicate OpenSince(events: seq<Event>, i: nat) {
    i < |events| && events[i].DoEstablish? && forall j :: i < j < |events| ==> !Ends(events[j])
  }

  lemma SinceSnoc(events: seq<Event>, i: nat)
    requires i < |events| - 1
    ensures OpenSince(events, i) <==> OpenSince(events[..|events| - 1], i) && !Ends(events[|events| - 1])
  {
    var before := events[..|events| - 1];
    assert forall j :: 0 <= j < |before| ==> before[j] == events[j];
  }

  /** The connection takes messages exactly when it has been established and
      neither shut down nor closed since. */
  lemma {:induction false} OpenIff(events: seq<Event>)
    ensures StageOf(events).Open? <==> exists i :: OpenSince(events, i)
    decreases |events|
  {
    if events != [] {
      var n := |events| - 1;
      OpenIff(events[..n]);
      LastStage(events);
      hide StageOf;
      forall i | 0 <= i < n ensures OpenSince(events, i) <==> OpenSince(events[..n], i) && !Ends(events[n]) {
        SinceSnoc(events, i);
      }
      assert OpenSince(events, n) <==> events[n].DoEstablish?;
      hide OpenSince, Ends;
      if StageOf(events).Open? && !events[n].DoEstablish? {
        var i :| OpenSince(events[..n], i);
        InsideRun(events[..n], i);
        assert OpenSince(events, i);
      }
      if i :| OpenSince(events, i) {
        InsideRun(events, i);
      }
    }
  }

  lemma InsideRun(events: seq<Event>, i: nat)
    requires OpenSince(events, i)
    ensures i < |events|
  {
  }

  lemma LastStage(events: seq<Event>)
    requires events != []
    ensures var e := events[|events| - 1];
            StageOf(events).Open? <==> e.DoEstablish? || (StageOf(events[..|events| - 1]).Open? && !Ends(e))
  {
  }

  lemma PhaseIff(events: seq<Event>)
    requires Execute(events).Some?
    ensures Execute(events).value.phase.Connected? <==> exists i :: OpenSince(events, i)
  {
    RunFollows(events);
    OpenIff(events);
    hide OpenSince, StageOf;
  }

  /** In every run: the wire and the buffer together are the messages taken on, in
      order, the buffer the bytes that the events leave waiting; until the end
      EPOLLOUT is asked for exactly while some wait; the half close happens when
      the events say, so at most once, with every message on the wire, and
      nothing is written after it. */
  lemma OutputConserved(events: seq<Event>)
    requires Execute(events).Some?
    ensures var s := Execute(events).value;
            && s.wire + s.queued == Sent(events) && |s.queued| == Backlog(events)
            && (!s.phase.Disconnected? ==> (s.writing <==> Backlog(events) > 0))
            && s.shut == HalfCloses(events) <= 1 && !s.early && !s.late
            && (HalfCloses(events) == 1 ==> s.wire == Sent(events))
  {
    RunFollows(events);
    hide StageOf, Backlog, Sent, HalfCloses;
    var s := Execute(events).value;
    assert s.queued == "" ==> s.wire + s.queued == s.wire;
  }

  lemma ShutIsFinal(s: State, events: seq<Event>, e: Event)
    requires Inv(s) && Enabled(s, e) && Follows(s, events) && s.shut == 1
    ensures Next(s, e).shut == 1 && Next(s, e).wire == s.wire
  {
    hide StageOf, Backlog, Sent, HalfCloses;
    assert s.queued == "";
  }

  /** Nothing is written after the half close: from then on the wire stays as it
      is, whatever happens. */
  lemma {:induction false} WireIsFinal(events: seq<Event>, i: nat)
    requires Execute(events).Some? && i <= |events|
    ensures Execute(events[..i]).Some?
    ensures HalfCloses(events[..i]) == 1 ==>
              HalfCloses(events) == 1 && Execute(events).value.wire == Execute(events[..i]).value.wire
    decreases |events|
  {
    hide Inv, Next, Enabled, HalfCloses, Sent, Backlog, StageOf;
    RunFollows(events);
    if i == |events| {
      assert events[..i] == events;
    } else {
      var n := |events| - 1;
      var before := events[..n];
      WireIsFinal(before, i);
      assert before[..i] == events[..i];
      RunFollows(before);
      if HalfCloses(before) == 1 {
        ShutIsFinal(Execute(before).value, before, events[n]);
      }
    }
  }

  lemma Extend(events: seq<Event>, e: Event)
    requires Execute(events).Some? && Enabled(Execute(events).value, e)
    ensures Execute(events + [e]) == Some(Next(Execute(events).value, e))
  {
    assert (events + [e])[..|events|] == events;
  }

  /** A shutdown is not forgotten: from any run that leaves the connection open,
      shutting down and then letting the socket take everything half closes it,
      with all messages out. */
  lemma ShutdownCompletes(events: seq<Event>)
    requires Execute(events).Some? && StageOf(events).Open?
    ensures var todo: seq<Event> := [DoShutdown, DoWrite(Wrote(Backlog(events)))];
            && Execute(events + todo).Some?
            && Execute(events + todo).value.shut == 1
            && Execute(events + todo).value.wire == Sent(events)
  {
    var s := Execute(events).value;
    RunFollows(events);
    hide StageOf, Backlog, Sent, HalfCloses;
    var n := Backlog(events);
    Extend(events, DoShutdown);
    Extend(events + [DoShutdown], DoWrite(Wrote(n)));
    assert events + [DoShutdown] + [DoWrite(Wrote(n))] == events + [DoShutdown, DoWrite(Wrote(n))];
    assert s.queued[n..] == "" && s.queued[..n] == s.queued;
    assert s.queued == "" ==> s.wire + s.queued == s.wire;
  }

  /** A first message goes out: established, sent whole, on the wire. */
  lemma FirstMessageExample(msg: string)
    ensures var events: seq<Event> := [DoEstablish, DoSend(msg, Wrote(|msg|))];
            && Execute(events).Some? && Execute(events).value.wire == msg && Sent(events) == msg
  {
    var one: seq<Event> := [DoEstablish];
    var both: seq<Event> := [DoEstablish, DoSend(msg, Wrote(|msg|))];
    assert one[..0] == [] && both[..1] == one;
    Extend([], DoEstablish);
    assert [] + one == one;
    Extend(one, DoSend(msg, Wrote(|msg|)));
    assert one + [DoSend(msg, Wrote(|msg|))] == both;
    assert msg[..|msg|] == msg && msg[|msg|..] == "";
  }
}
