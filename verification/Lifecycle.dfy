/** The life of the connections of one loop: from `TcpServer::newConnection` on
    the main thread to the closing of the socket, through the loop's task list,
    its epoller, and the events the kernel reports.

    `todo` is the rest of the tasks being run followed by the pending ones (see
    `EventLoop`); `held` are the connections that the vector of tasks being run
    still refers to, which it does until it is destroyed as a whole. */
module Lifecycle {
  import opened Options
  import opened Registry
  import opened TcpOutput

  type Id = nat

  /** Tasks own the connection they are about. */
  datatype Functor = AddConnect(c: Id) | Establish(c: Id) | ForceCloseInLoop(c: Id) | Destroy(c: Id) | Notify(c: Id)

  /** `open` until the destructor closes the socket. */
  datatype Conn = Conn(phase: Phase, open: bool, closes: nat, destroys: nat)

  /** How far the main thread is in `newConnection`: its local pointer owns the
      connection until the function returns, after both posts. */
  datatype Posting = Nothing | Both(c: Id) | Second(c: Id) | Leaving(c: Id)

  datatype Place = Polling | Handling | Running

  datatype State = State(
    conns: map<Id, Conn>,
    poller: Poller,
    connectSet: set<Id>,
    todo: seq<Functor>, left: nat, held: set<Id>,
    kept: set<Id>,                       // connections user code has a pointer to
    posting: Posting,
    place: Place, active: seq<(Id, bv32)>,
    aborted: bool)                       // an `assert` of the source has failed

  predicate Known(s: State, c: Id) {
    c in s.conns && c in s.poller.chan
  }

  predicate Live(p: Phase) {
    p.Connected? || p.Disconnecting?
  }

  // ---------------------------------------------------------------- effects

  function SetPhase(s: State, c: Id, p: Phase): State
    requires c in s.conns
  {
    s.(conns := s.conns[c := s.conns[c].(phase := p)])
  }

  function Queue(s: State, f: Functor): State {
    s.(todo := s.todo + [f])
  }

  function Mask(s: State, c: Id, r: Request): State
    requires Known(s, c)
  {
    s.(poller := Perform(s.poller, c, r))
  }

  /** `handleClose` with the server's close callback: the last act is queued,
      and only then does the set let go of the connection. */
  function HandleClose(s: State, c: Id): State
    requires Known(s, c)
  {
    if !Live(s.conns[c].phase) then s.(aborted := true)
    else
      var k := s.conns[c];
      var t := Mask(s.(conns := s.conns[c := k.(phase := Disconnected, closes := k.closes + 1)]), c, DisableAll);
      Queue(t, Destroy(c)).(connectSet := s.connectSet - {c})
  }

  // ---------------------------------------------------------------- ownership

  predicate Mentions(fs: seq<Functor>, c: Id) {
    exists i :: 0 <= i < |fs| && fs[i].c == c
  }

  /** Somebody holds a shared_ptr to `c`. */
  predicate Owned(s: State, c: Id) {
    || c in s.connectSet
    || Mentions(s.todo, c)
    || c in s.held
    || c in s.kept
    || (!s.posting.Nothing? && s.posting.c == c)
  }

  function Ids(fs: seq<Functor>): set<Id> {
    set i | 0 <= i < |fs| :: fs[i].c
  }

  /** After an owner has let go: whoever has no other goes, its destructor
      asserting the last phase and its socket closing the descriptor. */
  function Reap(s: State): State {
    s.(conns := map c | c in s.conns :: if Owned(s, c) then s.conns[c] else s.conns[c].(open := false),
       aborted := s.aborted || exists c :: c in s.conns && s.conns[c].open && !Owned(s, c) && !s.conns[c].phase.Disconnected?)
  }

  /** The end of the vector of tasks. */
  function Release(s: State): State {
    Reap(s.(held := {}))
  }

  /** The last pointer of user code goes. */
  function Drop(s: State, c: Id): State {
    Reap(s.(kept := s.kept - {c}))
  }

  // ---------------------------------------------------------------- what user code does

  /** What user code may do with a connection, on the loop thread; it may also
      keep the pointer that a callback hands it, and let it go again. */
  datatype Act = CallForceClose(c: Id) | CallShutdown(c: Id) | CallSend(c: Id, sent: Sent)
               | Keep(c: Id) | LetGo(c: Id)

  /** What a send came to: given up, bytes left over for the buffer, or all
      taken at once (with a write-complete callback set, or without). */
  datatype Sent = GivenUp | LeftOver | AllOut(notify: bool)

  function DoAct(s: State, a: Act): State {
    if !Known(s, a.c) then s
    else
      var p := s.conns[a.c].phase;
      match a
      case CallForceClose(c) => if Live(p) then Queue(SetPhase(s, c, Disconnecting), ForceCloseInLoop(c)) else s
      case CallShutdown(c) => if p.Connected? then SetPhase(s, c, Disconnecting) else s
      case CallSend(c, sent) =>
        if !p.Connected? || IsWriting(s.poller.chan[c]) then s
        else (
          match sent
          case GivenUp => s
          case LeftOver => Mask(s, c, EnableWriting)
          case AllOut(notify) => if notify then Queue(s, Notify(c)) else s
        )
      case Keep(c) => if Owned(s, c) then s.(kept := s.kept + {c}) else s
      case LetGo(c) => Drop(s, c)
  }

  function DoActs(s: State, acts: seq<Act>): State {
    if acts == [] then s else DoAct(DoActs(s, acts[..|acts| - 1]), acts[|acts| - 1])
  }

  datatype ReadResult = Eof | Got | Failed

  predicate Flag(ev: bv32, bit: bv32) { ev & bit != 0 }

  predicate ReadFlag(ev: bv32) { ev & (EPOLLIN | EPOLLPRI | EPOLLRDHUP) != 0 }

  predicate Hangup(ev: bv32) { Flag(ev, EPOLLHUP) && !Flag(ev, EPOLLIN) }

  function HandleRead(s: State, c: Id, r: ReadResult): State
    requires Known(s, c)
  {
    if r.Eof? then HandleClose(s, c) else s
  }

  /** Whether the write emptied the output buffer, and whether a
      write-complete callback is set then. */
  datatype Drain = NotYet | Drained(notify: bool)

  function HandleWrite(s: State, c: Id, drained: Drain): State
    requires Known(s, c)
  {
    if !IsWriting(s.poller.chan[c]) || drained.NotYet? then s
    else
      var t := Mask(s, c, DisableWriting);
      if drained.notify then Queue(t, Notify(c)) else t
  }

  /** `handleEvent` up to the read callback: hang-up, then read, on one mask. */
  function CloseAndRead(s: State, c: Id, ev: bv32, r: ReadResult): State
    requires Known(s, c)
  {
    var t := if Hangup(ev) then HandleClose(s, c) else s;
    if ReadFlag(ev) && Known(t, c) then HandleRead(t, c, r) else t
  }

  /** `handleEvent`: hang-up, read with what the message callback does, write. */
  function HandleEvent(s: State, c: Id, ev: bv32, r: ReadResult, acts: seq<Act>, drained: Drain): State
    requires Known(s, c)
  {
    var t := DoActs(CloseAndRead(s, c, ev, r), acts);
    if Flag(ev, EPOLLOUT) && Known(t, c) then HandleWrite(t, c, drained) else t
  }

  /** The one report that closes twice: a hang-up without EPOLLIN that carries
      another read flag, on a socket whose read finds the end. */
  predicate ClosesTwice(ev: bv32, r: ReadResult) {
    Hangup(ev) && ReadFlag(ev) && r.Eof?
  }

  function RunFunctor(s: State, f: Functor): State
    requires Known(s, f.c)
  {
    var k := s.conns[f.c];
    match f
    case AddConnect(c) => s.(connectSet := s.connectSet + {c})
    case Establish(c) => if k.phase.Connecting? then Mask(SetPhase(s, c, Connected), c, EnableReading) else s.(aborted := true)
    case ForceCloseInLoop(c) => if Live(k.phase) then HandleClose(s, c) else s
    case Destroy(c) =>
      var t := if k.phase.Connected? then Mask(SetPhase(s, c, Disconnected), c, DisableAll) else s;
      t.(poller := RemoveChannel(t.poller, c), conns := t.conns[c := t.conns[c].(destroys := k.destroys + 1)])
    case Notify(_) => s
  }

  // ---------------------------------------------------------------- the invariant

  /** The tasks still to come that move `c` along, in order. */
  function Moves(fs: seq<Functor>, c: Id): seq<Functor> {
    if fs == [] then []
    else
      var n := |fs| - 1;
      Moves(fs[..n], c) + if fs[n].c == c && !fs[n].ForceCloseInLoop? && !fs[n].Notify? then [fs[n]] else []
  }

  function Unposted(p: Posting, c: Id): seq<Functor> {
    match p
    case Both(d) => if c == d then [AddConnect(c), Establish(c)] else []
    case Second(d) => if c == d then [Establish(c)] else []
    case _ => []
  }

  function Duties(fs: seq<Functor>, p: Posting, c: Id): seq<Functor> {
    Moves(fs, c) + Unposted(p, c)
  }

  /** Where a connection stands: its phase, its channel, the set, and the tasks
      to come all say the same. */
  predicate Standing(k: Conn, ch: Channel, inSet: bool, duties: seq<Functor>, c: Id) {
    match k.phase
    case Connecting =>
      && k.open && k.closes == 0 && k.destroys == 0
      && ch.status.INIT? && ch.events == NONE_EVENT
      && duties == if inSet then [Establish(c)] else [AddConnect(c), Establish(c)]
    case Disconnected =>
      && !inSet && k.closes == 1 && ch.events == NONE_EVENT
      && if ch.status.DELETED? then duties == [] && k.destroys == 1
         else k.open && ch.status.NOT_LISTEN? && duties == [Destroy(c)] && k.destroys == 0
    case _ =>
      && k.open && k.closes == 0 && k.destroys == 0 && inSet
      && ch.status.LISTEN? && Flag(ch.events, EPOLLIN)
      && duties == []
  }

  predicate Good(s: State, c: Id) {
    && Known(s, c)
    && Standing(s.conns[c], s.poller.chan[c], c in s.connectSet, Duties(s.todo, s.posting, c), c)
    && (!s.conns[c].open ==> s.poller.chan[c].status.DELETED? && !Mentions(s.todo, c))
  }

  ghost predicate AllGood(s: State) {
    forall c :: c in s.conns ==> Good(s, c)
  }

  /** The epoller: in agreement, never refused, descriptors of open sockets distinct. */
  ghost predicate Tables(s: State) {
    && s.conns.Keys == s.poller.chan.Keys
    && Agreement(s.poller) && s.poller.refused == 0
    && (forall c, d :: c in s.conns && d in s.conns && c != d && s.conns[c].open && s.conns[d].open
          ==> s.poller.chan[c].fd != s.poller.chan[d].fd)
  }

  /** The reports not yet dispatched are about live connections, each once. */
  predicate ActiveLive(s: State) {
    && (forall i :: 0 <= i < |s.active| ==> s.active[i].0 in s.conns && Live(s.conns[s.active[i].0].phase))
    && (forall i, j :: 0 <= i < j < |s.active| ==> s.active[i].0 != s.active[j].0)
    && (s.active != [] ==> s.place.Handling?)
  }

  predicate Lists(s: State) {
    && s.connectSet <= s.conns.Keys
    && (forall i :: 0 <= i < |s.todo| ==> s.todo[i].c in s.conns)
    && (!s.posting.Nothing? ==> s.posting.c in s.conns && s.conns[s.posting.c].open)
    && s.left <= |s.todo|
  }

  ghost predicate Inv(s: State) {
    !s.aborted && Tables(s) && AllGood(s) && Lists(s) && ActiveLive(s)
  }

  // ---------------------------------------------------------------- tasks to come

  lemma MovesSnoc(fs: seq<Functor>, f: Functor, c: Id)
    ensures Moves(fs + [f], c) ==
            Moves(fs, c) + if f.c == c && !f.ForceCloseInLoop? && !f.Notify? then [f] else []
  {
    assert (fs + [f])[..|fs|] == fs;
  }

  lemma {:induction false} MovesCons(fs: seq<Functor>, c: Id)
    requires fs != []
    ensures Moves(fs, c) ==
            (if fs[0].c == c && !fs[0].ForceCloseInLoop? && !fs[0].Notify? then [fs[0]] else []) + Moves(fs[1..], c)
    decreases |fs|
  {
    var n := |fs| - 1;
    if n > 0 {
      MovesCons(fs[..n], c);
      assert fs[..n][1..] == fs[1..][..n - 1];
    }
  }

  lemma MentionsSnoc(fs: seq<Functor>, f: Functor, c: Id)
    ensures Mentions(fs + [f], c) <==> Mentions(fs, c) || f.c == c
  {
    if Mentions(fs, c) {
      var i :| 0 <= i < |fs| && fs[i].c == c;
      assert (fs + [f])[i].c == c;
    }
    assert (fs + [f])[|fs|] == f;
  }

  lemma MentionsTail(fs: seq<Functor>, c: Id)
    requires fs != [] && Mentions(fs[1..], c)
    ensures Mentions(fs, c)
  {
    var i :| 0 <= i < |fs[1..]| && fs[1..][i].c == c;
    assert fs[i + 1].c == c;
  }

  /** A connection some task is to move is mentioned. */
  lemma {:induction false} MovesMention(fs: seq<Functor>, c: Id)
    requires Moves(fs, c) != []
    ensures Mentions(fs, c)
    decreases |fs|
  {
    var n := |fs| - 1;
    if fs[n].c != c {
      MovesMention(fs[..n], c);
      var i :| 0 <= i < n && fs[..n][i].c == c;
      assert fs[i].c == c;
    }
  }

  // ---------------------------------------------------------------- taking the invariant apart

  lemma Parts(s: State)
    requires Inv(s)
    ensures !s.aborted && Tables(s) && AllGood(s) && Lists(s) && ActiveLive(s)
  {
  }

  lemma GoodAt(s: State, c: Id)
    requires AllGood(s) && c in s.conns
    ensures Good(s, c) && Known(s, c)
  {
  }

  /** The change from `s` to `t` touches no connection but `c`. */
  ghost predicate Elsewhere(s: State, t: State, c: Id) {
    forall d :: d in t.conns && d != c ==> SameFor(s, t, d)
  }

  predicate SameFor(s: State, t: State, d: Id) {
    && Known(s, d) && Known(t, d)
    && t.conns[d] == s.conns[d] && t.poller.chan[d] == s.poller.chan[d]
    && (d in t.connectSet <==> d in s.connectSet)
    && Duties(t.todo, t.posting, d) == Duties(s.todo, s.posting, d)
    && (Mentions(t.todo, d) ==> Mentions(s.todo, d))
  }

  lemma SameIsGood(s: State, t: State, d: Id)
    requires Good(s, d) && SameFor(s, t, d)
    ensures Good(t, d)
  {
    hide Standing, Duties, Mentions;
  }

  /** One connection changed, and well; nobody else did. */
  lemma OneChange(s: State, t: State, c: Id)
    requires Inv(s) && Elsewhere(s, t, c) && (c in t.conns ==> Good(t, c))
    requires Tables(t) && Lists(t) && ActiveLive(t) && !t.aborted
    ensures Inv(t)
  {
    hide Good, Duties, Mentions, Tables, Lists, ActiveLive;
    forall d | d in t.conns ensures Good(t, d) {
      if d != c {
        assert SameFor(s, t, d);
        GoodAt(s, d);
        SameIsGood(s, t, d);
      }
    }
  }

  lemma SameTables(s: State, t: State)
    requires Tables(s) && t.poller == s.poller && t.conns.Keys == s.conns.Keys
    requires forall d :: d in s.conns ==> t.conns[d].open == s.conns[d].open
    ensures Tables(t)
  {
  }

  lemma RegisteredOpen(s: State, c: Id)
    requires Good(s, c) && Registered(s.poller.chan[c])
    ensures s.conns[c].open
  {
  }

  lemma OpenFdFree(s: State, c: Id)
    requires Tables(s) && AllGood(s) && c in s.conns && s.conns[c].open
    ensures Known(s, c) && FdFree(s.poller, c)
  {
    hide Good;
    var p := s.poller;
    var fd := p.chan[c].fd;
    if fd in p.channels {
      var d := p.channels[fd];
      assert Agrees(p, d);
      GoodAt(s, d);
      RegisteredOpen(s, d);
    }
  }

  lemma LiveIsOpen(s: State, c: Id)
    requires Good(s, c) && Live(s.conns[c].phase)
    ensures s.conns[c].open
  {
  }

  // ---------------------------------------------------------------- masks

  lemma Bits(e: bv32)
    ensures Flag(e, EPOLLIN) ==> Flag(Events(e, EnableWriting), EPOLLIN) && Events(e, EnableWriting) != NONE_EVENT
    ensures Flag(e, EPOLLIN) ==> Flag(Events(e, DisableWriting), EPOLLIN) && Events(e, DisableWriting) != NONE_EVENT
    ensures Flag(Events(e, EnableReading), EPOLLIN) && Events(e, EnableReading) != NONE_EVENT
    ensures Events(e, DisableAll) == NONE_EVENT
    ensures !Flag(NONE_EVENT, WRITE_EVENT)
  {
  }

  /** A channel and what a mask change makes of it. */
  function Masked(ch: Channel, r: Request): Channel {
    var e := Events(ch.events, r);
    Channel(ch.fd, e, if EndsQuiet(ch, e) then NOT_LISTEN else LISTEN)
  }

  lemma PerformMasks(p: Poller, c: Id, r: Request)
    requires c in p.chan && Agreement(p) && FdFree(p, c)
    ensures var q := Perform(p, c, r);
            Agreement(q) && q.refused == p.refused && q.chan == p.chan[c := Masked(p.chan[c], r)]
  {
    hide Perform, Events, Agreement;
    PerformAgrees(p, c, r);
    PerformIs(p, c, r);
  }

  /** A mask change on an open connection, whatever its phase. */
  lemma MaskTables(s: State, t: State, c: Id, r: Request)
    requires Tables(s) && AllGood(s) && c in s.conns && s.conns[c].open
    requires c in s.poller.chan && t.poller == Perform(s.poller, c, r)
    requires t.conns.Keys == s.conns.Keys && forall d :: d in s.conns ==> t.conns[d].open == s.conns[d].open
    ensures Tables(t)
    ensures t.poller.chan == s.poller.chan[c := Masked(s.poller.chan[c], r)]
  {
    hide Perform, Events, Agreement, AllGood, FdFree, EndsQuiet;
    OpenFdFree(s, c);
    PerformMasks(s.poller, c, r);
  }

  lemma MaskGood(s: State, t: State, c: Id, r: Request)
    requires Good(s, c) && Live(s.conns[c].phase) && (r.EnableWriting? || r.DisableWriting?)
    requires t == s.(poller := t.poller) && t.poller.chan == s.poller.chan[c := Masked(s.poller.chan[c], r)]
    ensures Good(t, c)
  {
    hide Events, Flag, Duties, Mentions;
    Bits(s.poller.chan[c].events);
  }

  lemma MaskElsewhere(s: State, t: State, c: Id, ch: Channel)
    requires s.conns.Keys == s.poller.chan.Keys
    requires t == s.(poller := t.poller) && t.poller.chan == s.poller.chan[c := ch]
    ensures Elsewhere(s, t, c)
  {
    hide Duties, Mentions;
  }

  lemma MaskInv(s: State, c: Id, r: Request)
    requires Inv(s) && c in s.conns && Live(s.conns[c].phase) && (r.EnableWriting? || r.DisableWriting?)
    ensures Known(s, c) && Inv(Mask(s, c, r))
  {
    hide Inv, Tables, AllGood, Good, Elsewhere, Lists, ActiveLive, Perform, Masked;
    Parts(s);
    GoodAt(s, c);
    LiveIsOpen(s, c);
    var t := Mask(s, c, r);
    MaskTables(s, t, c, r);
    MaskGood(s, t, c, r);
    KeysMatch(s);
    MaskElsewhere(s, t, c, Masked(s.poller.chan[c], r));
    SameLists(s, t);
    OneChange(s, t, c);
  }

  lemma KeysMatch(s: State)
    requires Tables(s)
    ensures s.conns.Keys == s.poller.chan.Keys
  {
  }

  lemma SameLists(s: State, t: State)
    requires Lists(s) && ActiveLive(s)
    requires t.conns == s.conns && t.connectSet == s.connectSet && t.todo == s.todo && t.posting == s.posting
    requires t.left == s.left && t.active == s.active && t.place == s.place
    ensures Lists(t) && ActiveLive(t)
  {
  }

  // ---------------------------------------------------------------- queueing and phases

  /** Queueing a task about one connection: nobody else notices. */
  lemma QueueFor(fs: seq<Functor>, p: Posting, f: Functor, d: Id)
    ensures Duties(fs + [f], p, d) ==
            Moves(fs, d) + (if f.c == d && !f.ForceCloseInLoop? && !f.Notify? then [f] else []) + Unposted(p, d)
    ensures f.c != d || f.ForceCloseInLoop? || f.Notify? ==> Duties(fs + [f], p, d) == Duties(fs, p, d)
    ensures Mentions(fs + [f], d) <==> Mentions(fs, d) || f.c == d
  {
    MovesSnoc(fs, f, d);
    MentionsSnoc(fs, f, d);
  }

  lemma QueueGood(s: State, f: Functor)
    requires Good(s, f.c) && s.conns[f.c].open && (f.ForceCloseInLoop? || f.Notify?)
    ensures Good(Queue(s, f), f.c)
  {
    hide Duties, Mentions, Standing;
    QueueFor(s.todo, s.posting, f, f.c);
  }

  lemma QueueElsewhere(s: State, f: Functor)
    requires s.conns.Keys == s.poller.chan.Keys
    ensures Elsewhere(s, Queue(s, f), f.c)
  {
    hide Duties, Mentions;
    var t := Queue(s, f);
    forall d | d in t.conns && d != f.c ensures SameFor(s, t, d) {
      QueueFor(s.todo, s.posting, f, d);
    }
  }

  lemma QueueLists(s: State, f: Functor)
    requires Lists(s) && ActiveLive(s) && f.c in s.conns
    ensures Lists(Queue(s, f)) && ActiveLive(Queue(s, f))
  {
  }

  /** Queueing a task that moves no connection along. */
  lemma QueueInv(s: State, f: Functor)
    requires Inv(s) && f.c in s.conns && s.conns[f.c].open && (f.ForceCloseInLoop? || f.Notify?)
    ensures Inv(Queue(s, f))
  {
    hide Inv, Tables, AllGood, Good, Elsewhere, Lists, ActiveLive;
    Parts(s);
    GoodAt(s, f.c);
    KeysMatch(s);
    QueueGood(s, f);
    QueueElsewhere(s, f);
    QueueLists(s, f);
    SameTables(s, Queue(s, f));
    OneChange(s, Queue(s, f), f.c);
  }

  lemma DisconnectingGood(s: State, c: Id)
    requires Good(s, c) && Live(s.conns[c].phase) && s.conns.Keys == s.poller.chan.Keys
    ensures Good(SetPhase(s, c, Disconnecting), c)
    ensures Elsewhere(s, SetPhase(s, c, Disconnecting), c)
  {
    hide Duties, Mentions, Flag;
  }

  lemma DisconnectingLists(s: State, c: Id)
    requires Lists(s) && ActiveLive(s) && c in s.conns
    ensures var t := SetPhase(s, c, Disconnecting); Lists(t) && ActiveLive(t)
  {
  }

  lemma DisconnectingInv(s: State, c: Id)
    requires Inv(s) && c in s.conns && Live(s.conns[c].phase)
    ensures var t := SetPhase(s, c, Disconnecting); Inv(t) && c in t.conns && t.conns[c].open
  {
    hide Inv, Tables, AllGood, Good, Elsewhere, Lists, ActiveLive;
    var t := SetPhase(s, c, Disconnecting);
    Parts(s);
    GoodAt(s, c);
    KeysMatch(s);
    LiveIsOpen(s, c);
    DisconnectingGood(s, c);
    DisconnectingLists(s, c);
    SameTables(s, t);
    OneChange(s, t, c);
  }

  lemma LiveOpen(s: State, c: Id)
    requires Inv(s) && c in s.conns && Live(s.conns[c].phase)
    ensures s.conns[c].open
  {
    hide Tables, Good, Lists, ActiveLive, Live;
    GoodAt(s, c);
    LiveIsOpen(s, c);
  }

  lemma ActInv(s: State, a: Act)
    requires Inv(s)
    ensures Inv(DoAct(s, a))
  {
    hide Inv, Mask, SetPhase, Queue, IsWriting, Drop, Owned;
    if a.Keep? {
      HoldersInv(s, s.(kept := s.kept + {a.c}));
    } else if a.LetGo? {
      DropInv(s, a.c);
    } else if Known(s, a.c) && Live(s.conns[a.c].phase) {
      match a {
        case CallForceClose(c) =>
          DisconnectingInv(s, c);
          QueueInv(SetPhase(s, c, Disconnecting), ForceCloseInLoop(c));
        case CallShutdown(c) =>
          DisconnectingInv(s, c);
        case CallSend(c, sent) =>
          MaskInv(s, c, EnableWriting);
          LiveOpen(s, c);
          QueueInv(s, Notify(c));
        case _ =>
      }
    }
  }

  lemma {:induction false} ActsInv(s: State, acts: seq<Act>)
    requires Inv(s)
    ensures Inv(DoActs(s, acts))
    decreases |acts|
  {
    hide Inv, DoAct;
    if acts != [] {
      ActsInv(s, acts[..|acts| - 1]);
      ActInv(DoActs(s, acts[..|acts| - 1]), acts[|acts| - 1]);
    }
  }

  // ---------------------------------------------------------------- closing

  /** Nothing reported is still to be dispatched for `c`. */
  predicate NotActive(s: State, c: Id) {
    forall i :: 0 <= i < |s.active| ==> s.active[i].0 != c
  }

  /** What it means for a live connection to stand well. */
  lemma LiveFacts(s: State, c: Id)
    requires Good(s, c) && Live(s.conns[c].phase)
    ensures s.conns[c].open && s.conns[c].closes == 0 && s.conns[c].destroys == 0
    ensures s.poller.chan[c].status.LISTEN?
    ensures Moves(s.todo, c) == [] && Unposted(s.posting, c) == []
  {
    hide Mentions, Flag;
  }

  /** What is left to do for a connection that was just closed. */
  lemma CloseDuty(s: State, c: Id)
    requires Good(s, c) && Live(s.conns[c].phase)
    ensures Duties(s.todo + [Destroy(c)], s.posting, c) == [Destroy(c)]
  {
    LiveFacts(s, c);
    hide Moves, Unposted, Mentions, Flag;
    QueueFor(s.todo, s.posting, Destroy(c), c);
    hide Duties;
    assert [] + [Destroy(c)] + [] == [Destroy(c)];
  }

  lemma MaskedQuiet(ch: Channel)
    requires ch.status.LISTEN?
    ensures Masked(ch, DisableAll) == Channel(ch.fd, NONE_EVENT, NOT_LISTEN)
  {
  }

  lemma CloseGood(s: State, t: State, c: Id)
    requires Good(s, c) && Live(s.conns[c].phase)
    requires t.conns == s.conns[c := s.conns[c].(phase := Disconnected, closes := s.conns[c].closes + 1)]
    requires t.poller.chan == s.poller.chan[c := Masked(s.poller.chan[c], DisableAll)]
    requires t.todo == s.todo + [Destroy(c)] && t.posting == s.posting && t.connectSet == s.connectSet - {c}
    ensures Good(t, c)
  {
    LiveFacts(s, c);
    hide Moves, Unposted, Mentions, Flag, Masked, NONE_EVENT;
    MaskedQuiet(s.poller.chan[c]);
    QueueFor(s.todo, s.posting, Destroy(c), c);
    hide Duties;
    assert [] + [Destroy(c)] + [] == [Destroy(c)];
  }

  lemma CloseElsewhere(s: State, t: State, c: Id)
    requires s.conns.Keys == s.poller.chan.Keys && c in s.conns
    requires t.conns.Keys == s.conns.Keys && (forall d :: d in s.conns && d != c ==> t.conns[d] == s.conns[d])
    requires t.poller.chan.Keys == s.poller.chan.Keys
    requires forall d :: d in s.conns && d != c ==> t.poller.chan[d] == s.poller.chan[d]
    requires t.todo == s.todo + [Destroy(c)] && t.posting == s.posting && t.connectSet == s.connectSet - {c}
    ensures Elsewhere(s, t, c)
  {
    hide Duties, Mentions;
    forall d | d in t.conns && d != c ensures SameFor(s, t, d) {
      QueueFor(s.todo, s.posting, Destroy(c), d);
    }
  }

  lemma CloseLists(s: State, c: Id)
    requires Lists(s) && ActiveLive(s) && NotActive(s, c) && Known(s, c) && Live(s.conns[c].phase)
    ensures Lists(HandleClose(s, c)) && ActiveLive(HandleClose(s, c))
  {
    hide Perform;
  }

  /** The close takes a live connection, not among the reports to come, to its
      last phase, with exactly one task left to move it. */
  lemma CloseInv(s: State, c: Id)
    requires Inv(s) && c in s.conns && Live(s.conns[c].phase) && NotActive(s, c)
    ensures Known(s, c) && Inv(HandleClose(s, c))
    ensures HandleClose(s, c).conns[c].phase.Disconnected? && HandleClose(s, c).active == s.active
  {
    hide Inv, Tables, AllGood, Good, Elsewhere, Lists, ActiveLive, Perform, Masked, NotActive;
    Parts(s);
    GoodAt(s, c);
    LiveIsOpen(s, c);
    KeysMatch(s);
    var t := HandleClose(s, c);
    MaskTables(s, t, c, DisableAll);
    CloseGood(s, t, c);
    CloseElsewhere(s, t, c);
    CloseLists(s, c);
    OneChange(s, t, c);
  }

  // ---------------------------------------------------------------- one reported event

  lemma WritingIsLive(s: State, c: Id)
    requires Good(s, c) && IsWriting(s.poller.chan[c])
    ensures Live(s.conns[c].phase)
  {
    hide Duties, Mentions;
    Bits(0);
  }

  lemma WriteInv(s: State, c: Id, drained: Drain)
    requires Inv(s) && Known(s, c)
    ensures Inv(HandleWrite(s, c, drained))
  {
    hide Inv, AllGood, Good, Mask, Queue, IsWriting;
    if IsWriting(s.poller.chan[c]) {
      Parts(s);
      GoodAt(s, c);
      WritingIsLive(s, c);
      LiveIsOpen(s, c);
      MaskInv(s, c, DisableWriting);
      MaskKeeps(s, c, DisableWriting);
      QueueInv(Mask(s, c, DisableWriting), Notify(c));
    }
  }

  lemma MaskKeeps(s: State, c: Id, r: Request)
    requires Known(s, c)
    ensures Mask(s, c, r).conns == s.conns
  {
  }

  lemma CloseAndReadInv(s: State, c: Id, ev: bv32, r: ReadResult)
    requires Inv(s) && Known(s, c) && Live(s.conns[c].phase) && NotActive(s, c)
    requires !ClosesTwice(ev, r)
    ensures Inv(CloseAndRead(s, c, ev, r)) && Known(CloseAndRead(s, c, ev, r), c)
  {
    hide Inv, HandleClose, ReadFlag, Hangup, NotActive, Live;
    if Hangup(ev) || (ReadFlag(ev) && r.Eof?) {
      CloseInv(s, c);
      CloseKnown(s, c);
    }
  }

  lemma CloseKnown(s: State, c: Id)
    requires Known(s, c) && Inv(HandleClose(s, c))
    ensures Known(HandleClose(s, c), c)
  {
    hide Perform, AllGood, Lists, ActiveLive, Agreement;
  }

  lemma EventInv(s: State, c: Id, ev: bv32, r: ReadResult, acts: seq<Act>, drained: Drain)
    requires Inv(s) && Known(s, c) && Live(s.conns[c].phase) && NotActive(s, c)
    requires !ClosesTwice(ev, r)
    ensures Inv(HandleEvent(s, c, ev, r, acts, drained))
  {
    hide Inv, CloseAndRead, ClosesTwice, HandleWrite, DoActs, Live, NotActive, Known;
    CloseAndReadInv(s, c, ev, r);
    var t := DoActs(CloseAndRead(s, c, ev, r), acts);
    ActsInv(CloseAndRead(s, c, ev, r), acts);
    if Known(t, c) {
      WriteInv(t, c, drained);
    }
  }

  /** The report that must not come: `handleClose` runs into its assertion, and
      it does so on no other report, whatever the mask and the read result. */
  lemma AbortsIff(s: State, c: Id, ev: bv32, r: ReadResult, acts: seq<Act>, drained: Drain)
    requires Inv(s) && Known(s, c) && Live(s.conns[c].phase) && NotActive(s, c)
    ensures HandleEvent(s, c, ev, r, acts, drained).aborted <==> ClosesTwice(ev, r)
  {
    if ClosesTwice(ev, r) {
      SecondClose(s, c, ev, r);
      hide CloseAndRead, ClosesTwice, Inv, HandleWrite, DoActs;
      var t := CloseAndRead(s, c, ev, r);
      ActsAborted(t, acts);
      if Known(DoActs(t, acts), c) {
        WriteAborted(DoActs(t, acts), c, drained);
      }
    } else {
      EventInv(s, c, ev, r, acts, drained);
      hide HandleEvent, Tables, AllGood, Lists, ActiveLive;
    }
  }

  lemma SecondClose(s: State, c: Id, ev: bv32, r: ReadResult)
    requires Inv(s) && Known(s, c) && Live(s.conns[c].phase) && NotActive(s, c) && ClosesTwice(ev, r)
    ensures CloseAndRead(s, c, ev, r).aborted
  {
    hide Inv, ReadFlag, Hangup, NotActive;
    CloseInv(s, c);
    CloseKnown(s, c);
  }

  lemma {:induction false} ActsAborted(s: State, acts: seq<Act>)
    requires s.aborted
    ensures DoActs(s, acts).aborted
    decreases |acts|
  {
    hide Perform, Owned;
    if acts != [] {
      ActsAborted(s, acts[..|acts| - 1]);
    }
  }

  lemma WriteAborted(s: State, c: Id, drained: Drain)
    requires Known(s, c) && s.aborted
    ensures HandleWrite(s, c, drained).aborted
  {
  }

  // ---------------------------------------------------------------- one task

  /** The state with its first task taken off. */
  function Pop(s: State): State
    requires s.todo != [] && s.left > 0
  {
    s.(todo := s.todo[1..], left := s.left - 1)
  }

  predicate Mover(f: Functor) {
    !f.ForceCloseInLoop? && !f.Notify?
  }

  lemma PopFor(fs: seq<Functor>, p: Posting, d: Id)
    requires fs != []
    ensures Duties(fs, p, d) == (if fs[0].c == d && Mover(fs[0]) then [fs[0]] else []) + Duties(fs[1..], p, d)
    ensures Mentions(fs[1..], d) ==> Mentions(fs, d)
  {
    MovesCons(fs, d);
    if Mentions(fs[1..], d) {
      MentionsTail(fs, d);
    }
    hide Moves, Unposted, Mentions;
    var a := if fs[0].c == d && Mover(fs[0]) then [fs[0]] else [];
    assert (a + Moves(fs[1..], d)) + Unposted(p, d) == a + (Moves(fs[1..], d) + Unposted(p, d));
  }

  lemma PopElsewhere(s: State)
    requires s.todo != [] && s.left > 0 && s.conns.Keys == s.poller.chan.Keys
    ensures Elsewhere(s, Pop(s), s.todo[0].c)
    ensures !Mover(s.todo[0]) && Known(s, s.todo[0].c) ==> SameFor(s, Pop(s), s.todo[0].c)
  {
    hide Duties, Mentions, Mover;
    var t := Pop(s);
    forall d | d in t.conns && (d != s.todo[0].c || !Mover(s.todo[0])) ensures SameFor(s, t, d) {
      PopFor(s.todo, s.posting, d);
    }
  }

  lemma PopLists(s: State)
    requires s.todo != [] && s.left > 0 && Lists(s) && ActiveLive(s)
    ensures Lists(Pop(s)) && ActiveLive(Pop(s)) && s.todo[0].c in s.conns
  {
  }

  lemma PopInv(s: State)
    requires Inv(s) && s.todo != [] && s.left > 0 && !Mover(s.todo[0])
    ensures Inv(Pop(s)) && Known(Pop(s), s.todo[0].c)
  {
    hide Inv, Tables, AllGood, Good, Elsewhere, SameFor, Lists, ActiveLive;
    Parts(s);
    KeysMatch(s);
    PopLists(s);
    PopElsewhere(s);
    GoodAt(s, s.todo[0].c);
    SameIsGood(s, Pop(s), s.todo[0].c);
    SameTables(s, Pop(s));
    OneChange(s, Pop(s), s.todo[0].c);
  }

  /** A task that moves its connection along is the next of its duties. */
  lemma FirstDuty(s: State, c: Id)
    requires s.todo != [] && s.left > 0 && Mover(s.todo[0]) && s.todo[0].c == c
    ensures Duties(s.todo, s.posting, c) == [s.todo[0]] + Duties(Pop(s).todo, s.posting, c)
    ensures Duties(s.todo, s.posting, c)[0] == s.todo[0]
    ensures Duties(Pop(s).todo, s.posting, c) == Duties(s.todo, s.posting, c)[1..]
  {
    PopFor(s.todo, s.posting, c);
  }

  /** What the first duty says about where its connection stands. */
  lemma DutyStanding(s: State, c: Id)
    requires Good(s, c) && s.todo != [] && s.left > 0 && Mover(s.todo[0]) && s.todo[0].c == c
    ensures s.conns[c].open && s.conns[c].destroys == 0
    ensures var rest := Duties(Pop(s).todo, s.posting, c);
            match s.todo[0]
            case AddConnect(_) => s.conns[c].phase.Connecting? && c !in s.connectSet && rest == [Establish(c)]
            case Establish(_) => s.conns[c].phase.Connecting? && c in s.connectSet && rest == []
            case Destroy(_) => s.conns[c].phase.Disconnected? && s.poller.chan[c].status.NOT_LISTEN? && rest == []
            case _ => false
  {
    FirstDuty(s, c);
    hide Duties, Mentions, Flag;
  }

  /** What a task does to the state it was taken from, besides going away. */
  lemma AddGood(s: State, c: Id)
    requires Good(s, c) && s.todo != [] && s.left > 0 && s.todo[0] == AddConnect(c)
    ensures Good(RunFunctor(Pop(s), AddConnect(c)), c)
  {
    DutyStanding(s, c);
    hide Duties, Mentions, Flag;
  }

  lemma EstablishGood(s: State, t: State, c: Id)
    requires Good(s, c) && s.todo != [] && s.left > 0 && s.todo[0] == Establish(c)
    requires t.conns == s.conns[c := s.conns[c].(phase := Connected)] && t.connectSet == s.connectSet
    requires t.poller.chan == s.poller.chan[c := Masked(s.poller.chan[c], EnableReading)]
    requires t.todo == Pop(s).todo && t.posting == s.posting
    ensures Good(t, c)
  {
    DutyStanding(s, c);
    Bits(s.poller.chan[c].events);
    hide Duties, Mentions, Flag, Events;
  }

  lemma DestroyGood(s: State, t: State, c: Id)
    requires Good(s, c) && s.todo != [] && s.left > 0 && s.todo[0] == Destroy(c)
    requires t.conns == s.conns[c := s.conns[c].(destroys := s.conns[c].destroys + 1)] && t.connectSet == s.connectSet
    requires t.poller.chan == s.poller.chan[c := s.poller.chan[c].(status := DELETED)]
    requires t.todo == Pop(s).todo && t.posting == s.posting
    ensures Good(t, c)
  {
    DutyStanding(s, c);
    hide Duties, Mentions, Flag;
  }

  /** Two changes of the same connection make one. */
  lemma ElsewhereTwice(s: State, m: State, t: State, c: Id)
    requires Elsewhere(s, m, c) && t.conns.Keys <= m.conns.Keys
    requires forall d :: d in t.conns && d != c ==> SameFor(m, t, d)
    ensures Elsewhere(s, t, c)
  {
    hide Duties, Mentions;
    forall d | d in t.conns && d != c ensures SameFor(s, t, d) {
      assert SameFor(s, m, d) && SameFor(m, t, d);
    }
  }

  lemma TaskSame(m: State, t: State, c: Id, d: Id)
    requires Known(m, d) && Known(t, d) && d != c
    requires t.conns[d] == m.conns[d] && t.poller.chan[d] == m.poller.chan[d]
    requires (d in t.connectSet <==> d in m.connectSet) && t.todo == m.todo && t.posting == m.posting
    ensures SameFor(m, t, d)
  {
  }

  lemma AddInv(s: State, c: Id)
    requires Inv(s) && s.todo != [] && s.left > 0 && s.todo[0] == AddConnect(c)
    ensures Known(Pop(s), c) && Inv(RunFunctor(Pop(s), AddConnect(c)))
  {
    hide Inv, Tables, AllGood, Good, Elsewhere, SameFor, Lists, ActiveLive;
    Parts(s);
    KeysMatch(s);
    PopLists(s);
    PopElsewhere(s);
    GoodAt(s, c);
    AddGood(s, c);
    var m := Pop(s);
    var t := RunFunctor(m, AddConnect(c));
    SameTables(s, t);
    AddLists(m, c);
    forall d | d in t.conns && d != c ensures SameFor(m, t, d) {
      TaskSame(m, t, c, d);
    }
    ElsewhereTwice(s, m, t, c);
    OneChange(s, t, c);
  }

  lemma AddLists(m: State, c: Id)
    requires Lists(m) && ActiveLive(m) && Known(m, c)
    ensures var t := RunFunctor(m, AddConnect(c)); Lists(t) && ActiveLive(t)
  {
  }

  lemma EstablishInv(s: State, c: Id)
    requires Inv(s) && s.todo != [] && s.left > 0 && s.todo[0] == Establish(c)
    ensures Known(Pop(s), c) && Inv(RunFunctor(Pop(s), Establish(c)))
  {
    hide Inv, Tables, AllGood, Good, Elsewhere, SameFor, Lists, ActiveLive, Perform, Masked;
    Parts(s);
    KeysMatch(s);
    PopLists(s);
    PopElsewhere(s);
    GoodAt(s, c);
    DutyStanding(s, c);
    var m := Pop(s);
    var t := RunFunctor(m, Establish(c));
    MaskTables(s, t, c, EnableReading);
    EstablishGood(s, t, c);
    EstablishLists(m, c);
    forall d | d in t.conns && d != c ensures SameFor(m, t, d) {
      TaskSame(m, t, c, d);
    }
    ElsewhereTwice(s, m, t, c);
    OneChange(s, t, c);
  }

  lemma EstablishLists(m: State, c: Id)
    requires Lists(m) && ActiveLive(m) && Known(m, c) && m.conns[c].phase.Connecting?
    ensures var t := RunFunctor(m, Establish(c)); Lists(t) && ActiveLive(t)
  {
    hide Perform;
  }

  lemma RemoveTables(s: State, t: State, c: Id)
    requires Tables(s) && AllGood(s) && c in s.conns && s.conns[c].open && c in s.poller.chan
    requires t.poller == RemoveChannel(s.poller, c) && t.conns.Keys == s.conns.Keys
    requires forall d :: d in s.conns ==> t.conns[d].open == s.conns[d].open
    ensures Tables(t)
    ensures t.poller.chan == s.poller.chan[c := s.poller.chan[c].(status := DELETED)]
  {
    hide RemoveChannel, Agreement, AllGood, FdFree;
    OpenFdFree(s, c);
    RemoveAgrees(s.poller, c);
  }

  lemma DestroyInv(s: State, c: Id)
    requires Inv(s) && s.todo != [] && s.left > 0 && s.todo[0] == Destroy(c)
    ensures Known(Pop(s), c) && Inv(RunFunctor(Pop(s), Destroy(c)))
  {
    hide Inv, Tables, AllGood, Good, Elsewhere, SameFor, Lists, ActiveLive, RemoveChannel, Perform;
    Parts(s);
    KeysMatch(s);
    PopLists(s);
    PopElsewhere(s);
    GoodAt(s, c);
    DutyStanding(s, c);
    var m := Pop(s);
    var t := RunFunctor(m, Destroy(c));
    RemoveTables(s, t, c);
    DestroyGood(s, t, c);
    DestroyLists(m, t, c);
    forall d | d in t.conns && d != c ensures SameFor(m, t, d) {
      TaskSame(m, t, c, d);
    }
    ElsewhereTwice(s, m, t, c);
    OneChange(s, t, c);
  }

  lemma DestroyLists(m: State, t: State, c: Id)
    requires Lists(m) && ActiveLive(m) && c in m.conns
    requires t == m.(poller := t.poller, conns := m.conns[c := m.conns[c].(destroys := m.conns[c].destroys + 1)])
    ensures Lists(t) && ActiveLive(t)
  {
  }

  lemma TaskInv(s: State)
    requires Inv(s) && s.place.Running? && s.todo != [] && s.left > 0
    ensures Known(Pop(s), s.todo[0].c) && Inv(RunFunctor(Pop(s), s.todo[0]))
  {
    hide Inv, Pop, RunFunctor;
    var c := s.todo[0].c;
    match s.todo[0] {
      case AddConnect(_) => AddInv(s, c);
      case Establish(_) => EstablishInv(s, c);
      case Destroy(_) => DestroyInv(s, c);
      case Notify(_) => PopInv(s); NotifyRuns(Pop(s), c);
      case ForceCloseInLoop(_) => PopInv(s); ForceCloseRuns(s, c);
    }
  }

  lemma NotifyRuns(m: State, c: Id)
    requires Known(m, c)
    ensures RunFunctor(m, Notify(c)) == m
  {
  }

  lemma RunningQuiet(m: State, c: Id)
    requires Inv(m) && m.place.Running?
    ensures NotActive(m, c)
  {
    hide Tables, AllGood, Lists;
  }

  lemma ForceCloseRuns(s: State, c: Id)
    requires s.todo != [] && s.left > 0 && s.place.Running? && Inv(Pop(s)) && Known(Pop(s), c)
    ensures Inv(RunFunctor(Pop(s), ForceCloseInLoop(c)))
  {
    hide Inv, HandleClose, NotActive;
    var m := Pop(s);
    RunningQuiet(m, c);
    if Live(m.conns[c].phase) {
      CloseInv(m, c);
    }
  }

  // ---------------------------------------------------------------- the end of a batch

  lemma UnownedDuties(s: State, c: Id)
    requires !Owned(s, c)
    ensures Duties(s.todo, s.posting, c) == []
  {
    if Moves(s.todo, c) != [] {
      MovesMention(s.todo, c);
    }
  }

  /** A connection nothing owns has been destroyed first: its phase is the last
      one and its channel is in neither table. */
  lemma UnownedIsDone(s: State, c: Id)
    requires Good(s, c) && !Owned(s, c)
    ensures s.conns[c].phase.Disconnected? && s.poller.chan[c].status.DELETED?
  {
    UnownedDuties(s, c);
    hide Duties, Mentions, Flag;
  }

  lemma ReapGood(s: State, t: State, c: Id)
    requires Good(s, c) && t == Reap(s)
    ensures Good(t, c)
  {
    hide Mentions, Flag, Duties;
    if !Owned(s, c) {
      UnownedIsDone(s, c);
    }
  }

  lemma ReapTables(s: State, t: State)
    requires Tables(s) && t == Reap(s)
    ensures Tables(t)
  {
    hide Owned, Agreement;
  }

  lemma ReapLists(s: State, t: State)
    requires Lists(s) && ActiveLive(s) && t == Reap(s)
    ensures Lists(t) && ActiveLive(t)
  {
    hide Mentions;
  }

  lemma ReapQuiet(s: State)
    requires AllGood(s) && !s.aborted
    ensures !Reap(s).aborted
  {
    hide Good, Owned;
    forall c | c in s.conns && !Owned(s, c) ensures s.conns[c].phase.Disconnected? {
      GoodAt(s, c);
      UnownedIsDone(s, c);
    }
  }

  lemma ReapKeys(s: State)
    ensures Reap(s).conns.Keys == s.conns.Keys
  {
  }

  /** Whenever an owner lets go, whoever has no other may go. */
  lemma ReapInv(s: State)
    requires Inv(s)
    ensures Inv(Reap(s))
  {
    hide Reap, Tables, Good, Lists, ActiveLive;
    var t := Reap(s);
    ReapTables(s, t);
    ReapLists(s, t);
    ReapQuiet(s);
    ReapKeys(s);
    forall c | c in t.conns ensures Good(t, c) {
      GoodAt(s, c);
      ReapGood(s, t, c);
    }
  }

  lemma HoldersIrrelevant(s: State, u: State, c: Id)
    requires Good(s, c) && u == s.(held := u.held, kept := u.kept)
    ensures Good(u, c)
  {
  }

  /** The invariant does not depend on who else holds a pointer. */
  lemma HoldersInv(s: State, u: State)
    requires Inv(s) && u == s.(held := u.held, kept := u.kept)
    ensures Inv(u)
  {
    hide Good, Agreement;
    forall c | c in u.conns ensures Good(u, c) {
      GoodAt(s, c);
      HoldersIrrelevant(s, u, c);
    }
  }

  lemma ReleaseInv(s: State)
    requires Inv(s)
    ensures Inv(Release(s))
  {
    hide Inv, Reap;
    HoldersInv(s, s.(held := {}));
    ReapInv(s.(held := {}));
  }

  lemma DropInv(s: State, c: Id)
    requires Inv(s)
    ensures Inv(Drop(s, c))
  {
    hide Inv, Reap;
    HoldersInv(s, s.(kept := s.kept - {c}));
    ReapInv(s.(kept := s.kept - {c}));
  }

  // ---------------------------------------------------------------- new connections

  function Create(s: State, c: Id, fd: Fd): State {
    s.(conns := s.conns[c := Conn(Connecting, true, 0, 0)],
       poller := s.poller.(chan := s.poller.chan[c := Channel(fd, NONE_EVENT, INIT)]),
       posting := Both(c))
  }

  /** The kernel gives a new socket a descriptor that no open socket has. */
  predicate FreshFd(s: State, fd: Fd) {
    forall d :: d in s.conns && d in s.poller.chan && s.conns[d].open ==> s.poller.chan[d].fd != fd
  }

  lemma CreateAgrees(p: Poller, c: Id, fd: Fd)
    requires Agreement(p) && c !in p.chan
    ensures Agreement(p.(chan := p.chan[c := Channel(fd, NONE_EVENT, INIT)]))
  {
    var q := p.(chan := p.chan[c := Channel(fd, NONE_EVENT, INIT)]);
    forall j | j in q.chan ensures Agrees(q, j) {
      if j != c {
        assert Agrees(p, j);
      }
    }
  }

  lemma CreateTables(s: State, c: Id, fd: Fd)
    requires Tables(s) && c !in s.conns && FreshFd(s, fd)
    ensures Tables(Create(s, c, fd))
  {
    CreateAgrees(s.poller, c, fd);
    hide Agreement;
  }

  lemma CreateGood(s: State, c: Id, fd: Fd)
    requires Lists(s) && c !in s.conns && s.posting.Nothing?
    ensures Good(Create(s, c, fd), c)
  {
    if Moves(s.todo, c) != [] {
      MovesMention(s.todo, c);
    }
    assert [] + Unposted(Both(c), c) == Unposted(Both(c), c);
    hide Moves, Mentions;
  }

  lemma CreateElsewhere(s: State, c: Id, fd: Fd)
    requires s.conns.Keys == s.poller.chan.Keys && c !in s.conns && s.posting.Nothing?
    ensures Elsewhere(s, Create(s, c, fd), c)
  {
    hide Moves, Mentions;
  }

  lemma CreateLists(s: State, c: Id, fd: Fd)
    requires Lists(s) && ActiveLive(s) && c !in s.conns
    ensures Lists(Create(s, c, fd)) && ActiveLive(Create(s, c, fd))
  {
  }

  lemma CreateInv(s: State, c: Id, fd: Fd)
    requires Inv(s) && c !in s.conns && s.posting.Nothing? && FreshFd(s, fd)
    ensures Inv(Create(s, c, fd))
  {
    hide Inv, Tables, AllGood, Good, Elsewhere, Lists, ActiveLive, FreshFd;
    Parts(s);
    KeysMatch(s);
    CreateTables(s, c, fd);
    CreateGood(s, c, fd);
    CreateElsewhere(s, c, fd);
    CreateLists(s, c, fd);
    OneChange(s, Create(s, c, fd), c);
  }

  /** The main thread's next `queueInLoop` of `newConnection`, or its return. */
  function Post(s: State): State
    requires !s.posting.Nothing?
  {
    match s.posting
    case Both(c) => Queue(s, AddConnect(c)).(posting := Second(c))
    case Second(c) => Queue(s, Establish(c)).(posting := Leaving(c))
    case Leaving(_) => Reap(s.(posting := Nothing))
  }

  predicate Posts(p: Posting) {
    p.Both? || p.Second?
  }

  lemma PostFor(s: State, d: Id)
    requires Posts(s.posting)
    ensures Duties(Post(s).todo, Post(s).posting, d) == Duties(s.todo, s.posting, d)
    ensures d != s.posting.c ==> (Mentions(Post(s).todo, d) ==> Mentions(s.todo, d))
  {
    var f := if s.posting.Both? then AddConnect(s.posting.c) else Establish(s.posting.c);
    MovesSnoc(s.todo, f, d);
    MentionsSnoc(s.todo, f, d);
    hide Moves, Mentions;
    assert d == s.posting.c ==> (Moves(s.todo, d) + [f]) + Unposted(Post(s).posting, d) == Moves(s.todo, d) + Unposted(s.posting, d);
    assert d != s.posting.c ==> Moves(s.todo, d) + [] + [] == Moves(s.todo, d) + [];
  }

  lemma PostGood(s: State)
    requires Posts(s.posting) && Good(s, s.posting.c) && s.conns[s.posting.c].open && s.conns.Keys == s.poller.chan.Keys
    ensures Good(Post(s), s.posting.c) && Elsewhere(s, Post(s), s.posting.c)
  {
    hide Duties, Mentions, Standing;
    var t := Post(s);
    PostFor(s, s.posting.c);
    forall d | d in t.conns && d != s.posting.c ensures SameFor(s, t, d) {
      PostFor(s, d);
    }
  }

  lemma PostLists(s: State)
    requires Posts(s.posting) && Lists(s) && ActiveLive(s)
    ensures Lists(Post(s)) && ActiveLive(Post(s)) && s.posting.c in s.conns && s.conns[s.posting.c].open
  {
  }

  lemma LeaveGood(s: State, c: Id)
    requires Good(s, c) && s.posting.Leaving?
    ensures Good(s.(posting := Nothing), c)
  {
    hide Moves, Mentions;
  }

  lemma LeaveInv(s: State)
    requires Inv(s) && s.posting.Leaving?
    ensures Inv(s.(posting := Nothing))
  {
    hide Good, Agreement;
    var t := s.(posting := Nothing);
    forall c | c in t.conns ensures Good(t, c) {
      GoodAt(s, c);
      LeaveGood(s, c);
    }
  }

  lemma PostInv(s: State)
    requires Inv(s) && !s.posting.Nothing?
    ensures Inv(Post(s))
  {
    hide Inv, Tables, AllGood, Good, Elsewhere, Lists, ActiveLive, Reap;
    if s.posting.Leaving? {
      LeaveInv(s);
      ReapInv(s.(posting := Nothing));
    } else {
      Parts(s);
      KeysMatch(s);
      PostLists(s);
      GoodAt(s, s.posting.c);
      PostGood(s);
      SameTables(s, Post(s));
      OneChange(s, Post(s), s.posting.c);
    }
  }

  // ---------------------------------------------------------------- polling

  /** What `epoll_wait` may report: registered connections, each once, with any
      event bits at all. */
  predicate Reportable(s: State, reports: seq<(Id, bv32)>) {
    && (forall i :: 0 <= i < |reports| ==>
          && reports[i].0 in s.poller.chan
          && s.poller.chan[reports[i].0].fd in s.poller.kernel
          && s.poller.kernel[s.poller.chan[reports[i].0].fd].1 == reports[i].0)
    && (forall i, j :: 0 <= i < j < |reports| ==> reports[i].0 != reports[j].0)
  }

  lemma ListeningIsLive(s: State, c: Id)
    requires Good(s, c) && s.poller.chan[c].status.LISTEN?
    ensures Live(s.conns[c].phase)
  {
  }

  lemma ReportsLive(s: State, reports: seq<(Id, bv32)>)
    requires Tables(s) && AllGood(s) && Reportable(s, reports)
    ensures ActiveLive(s.(active := reports, place := Handling))
  {
    hide Good, Live;
    forall i | 0 <= i < |reports| ensures reports[i].0 in s.conns && Live(s.conns[reports[i].0].phase) {
      var c := reports[i].0;
      assert Agrees(s.poller, c);
      GoodAt(s, c);
      ListeningIsLive(s, c);
    }
  }

  lemma PollInv(s: State, reports: seq<(Id, bv32)>)
    requires Inv(s) && Reportable(s, reports)
    ensures Inv(s.(active := reports, place := Handling))
  {
    var t := s.(active := reports, place := Handling);
    ReportsLive(s, reports);
    hide Agreement, ActiveLive, Standing;
  }

  /** Taking the first report off. */
  function Take(s: State): State
    requires s.active != []
  {
    s.(active := s.active[1..])
  }

  lemma TakeInv(s: State)
    requires Inv(s) && s.active != []
    ensures var c := s.active[0].0;
            Inv(Take(s)) && Known(Take(s), c) && Live(Take(s).conns[c].phase) && NotActive(Take(s), c)
  {
    hide Agreement, Standing;
    var t := Take(s);
    assert forall i :: 0 <= i < |t.active| ==> t.active[i] == s.active[i + 1];
  }

  // ---------------------------------------------------------------- every run

  datatype Event =
    | NewConnection(new_id: Id, fd: Fd) | PostNext
    | UserLetsGo(user_id: Id)                       // on a thread of its own
    | PollReturns(reports: seq<(Id, bv32)>)
    | Dispatch(r: ReadResult, acts: seq<Act>, drained: Drain)
    | BeginFunctors | RunNext(acts: seq<Act>) | EndFunctors

  predicate Enabled(s: State, e: Event) {
    match e
    case NewConnection(c, fd) => s.posting.Nothing? && c !in s.conns && FreshFd(s, fd)
    case PostNext => !s.posting.Nothing?
    case UserLetsGo(c) => c in s.kept
    case PollReturns(reports) => s.place.Polling? && Reportable(s, reports)
    case Dispatch(r, _, _) => s.active != [] && Known(s, s.active[0].0) && !ClosesTwice(s.active[0].1, r)
    case BeginFunctors => s.place.Handling? && s.active == []
    case RunNext(_) => s.place.Running? && s.left > 0 && s.todo != [] && Known(s, s.todo[0].c)
    case EndFunctors => s.place.Running? && s.left == 0
  }

  function Next(s: State, e: Event): State
    requires Enabled(s, e)
  {
    match e
    case NewConnection(c, fd) => Create(s, c, fd)
    case PostNext => Post(s)
    case UserLetsGo(c) => Drop(s, c)
    case PollReturns(reports) => s.(active := reports, place := Handling)
    case Dispatch(r, acts, drained) => HandleEvent(Take(s), s.active[0].0, s.active[0].1, r, acts, drained)
    case BeginFunctors => s.(place := Running, left := |s.todo|, held := Ids(s.todo))
    case RunNext(acts) => DoActs(RunFunctor(Pop(s), s.todo[0]), acts)
    case EndFunctors => Release(s.(place := Polling))
  }

  lemma BeginInv(s: State)
    requires Inv(s) && s.active == []
    ensures Inv(s.(place := Running, left := |s.todo|, held := Ids(s.todo)))
  {
    hide Agreement, Standing;
  }

  lemma EndInv(s: State)
    requires Inv(s) && s.place.Running?
    ensures Inv(s.(place := Polling))
  {
    hide Agreement, Standing;
  }

  lemma NextInv(s: State, e: Event)
    requires Inv(s) && Enabled(s, e)
    ensures Inv(Next(s, e))
  {
    hide Inv, Create, Post, Drop, HandleEvent, Take, RunFunctor, Pop, Release, DoActs, Reportable, FreshFd, ClosesTwice, NotActive, Live;
    match e {
      case NewConnection(c, fd) => CreateInv(s, c, fd);
      case PostNext => PostInv(s);
      case UserLetsGo(c) => DropInv(s, c);
      case PollReturns(reports) => PollInv(s, reports);
      case Dispatch(r, acts, drained) =>
        TakeInv(s);
        EventInv(Take(s), s.active[0].0, s.active[0].1, r, acts, drained);
      case BeginFunctors => BeginInv(s);
      case RunNext(acts) =>
        TaskInv(s);
        ActsInv(RunFunctor(Pop(s), s.todo[0]), acts);
      case EndFunctors =>
        EndInv(s);
        ReleaseInv(s.(place := Polling));
    }
  }

  function Start(): State {
    State.State(map[], Poller(map[], map[], map[], 0), {}, [], 0, {}, {}, Nothing, Polling, [], false)
  }

  /** The state after a list of events, if each could happen in its turn. */
  function Execute(events: seq<Event>): (r: Option<State>)
    ensures r.Some? ==> Inv(r.value)
    decreases |events|
  {
    if events == [] then Some(Start())
    else
      var before := Execute(events[..|events| - 1]);
      var e := events[|events| - 1];
      if before.Some? && Enabled(before.value, e) then
        NextInv(before.value, e);
        Some(Next(before.value, e))
      else None
  }

  /** The state some events later, if each could happen in its turn. */
  function After(s: State, events: seq<Event>): Option<State>
    decreases |events|
  {
    if events == [] then Some(s)
    else
      var before := After(s, events[..|events| - 1]);
      var e := events[|events| - 1];
      if before.Some? && Enabled(before.value, e) then Some(Next(before.value, e)) else None
  }

  lemma AfterSnoc(s: State, events: seq<Event>, e: Event)
    requires After(s, events).Some? && Enabled(After(s, events).value, e)
    ensures After(s, events + [e]) == Some(Next(After(s, events).value, e))
  {
    hide Enabled, Next;
    assert (events + [e])[..|events|] == events;
  }

  /** Runs can be cut anywhere. */
  lemma {:induction false} ExecuteThen(events: seq<Event>, more: seq<Event>)
    requires Execute(events).Some?
    ensures Execute(events + more) == After(Execute(events).value, more)
    decreases |more|
  {
    hide Enabled, Next, Inv;
    if more == [] {
      assert events + more == events;
    } else {
      var n := |more| - 1;
      ExecuteThen(events, more[..n]);
      assert (events + more)[..|events + more| - 1] == events + more[..n];
    }
  }

  // ---------------------------------------------------------------- what every run keeps

  /** Every descriptor the epoller or the kernel has is an open socket's, and
      that connection is owned by the set or by a task to come. */
  ghost predicate OwnedEntries(s: State) {
    forall fd :: fd in s.poller.channels ==>
      var c := s.poller.channels[fd];
      && Known(s, c) && s.conns[c].open && s.poller.chan[c].fd == fd
      && (c in s.connectSet || Mentions(s.todo, c))
  }

  lemma RegisteredOwned(s: State, c: Id)
    requires Good(s, c) && Registered(s.poller.chan[c])
    ensures s.conns[c].open && (c in s.connectSet || Mentions(s.todo, c))
  {
    if c !in s.connectSet && Moves(s.todo, c) != [] {
      MovesMention(s.todo, c);
    }
    if !s.posting.Nothing? {
      assert Unposted(s.posting, c) != [Destroy(c)];
    }
    hide Moves, Mentions, Flag;
  }

  lemma EntriesOwned(s: State)
    requires Tables(s) && AllGood(s)
    ensures OwnedEntries(s)
  {
    hide Good, Mentions;
    forall fd | fd in s.poller.channels
      ensures var c := s.poller.channels[fd];
              && Known(s, c) && s.conns[c].open && s.poller.chan[c].fd == fd
              && (c in s.connectSet || Mentions(s.todo, c))
    {
      var c := s.poller.channels[fd];
      assert Agrees(s.poller, c);
      GoodAt(s, c);
      RegisteredOwned(s, c);
    }
  }

  lemma CountsBounded(s: State, c: Id)
    requires Good(s, c)
    ensures s.conns[c].closes <= 1 && s.conns[c].destroys <= 1
    ensures !s.conns[c].open ==> s.conns[c].phase.Disconnected? && s.conns[c].destroys == 1
  {
    hide Duties, Mentions, Flag;
  }

  /** In every run: no assertion of the source fires and the kernel refuses
      nothing; each connection is closed and destroyed at most once; a socket is
      closed only when its connection has been destroyed, and is open exactly
      while the connection has an owner; and no entry of the epoller or the
      kernel ever belongs to a socket that is closed. */
  lemma SafeLives(events: seq<Event>)
    requires Execute(events).Some?
    ensures var s := Execute(events).value;
            && !s.aborted && s.poller.refused == 0
            && OwnedEntries(s) && Holding(s)
            && (forall fd :: fd in s.poller.kernel ==> fd in s.poller.channels && s.poller.kernel[fd].1 == s.poller.channels[fd])
            && (forall c :: c in s.conns ==>
                  && s.conns[c].closes <= 1 && s.conns[c].destroys <= 1
                  && (!s.conns[c].open ==> s.conns[c].phase.Disconnected? && s.conns[c].destroys == 1))
  {
    hide AllGood, Lists, ActiveLive, OwnedEntries, Good, Execute, Holding;
    var s := Execute(events).value;
    OpenExactlyWhileOwned(events);
    EntriesOwned(s);
    forall c | c in s.conns
      ensures s.conns[c].closes <= 1 && s.conns[c].destroys <= 1
      ensures !s.conns[c].open ==> s.conns[c].phase.Disconnected? && s.conns[c].destroys == 1
    {
      GoodAt(s, c);
      CountsBounded(s, c);
    }
  }

  // ---------------------------------------------------------------- one way only

  function Rank(p: Phase): nat {
    match p
    case Connecting => 0
    case Connected => 1
    case Disconnecting => 2
    case Disconnected => 3
  }

  /** No connection is forgotten, none goes back in its phases, and no closed
      socket opens again. */
  predicate Forward(s: State, t: State) {
    forall c :: c in s.conns ==> c in t.conns && Later(s.conns[c], t.conns[c])
  }

  predicate Later(k: Conn, l: Conn) {
    Rank(k.phase) <= Rank(l.phase) && (l.open ==> k.open) && k.closes <= l.closes && k.destroys <= l.destroys
  }

  lemma ForwardTrans(s: State, t: State, u: State)
    requires Forward(s, t) && Forward(t, u)
    ensures Forward(s, u)
  {
    hide Rank;
  }

  lemma CloseForward(s: State, c: Id)
    requires Known(s, c)
    ensures Forward(s, HandleClose(s, c))
  {
    hide Perform;
  }

  lemma ActForward(s: State, a: Act)
    ensures Forward(s, DoAct(s, a))
  {
    hide Perform, Reap, Owned;
    ReapForward(s, s.(kept := s.kept - {a.c}));
  }

  lemma {:induction false} ActsForward(s: State, acts: seq<Act>)
    ensures Forward(s, DoActs(s, acts))
    decreases |acts|
  {
    if acts != [] {
      hide Forward, DoAct;
      var t := DoActs(s, acts[..|acts| - 1]);
      ActsForward(s, acts[..|acts| - 1]);
      ActForward(t, acts[|acts| - 1]);
      ForwardTrans(s, t, DoAct(t, acts[|acts| - 1]));
    }
  }

  lemma SelfForward(s: State, t: State)
    requires t.conns == s.conns
    ensures Forward(s, t)
  {
  }

  lemma CloseAndReadForward(s: State, c: Id, ev: bv32, r: ReadResult)
    requires Known(s, c)
    ensures Forward(s, CloseAndRead(s, c, ev, r))
  {
    hide Forward, HandleClose, Hangup, ReadFlag, Known;
    var t := if Hangup(ev) then HandleClose(s, c) else s;
    SelfForward(s, s);
    CloseForward(s, c);
    if ReadFlag(ev) && Known(t, c) && r.Eof? {
      CloseForward(t, c);
      ForwardTrans(s, t, HandleClose(t, c));
    }
  }

  lemma WriteForward(s: State, c: Id, drained: Drain)
    requires Known(s, c)
    ensures Forward(s, HandleWrite(s, c, drained))
  {
    hide Perform;
  }

  lemma EventForward(s: State, c: Id, ev: bv32, r: ReadResult, acts: seq<Act>, drained: Drain)
    requires Known(s, c)
    ensures Forward(s, HandleEvent(s, c, ev, r, acts, drained))
  {
    hide Forward, CloseAndRead, DoActs, HandleWrite, Flag, Known;
    var t := CloseAndRead(s, c, ev, r);
    var u := DoActs(t, acts);
    CloseAndReadForward(s, c, ev, r);
    ActsForward(t, acts);
    ForwardTrans(s, t, u);
    if Known(u, c) {
      WriteForward(u, c, drained);
      ForwardTrans(s, u, HandleWrite(u, c, drained));
    }
  }

  lemma TaskForward(s: State, f: Functor)
    requires Known(s, f.c)
    ensures Forward(s, RunFunctor(s, f))
  {
    hide Perform, Registry.RemoveChannel;
  }

  lemma ReapForward(s: State, t: State)
    requires s.conns == t.conns
    ensures Forward(s, Reap(t))
  {
    hide Owned;
  }

  lemma CreateForward(s: State, c: Id, fd: Fd)
    requires c !in s.conns
    ensures Forward(s, Create(s, c, fd))
  {
  }

  lemma PostForward(s: State)
    requires !s.posting.Nothing?
    ensures Forward(s, Post(s))
  {
    hide Forward, Reap;
    if s.posting.Leaving? {
      ReapForward(s, s.(posting := Nothing));
    } else {
      SelfForward(s, Post(s));
    }
  }

  lemma NextForward(s: State, e: Event)
    requires Enabled(s, e)
    ensures Forward(s, Next(s, e))
  {
    hide Forward, Create, Post, HandleEvent, RunFunctor, Reap, DoActs, Reportable, FreshFd, ClosesTwice;
    match e {
      case NewConnection(c, fd) => CreateForward(s, c, fd);
      case Dispatch(r, acts, drained) =>
        SelfForward(s, Take(s));
        var t := HandleEvent(Take(s), s.active[0].0, s.active[0].1, r, acts, drained);
        EventForward(Take(s), s.active[0].0, s.active[0].1, r, acts, drained);
        ForwardTrans(s, Take(s), t);
      case RunNext(acts) =>
        var t := RunFunctor(Pop(s), s.todo[0]);
        SelfForward(s, Pop(s));
        TaskForward(Pop(s), s.todo[0]);
        ForwardTrans(s, Pop(s), t);
        ActsForward(t, acts);
        ForwardTrans(s, t, DoActs(t, acts));
      case EndFunctors =>
        var t := s.(place := Polling);
        ReapForward(s, t.(held := {}));
      case PostNext => PostForward(s);
      case UserLetsGo(c) => ReapForward(s, s.(kept := s.kept - {c}));
      case _ => SelfForward(s, Next(s, e));
    }
  }

  /** Between any two moments of any run every connection has only moved forward. */
  lemma {:induction false} PhasesOnlyAdvance(events: seq<Event>, i: nat)
    requires i <= |events| && Execute(events).Some?
    ensures Execute(events[..i]).Some?
    ensures Forward(Execute(events[..i]).value, Execute(events).value)
    decreases |events|
  {
    hide Forward, Next, Enabled, Inv;
    if i == |events| {
      assert events[..i] == events;
      SelfForward(Execute(events).value, Execute(events).value);
    } else {
      var before := events[..|events| - 1];
      PhasesOnlyAdvance(before, i);
      assert before[..i] == events[..i];
      NextForward(Execute(before).value, events[|events| - 1]);
      ForwardTrans(Execute(events[..i]).value, Execute(before).value, Execute(events).value);
    }
  }

  // ---------------------------------------------------------------- open exactly while owned

  /** Between rounds no vector of tasks is held; in a round it refers to all
      tasks of the round still to run. */
  predicate Batch(s: State) {
    && (!s.place.Running? ==> s.held == {})
    && (s.place.Running? ==> forall i :: 0 <= i < s.left && i < |s.todo| ==> s.todo[i].c in s.held)
  }

  /** A socket is open exactly while somebody holds a pointer to its connection. */
  ghost predicate Holding(s: State) {
    && Batch(s)
    && forall c :: c in s.conns ==> (s.conns[c].open <==> Owned(s, c))
  }

  /** One direction: what an owner that lets go leaves true. */
  ghost predicate OnlyOwnedOpen(s: State) {
    forall c :: c in s.conns && Owned(s, c) ==> s.conns[c].open
  }

  lemma ReapHolding(s: State)
    requires Batch(s) && OnlyOwnedOpen(s)
    ensures Holding(Reap(s))
  {
    hide Mentions;
    ReapOwners(s);
    hide Owned;
  }

  lemma ReapOwners(s: State)
    ensures forall c :: Owned(Reap(s), c) <==> Owned(s, c)
  {
    hide Mentions;
  }

  /** A task is queued for a connection that has an owner. */
  lemma QueueHolding(s: State, t: State, f: Functor)
    requires Holding(s) && f.c in s.conns && s.conns[f.c].open && s.left <= |s.todo|
    requires t == s.(conns := t.conns, poller := t.poller, todo := s.todo + [f], connectSet := t.connectSet)
    requires t.conns.Keys == s.conns.Keys && forall c :: c in s.conns ==> t.conns[c].open == s.conns[c].open
    requires t.connectSet == s.connectSet || t.connectSet == s.connectSet - {f.c}
    ensures Holding(t)
  {
    forall c | c in s.conns ensures Owned(t, c) <==> Owned(s, c) {
      MentionsSnoc(s.todo, f, c);
    }
    QueueBatch(s, t);
    hide Batch, Owned;
  }

  lemma QueueBatch(s: State, t: State)
    requires Batch(s) && t.place == s.place && t.held == s.held && t.left == s.left && s.todo <= t.todo
    requires s.left <= |s.todo|
    ensures Batch(t)
  {
  }

  /** Nothing that owners depend on has changed, but for one more entry in the
      set, of a connection that is owned. */
  lemma PlainHolding(s: State, t: State)
    requires Holding(s)
    requires t == s.(conns := t.conns, poller := t.poller, connectSet := t.connectSet, active := t.active, aborted := t.aborted)
    requires t.conns.Keys == s.conns.Keys && forall c :: c in s.conns ==> t.conns[c].open == s.conns[c].open
    requires s.connectSet <= t.connectSet && forall c :: c in t.connectSet && c !in s.connectSet ==> Owned(s, c)
    ensures Holding(t)
  {
    hide Mentions;
  }

  lemma KeepHolding(s: State, c: Id)
    requires Holding(s) && Owned(s, c)
    ensures Holding(s.(kept := s.kept + {c}))
  {
    hide Mentions;
  }

  lemma DropHolding(s: State, c: Id)
    requires Holding(s)
    ensures Holding(Drop(s, c))
  {
    FewerOwners(s, s.(kept := s.kept - {c}));
    hide Holding, Reap;
    ReapHolding(s.(kept := s.kept - {c}));
  }

  lemma FewerOwners(s: State, t: State)
    requires Holding(s) && t == s.(held := t.held, kept := t.kept, posting := t.posting, place := t.place)
    requires t.held <= s.held && t.kept <= s.kept && (t.posting == s.posting || t.posting.Nothing?)
    requires (t.held == s.held && t.place == s.place) || (t.held == {} && !t.place.Running?)
    ensures Batch(t) && OnlyOwnedOpen(t)
  {
    hide Mentions;
  }

  lemma ActHolding(s: State, a: Act)
    requires Inv(s) && Holding(s)
    ensures Holding(DoAct(s, a))
  {
    hide Inv, Holding, Perform, IsWriting, Drop, Owned;
    var t := DoAct(s, a);
    LeftFits(s);
    if Known(s, a.c) {
      match a {
        case CallForceClose(c) =>
          if Live(s.conns[c].phase) {
            LiveOpen(s, c);
            QueueHolding(s, t, ForceCloseInLoop(c));
          }
        case CallShutdown(c) => PlainHolding(s, t);
        case CallSend(c, sent) =>
          if t.todo == s.todo {
            PlainHolding(s, t);
          } else {
            LiveOpen(s, c);
            QueueHolding(s, t, Notify(c));
          }
        case Keep(c) =>
          if Owned(s, c) {
            KeepHolding(s, c);
          }
        case LetGo(c) => DropHolding(s, c);
      }
    }
  }

  lemma {:induction false} ActsHolding(s: State, acts: seq<Act>)
    requires Inv(s) && Holding(s)
    ensures Holding(DoActs(s, acts))
    decreases |acts|
  {
    hide Inv, Holding, DoAct;
    if acts != [] {
      ActsHolding(s, acts[..|acts| - 1]);
      ActsInv(s, acts[..|acts| - 1]);
      ActHolding(DoActs(s, acts[..|acts| - 1]), acts[|acts| - 1]);
    }
  }

  /** The task that destroys the connection is queued before the set lets go of
      it: at no point is a closing connection without an owner. */
  lemma CloseHolding(s: State, c: Id)
    requires Inv(s) && Holding(s) && Known(s, c) && Live(s.conns[c].phase)
    ensures Holding(HandleClose(s, c)) && Owned(s.(todo := s.todo + [Destroy(c)]), c) && Owned(HandleClose(s, c), c)
  {
    hide Inv, Holding, Perform;
    LeftFits(s);
    LiveOpen(s, c);
    QueueHolding(s, HandleClose(s, c), Destroy(c));
    MentionsSnoc(s.todo, Destroy(c), c);
  }

  lemma WriteHolding(s: State, c: Id, drained: Drain)
    requires Inv(s) && Holding(s) && Known(s, c)
    ensures Holding(HandleWrite(s, c, drained))
  {
    hide Inv, Holding, Perform, IsWriting;
    var t := HandleWrite(s, c, drained);
    LeftFits(s);
    if t.todo == s.todo {
      PlainHolding(s, t);
    } else {
      WritingOpen(s, c);
      QueueHolding(s, t, Notify(c));
    }
  }

  lemma WritingOpen(s: State, c: Id)
    requires Inv(s) && Known(s, c) && IsWriting(s.poller.chan[c])
    ensures s.conns[c].open
  {
    hide Inv, Good, Tables, Lists, ActiveLive, AllGood, IsWriting;
    Parts(s);
    GoodAt(s, c);
    WritingIsLive(s, c);
    LiveIsOpen(s, c);
  }

  lemma CloseAndReadHolding(s: State, c: Id, ev: bv32, r: ReadResult)
    requires Inv(s) && Holding(s) && Known(s, c) && Live(s.conns[c].phase) && !ClosesTwice(ev, r)
    ensures Holding(CloseAndRead(s, c, ev, r))
  {
    hide Inv, Holding, HandleClose, ReadFlag, Hangup, Live, Owned;
    if Hangup(ev) || (ReadFlag(ev) && r.Eof?) {
      CloseHolding(s, c);
    }
  }

  lemma EventHolding(s: State, c: Id, ev: bv32, r: ReadResult, acts: seq<Act>, drained: Drain)
    requires Inv(s) && Holding(s) && Known(s, c) && Live(s.conns[c].phase) && NotActive(s, c) && !ClosesTwice(ev, r)
    ensures Holding(HandleEvent(s, c, ev, r, acts, drained))
  {
    hide Inv, Holding, CloseAndRead, ClosesTwice, HandleWrite, DoActs, Live, NotActive, Known;
    var t := CloseAndRead(s, c, ev, r);
    CloseAndReadInv(s, c, ev, r);
    CloseAndReadHolding(s, c, ev, r);
    ActsInv(t, acts);
    ActsHolding(t, acts);
    if Known(DoActs(t, acts), c) {
      WriteHolding(DoActs(t, acts), c, drained);
    }
  }

  lemma TakeHolding(s: State)
    requires Holding(s) && s.active != []
    ensures Holding(Take(s))
  {
    hide Holding;
    PlainHolding(s, Take(s));
  }

  lemma PopHolding(s: State)
    requires Holding(s) && s.todo != [] && s.left > 0 && s.place.Running?
    ensures Holding(Pop(s)) && s.todo[0].c in Pop(s).held
  {
    var t := Pop(s);
    forall c | c in s.conns ensures Owned(t, c) <==> Owned(s, c) {
      PopMentions(s.todo, c);
    }
    PopBatch(s);
    hide Owned, Batch;
  }

  lemma PopMentions(fs: seq<Functor>, c: Id)
    requires fs != []
    ensures Mentions(fs, c) <==> fs[0].c == c || Mentions(fs[1..], c)
  {
    if Mentions(fs, c) {
      var i :| 0 <= i < |fs| && fs[i].c == c;
      assert i > 0 ==> fs[1..][i - 1].c == c;
    }
    if Mentions(fs[1..], c) {
      MentionsTail(fs, c);
    }
  }

  lemma PopBatch(s: State)
    requires Batch(s) && s.todo != [] && s.left > 0 && s.place.Running?
    ensures Batch(Pop(s)) && s.todo[0].c in s.held
  {
    var t := Pop(s);
    assert forall i :: 0 <= i < |t.todo| ==> t.todo[i] == s.todo[i + 1];
  }

  lemma TaskHolding(s: State)
    requires Inv(s) && Holding(s) && s.place.Running? && s.todo != [] && s.left > 0
    ensures Known(Pop(s), s.todo[0].c) && Holding(RunFunctor(Pop(s), s.todo[0]))
  {
    hide Inv, Holding, Pop, HandleClose, Perform, Registry.RemoveChannel;
    var m, f := Pop(s), s.todo[0];
    TaskInv(s);
    PopHolding(s);
    match f {
      case ForceCloseInLoop(c) =>
        PopInv(s);
        if Live(m.conns[c].phase) {
          CloseHolding(m, c);
        }
      case _ => PlainHolding(m, RunFunctor(m, f));
    }
  }

  lemma CreateHolding(s: State, c: Id, fd: Fd)
    requires Inv(s) && Holding(s) && c !in s.conns && s.posting.Nothing?
    ensures Holding(Create(s, c, fd))
  {
    hide Tables, AllGood, ActiveLive, Mentions;
  }

  lemma PostHolding(s: State)
    requires Inv(s) && Holding(s) && !s.posting.Nothing?
    ensures Holding(Post(s))
  {
    if s.posting.Leaving? {
      FewerOwners(s, s.(posting := Nothing));
      hide Inv, Holding, Reap;
      ReapHolding(s.(posting := Nothing));
    } else {
      hide Inv, Batch;
      var f := if s.posting.Both? then AddConnect(s.posting.c) else Establish(s.posting.c);
      var t := Post(s);
      LeftFits(s);
      QueueBatch(s, t);
      forall c | c in s.conns ensures Owned(t, c) <==> Owned(s, c) {
        MentionsSnoc(s.todo, f, c);
      }
    }
  }

  lemma BeginHolding(s: State)
    requires Holding(s) && s.place.Handling?
    ensures Holding(s.(place := Running, left := |s.todo|, held := Ids(s.todo)))
  {
    var t := s.(place := Running, left := |s.todo|, held := Ids(s.todo));
    forall c | c in s.conns ensures Owned(t, c) <==> Owned(s, c) {
      assert c in t.held ==> Mentions(s.todo, c);
    }
    assert forall i :: 0 <= i < |t.todo| ==> t.todo[i].c in t.held;
    hide Owned;
  }

  lemma EndHolding(s: State)
    requires Holding(s)
    ensures Holding(Release(s.(place := Polling)))
  {
    FewerOwners(s, s.(place := Polling, held := {}));
    hide Holding, Reap;
    ReapHolding(s.(place := Polling, held := {}));
  }

  lemma PollHolding(s: State, reports: seq<(Id, bv32)>)
    requires Holding(s) && s.place.Polling?
    ensures Holding(s.(active := reports, place := Handling))
  {
    hide Mentions;
  }

  lemma NextHolding(s: State, e: Event)
    requires Inv(s) && Holding(s) && Enabled(s, e)
    ensures Holding(Next(s, e))
  {
    hide Inv, Holding, Create, Post, Drop, HandleEvent, Take, RunFunctor, Pop, Release, DoActs, Reportable, FreshFd, ClosesTwice, NotActive, Live;
    match e {
      case NewConnection(c, fd) => CreateHolding(s, c, fd);
      case PostNext => PostHolding(s);
      case UserLetsGo(c) => DropHolding(s, c);
      case PollReturns(reports) => PollHolding(s, reports);
      case Dispatch(r, acts, drained) =>
        TakeInv(s);
        TakeHolding(s);
        EventHolding(Take(s), s.active[0].0, s.active[0].1, r, acts, drained);
      case BeginFunctors => BeginHolding(s);
      case RunNext(acts) =>
        TaskInv(s);
        TaskHolding(s);
        ActsHolding(RunFunctor(Pop(s), s.todo[0]), acts);
      case EndFunctors => EndHolding(s);
    }
  }

  lemma {:induction false} AfterHolding(s: State, events: seq<Event>)
    requires Inv(s) && Holding(s) && After(s, events).Some?
    ensures Holding(After(s, events).value)
    decreases |events|
  {
    hide Inv, Holding, Enabled, Next;
    if events != [] {
      AfterHolding(s, events[..|events| - 1]);
      AfterInv(s, events[..|events| - 1]);
      NextHolding(After(s, events[..|events| - 1]).value, events[|events| - 1]);
    }
  }

  /** In every run a socket is open exactly while its connection is owned: by
      the set, a queued task, the tasks of the round, the main thread, or user
      code. */
  lemma OpenExactlyWhileOwned(events: seq<Event>)
    requires Execute(events).Some?
    ensures Holding(Execute(events).value)
  {
    hide Inv, Holding, After, Execute;
    StartHolding();
    ExecuteIsAfter(events);
    StartInv();
    AfterHolding(Start(), events);
  }

  lemma StartHolding()
    ensures Holding(Start())
  {
  }

  lemma StartInv()
    ensures Inv(Start())
  {
    assert Execute([]) == Some(Start());
  }

  lemma ExecuteIsAfter(events: seq<Event>)
    requires Execute(events).Some?
    ensures After(Start(), events) == Execute(events)
  {
    assert Execute([]) == Some(Start());
    hide Execute, After;
    ExecuteThen([], events);
    assert [] + events == events;
  }

  // ---------------------------------------------------------------- nothing is left behind

  /** No task about `c` stands behind those of the round. */
  predicate Behind(s: State, c: Id) {
    forall i :: s.left <= i < |s.todo| ==> s.todo[i].c != c
  }

  /** `c` is closed, and the round under way has all that is still to do for it. */
  predicate Doomed(s: State, c: Id) {
    s.place.Running? && c in s.conns && s.conns[c].phase.Disconnected? && Behind(s, c)
  }

  lemma ReapDoomed(s: State, c: Id)
    requires Doomed(s, c)
    ensures Doomed(Reap(s), c)
  {
    hide Owned;
  }

  /** Nothing that a closed connection's owner could call queues another task
      for it, nor does a close of any other connection. */
  lemma ActBehind(s: State, a: Act, c: Id)
    requires Doomed(s, c)
    ensures Doomed(DoAct(s, a), c)
  {
    hide Perform, Reap, Owned;
    if a.LetGo? {
      ReapDoomed(s.(kept := s.kept - {a.c}), c);
    }
  }

  lemma {:induction false} ActsBehind(s: State, acts: seq<Act>, c: Id)
    requires Doomed(s, c)
    ensures Doomed(DoActs(s, acts), c)
    decreases |acts|
  {
    hide Doomed, DoAct;
    if acts != [] {
      ActsBehind(s, acts[..|acts| - 1], c);
      ActBehind(DoActs(s, acts[..|acts| - 1]), acts[|acts| - 1], c);
    }
  }

  lemma PopBehind(s: State, c: Id)
    requires Doomed(s, c) && s.todo != [] && s.left > 0
    ensures Doomed(Pop(s), c)
  {
    var t := Pop(s);
    assert forall i :: 0 <= i < |t.todo| ==> t.todo[i] == s.todo[i + 1];
  }

  lemma TaskBehind(s: State, f: Functor, c: Id)
    requires Doomed(s, c) && Known(s, f.c) && s.left <= |s.todo|
    requires f.Establish? ==> f.c != c
    ensures Doomed(RunFunctor(s, f), c)
  {
    hide Perform, Registry.RemoveChannel;
  }

  /** The tasks of a closed connection do not include its establishment. */
  lemma NotEstablished(s: State, c: Id)
    requires Good(s, c) && s.conns[c].phase.Disconnected? && s.todo != [] && s.todo[0].c == c
    ensures !s.todo[0].Establish?
  {
    PopFor(s.todo, s.posting, c);
    assert Mover(s.todo[0]) ==> Duties(s.todo, s.posting, c)[0] == s.todo[0];
    hide Mentions, Flag, Duties;
  }

  lemma NotPosted(s: State, c: Id)
    requires Good(s, c) && s.conns[c].phase.Disconnected?
    ensures Posts(s.posting) ==> s.posting.c != c
    ensures c !in s.connectSet
  {
    EndsEstablishing(s.todo, s.posting, c);
    hide Flag, Mentions, Duties;
  }

  lemma EndsEstablishing(fs: seq<Functor>, p: Posting, c: Id)
    ensures var d := Duties(fs, p, c);
            Posts(p) && p.c == c ==> d != [] && d[|d| - 1] == Establish(c)
  {
  }

  lemma PostBehind(s: State, c: Id)
    requires Doomed(s, c) && !s.posting.Nothing? && (Posts(s.posting) ==> s.posting.c != c)
    ensures Doomed(Post(s), c)
  {
    hide Reap;
    if s.posting.Leaving? {
      ReapDoomed(s.(posting := Nothing), c);
    }
  }

  lemma CreateBehind(s: State, d: Id, fd: Fd, c: Id)
    requires Doomed(s, c) && d !in s.conns
    ensures Doomed(Create(s, d, fd), c)
  {
  }

  lemma RunBehind(s: State, acts: seq<Act>, c: Id)
    requires Inv(s) && Doomed(s, c) && Enabled(s, RunNext(acts))
    ensures Doomed(Next(s, RunNext(acts)), c)
  {
    hide Inv, AllGood, Good, Tables, Lists, ActiveLive, Doomed, RunFunctor, DoActs, Known;
    var f := s.todo[0];
    DoomedGood(s, c);
    TaskInv(s);
    PopBehind(s, c);
    if f.c == c {
      NotEstablished(s, c);
    }
    LeftFits(s);
    TaskBehind(Pop(s), f, c);
    ActsBehind(RunFunctor(Pop(s), f), acts, c);
  }

  lemma LeftFits(s: State)
    requires Inv(s)
    ensures s.left <= |s.todo|
  {
    hide Tables, AllGood, ActiveLive;
  }

  lemma DoomedGood(s: State, c: Id)
    requires Inv(s) && Doomed(s, c)
    ensures Good(s, c) && s.conns[c].phase.Disconnected?
  {
    hide Good, Tables, Lists, ActiveLive;
  }

  /** A round that has begun goes on until its end. */
  lemma DoomedStep(s: State, e: Event, c: Id)
    requires Inv(s) && Doomed(s, c) && Enabled(s, e) && !e.EndFunctors?
    ensures Doomed(Next(s, e), c)
  {
    hide Inv, Good, Create, Post, Reap, HandleEvent, RunFunctor, DoActs, Reportable, FreshFd, ClosesTwice, Known;
    RunningOnly(s, e);
    match e {
      case NewConnection(d, fd) => CreateBehind(s, d, fd, c);
      case PostNext =>
        DoomedGood(s, c);
        NotPosted(s, c);
        PostBehind(s, c);
      case UserLetsGo(d) => ReapDoomed(s.(kept := s.kept - {d}), c);
      case RunNext(acts) => RunBehind(s, acts, c);
      case _ =>
    }
  }

  lemma RunningOnly(s: State, e: Event)
    requires Inv(s) && s.place.Running? && Enabled(s, e)
    ensures e.NewConnection? || e.PostNext? || e.UserLetsGo? || e.RunNext? || e.EndFunctors?
  {
    hide Tables, AllGood, Lists, Known, FreshFd, Reportable, ClosesTwice;
  }

  lemma BeginDooms(s: State, c: Id)
    requires c in s.conns && s.conns[c].phase.Disconnected? && Enabled(s, BeginFunctors)
    ensures Doomed(Next(s, BeginFunctors), c)
  {
  }

  /** Who may still hold a connection that its loop is done with: user code, and
      the main thread if it has not yet returned from `newConnection`. */
  predicate Lingers(s: State, c: Id) {
    c in s.kept || s.posting == Leaving(c)
  }

  /** The end of the round closes the socket, unless somebody lingers. */
  lemma EndCloses(s: State, c: Id)
    requires Inv(s) && Doomed(s, c) && Enabled(s, EndFunctors)
    ensures var t := Next(s, EndFunctors);
            c in t.conns && t.conns[c].phase.Disconnected? && !Mentions(t.todo, c)
            && (!Lingers(t, c) ==> !t.conns[c].open)
  {
    hide Inv, Good, Release, Doomed, Owned, Mentions;
    DoomedGood(s, c);
    NotPosted(s, c);
    var p := s.(place := Polling);
    DoomedUnowned(s, p.(held := {}), c);
    ReleaseCloses(p, c);
  }

  lemma DoomedUnowned(s: State, u: State, c: Id)
    requires Doomed(s, c) && s.left == 0 && c !in s.connectSet && (Posts(s.posting) ==> s.posting.c != c)
    requires u == s.(place := Polling, held := {})
    ensures c in s.conns && !Mentions(u.todo, c) && (Owned(u, c) ==> Lingers(u, c))
  {
  }

  lemma ReleaseCloses(p: State, c: Id)
    requires c in p.conns
    ensures var t := Release(p);
            && c in t.conns && t.conns[c].phase == p.conns[c].phase
            && t.todo == p.todo && t.kept == p.kept && t.posting == p.posting
            && (!Owned(p.(held := {}), c) ==> !t.conns[c].open)
  {
    hide Owned;
  }

  lemma {:induction false} AfterInv(s: State, events: seq<Event>)
    requires Inv(s) && After(s, events).Some?
    ensures Inv(After(s, events).value)
    decreases |events|
  {
    hide Inv, Enabled, Next;
    if events != [] {
      AfterInv(s, events[..|events| - 1]);
      NextInv(After(s, events[..|events| - 1]).value, events[|events| - 1]);
    }
  }

  lemma {:induction false} DoomedUntilEnd(s: State, mid: seq<Event>, c: Id)
    requires Inv(s) && Doomed(s, c) && EndFunctors !in mid && After(s, mid).Some?
    ensures Doomed(After(s, mid).value, c)
    decreases |mid|
  {
    hide Inv, Enabled, Next, Doomed;
    if mid != [] {
      var before := mid[..|mid| - 1];
      assert forall e :: e in before ==> e in mid;
      DoomedUntilEnd(s, before, c);
      AfterInv(s, before);
      DoomedStep(After(s, before).value, mid[|mid| - 1], c);
    }
  }

  lemma {:induction false} AfterThen(s: State, events: seq<Event>, more: seq<Event>)
    requires After(s, events + more).Some?
    ensures After(s, events).Some? && After(After(s, events).value, more) == After(s, events + more)
    decreases |more|
  {
    hide Enabled, Next;
    if more == [] {
      assert events + more == events;
    } else {
      assert (events + more)[..|events + more| - 1] == events + more[..|more| - 1];
      AfterThen(s, events, more[..|more| - 1]);
    }
  }

  lemma AfterOne(s: State, e: Event)
    requires After(s, [e]).Some?
    ensures Enabled(s, e) && After(s, [e]) == Some(Next(s, e))
  {
    hide Enabled, Next;
    assert [e][..0] == [];
  }

  lemma RoundCloses(s: State, mid: seq<Event>, c: Id)
    requires Inv(s) && Holding(s) && c in s.conns && s.conns[c].phase.Disconnected?
    requires EndFunctors !in mid && After(s, [BeginFunctors] + (mid + [EndFunctors])).Some?
    ensures var t := After(s, [BeginFunctors] + (mid + [EndFunctors])).value;
            && Known(t, c) && t.conns[c].destroys == 1 && t.poller.chan[c].status.DELETED?
            && (t.conns[c].open <==> Lingers(t, c))
  {
    hide Inv, Enabled, Next, Doomed, After, Good, AllGood, Tables, Lists, ActiveLive, Holding, Mentions, Lingers;
    AfterThen(s, [BeginFunctors], mid + [EndFunctors]);
    AfterOne(s, BeginFunctors);
    var b := Next(s, BeginFunctors);
    NextInv(s, BeginFunctors);
    NextHolding(s, BeginFunctors);
    BeginDooms(s, c);
    AfterThen(b, mid, [EndFunctors]);
    AfterInv(b, mid);
    AfterHolding(b, mid);
    DoomedUntilEnd(b, mid, c);
    var m := After(b, mid).value;
    AfterOne(m, EndFunctors);
    EndCloses(m, c);
    NextInv(m, EndFunctors);
    NextHolding(m, EndFunctors);
    var t := Next(m, EndFunctors);
    Parts(t);
    GoodAt(t, c);
    DestroyedFacts(t, c);
    if Lingers(t, c) {
      LingeringIsOpen(t, c);
    }
  }

  lemma DestroyedFacts(t: State, c: Id)
    requires Good(t, c) && t.conns[c].phase.Disconnected? && !Mentions(t.todo, c)
    ensures t.conns[c].destroys == 1 && t.poller.chan[c].status.DELETED?
  {
    if Moves(t.todo, c) != [] {
      MovesMention(t.todo, c);
    }
    NotPosted(t, c);
    NoDuty(t, c);
    hide Duties, Mentions, Flag;
  }

  lemma NoDuty(t: State, c: Id)
    requires Moves(t.todo, c) == [] && (Posts(t.posting) ==> t.posting.c != c)
    ensures Duties(t.todo, t.posting, c) == []
  {
    hide Moves;
  }

  lemma LingeringIsOpen(t: State, c: Id)
    requires Holding(t) && c in t.conns && Lingers(t, c)
    ensures t.conns[c].open
  {
    hide Mentions;
  }

  /** No connection is left behind: one that is closed when a round of tasks
      begins has been destroyed when that round ends, whatever the tasks, user
      code and the main thread do in between; and its socket is open then
      exactly if user code has kept a pointer or the main thread has not yet
      returned from `newConnection`. */
  lemma ClosedWithinARound(events: seq<Event>, mid: seq<Event>, c: Id)
    requires Execute(events).Some? && EndFunctors !in mid
    requires Execute(events + ([BeginFunctors] + (mid + [EndFunctors]))).Some?
    requires var s := Execute(events).value; c in s.conns && s.conns[c].phase.Disconnected?
    ensures var t := Execute(events + ([BeginFunctors] + (mid + [EndFunctors]))).value;
            && Known(t, c) && t.conns[c].destroys == 1 && t.poller.chan[c].status.DELETED?
            && (t.conns[c].open <==> Lingers(t, c))
  {
    hide Inv, Holding, Execute, After, Lingers;
    OpenExactlyWhileOwned(events);
    ExecuteThen(events, [BeginFunctors] + (mid + [EndFunctors]));
    RoundCloses(Execute(events).value, mid, c);
  }

  /** And whoever lingers closes it by letting go. */
  lemma LastToLeaveCloses(s: State, e: Event, c: Id)
    requires Inv(s) && Holding(s) && Enabled(s, e)
    ensures var t := Next(s, e);
            c in t.conns && !Owned(t, c) ==> !t.conns[c].open && t.conns[c].phase.Disconnected? && t.conns[c].destroys == 1
  {
    hide Inv, Holding, Enabled, Next, Owned, Good, AllGood, Tables, Lists, ActiveLive;
    NextInv(s, e);
    NextHolding(s, e);
    var t := Next(s, e);
    if c in t.conns && !Owned(t, c) {
      UnownedClosed(t, c);
      Parts(t);
      GoodAt(t, c);
      CountsBounded(t, c);
    }
  }

  lemma UnownedClosed(t: State, c: Id)
    requires Holding(t) && c in t.conns && !Owned(t, c)
    ensures !t.conns[c].open
  {
    hide Owned, Batch;
  }
}
