/** `Channel` and `Epoller`: what the loop believes about each channel against
    the interest set the kernel holds. */
module Registry {

  // Linux event bits, and the three masks of Channel.cpp
  const EPOLLIN: bv32 := 0x1
  const EPOLLPRI: bv32 := 0x2
  const EPOLLOUT: bv32 := 0x4
  const EPOLLERR: bv32 := 0x8
  const EPOLLHUP: bv32 := 0x10
  const EPOLLRDHUP: bv32 := 0x2000
  const EPOLLET: bv32 := 0x8000_0000

  const NONE_EVENT: bv32 := EPOLLET
  const READ_EVENT: bv32 := EPOLLIN | EPOLLRDHUP | EPOLLPRI
  const WRITE_EVENT: bv32 := EPOLLOUT

  type Fd = nat
  type Id = nat

  datatype Status = INIT | LISTEN | DELETED | NOT_LISTEN

  datatype Channel = Channel(fd: Fd, events: bv32, status: Status)

  predicate IsWriting(c: Channel) { c.events & WRITE_EVENT != 0 }

  predicate NoEvent(c: Channel) { c.events == NONE_EVENT }

  predicate Registered(c: Channel) { c.status.LISTEN? || c.status.NOT_LISTEN? }

  /** `channels` is the epoller's map, `kernel` the interest set with what each
      entry's data points to; `refused` counts `epoll_ctl` calls that fail. */
  datatype Poller = Poller(chan: map<Id, Channel>, channels: map<Fd, Id>, kernel: map<Fd, (bv32, Id)>, refused: nat)

  // ---------------------------------------------------------------- epoll_ctl

  /** The kernel refuses an ADD for a descriptor it has, and a MOD or a DEL for
      one it does not have. */
  function CtlAdd(p: Poller, i: Id): Poller
    requires i in p.chan
  {
    var c := p.chan[i];
    if c.fd in p.kernel then p.(refused := p.refused + 1) else p.(kernel := p.kernel[c.fd := (c.events, i)])
  }

  function CtlMod(p: Poller, i: Id): Poller
    requires i in p.chan
  {
    var c := p.chan[i];
    if c.fd !in p.kernel then p.(refused := p.refused + 1) else p.(kernel := p.kernel[c.fd := (c.events, i)])
  }

  function CtlDel(p: Poller, i: Id): Poller
    requires i in p.chan
  {
    var c := p.chan[i];
    if c.fd !in p.kernel then p.(refused := p.refused + 1) else p.(kernel := p.kernel - {c.fd})
  }

  // ---------------------------------------------------------------- Epoller

  function SetStatus(p: Poller, i: Id, st: Status): Poller
    requires i in p.chan
  {
    p.(chan := p.chan[i := p.chan[i].(status := st)])
  }

  function UpdateChannel(p: Poller, i: Id): Poller
    requires i in p.chan
  {
    var c := p.chan[i];
    match c.status
    case INIT => var q := SetStatus(CtlAdd(p, i), i, LISTEN); q.(channels := q.channels[c.fd := i])
    case DELETED => var q := SetStatus(CtlAdd(p, i), i, LISTEN); q.(channels := q.channels[c.fd := i])
    case LISTEN => if NoEvent(c) then SetStatus(CtlDel(p, i), i, NOT_LISTEN) else CtlMod(p, i)
    case NOT_LISTEN => if NoEvent(c) then p else SetStatus(CtlAdd(p, i), i, LISTEN)
  }

  function RemoveChannel(p: Poller, i: Id): Poller
    requires i in p.chan
  {
    var c := p.chan[i];
    var q := p.(channels := p.channels - {c.fd});
    SetStatus(if c.status.LISTEN? then CtlDel(q, i) else q, i, DELETED)
  }

  // ---------------------------------------------------------------- Channel

  datatype Request = EnableReading | DisableReading | EnableWriting | DisableWriting | DisableAll

  function Events(e: bv32, r: Request): bv32 {
    match r
    case EnableReading => e | READ_EVENT
    case DisableReading => e & !READ_EVENT
    case EnableWriting => e | WRITE_EVENT
    case DisableWriting => e & !WRITE_EVENT
    case DisableAll => NONE_EVENT
  }

  function SetEvents(p: Poller, i: Id, e: bv32): Poller
    requires i in p.chan
  {
    p.(chan := p.chan[i := p.chan[i].(events := e)])
  }

  function Perform(p: Poller, i: Id, r: Request): Poller
    requires i in p.chan
  {
    UpdateChannel(SetEvents(p, i, Events(p.chan[i].events, r)), i)
  }

  // ---------------------------------------------------------------- agreement

  /** One channel and the two tables. */
  predicate Agrees(p: Poller, i: Id)
    requires i in p.chan
  {
    var c := p.chan[i];
    && (c.status.LISTEN? <==> c.fd in p.kernel && p.kernel[c.fd].1 == i)
    && (c.status.LISTEN? ==> p.kernel[c.fd].0 == c.events)
    && (Registered(c) <==> c.fd in p.channels && p.channels[c.fd] == i)
    && (c.status.NOT_LISTEN? ==> NoEvent(c))
  }

  /** All channels agree, and the tables hold nothing else: an interest is only
      there for the channel that the map has under its descriptor. */
  ghost predicate Agreement(p: Poller) {
    && (forall i :: i in p.chan ==> Agrees(p, i))
    && (forall fd :: fd in p.channels ==> p.channels[fd] in p.chan && p.chan[p.channels[fd]].fd == fd)
    && (forall fd :: fd in p.kernel ==> fd in p.channels && p.kernel[fd].1 == p.channels[fd])
  }

  /** Registering `i` clobbers nobody: its descriptor is not in use by another. */
  predicate FdFree(p: Poller, i: Id)
    requires i in p.chan
  {
    p.chan[i].fd in p.channels ==> p.channels[p.chan[i].fd] == i
  }

  /** The two ways a channel can stand after a call: listening with its mask,
      or quiet and out of the kernel's set. */
  function Listening(p: Poller, i: Id, e: bv32): Poller
    requires i in p.chan
  {
    var fd := p.chan[i].fd;
    Poller(p.chan[i := Channel(fd, e, LISTEN)], p.channels[fd := i], p.kernel[fd := (e, i)], p.refused)
  }

  function Quiet(p: Poller, i: Id): Poller
    requires i in p.chan
  {
    var fd := p.chan[i].fd;
    Poller(p.chan[i := Channel(fd, NONE_EVENT, NOT_LISTEN)], p.channels, p.kernel - {fd}, p.refused)
  }

  predicate EndsQuiet(c: Channel, e: bv32) {
    Registered(c) && e == NONE_EVENT
  }

  /** A channel that is not registered is added, whatever its mask. */
  lemma UpdateNew(p: Poller, i: Id, e: bv32)
    requires i in p.chan && Agreement(p) && FdFree(p, i) && !Registered(p.chan[i])
    ensures UpdateChannel(SetEvents(p, i, e), i) == Listening(p, i, e)
  {
    assert Agrees(p, i);
  }

  lemma UpdateListening(p: Poller, i: Id, e: bv32)
    requires i in p.chan && Agreement(p) && p.chan[i].status.LISTEN?
    ensures UpdateChannel(SetEvents(p, i, e), i) == if e == NONE_EVENT then Quiet(p, i) else Listening(p, i, e)
  {
    assert Agrees(p, i);
    assert p.channels[p.chan[i].fd := i] == p.channels;
  }

  lemma UpdateQuiet(p: Poller, i: Id, e: bv32)
    requires i in p.chan && Agreement(p) && p.chan[i].status.NOT_LISTEN?
    ensures UpdateChannel(SetEvents(p, i, e), i) == if e == NONE_EVENT then Quiet(p, i) else Listening(p, i, e)
  {
    assert Agrees(p, i);
    assert p.channels[p.chan[i].fd := i] == p.channels;
    assert p.kernel - {p.chan[i].fd} == p.kernel;
  }

  lemma PerformIs(p: Poller, i: Id, r: Request)
    requires i in p.chan && Agreement(p) && FdFree(p, i)
    ensures var e := Events(p.chan[i].events, r);
            Perform(p, i, r) == if EndsQuiet(p.chan[i], e) then Quiet(p, i) else Listening(p, i, e)
  {
    hide Events, UpdateChannel, SetEvents, Agreement, Quiet, Listening;
    var e := Events(p.chan[i].events, r);
    match p.chan[i].status {
      case LISTEN => UpdateListening(p, i, e);
      case NOT_LISTEN => UpdateQuiet(p, i, e);
      case _ => UpdateNew(p, i, e);
    }
  }

  lemma ListeningAgrees(p: Poller, i: Id, e: bv32)
    requires i in p.chan && Agreement(p) && FdFree(p, i)
    ensures Agreement(Listening(p, i, e))
  {
    var q := Listening(p, i, e);
    assert Agrees(p, i);
    forall j | j in q.chan ensures Agrees(q, j) {
      if j != i {
        assert Agrees(p, j);
      }
    }
  }

  lemma QuietAgrees(p: Poller, i: Id)
    requires i in p.chan && Agreement(p) && Registered(p.chan[i])
    ensures Agreement(Quiet(p, i))
  {
    var q := Quiet(p, i);
    assert Agrees(p, i);
    forall j | j in q.chan ensures Agrees(q, j) {
      if j != i {
        assert Agrees(p, j);
      }
    }
  }

  lemma PerformAgrees(p: Poller, i: Id, r: Request)
    requires i in p.chan && Agreement(p) && FdFree(p, i)
    ensures var q := Perform(p, i, r);
            && Agreement(q) && q.refused == p.refused && q.chan.Keys == p.chan.Keys
            && (forall j :: j in p.chan && j != i ==> q.chan[j] == p.chan[j])
            && q.chan[i].fd == p.chan[i].fd && q.chan[i].events == Events(p.chan[i].events, r)
            && Registered(q.chan[i])
  {
    hide Perform, Events, Agreement;
    PerformIs(p, i, r);
    var e := Events(p.chan[i].events, r);
    if EndsQuiet(p.chan[i], e) {
      QuietAgrees(p, i);
    } else {
      ListeningAgrees(p, i, e);
    }
  }

  lemma RemoveAgrees(p: Poller, i: Id)
    requires i in p.chan && Agreement(p) && FdFree(p, i)
    ensures var q := RemoveChannel(p, i);
            && Agreement(q) && q.refused == p.refused && q.chan.Keys == p.chan.Keys
            && (forall j :: j in p.chan && j != i ==> q.chan[j] == p.chan[j])
            && q.chan[i] == p.chan[i].(status := DELETED)
            && p.chan[i].fd !in q.channels && p.chan[i].fd !in q.kernel
  {
    var q := RemoveChannel(p, i);
    assert Agrees(p, i);
    forall j | j in q.chan ensures Agrees(q, j) {
      if j != i {
        assert Agrees(p, j);
      }
    }
  }

  // ---------------------------------------------------------------- any run

  datatype Step = Do(i: Id, r: Request) | Remove(i: Id)

  ghost predicate DistinctFds(p: Poller) {
    forall i, j :: i in p.chan && j in p.chan && i != j ==> p.chan[i].fd != p.chan[j].fd
  }

  function Apply(p: Poller, s: Step): Poller {
    if s.i !in p.chan then p
    else match s
         case Do(i, r) => Perform(p, i, r)
         case Remove(i) => RemoveChannel(p, i)
  }

  function Run(p: Poller, steps: seq<Step>): Poller {
    if steps == [] then p else Apply(Run(p, steps[..|steps| - 1]), steps[|steps| - 1])
  }

  /** Fresh channels, nothing registered. */
  predicate Fresh(p: Poller) {
    p.channels == map[] && p.kernel == map[] && p.refused == 0
    && forall i :: i in p.chan ==> p.chan[i].status.INIT? && p.chan[i].events == NONE_EVENT
  }

  lemma DistinctIsFree(p: Poller, i: Id)
    requires Agreement(p) && DistinctFds(p) && i in p.chan
    ensures FdFree(p, i)
  {
  }

  /** After any sequence of calls on channels with distinct descriptors the two
      sides agree, and the kernel has never refused a call. */
  lemma {:induction false} RunAgrees(p: Poller, steps: seq<Step>)
    requires Fresh(p) && DistinctFds(p)
    ensures var q := Run(p, steps);
            && Agreement(q) && q.refused == 0 && q.chan.Keys == p.chan.Keys
            && (forall i :: i in p.chan ==> q.chan[i].fd == p.chan[i].fd)
    decreases |steps|
  {
    if steps != [] {
      var q, s := Run(p, steps[..|steps| - 1]), steps[|steps| - 1];
      RunAgrees(p, steps[..|steps| - 1]);
      if s.i in q.chan {
        DistinctIsFree(q, s.i);
        ApplyAgrees(q, s);
      }
    }
  }

  lemma ApplyAgrees(q: Poller, s: Step)
    requires s.i in q.chan && Agreement(q) && FdFree(q, s.i)
    ensures var n := Apply(q, s);
            && Agreement(n) && n.refused == q.refused && n.chan.Keys == q.chan.Keys
            && (forall i :: i in q.chan ==> n.chan[i].fd == q.chan[i].fd)
  {
    match s {
      case Do(i, r) => PerformAgrees(q, i, r);
      case Remove(i) => RemoveAgrees(q, i);
    }
  }

  // ---------------------------------------------------------------- masks by the calls alone

  lemma BitsSet(e: bv32, m: bv32)
    ensures (e | m) & m == m && (e | m) & !m == e & !m
  {
  }

  lemma BitsCleared(e: bv32, m: bv32)
    ensures (e & !m) & m == 0 && (e & !m) & !m == e & !m
  {
  }

  function Own(r: Request): bv32 {
    match r
    case EnableReading => 0x2003
    case DisableReading => 0x2003
    case EnableWriting => 0x4
    case DisableWriting => 0x4
    case DisableAll => 0xffff_ffff
  }

  /** The call sets or clears exactly its own bits. */
  predicate OwnBits(e: bv32, r: Request) {
    && Events(e, r) & !Own(r) == e & !Own(r)
    && Events(e, r) & Own(r) ==
       if r.EnableReading? || r.EnableWriting? then Own(r) else if r.DisableAll? then 0x8000_0000 else 0
  }

  lemma EnableReadingBits(e: bv32)
    ensures OwnBits(e, EnableReading)
  {
    BitsSet(e, Own(EnableReading));
  }

  lemma EnableWritingBits(e: bv32)
    ensures OwnBits(e, EnableWriting)
  {
    BitsSet(e, Own(EnableWriting));
  }

  lemma DisableReadingBits(e: bv32)
    ensures OwnBits(e, DisableReading)
  {
    BitsCleared(e, Own(DisableReading));
  }

  lemma DisableWritingBits(e: bv32)
    ensures OwnBits(e, DisableWriting)
  {
    BitsCleared(e, Own(DisableWriting));
  }

  lemma DisableAllBits(e: bv32)
    ensures OwnBits(e, DisableAll)
  {
  }

  /** Every call sets or clears exactly its own bits, whatever the mask was. */
  lemma EventBits(e: bv32, r: Request)
    ensures OwnBits(e, r)
  {
    hide OwnBits;
    match r {
      case EnableReading => EnableReadingBits(e);
      case EnableWriting => EnableWritingBits(e);
      case DisableReading => DisableReadingBits(e);
      case DisableWriting => DisableWritingBits(e);
      case DisableAll => DisableAllBits(e);
    }
  }

  /** The last call about reading, or about writing, asked for it. */
  predicate WantsRead(steps: seq<Step>, i: Id) {
    steps != [] &&
    (var s := steps[|steps| - 1];
     if s == Do(i, EnableReading) then true
     else if s == Do(i, DisableReading) || s == Do(i, DisableAll) then false
     else WantsRead(steps[..|steps| - 1], i))
  }

  predicate WantsWrite(steps: seq<Step>, i: Id) {
    steps != [] &&
    (var s := steps[|steps| - 1];
     if s == Do(i, EnableWriting) then true
     else if s == Do(i, DisableWriting) || s == Do(i, DisableAll) then false
     else WantsWrite(steps[..|steps| - 1], i))
  }

  /** It has been called since it was last removed. */
  predicate Kept(steps: seq<Step>, i: Id) {
    steps != [] &&
    (var s := steps[|steps| - 1];
     if s.i != i then Kept(steps[..|steps| - 1], i) else s.Do?)
  }

  function MaskOf(read: bool, write: bool): bv32 {
    0x8000_0000 | (if read then 0x2003 else 0) | (if write then 0x4 else 0)
  }

  lemma MaskStep(read: bool, write: bool, r: Request)
    ensures Events(MaskOf(read, write), r) ==
            MaskOf(r.EnableReading? || (read && !r.DisableReading? && !r.DisableAll?),
                   r.EnableWriting? || (write && !r.DisableWriting? && !r.DisableAll?))
  {
  }

  lemma ApplyMask(q: Poller, s: Step, i: Id)
    requires s.i in q.chan && Agreement(q) && FdFree(q, s.i) && i in q.chan
    ensures var n := Apply(q, s);
            && i in n.chan
            && n.chan[i].events == (if s.Do? && s.i == i then Events(q.chan[i].events, s.r) else q.chan[i].events)
            && (Registered(n.chan[i]) <==> if s.i == i then s.Do? else Registered(q.chan[i]))
  {
    hide Perform, RemoveChannel, Events, Agreement;
    match s {
      case Do(j, r) => PerformAgrees(q, j, r);
      case Remove(j) => RemoveAgrees(q, j);
    }
  }

  /** After any sequence of calls a channel's mask is what its own last calls about
      reading and writing asked for, and it is registered exactly when it has been
      called since its last removal. */
  lemma {:induction false} MaskIsAsked(p: Poller, steps: seq<Step>, i: Id)
    requires Fresh(p) && DistinctFds(p) && i in p.chan
    ensures var q := Run(p, steps);
            && i in q.chan && q.chan[i].events == MaskOf(WantsRead(steps, i), WantsWrite(steps, i))
            && (Registered(q.chan[i]) <==> Kept(steps, i))
    decreases |steps|
  {
    if steps != [] {
      var before, s := steps[..|steps| - 1], steps[|steps| - 1];
      var q := Run(p, before);
      RunAgrees(p, before);
      MaskIsAsked(p, before, i);
      hide Agreement, Events, MaskOf, Apply, Registered;
      if s.i in q.chan {
        RunDistinct(p, before);
        DistinctIsFree(q, s.i);
        ApplyMask(q, s, i);
        if s.Do? {
          MaskStep(WantsRead(before, i), WantsWrite(before, i), s.r);
        }
      } else {
        ApplyNothing(q, s);
      }
    }
  }

  lemma RunDistinct(p: Poller, steps: seq<Step>)
    requires Fresh(p) && DistinctFds(p)
    ensures DistinctFds(Run(p, steps))
  {
    hide Agreement;
    RunAgrees(p, steps);
  }

  lemma ApplyNothing(q: Poller, s: Step)
    requires s.i !in q.chan
    ensures Apply(q, s) == q
  {
  }
}
