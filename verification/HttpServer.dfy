/** The input side of an HTTP connection: `handleRead`, one fresh parser per call
    of the message callback, and the requests a connection answers for a stream
    that arrives in any pieces. */
module HttpServer {
  import opened HttpGrammar
  import opened HttpRoundTrip
  import opened HttpParser
  import opened HttpArrivals
  import NetBuffer

  // ---------------------------------------------------------------- one call

  predicate KeepAlive(head: map<string, string>) {
    "Connection" in head && (head["Connection"] == "Keep-Alive" || head["Connection"] == "keep-alive")
  }

  /** The connection is kept after answering `p`; `opens`: for a GET, a file (the
      one asked for, or the one that says it is missing) could be opened. */
  predicate Stays(p: Parsed, opens: bool) {
    KeepAlive(p.head) && (p.verb == GET ==> opens)
  }

  datatype Closing = StaysOpen | ShutsDown | ForcesClose

  /** One call: parse what is buffered; consume exactly what a success read,
      everything on a failure, nothing else. A success is followed by a forced
      close unless it asks to keep the connection and has its file; a failure
      by a shutdown. `Spins` and `Throws` stand for a call that does not return. */
  method HttpMessageCallback(buffer: NetBuffer.Buffer, opens: bool) returns (o: Outcome, closing: Closing)
    requires buffer.Valid()
    modifies buffer`r, buffer`w
    ensures buffer.Valid() && o == ReadRequest(old(buffer.Contents()))
    ensures closing == ForcesClose <==> o.Success? && !Stays(o.request, opens)
    ensures closing == ShutsDown <==> o == Failed
    ensures buffer.Contents() ==
            match o
            case Success(_, n) => old(buffer.Contents())[n..]
            case Failed => ""
            case _ => old(buffer.Contents())
  {
    hide ReadRequest;
    var content := buffer.buf[buffer.r..buffer.w];
    var parser := new Parser(content);
    var final := parser.Parse();
    o := parser.Verdict();
    closing := StaysOpen;
    if o.Success? {
      SizeFits(content);
      buffer.Retrieve(o.size);
      closing := SuccessCallback(o.request, opens);
    } else if o == Failed {
      buffer.RetrieveAll();
      closing := ShutsDown;
    }
  }

  lemma SizeFits(b: string)
    ensures ReadRequest(b).Success? ==> ReadRequest(b).size <= |b|
  {
    hide ReadRequest;
  }

  /** What `successCallback` does to the connection. */
  method SuccessCallback(p: Parsed, opens: bool) returns (closing: Closing)
    ensures closing == if Stays(p, opens) then StaysOpen else ForcesClose
    ensures closing == StaysOpen <==>
            && "Connection" in p.head && (p.head["Connection"] == "Keep-Alive" || p.head["Connection"] == "keep-alive")
            && (p.verb == POST || opens)
  {
    var kep := "Connection" in p.head && (p.head["Connection"] == "Keep-Alive" || p.head["Connection"] == "keep-alive");
    if p.verb == GET {
      if !opens {
        return ForcesClose;
      }
    }
    if !kep {
      return ForcesClose;
    }
    return StaysOpen;
  }

  // ---------------------------------------------------------------- sessions

  /** `HalfClosed` after a shutdown: what arrives is still parsed, but `send` does
      nothing any more. `Forced`: the close is queued and comes before the next
      poll (see `ForcedClose`). `Stuck`: a call that did not return. */
  datatype Mode = Up | HalfClosed | Forced | PeerClosed | Stuck

  /** What is buffered; the requests answered; those parsed but not answered. */
  datatype Session = Session(buffer: string, handled: seq<Parsed>, unanswered: seq<Parsed>, mode: Mode)

  predicate Reads(m: Mode) {
    m.Up? || m.HalfClosed?
  }

  function Callback(s: Session, opens: bool): Session {
    match ReadRequest(s.buffer)
    case Success(p, n) =>
      var t := s.(buffer := s.buffer[n..], mode := if Stays(p, opens) then s.mode else Forced);
      if s.mode.Up? then t.(handled := s.handled + [p]) else t.(unanswered := s.unanswered + [p])
    case Incomplete => s
    case Failed => s.(buffer := "", mode := HalfClosed)
    case _ => s.(mode := Stuck)
  }

  /** One read event: `readFd`, and the branch its result takes. */
  function ReadEvent(s: Session, script: Script, opens: bool): Session {
    if !Reads(s.mode) then s
    else
      var t := s.(buffer := s.buffer + NetBuffer.Delivered(script));
      if Closes(script) then t.(mode := PeerClosed)
      else if Calls(script) then Callback(t, opens)
      else t
  }

  /** What a read event does to a session that is up, whatever the bytes: by how
      the read ended and by the verdict on all that is buffered. */
  lemma ReadEventIs(s: Session, script: Script, opens: bool)
    requires s.mode.Up?
    ensures var b := s.buffer + NetBuffer.Delivered(script);
            var o := ReadRequest(b);
            var t := ReadEvent(s, script, opens);
            && (t.mode == PeerClosed <==> Closes(script))
            && (t.mode == Forced <==> Calls(script) && o.Success? && !Stays(o.request, opens))
            && (t.mode == HalfClosed <==> Calls(script) && o == Failed)
            && (t.mode == Stuck <==> Calls(script) && (o == Spins || o == Throws))
            && t.handled == s.handled + (if Calls(script) && o.Success? then [o.request] else [])
            && t.unanswered == s.unanswered
            && t.buffer == (if Calls(script) && o.Success? then b[o.size..] else if Calls(script) && o == Failed then "" else b)
  {
    hide ReadRequest, Stays, NetBuffer.Delivered;
  }

  /** Once a failure has half closed it, requests may still be parsed, but none is
      answered. */
  lemma DeafEventIs(s: Session, script: Script, opens: bool)
    requires s.mode.HalfClosed?
    ensures var b := s.buffer + NetBuffer.Delivered(script);
            var o := ReadRequest(b);
            var t := ReadEvent(s, script, opens);
            && t.handled == s.handled && !t.mode.Up?
            && t.unanswered == s.unanswered + (if Calls(script) && o.Success? then [o.request] else [])
            && (t.mode == Forced <==> Calls(script) && o.Success? && !Stays(o.request, opens))
  {
    hide ReadRequest, Stays, NetBuffer.Delivered;
  }

  /** A connection's read events; `opens(k)`: the file of its k-th request opens. */
  function Serve(scripts: seq<Script>, opens: nat -> bool): Session {
    if scripts == [] then Session("", [], [], Up)
    else
      var s := Serve(scripts[..|scripts| - 1], opens);
      ReadEvent(s, scripts[|scripts| - 1], opens(|s.handled| + |s.unanswered|))
  }

  /** A connection's input side as an object. */
  class Input {
    const buffer: NetBuffer.Buffer
    var handled: seq<Parsed>
    var unanswered: seq<Parsed>
    var mode: Mode

    ghost function View(): Session
      requires buffer.Sound()
      reads this, buffer, buffer.buf
    {
      Session(buffer.Contents(), handled, unanswered, mode)
    }

    constructor ()
      ensures buffer.Valid() && fresh(buffer) && fresh(buffer.buf) && View() == Session("", [], [], Up)
    {
      buffer := new NetBuffer.Buffer(4096);
      handled, unanswered, mode := [], [], Up;
    }

    /** `handleRead` with the message callback of the HTTP server. */
    method HandleRead(script: Script, opens: bool)
      requires buffer.Valid() && Reads(mode)
      modifies this, buffer, buffer.buf
      ensures buffer.Valid() && (buffer.buf == old(buffer.buf) || fresh(buffer.buf))
      ensures View() == ReadEvent(old(View()), script, opens)
    {
      hide ReadRequest, Stays, NetBuffer.Delivered, NetBuffer.EndOf;
      var n, end := buffer.ReadFd(script);
      if end.Closed? {
        mode := PeerClosed;
      } else if n > 0 {
        var o, closing := HttpMessageCallback(buffer, opens);
        Answer(o, closing);
      }
    }

    /** What the callback's outcome means for the session. */
    method Answer(o: Outcome, closing: Closing)
      modifies this`handled, this`unanswered, this`mode
      ensures handled == old(handled) + if o.Success? && old(mode).Up? then [o.request] else []
      ensures unanswered == old(unanswered) + if o.Success? && !old(mode).Up? then [o.request] else []
      ensures mode == if o == Spins || o == Throws then Stuck
                      else match closing
                           case StaysOpen => old(mode)
                           case ShutsDown => HalfClosed
                           case ForcesClose => Forced
    {
      if o.Success? {
        if mode.Up? {
          handled := handled + [o.request];
        } else {
          unanswered := unanswered + [o.request];
        }
      }
      if o == Spins || o == Throws {
        mode := Stuck;
      } else if closing == ShutsDown {
        mode := HalfClosed;
      } else if closing == ForcesClose {
        mode := Forced;
      }
    }
  }

  // ---------------------------------------------------------------- a stream of requests

  /** The verdict on buffered bytes that begin the requests `rs`. */
  lemma BufferedVerdict(rs: seq<Request>, b: string)
    requires AllWellFormed(rs) && b <= RenderAll(rs)
    ensures ReadRequest(b) ==
            if rs != [] && |Render(rs[0])| <= |b| then Success(Meaning(rs[0]), |Render(rs[0])|)
            else if rs != [] && JudgedCut(rs[0], |b|) then Failed
            else Incomplete
    ensures rs != [] && |Render(rs[0])| <= |b| ==> Render(rs[0]) <= b
  {
    hide ReadRequest, Render, JudgedCut, WellFormed, Meaning;
    if rs == [] {
      EmptyIsIncomplete();
    } else {
      var t := Render(rs[0]);
      assert b == (t + RenderAll(rs[1..]))[..|b|];
      if |t| <= |b| {
        assert b == t + b[|t|..];
        RoundTrip(rs[0], b[|t|..]);
      } else {
        assert b == t[..|b|];
        PrefixVerdict(rs[0], b);
      }
    }
  }

  /** What is buffered begins the requests not yet answered. */
  lemma StillToCome(rs: seq<Request>, received: string, n: nat, b: string)
    requires n <= |rs| && received == RenderAll(rs[..n]) + b && received <= RenderAll(rs)
    ensures b <= RenderAll(rs[n..])
  {
    hide RenderAll;
    RenderSplit(rs, n);
    var k := |RenderAll(rs[..n])|;
    assert b == received[k..] == RenderAll(rs)[..|received|][k..];
    assert b == RenderAll(rs[n..])[..|b|];
  }

  lemma MeaningsSplit(rs: seq<Request>, n: nat)
    requires n <= |rs|
    ensures Meanings(rs) == Meanings(rs[..n]) + Meanings(rs[n..])
  {
  }

  lemma MeaningsSnoc(rs: seq<Request>, n: nat)
    requires n < |rs|
    ensures Meanings(rs[..n + 1]) == Meanings(rs[..n]) + [Meaning(rs[n])]
  {
  }

  lemma Answered(rs: seq<Request>, n: nat, b: string)
    requires n < |rs| && Render(rs[n]) <= b
    ensures RenderAll(rs[..n]) + b == RenderAll(rs[..n + 1]) + b[|Render(rs[n])|..]
  {
    hide Render, RenderAll;
    var t := Render(rs[n]);
    RenderSnoc(rs, n);
    assert b == t + b[|t|..];
  }

  /** Whether the connection is kept after the k-th request sent. */
  function Keeps(rs: seq<Request>, opens: nat -> bool): nat -> bool {
    (k: nat) => k < |rs| && Stays(Meaning(rs[k]), opens(k))
  }

  /** The session has answered the first requests, as many as the tally says,
      each as sent; as long as it is up it holds every other byte. */
  ghost predicate InStep(rs: seq<Request>, received: string, s: Session, y: Tally) {
    && y.n <= |rs|
    && s.handled == Meanings(rs[..y.n])
    && (s.mode.Up? <==> y.up)
    && (y.up ==> s.unanswered == [] && received == RenderAll(rs[..y.n]) + s.buffer)
  }

  /** The verdict on the buffer of a session in step, by the count of bytes. */
  lemma VerdictInStep(rs: seq<Request>, received: string, n: nat, b: string)
    requires AllWellFormed(rs) && n <= |rs| && received == RenderAll(rs[..n]) + b && received <= RenderAll(rs)
    ensures var t := |received|;
            ReadRequest(b) ==
            if Whole(rs, n, t) then Success(Meaning(rs[n]), |Render(rs[n])|)
            else if Judged(rs, n, t) then Failed
            else Incomplete
    ensures Whole(rs, n, |received|) ==> Render(rs[n]) <= b
  {
    hide ReadRequest, Render, JudgedCut, WellFormed, Meaning, RenderAll;
    StillToCome(rs, received, n, b);
    BufferedVerdict(rs[n..], b);
    if n < |rs| {
      assert rs[n..][0] == rs[n];
      OffsetNext(rs, n);
    }
  }

  /** A call with the bytes of a session in step. */
  lemma CallInStep(rs: seq<Request>, opens: nat -> bool, received: string, s: Session, n: nat, up: Tally)
    requires AllWellFormed(rs) && received <= RenderAll(rs) && s.mode.Up?
    requires InStep(rs, received, s, Tally(n, true))
    requires up == if Whole(rs, n, |received|) then Tally(n + 1, Keeps(rs, opens)(n)) else Tally(n, !Judged(rs, n, |received|))
    ensures InStep(rs, received, Callback(s, opens(n)), up)
  {
    hide ReadRequest, Render, WellFormed, Meaning, RenderAll, Meanings, Whole, Judged, Stays;
    VerdictInStep(rs, received, n, s.buffer);
    WholeIsNext(rs, n, |received|);
    if Whole(rs, n, |received|) {
      Answered(rs, n, s.buffer);
      MeaningsSnoc(rs, n);
    }
  }

  lemma HandleInStep(rs: seq<Request>, opens: nat -> bool, received: string, s: Session, y: Tally, script: Script, o: bool)
    requires AllWellFormed(rs) && InStep(rs, received, s, y) && (y.up ==> o == opens(y.n))
    requires received + NetBuffer.Delivered(script) <= RenderAll(rs)
    ensures var all := received + NetBuffer.Delivered(script);
            InStep(rs, all, ReadEvent(s, script, o), Turn(rs, Keeps(rs, opens), y, script, |all|))
  {
    hide WellFormed, RenderAll, Meanings, Whole, Judged, Callback, Calls, Closes, NetBuffer.Delivered;
    var d := NetBuffer.Delivered(script);
    var all := received + d;
    if y.up {
      var t := s.(buffer := s.buffer + d);
      assert all == RenderAll(rs[..y.n]) + t.buffer;
      CallInStep(rs, opens, all, t, y.n,
        if Whole(rs, y.n, |all|) then Tally(y.n + 1, Keeps(rs, opens)(y.n)) else Tally(y.n, !Judged(rs, y.n, |all|)));
      NotBoth(script);
    } else {
      DownStays(s, script, o);
    }
  }

  /** Once it is not up, a session answers nothing more. */
  lemma DownStays(s: Session, script: Script, opens: bool)
    requires !s.mode.Up?
    ensures !ReadEvent(s, script, opens).mode.Up? && ReadEvent(s, script, opens).handled == s.handled
  {
    hide ReadRequest, Stays, Calls, Closes, NetBuffer.Delivered;
  }

  lemma MeaningsLength(rs: seq<Request>, n: nat)
    requires n <= |rs|
    ensures |Meanings(rs[..n])| == n
  {
  }

  /** Any stream of well-formed requests, read in any pieces: after every read
      event the connection has answered exactly as many requests as `Count` says,
      the first ones, in order, each as sent; it is up exactly when `Count` says
      so, and then holds every byte not yet answered. */
  lemma {:induction false} ServeStream(rs: seq<Request>, opens: nat -> bool, scripts: seq<Script>)
    requires AllWellFormed(rs) && Received(scripts) <= RenderAll(rs)
    ensures InStep(rs, Received(scripts), Serve(scripts, opens), Count(rs, Keeps(rs, opens), scripts))
    decreases |scripts|
  {
    hide ReadEvent, Turn, WellFormed, RenderAll, Meanings, NetBuffer.Delivered;
    if scripts == [] {
      NothingYet(rs);
    } else {
      var before, last := scripts[..|scripts| - 1], scripts[|scripts| - 1];
      assert Received(before) <= Received(scripts);
      ServeStream(rs, opens, before);
      var y := Count(rs, Keeps(rs, opens), before);
      MeaningsLength(rs, y.n);
      var s := Serve(before, opens);
      HandleInStep(rs, opens, Received(before), s, y, last, opens(|s.handled| + |s.unanswered|));
    }
  }

  lemma NothingYet(rs: seq<Request>)
    ensures rs[..0] == [] && Meanings([]) == [] && RenderAll([]) == ""
  {
  }

  /** A connection is up exactly when every request that was due was to be kept
      alive and had its file, and no arrival ended in a close or inside a method
      or version; it has then answered exactly what was due. */
  lemma StaysUpIff(rs: seq<Request>, opens: nat -> bool, scripts: seq<Script>)
    requires AllWellFormed(rs) && Received(scripts) <= RenderAll(rs)
    ensures var s := Serve(scripts, opens);
            && (s.mode.Up? <==> Smooth(rs, scripts) && AllStay(Keeps(rs, opens), Due(rs, scripts)))
            && (s.mode.Up? ==> s.handled == Meanings(rs[..Due(rs, scripts)]))
  {
    hide Serve, Count, Smooth, AllStay, Due, Meanings, RenderAll, WellFormed;
    ServeStream(rs, opens, scripts);
    UpIff(rs, Keeps(rs, opens), scripts);
  }

  /** What a read event makes of a connection that is up, by the count of bytes:
      closed by the peer's end; closed by the server after a whole request that is
      not to be kept; half closed, with nothing buffered, by a cut inside a method
      or version; still up otherwise. */
  lemma ModeAfter(rs: seq<Request>, opens: nat -> bool, scripts: seq<Script>, last: Script)
    requires AllWellFormed(rs) && Received(scripts + [last]) <= RenderAll(rs) && Serve(scripts, opens).mode.Up?
    ensures var s := Serve(scripts + [last], opens);
            var n, t := Due(rs, scripts), |Received(scripts + [last])|;
            s.mode ==
            if Closes(last) then PeerClosed
            else if !Calls(last) then Up
            else if Whole(rs, n, t) then (if Stays(Meaning(rs[n]), opens(n)) then Up else Forced)
            else if Judged(rs, n, t) then HalfClosed else Up
    ensures Serve(scripts + [last], opens).mode.HalfClosed? ==> Serve(scripts + [last], opens).buffer == ""
  {
    hide Serve, Count, Due, Smooth, AllStay, RenderAll, Received, WellFormed, ReadEvent, Whole, Judged, Calls, Closes, Stays, Meaning, Meanings;
    var s := Serve(scripts, opens);
    Snoc(scripts, last, opens);
    assert Received(scripts) <= RenderAll(rs);
    ServeStream(rs, opens, scripts);
    UpIff(rs, Keeps(rs, opens), scripts);
    var n := Due(rs, scripts);
    MeaningsLength(rs, n);
    ReadMode(rs, Received(scripts), s, n, last, opens(n));
  }

  lemma {:induction false} Snoc(scripts: seq<Script>, last: Script, opens: nat -> bool)
    ensures Received(scripts + [last]) == Received(scripts) + NetBuffer.Delivered(last)
    ensures var s := Serve(scripts, opens);
            Serve(scripts + [last], opens) == ReadEvent(s, last, opens(|s.handled| + |s.unanswered|))
  {
    hide ReadEvent, NetBuffer.Delivered;
    assert (scripts + [last])[..|scripts|] == scripts;
  }

  lemma ReadMode(rs: seq<Request>, received: string, s: Session, n: nat, last: Script, o: bool)
    requires AllWellFormed(rs) && n <= |rs| && s.mode.Up? && received == RenderAll(rs[..n]) + s.buffer
    requires received + NetBuffer.Delivered(last) <= RenderAll(rs)
    ensures var t := |received + NetBuffer.Delivered(last)|;
            var u := ReadEvent(s, last, o);
            && (u.mode ==
                if Closes(last) then PeerClosed
                else if !Calls(last) then Up
                else if Whole(rs, n, t) then (if Stays(Meaning(rs[n]), o) then Up else Forced)
                else if Judged(rs, n, t) then HalfClosed else Up)
            && (u.mode.HalfClosed? ==> u.buffer == "")
  {
    hide RenderAll, WellFormed, ReadRequest, Whole, Judged, Calls, Closes, Stays, Meaning, NetBuffer.Delivered;
    var d := NetBuffer.Delivered(last);
    assert received + d == RenderAll(rs[..n]) + (s.buffer + d);
    VerdictInStep(rs, received + d, n, s.buffer + d);
    WholeIsNext(rs, n, |received + d|);
  }

  /** Every request sent is answered exactly when: all but the last are kept
      alive and have their files; until the last is due no arrival ends in a
      close or inside a method or version; and in no stretch of arrivals up to
      the end more requests are completed than turns are given. */
  lemma AllAnsweredIff(rs: seq<Request>, opens: nat -> bool, scripts: seq<Script>)
    requires AllWellFormed(rs) && Received(scripts) == RenderAll(rs)
    ensures Serve(scripts, opens).handled == Meanings(rs) <==>
            && AllStay(Keeps(rs, opens), |rs| - 1)
            && SmoothWhileDue(rs, scripts)
            && forall j :: 0 <= j <= |scripts| ==> |rs| <= In(rs, scripts, j) + CallCount(scripts[j..])
  {
    hide Serve, Count, SmoothWhileDue, AllStay, Due, In, CallCount, Meanings, RenderAll, WellFormed;
    ServeStream(rs, opens, scripts);
    AllDoneIff(rs, Keeps(rs, opens), scripts);
    var n := Count(rs, Keeps(rs, opens), scripts).n;
    AllIn(rs, scripts);
    CaughtUpIff(rs, scripts);
    MeaningsLength(rs, n);
    MeaningsLength(rs, |rs|);
    assert rs[..|rs|] == rs;
  }

  lemma AllIn(rs: seq<Request>, scripts: seq<Script>)
    requires Received(scripts) == RenderAll(rs)
    ensures In(rs, scripts, |scripts|) == |rs|
  {
    hide Complete, RenderAll;
    assert scripts[..|scripts|] == scripts && rs[..|rs|] == rs;
    CompleteIs(rs, |RenderAll(rs)|, |rs|);
  }

  /** As long as the connection is up nothing is lost: when all bytes are in, the
      requests answered and those a parser still finds in the buffer are exactly
      the requests sent. */
  lemma NothingLostWhileUp(rs: seq<Request>, opens: nat -> bool, scripts: seq<Script>)
    requires AllWellFormed(rs) && Received(scripts) == RenderAll(rs) && Serve(scripts, opens).mode.Up?
    ensures var s := Serve(scripts, opens); s.handled + Drain(s.buffer).0 == Meanings(rs) && Drain(s.buffer).1 == ""
  {
    hide RenderAll, Drain, Serve, Meanings, Count, Received, WellFormed;
    var s := Serve(scripts, opens);
    ServeStream(rs, opens, scripts);
    var n := Count(rs, Keeps(rs, opens), scripts).n;
    RenderSplit(rs, n);
    CancelLeft(RenderAll(rs[..n]), s.buffer, RenderAll(rs[n..]));
    PipelinedRoundTrip(rs[n..]);
    MeaningsSplit(rs, n);
  }

  lemma CancelLeft(x: string, y: string, z: string)
    requires x + y == x + z
    ensures y == z
  {
    assert (x + y)[|x|..] == y && (x + z)[|x|..] == z;
  }

  /** Behind a request that is not kept alive, or whose file does not open,
      nothing is answered, whatever arrives. */
  lemma NothingBehind(rs: seq<Request>, opens: nat -> bool, scripts: seq<Script>, k: nat)
    requires AllWellFormed(rs) && Received(scripts) <= RenderAll(rs)
    requires k < |rs| && !Stays(Meaning(rs[k]), opens(k))
    ensures |Serve(scripts, opens).handled| <= k + 1
  {
    hide Serve, Count, Meanings, RenderAll, WellFormed, Stays;
    ServeStream(rs, opens, scripts);
    NothingAfter(rs, Keeps(rs, opens), scripts, k);
    MeaningsLength(rs, Count(rs, Keeps(rs, opens), scripts).n);
  }

  lemma NoHeaders(r: Request, opens: bool)
    requires r.headers == []
    ensures !Stays(Meaning(r), opens)
  {
  }

  /** A request without headers, sent twice: the second is never answered. */
  lemma OneAnswerExample(r: Request, opens: nat -> bool, scripts: seq<Script>)
    requires WellFormed(r) && r.headers == [] && Received(scripts) == RenderAll([r, r])
    ensures |Serve(scripts, opens).handled| <= 1 && Serve(scripts, opens).handled != Meanings([r, r])
  {
    hide Serve, RenderAll, WellFormed, Stays, Received;
    NoHeaders(r, opens(0));
    assert [r, r][0] == r;
    NothingBehind([r, r], opens, scripts, 0);
  }

  /** A hang-up report without EPOLLIN closes as a read that finds the end at
      once does, and that is how it takes part in sessions. */
  lemma HangUp(s: Session, opens: bool)
    requires Reads(s.mode)
    ensures ReadEvent(s, [NetBuffer.PeerClosed], opens) == s.(mode := PeerClosed)
    ensures Closes([NetBuffer.PeerClosed]) && !Calls([NetBuffer.PeerClosed])
  {
    assert s.buffer + "" == s.buffer;
  }

  /** Two requests in one read: both are kept alive and have their files, and the
      second waits in the buffer of a connection that is up. */
  lemma TwoInOneRead(r: Request, opens: nat -> bool)
    requires WellFormed(r) && Stays(Meaning(r), opens(0))
    ensures var s := Serve([[NetBuffer.Data(RenderAll([r, r]))]], opens);
            s.mode.Up? && s.handled == [Meaning(r)] && s.buffer == Render(r)
  {
    var rs := [r, r];
    var script: Script := [NetBuffer.Data(RenderAll(rs))];
    hide Stays, WellFormed, Render;
    TwoWhole(r);
    OneRead(rs, opens, script);
    assert rs[..1] == [r];
    assert RenderAll([r]) == Render(r) + RenderAll([]);
    CancelLeft(Render(r), Serve([script], opens).buffer, Render(r));
  }

  lemma KeptAlive(r: Request)
    requires r == Request(GET, "/", "HTTP/1.1", [("Connection", "keep-alive")], "")
    ensures WellFormed(r) && Stays(Meaning(r), true)
  {
    assert r.headers[1..] == [];
    assert HeaderMap(r.headers) == map["Connection" := "keep-alive"];
  }

  /** A concrete one: the stream is all there, and half of it is answered. */
  lemma TwoInOneReadExample(r: Request, opens: nat -> bool)
    requires r == Request(GET, "/", "HTTP/1.1", [("Connection", "keep-alive")], "") && opens(0)
    ensures var s := Serve([[NetBuffer.Data(RenderAll([r, r]))]], opens);
            s.mode.Up? && s.handled == [Meaning(r)] && s.handled != Meanings([r, r])
  {
    KeptAlive(r);
    hide Serve, WellFormed, Stays, RenderAll;
    TwoInOneRead(r, opens);
  }

  lemma TwoWhole(r: Request)
    ensures Whole([r, r], 0, |RenderAll([r, r])|) && RenderAll([r, r]) == Render(r) + Render(r)
    ensures RenderAll([r, r]) != "" && Meanings([r]) == [Meaning(r)]
  {
    hide Render;
    RenderPositive(r);
    assert [r, r][1..] == [r] && [r][1..] == [] && [r, r][..1] == [r];
    assert RenderAll([r]) == Render(r) + RenderAll([]);
  }

  /** A first read that delivers all of a stream. */
  lemma OneRead(rs: seq<Request>, opens: nat -> bool, script: Script)
    requires AllWellFormed(rs) && RenderAll(rs) != "" && script == [NetBuffer.Data(RenderAll(rs))]
    ensures Received([script]) == RenderAll(rs)
    ensures InStep(rs, RenderAll(rs), Serve([script], opens),
              Turn(rs, Keeps(rs, opens), Tally(0, true), script, |RenderAll(rs)|))
    ensures Calls(script) && !Closes(script)
  {
    hide WellFormed, RenderAll, Turn, InStep;
    assert [script][..0] == [];
    assert script[1..] == [];
    assert NetBuffer.Delivered(script) == RenderAll(rs) + NetBuffer.Delivered([]);
    assert NetBuffer.EndOf(script) == NetBuffer.EndOf([]);
    ServeStream(rs, opens, [script]);
  }

  /** What a peer's close loses: whatever the same `readFd` delivered before it,
      and whatever was waiting, is never answered. */
  lemma LostAtClose(rs: seq<Request>, opens: nat -> bool, scripts: seq<Script>, last: Script)
    requires AllWellFormed(rs) && Received(scripts + [last]) == RenderAll(rs) && Closes(last)
    requires Serve(scripts, opens).mode.Up?
    ensures Serve(scripts + [last], opens).handled == Meanings(rs[..Due(rs, scripts)])
    ensures Serve(scripts + [last], opens).handled == Meanings(rs) <==> Due(rs, scripts) == |rs|
  {
    var all := scripts + [last];
    assert all[..|scripts|] == scripts;
    assert Serve(all, opens).handled == Serve(scripts, opens).handled;
    assert Received(scripts) <= RenderAll(rs);
    hide Serve, Smooth, AllStay, Due, RenderAll, WellFormed, Callback;
    StaysUpIff(rs, opens, scripts);
    UpIff(rs, Keeps(rs, opens), scripts);
    MeaningsLength(rs, Due(rs, scripts));
    MeaningsLength(rs, |rs|);
    assert rs[..|rs|] == rs;
  }
}
