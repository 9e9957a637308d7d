/** When the loops of `parse()` and `requestHeadParse()` are left at all, and
    when they are left by an exception. */
module HttpLoops {
  import opened Options
  import opened HttpGrammar
  import opened HttpAcceptance
  import opened HttpRoundTrip

  // ---------------------------------------------------------------- pass by pass

  /** The parser between two passes of the loop it is in, or stopped. */
  datatype ParseRun =
    | AtLine
    | InHead(m: Method, url: string, version: string, lend: nat, head: map<string, string>)
    | InBody(url: string, version: string, cur: nat, head: map<string, string>)
    | Stopped(outcome: Outcome)

  predicate Fits(b: string, s: ParseRun) {
    match s
    case AtLine => true
    case InHead(_, _, _, lend, _) => 0 < lend <= |b|
    case InBody(_, _, cur, _) => 0 < cur < |b|
    case Stopped(o) => o != Spins
  }

  /** One pass. Two of them leave everything as it was: over a CR without LF,
      and over a Content-Length that is not positive. */
  function Pass(b: string, s: ParseRun): (t: ParseRun)
    requires Fits(b, s)
    ensures Fits(b, t)
  {
    match s
    case Stopped(_) => s
    case AtLine =>
      if b == "" then Stopped(Incomplete)
      else (
        match ReadLine(b)
        case LineRejected => Stopped(Failed)
        case LinePending => Stopped(Incomplete)
        case LineRead(m, url, version, e) => if e == |b| then Stopped(Incomplete) else InHead(m, url, version, e, map[])
      )
    case InHead(m, url, version, i, head) => (
      match NextLine(b, i)
      case Blank(next) =>
        if m == GET then Stopped(Success(Parsed(m, url, version, head, ""), next))
        else if next == |b| then Stopped(Incomplete)
        else InBody(url, version, next, head)
      case Field(k, v, next) => InHead(m, url, version, next, Insert(head, k, v))
      case NoSpace => Stopped(Failed)
      case SpaceFirst => Stopped(Throws)
      case Cut => Stopped(Incomplete)
      case BareCR => s
    )
    case InBody(url, version, i, head) =>
      if CONTENT_LENGTH !in head then Stopped(Failed)
      else
        match StoI(head[CONTENT_LENGTH])
        case None => Stopped(Throws)
        case Some(n) =>
          if n <= 0 then s
          else if i + n > |b| then Stopped(Incomplete)
          else Stopped(Success(Parsed(POST, url, version, head, b[i..i + n]), i + n))
  }

  function Passes(b: string, s: ParseRun, n: nat): (t: ParseRun)
    requires Fits(b, s)
    ensures Fits(b, t)
    decreases n
  {
    if n == 0 then s else Passes(b, Pass(b, s), n - 1)
  }

  /** The verdict still to come. */
  function Ahead(b: string, s: ParseRun): Outcome
    requires Fits(b, s)
  {
    match s
    case AtLine => ReadRequest(b)
    case InHead(m, url, version, lend, head) => (
      match ReadHead(b, lend, head)
      case HeadRejected => Failed
      case HeadPending => Incomplete
      case HeadSpins => Spins
      case HeadThrows => Throws
      case HeadRead(i, h) => ReadBody(b, m, url, version, i, h)
    )
    case InBody(url, version, cur, head) => ReadBody(b, POST, url, version, cur, head)
    case Stopped(o) => o
  }

  lemma PassKeepsVerdict(b: string, s: ParseRun)
    requires Fits(b, s)
    ensures Ahead(b, Pass(b, s)) == Ahead(b, s)
  {
    hide ReadLine, NextLine, StoI, Insert, CONTENT_LENGTH;
  }

  lemma {:induction false} SpinsForEver(b: string, s: ParseRun, n: nat)
    requires Fits(b, s) && Ahead(b, s) == Spins
    ensures !Passes(b, s, n).Stopped?
    decreases n
  {
    hide Pass, Ahead;
    if n > 0 {
      PassKeepsVerdict(b, s);
      SpinsForEver(b, Pass(b, s), n - 1);
    } else if s.Stopped? {
      StoppedVerdict(b, s);
    }
  }

  function Measure(b: string, s: ParseRun): nat
    requires Fits(b, s)
  {
    match s
    case AtLine => |b| + 3
    case InHead(_, _, _, lend, _) => |b| - lend + 2
    case InBody(_, _, _, _) => 1
    case Stopped(_) => 0
  }

  lemma PassGetsOn(b: string, s: ParseRun)
    requires Fits(b, s) && !s.Stopped? && Ahead(b, s) != Spins
    ensures Measure(b, Pass(b, s)) < Measure(b, s)
  {
    hide ReadLine, NextLine, StoI, Insert, CONTENT_LENGTH;
  }

  lemma {:induction false} StoppedStays(b: string, s: ParseRun, n: nat)
    requires Fits(b, s) && s.Stopped?
    ensures Passes(b, s, n) == s
    decreases n
  {
    if n > 0 {
      StoppedStays(b, s, n - 1);
    }
  }

  /** From some pass on the loops are left, with the verdict, for good. */
  lemma {:induction false} StopsInTime(b: string, s: ParseRun, n: nat)
    requires Fits(b, s) && Ahead(b, s) != Spins && Measure(b, s) <= n
    ensures Passes(b, s, n) == Stopped(Ahead(b, s))
    decreases n
  {
    hide Pass, Ahead, Measure;
    if s.Stopped? {
      StoppedStays(b, s, n);
      StoppedVerdict(b, s);
    } else {
      PassKeepsVerdict(b, s);
      PassGetsOn(b, s);
      StopsInTime(b, Pass(b, s), n - 1);
    }
  }

  lemma StoppedVerdict(b: string, s: ParseRun)
    requires Fits(b, s) && s.Stopped?
    ensures s == Stopped(Ahead(b, s))
  {
  }

  /** `parse()` runs for ever exactly when the reading says so; otherwise it has
      stopped with the verdict of the reading after at most |b| + 3 passes. */
  lemma ParseLoop(b: string)
    ensures ReadRequest(b) == Spins <==> forall n :: !Passes(b, AtLine, n).Stopped?
    ensures ReadRequest(b) != Spins ==> forall n :: |b| + 3 <= n ==> Passes(b, AtLine, n) == Stopped(ReadRequest(b))
  {
    hide ReadRequest;
    if ReadRequest(b) == Spins {
      forall n ensures !Passes(b, AtLine, n).Stopped? {
        SpinsForEver(b, AtLine, n);
      }
    } else {
      forall n | |b| + 3 <= n ensures Passes(b, AtLine, n) == Stopped(ReadRequest(b)) {
        StopsInTime(b, AtLine, n);
      }
      assert Passes(b, AtLine, |b| + 3).Stopped?;
    }
  }

  // ---------------------------------------------------------------- where the head stops

  /** Header lines with their CRLFs, no blank line. */
  function RenderLines(ls: seq<string>): string {
    if ls == [] then "" else ls[0] + (CRLF + RenderLines(ls[1..]))
  }

  predicate Stops(h: HeadLine) {
    !h.Blank? && !h.Field?
  }

  /** How the head ends on a line that is neither blank nor a header. */
  function StopOf(h: HeadLine): HeadOutcome
    requires Stops(h)
  {
    match h
    case NoSpace => HeadRejected
    case SpaceFirst => HeadThrows
    case Cut => HeadPending
    case BareCR => HeadSpins
  }

  lemma {:induction false} StopsAfterLines(b: string, i: nat, m: map<string, string>, ls: seq<string>)
    requires HeaderLines(ls) && Has(b, i, RenderLines(ls)) && Stops(NextLine(b, i + |RenderLines(ls)|))
    ensures ReadHead(b, i, m) == StopOf(NextLine(b, i + |RenderLines(ls)|))
    decreases |ls|
  {
    hide NextLine, Find, Has, Insert, Key, Value;
    if ls != [] {
      var l := ls[0];
      Cat(b, i, l, CRLF + RenderLines(ls[1..]));
      Cat(b, i + |l|, CRLF, RenderLines(ls[1..]));
      HeadStep(b, i, l, m);
      StopsAfterLines(b, i + |l| + 2, Insert(m, Key(l), Value(l)), ls[1..]);
    }
  }

  lemma HasNothing(b: string, i: nat)
    requires i <= |b|
    ensures Has(b, i, "")
  {
  }

  lemma {:induction false} LinesBeforeStop(b: string, i: nat, m: map<string, string>) returns (ls: seq<string>)
    requires i <= |b| && !ReadHead(b, i, m).HeadRead?
    ensures HeaderLines(ls) && Has(b, i, RenderLines(ls)) && i + |RenderLines(ls)| <= |b|
    ensures var h := NextLine(b, i + |RenderLines(ls)|); Stops(h) && StopOf(h) == ReadHead(b, i, m)
    decreases |b| - i
  {
    hide NextLine, Find, Insert, Has, Key, Value;
    if Stops(NextLine(b, i)) {
      ls := [];
      HasNothing(b, i);
    } else {
      var l := FieldIsLine(b, i);
      NextIsField(b, i, l);
      var tail := LinesBeforeStop(b, i + |l| + 2, Insert(m, Key(l), Value(l)));
      ls := [l] + tail;
      assert ls[1..] == tail;
      Cat(b, i, l, CRLF + RenderLines(tail));
      Cat(b, i + |l|, CRLF, RenderLines(tail));
    }
  }

  /** CR-free bytes, a CR, a byte that is not LF, and at least one byte more. */
  ghost predicate BareCRAt(b: string, i: nat, t: string) {
    CRFree(t) && Has(b, i, t + "\r") && i + |t| + 2 < |b| && b[i + |t| + 1] != '\n'
  }

  lemma BareCRFound(b: string, i: nat) returns (t: string)
    requires i <= |b| && NextLine(b, i) == BareCR
    ensures BareCRAt(b, i, t)
  {
    t := b[i..Find(b, '\r', i, |b|)];
    Cat(b, i, t, "\r");
  }

  lemma BareCRRead(b: string, i: nat, t: string)
    requires i <= |b| && BareCRAt(b, i, t)
    ensures NextLine(b, i) == BareCR
  {
    Cat(b, i, t, "\r");
    At(b, i + |t|, "\r");
    FindCR(b, i, t);
  }

  /** A whole line that begins with a space. */
  ghost predicate SpaceFirstAt(b: string, i: nat, t: string) {
    CRFree(t) && t != "" && t[0] == ' ' && Has(b, i, t) && Has(b, i + |t|, CRLF)
  }

  lemma SpaceFirstFound(b: string, i: nat) returns (t: string)
    requires i <= |b| && NextLine(b, i) == SpaceFirst
    ensures SpaceFirstAt(b, i, t)
  {
    t := b[i..Find(b, '\r', i, |b|)];
  }

  lemma SpaceFirstRead(b: string, i: nat, t: string)
    requires i <= |b| && SpaceFirstAt(b, i, t)
    ensures NextLine(b, i) == SpaceFirst
  {
    At(b, i, t);
    At(b, i + |t|, CRLF);
    FindCR(b, i, t);
    FindIs(b, ' ', i, i + |t| + 2, i);
  }

  // ---------------------------------------------------------------- in terms of the grammar

  /** A request line and header lines. */
  datatype Lead = Lead(m: Method, url: string, version: string, line: string, ls: seq<string>)

  /** `b` starts with the request line, which ends before `b` does; the header
      lines are header lines. */
  ghost predicate Leads(b: string, w: Lead) {
    && LineBody(w.line) && LineFields(w.line, w.m, w.url, w.version)
    && Has(b, 0, w.line) && Has(b, |w.line|, CRLF) && |w.line| + 2 < |b|
    && HeaderLines(w.ls)
  }

  /** The header lines stand in `b`, and behind them position `j`. */
  ghost predicate LinesEnd(b: string, w: Lead, j: nat) {
    Leads(b, w) && Has(b, |w.line| + 2, RenderLines(w.ls)) && j == |w.line| + 2 + |RenderLines(w.ls)|
  }

  /** A POST with a whole head that holds a Content-Length, and at least one
      byte behind it. */
  ghost predicate WholePost(b: string, w: Lead) {
    && Leads(b, w) && w.m == POST && Has(b, |w.line| + 2, RenderHead(w.ls))
    && |w.line| + 2 + |RenderHead(w.ls)| < |b|
    && CONTENT_LENGTH in InsertLines(map[], w.ls)
  }

  function Length(w: Lead): Option<int>
    requires HeaderLines(w.ls) && CONTENT_LENGTH in InsertLines(map[], w.ls)
  {
    StoI(InsertLines(map[], w.ls)[CONTENT_LENGTH])
  }

  /** Request line, header lines, and a CR without LF that more bytes follow. */
  ghost predicate BareCRShape(b: string, w: Lead, j: nat, t: string) {
    LinesEnd(b, w, j) && BareCRAt(b, j, t)
  }

  ghost predicate SpaceShape(b: string, w: Lead, j: nat, t: string) {
    LinesEnd(b, w, j) && SpaceFirstAt(b, j, t)
  }

  ghost predicate IdlePost(b: string, w: Lead) {
    WholePost(b, w) && Length(w).Some? && Length(w).value <= 0
  }

  ghost predicate NumberlessPost(b: string, w: Lead) {
    WholePost(b, w) && Length(w).None?
  }

  lemma LeadRead(b: string, w: Lead)
    requires Leads(b, w)
    ensures b != "" && ReadLine(b) == LineRead(w.m, w.url, w.version, |w.line| + 2)
  {
    hide LineBody, LineFields, Has, ReadLine, HeaderLines;
    LineComplete(b, w.line, w.m, w.url, w.version);
  }

  /** The line of a buffer whose head is looked at, with no header lines yet. */
  lemma LineOf(b: string) returns (w: Lead)
    requires b != "" && ReadLine(b).LineRead? && ReadLine(b).next < |b|
    ensures w.ls == [] && Leads(b, w) && |w.line| + 2 == ReadLine(b).next && w.m == ReadLine(b).verb
  {
    hide LineBody, LineFields, ReadLine;
    var r := ReadLine(b);
    LineSound(b);
    w := Lead(r.verb, r.url, r.version, b[..r.next - 2], []);
  }

  /** The head from which `ReadRequest` goes on. */
  function HeadOf(b: string): HeadOutcome
    requires b != "" && ReadLine(b).LineRead?
  {
    ReadHead(b, ReadLine(b).next, map[])
  }

  lemma SpinsFrom(b: string)
    requires ReadRequest(b) == Spins
    ensures b != "" && ReadLine(b).LineRead? && ReadLine(b).next < |b|
    ensures var h := HeadOf(b);
            || h == HeadSpins
            || (h.HeadRead? && ReadLine(b).verb == POST && h.next < |b| && CONTENT_LENGTH in h.head
                && StoI(h.head[CONTENT_LENGTH]).Some? && StoI(h.head[CONTENT_LENGTH]).value <= 0)
  {
    hide ReadLine, ReadHead, StoI;
  }

  lemma ThrowsFrom(b: string)
    requires ReadRequest(b) == Throws
    ensures b != "" && ReadLine(b).LineRead? && ReadLine(b).next < |b|
    ensures var h := HeadOf(b);
            || h == HeadThrows
            || (h.HeadRead? && ReadLine(b).verb == POST && h.next < |b| && CONTENT_LENGTH in h.head
                && StoI(h.head[CONTENT_LENGTH]).None?)
  {
    hide ReadLine, ReadHead, StoI;
  }

  /** A head that stops, as header lines and the place where it does. */
  lemma StopPlace(b: string) returns (w: Lead, j: nat)
    requires b != "" && ReadLine(b).LineRead? && ReadLine(b).next < |b| && !HeadOf(b).HeadRead?
    ensures j <= |b| && LinesEnd(b, w, j) && Stops(NextLine(b, j)) && StopOf(NextLine(b, j)) == HeadOf(b)
  {
    hide LineBody, LineFields, ReadLine, ReadHead, NextLine, Has, HeaderLines, RenderLines;
    var v := LineOf(b);
    var ls := LinesBeforeStop(b, ReadLine(b).next, map[]);
    w := v.(ls := ls);
    j := |w.line| + 2 + |RenderLines(w.ls)|;
  }

  /** A head that is read, as a whole POST. */
  lemma HeadPlace(b: string) returns (w: Lead)
    requires b != "" && ReadLine(b).LineRead? && ReadLine(b).next < |b| && HeadOf(b).HeadRead?
    requires ReadLine(b).verb == POST && HeadOf(b).next < |b| && CONTENT_LENGTH in HeadOf(b).head
    ensures WholePost(b, w) && Length(w) == StoI(HeadOf(b).head[CONTENT_LENGTH])
  {
    hide LineBody, LineFields, ReadLine, ReadHead, StoI, Has, HeaderLines, RenderHead, InsertLines;
    var v := LineOf(b);
    var ls := HeadSound(b, ReadLine(b).next, map[]);
    w := v.(ls := ls);
  }

  lemma StopVerdict(b: string, w: Lead, j: nat)
    requires LinesEnd(b, w, j) && j <= |b| && Stops(NextLine(b, j))
    ensures NextLine(b, j) == BareCR ==> ReadRequest(b) == Spins
    ensures NextLine(b, j) == SpaceFirst ==> ReadRequest(b) == Throws
  {
    hide LineBody, LineFields, ReadLine, ReadHead, NextLine, Has, HeaderLines, RenderLines;
    LeadRead(b, w);
    StopsAfterLines(b, |w.line| + 2, map[], w.ls);
  }

  lemma PostVerdict(b: string, w: Lead)
    requires WholePost(b, w)
    ensures Length(w).None? ==> ReadRequest(b) == Throws
    ensures Length(w).Some? && Length(w).value <= 0 ==> ReadRequest(b) == Spins
  {
    hide LineBody, LineFields, ReadLine, ReadHead, StoI, Has, HeaderLines, RenderHead, InsertLines;
    LeadRead(b, w);
    HeadComplete(b, |w.line| + 2, w.ls, map[]);
  }

  /** The buffers on which `parse()` never returns, exactly. */
  lemma SpinsIff(b: string)
    ensures ReadRequest(b) == Spins <==>
            (exists w, j, t :: BareCRShape(b, w, j, t)) || (exists w :: IdlePost(b, w))
  {
    hide ReadRequest, ReadLine, NextLine, HeadOf, LinesEnd, WholePost, Length, StoI, BareCRAt;
    if ReadRequest(b) == Spins {
      SpinsFrom(b);
      if HeadOf(b) == HeadSpins {
        var w, j := StopPlace(b);
        var t := BareCRFound(b, j);
        assert BareCRShape(b, w, j, t);
      } else {
        var w := HeadPlace(b);
        assert IdlePost(b, w);
      }
    }
    forall w, j, t | BareCRShape(b, w, j, t) ensures ReadRequest(b) == Spins {
      ShapeInside(b, j, t);
      BareCRRead(b, j, t);
      StopVerdict(b, w, j);
    }
    forall w | IdlePost(b, w) ensures ReadRequest(b) == Spins {
      PostVerdict(b, w);
    }
  }

  lemma ShapeInside(b: string, j: nat, t: string)
    requires BareCRAt(b, j, t) || SpaceFirstAt(b, j, t)
    ensures j <= |b|
  {
  }

  /** The buffers on which `parse()` ends in an exception, exactly. */
  lemma ThrowsIff(b: string)
    ensures ReadRequest(b) == Throws <==>
            (exists w, j, t :: SpaceShape(b, w, j, t)) || (exists w :: NumberlessPost(b, w))
  {
    hide ReadRequest, ReadLine, NextLine, HeadOf, LinesEnd, WholePost, Length, StoI, SpaceFirstAt;
    if ReadRequest(b) == Throws {
      ThrowsFrom(b);
      if HeadOf(b) == HeadThrows {
        var w, j := StopPlace(b);
        var t := SpaceFirstFound(b, j);
        assert SpaceShape(b, w, j, t);
      } else {
        var w := HeadPlace(b);
        assert NumberlessPost(b, w);
      }
    }
    forall w, j, t | SpaceShape(b, w, j, t) ensures ReadRequest(b) == Throws {
      ShapeInside(b, j, t);
      SpaceFirstRead(b, j, t);
      StopVerdict(b, w, j);
    }
    forall w | NumberlessPost(b, w) ensures ReadRequest(b) == Throws {
      PostVerdict(b, w);
    }
  }

  // ---------------------------------------------------------------- one buffer for each

  /** A request line with anything behind it. */
  lemma LeadOf(r: Request, rest: string, ls: seq<string>)
    requires PlainLine(r) && rest != "" && HeaderLines(ls)
    ensures var b := RequestLine(r) + CRLF + rest;
            && Leads(b, Lead(r.verb, r.url, r.version, RequestLine(r), ls))
            && Has(b, |RequestLine(r)| + 2, rest)
  {
    var l := RequestLine(r);
    var b := l + CRLF + rest;
    RequestLineShape(r);
    PlainLineBody(l);
    assert b[0..|l|] == l && b[|l|..|l| + 2] == CRLF && b[|l| + 2..|b|] == rest;
  }

  lemma BareCRSpins(r: Request, b: string)
    requires PlainLine(r) && b == RequestLine(r) + CRLF + "a\rbc"
    ensures ReadRequest(b) == Spins
  {
    hide Leads, RequestLine, ReadRequest, PlainLine;
    LeadOf(r, "a\rbc", []);
    var j := |RequestLine(r)| + 2;
    At(b, j, "a\rbc");
    Cat(b, j, "a", "\rbc");
    Cat(b, j, "a\r", "bc");
    assert "a\r" + "bc" == "a\rbc";
    assert "a" + "\r" == "a\r";
    HasNothing(b, j);
    SpinsIff(b);
    assert BareCRAt(b, j, "a");
    assert BareCRShape(b, Lead(r.verb, r.url, r.version, RequestLine(r), []), j, "a");
  }

  lemma SpaceThrows(r: Request, b: string)
    requires PlainLine(r) && b == RequestLine(r) + CRLF + " a\r\n"
    ensures ReadRequest(b) == Throws
  {
    hide Leads, RequestLine, ReadRequest, PlainLine;
    LeadOf(r, " a\r\n", []);
    var j := |RequestLine(r)| + 2;
    Cat(b, j, " a", CRLF);
    assert " a" + CRLF == " a\r\n";
    HasNothing(b, j);
    ThrowsIff(b);
    assert SpaceFirstAt(b, j, " a");
    assert SpaceShape(b, Lead(r.verb, r.url, r.version, RequestLine(r), []), j, " a");
  }

  /** A POST whose one header is a Content-Length, and a byte behind the head. */
  lemma PostWith(r: Request, value: string, b: string)
    requires PlainLine(r) && r.verb == POST && CRFree(value)
    requires b == RequestLine(r) + CRLF + (RenderHead([CONTENT_LENGTH + ": " + value]) + "x")
    ensures StoI(value).None? ==> ReadRequest(b) == Throws
    ensures StoI(value).Some? && StoI(value).value <= 0 ==> ReadRequest(b) == Spins
  {
    var h: Header := (CONTENT_LENGTH, value);
    var ls := [CONTENT_LENGTH + ": " + value];
    assert PlainHeaders([h]);
    assert PrintHeaders([h]) == ls;
    InsertPrinted(map[], [h]);
    HeaderOf(h);
    var rest := RenderHead(ls) + "x";
    var w := Lead(POST, r.url, r.version, RequestLine(r), ls);
    hide Leads, RequestLine, ReadRequest, PlainLine, RenderHead, StoI, PlainHeaders, HeaderLines, InsertLines;
    LeadOf(r, rest, ls);
    Cat(b, |RequestLine(r)| + 2, RenderHead(ls), "x");
    assert WholePost(b, w);
    PostVerdict(b, w);
  }

  lemma HeaderOf(h: Header)
    ensures map[] + HeaderMap([h]) == map[h.0 := h.1]
  {
    assert [h][1..] == [];
  }

  lemma Numbers()
    ensures StoI("0") == Some(0) && StoI("many") == None && CRFree("0") && CRFree("many")
  {
  }

  lemma Heads()
    ensures RenderHead([CONTENT_LENGTH + ": " + "0"]) + "x" == "Content-Length: 0\r\n\r\nx"
    ensures RenderHead([CONTENT_LENGTH + ": " + "many"]) + "x" == "Content-Length: many\r\n\r\nx"
  {
    OneLine(CONTENT_LENGTH + ": " + "0");
    OneLine(CONTENT_LENGTH + ": " + "many");
  }

  lemma OneLine(l: string)
    ensures RenderHead([l]) == l + (CRLF + CRLF)
  {
    assert [l][1..] == [];
  }

  lemma Lines()
    ensures RequestLine(Request(GET, "/", "HTTP/1.1", [], "")) == "GET / HTTP/1.1"
    ensures RequestLine(Request(POST, "/", "HTTP/1.1", [], "")) == "POST / HTTP/1.1"
  {
  }

  /** The failing buffers are real, one whole buffer for each of the four shapes. */
  lemma BareCRExample()
    ensures ReadRequest("GET / HTTP/1.1\r\na\rbc") == Spins
  {
    Lines();
    hide ReadRequest, RequestLine;
    BareCRSpins(Request(GET, "/", "HTTP/1.1", [], ""), "GET / HTTP/1.1\r\na\rbc");
  }

  lemma SpaceExample()
    ensures ReadRequest("GET / HTTP/1.1\r\n a\r\n") == Throws
  {
    Lines();
    hide ReadRequest, RequestLine;
    SpaceThrows(Request(GET, "/", "HTTP/1.1", [], ""), "GET / HTTP/1.1\r\n a\r\n");
  }

  lemma IdlePostExample()
    ensures ReadRequest("POST / HTTP/1.1\r\nContent-Length: 0\r\n\r\nx") == Spins
  {
    Lines();
    Heads();
    Numbers();
    hide ReadRequest, RequestLine, RenderHead, StoI, CRFree, CONTENT_LENGTH;
    var b := "POST / HTTP/1.1\r\nContent-Length: 0\r\n\r\nx";
    assert b == "POST / HTTP/1.1" + CRLF + "Content-Length: 0\r\n\r\nx";
    PlainSlash(POST);
    PostWith(Request(POST, "/", "HTTP/1.1", [], ""), "0", b);
  }

  lemma NumberlessPostExample()
    ensures ReadRequest("POST / HTTP/1.1\r\nContent-Length: many\r\n\r\nx") == Throws
  {
    Lines();
    Heads();
    Numbers();
    hide ReadRequest, RequestLine, RenderHead, StoI, CRFree, CONTENT_LENGTH;
    var b := "POST / HTTP/1.1\r\nContent-Length: many\r\n\r\nx";
    assert b == "POST / HTTP/1.1" + CRLF + "Content-Length: many\r\n\r\nx";
    PlainSlash(POST);
    PostWith(Request(POST, "/", "HTTP/1.1", [], ""), "many", b);
  }

  lemma PlainSlash(m: Method)
    ensures PlainLine(Request(m, "/", "HTTP/1.1", [], ""))
  {
  }
}
