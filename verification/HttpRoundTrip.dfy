/** What a client writes, the parser reads back: requests, prefixes of
    requests, pipelined requests, and the head the server itself prints. */
module HttpRoundTrip {
  import opened Options
  import opened HttpGrammar
  import opened HttpAcceptance
  import HttpNumbers

  type Header = (string, string)

  datatype Request = Request(verb: Method, url: string, version: string, headers: seq<Header>, body: string)

  // ---------------------------------------------------------------- headers

  predicate PlainHeader(h: Header) {
    SpaceFree(h.0) && CRFree(h.0) && CRFree(h.1)
  }

  predicate PlainHeaders(hs: seq<Header>) {
    && (forall i :: 0 <= i < |hs| ==> PlainHeader(hs[i]))
    && (forall i, j :: 0 <= i < j < |hs| ==> hs[i].0 != hs[j].0)
  }

  function HeaderMap(hs: seq<Header>): map<string, string> {
    if hs == [] then map[] else HeaderMap(hs[1..])[hs[0].0 := hs[0].1]
  }

  function PrintHeader(h: Header): string {
    h.0 + ": " + h.1
  }

  function PrintHeaders(hs: seq<Header>): seq<string> {
    seq(|hs|, i requires 0 <= i < |hs| => PrintHeader(hs[i]))
  }

  lemma PrintedLine(h: Header)
    requires PlainHeader(h)
    ensures var l := PrintHeader(h); HeaderLine(l) && Key(l) == h.0 && Value(l) == h.1
  {
    var l := PrintHeader(h);
    var n := |h.0|;
    assert forall k :: 0 <= k < n ==> l[k] == h.0[k];
    assert l[n] == ':' && l[n + 1] == ' ';
    assert forall k :: 0 <= k < |h.1| ==> l[n + 2 + k] == h.1[k];
    assert CRFree(l) by {
      assert forall k :: n + 2 <= k < |l| ==> l[k] == h.1[k - n - 2];
    }
    FindIs(l, ' ', 0, |l|, n + 1);
    assert l[..n] == h.0 && l[n + 2..] == h.1;
  }

  lemma PrintedLines(hs: seq<Header>)
    requires PlainHeaders(hs)
    ensures HeaderLines(PrintHeaders(hs))
  {
    forall i | 0 <= i < |hs| ensures HeaderLine(PrintHeaders(hs)[i]) {
      PrintedLine(hs[i]);
    }
  }

  lemma {:induction false} HeaderMapKeys(hs: seq<Header>, k: string)
    ensures k in HeaderMap(hs) <==> exists i :: 0 <= i < |hs| && hs[i].0 == k
  {
    if hs != [] {
      HeaderMapKeys(hs[1..], k);
      if k in HeaderMap(hs[1..]) {
        var i :| 0 <= i < |hs[1..]| && hs[1..][i].0 == k;
        assert hs[i + 1].0 == k;
      }
      if i :| 0 < i < |hs| && hs[i].0 == k {
        assert hs[1..][i - 1].0 == k;
      }
    }
  }

  /** Inserting printed headers with fresh, distinct keys builds their map. */
  lemma {:induction false} InsertPrinted(m: map<string, string>, hs: seq<Header>)
    requires PlainHeaders(hs)
    requires forall i :: 0 <= i < |hs| ==> hs[i].0 !in m
    ensures HeaderLines(PrintHeaders(hs))
    ensures InsertLines(m, PrintHeaders(hs)) == m + HeaderMap(hs)
    decreases |hs|
  {
    PrintedLines(hs);
    if hs != [] {
      var (k, v) := hs[0];
      var rest := hs[1..];
      assert PrintHeaders(hs)[0] == PrintHeader(hs[0]);
      assert PrintHeaders(hs)[1..] == PrintHeaders(rest);
      PrintedLine(hs[0]);
      assert forall i :: 0 <= i < |rest| ==> rest[i] == hs[i + 1];
      InsertPrinted(m[k := v], rest);
      HeaderMapKeys(rest, k);
      assert m[k := v] + HeaderMap(rest) == m + HeaderMap(hs);
    }
  }

  /** The head `respond()` prints for a header map, whatever order the map is
      walked in, is read back as the same map, to just past the blank line. */
  lemma PrintedHeadReadsBack(before: string, hs: seq<Header>, after: string)
    requires PlainHeaders(hs)
    ensures var head := RenderHead(PrintHeaders(hs));
            ReadHead(before + head + after, |before|, map[]) == HeadRead(|before| + |head|, HeaderMap(hs))
  {
    var head := RenderHead(PrintHeaders(hs));
    var b := before + head + after;
    assert b[|before|..|before| + |head|] == head;
    InsertPrinted(map[], hs);
    assert map[] + HeaderMap(hs) == HeaderMap(hs);
    HeadComplete(b, |before|, PrintHeaders(hs), map[]);
  }

  // ---------------------------------------------------------------- requests

  function RequestLine(r: Request): string {
    MethodName(r.verb) + " " + r.url + " " + r.version
  }

  function Render(r: Request): string {
    RequestLine(r) + CRLF + RenderHead(PrintHeaders(r.headers)) + r.body
  }

  function Meaning(r: Request): Parsed {
    Parsed(r.verb, r.url, r.version, HeaderMap(r.headers), r.body)
  }

  predicate PlainLine(r: Request) {
    SpaceFree(r.url) && CRFree(r.url) && IsVersion(r.version)
  }

  predicate WellFormed(r: Request) {
    && PlainLine(r)
    && PlainHeaders(r.headers)
    && (r.verb == GET ==> r.body == "")
    && (r.verb == POST ==>
          && r.body != ""
          && CONTENT_LENGTH in HeaderMap(r.headers)
          && StoI(HeaderMap(r.headers)[CONTENT_LENGTH]) == Some(|r.body|))
  }

  lemma {:induction false} PlainLineBody(l: string)
    requires CRFree(l)
    ensures LineBody(l)
    decreases |l|
  {
    if l != "" {
      PlainLineBody(l[1..]);
    }
  }

  lemma CRFreeCat(s: string, t: string)
    requires CRFree(s) && CRFree(t)
    ensures CRFree(s + t)
  {
  }

  lemma RequestLineShape(r: Request)
    requires PlainLine(r)
    ensures CRFree(RequestLine(r)) && LineFields(RequestLine(r), r.verb, r.url, r.version)
  {
    var name := MethodName(r.verb);
    CRFreeCat(name, " ");
    CRFreeCat(name + " ", r.url);
    CRFreeCat(name + " " + r.url, " ");
    CRFreeCat(name + " " + r.url + " ", r.version);
    assert RequestLine(r)[0..|RequestLine(r)|] == RequestLine(r);
  }

  lemma RenderedIsAccepted(r: Request, suffix: string)
    requires WellFormed(r)
    ensures Accepts(Render(r) + suffix, Meaning(r), |Render(r)|, RequestLine(r), PrintHeaders(r.headers))
  {
    hide RenderHead, LineFields, HeaderMap, StoI;
    var t := Render(r);
    assert (t + suffix)[0..|t|] == t;
    RequestLineShape(r);
    PlainLineBody(RequestLine(r));
    InsertPrinted(map[], r.headers);
    assert map[] + HeaderMap(r.headers) == HeaderMap(r.headers);
  }

  lemma RoundTrip(r: Request, suffix: string)
    requires WellFormed(r)
    ensures ReadRequest(Render(r) + suffix) == Success(Meaning(r), |Render(r)|)
  {
    hide *;
    RenderedIsAccepted(r, suffix);
    RequestComplete(Render(r) + suffix, Meaning(r), |Render(r)|, RequestLine(r), PrintHeaders(r.headers));
  }

  // ---------------------------------------------------------------- Content-Length

  /** `std::to_string` on a size. */
  function Decimal(n: nat): (s: string)
    ensures s != "" && forall i :: 0 <= i < |s| ==> IsDigit(s[i])
  {
    var last := [('0' as int + n % 10) as char];
    if n < 10 then last else Decimal(n / 10) + last
  }

  lemma {:induction false} DecimalValue(n: nat)
    ensures LeadingNumber(Decimal(n), 0) == n
  {
    var c := ('0' as int + n % 10) as char;
    if n < 10 {
      assert Decimal(n)[1..] == "";
    } else {
      DecimalValue(n / 10);
      HttpNumbers.LeadingSnoc(Decimal(n / 10), c, 0);
    }
  }

  /** The Content-Length that a printed size stands for is that size. */
  lemma DecimalReadsBack(n: nat)
    ensures StoI(Decimal(n)) == if n <= INT_MAX then Some(n) else None
  {
    DecimalValue(n);
    var s := Decimal(n);
    assert IsDigit(s[0]);
    assert SkipBlanks(s) == s;
  }

  // ---------------------------------------------------------------- pipelining

  /** A fresh parser on what is left, as long as it succeeds. */
  function Drain(b: string): (seq<Parsed>, string)
    decreases |b|
  {
    match ReadRequest(b)
    case Success(p, n) => var (ps, rest) := Drain(b[n..]); ([p] + ps, rest)
    case _ => ([], b)
  }

  function RenderAll(rs: seq<Request>): string {
    if rs == [] then "" else Render(rs[0]) + RenderAll(rs[1..])
  }

  function Meanings(rs: seq<Request>): seq<Parsed> {
    seq(|rs|, i requires 0 <= i < |rs| => Meaning(rs[i]))
  }

  predicate AllWellFormed(rs: seq<Request>) {
    forall i :: 0 <= i < |rs| ==> WellFormed(rs[i])
  }

  lemma EmptyIsIncomplete()
    ensures ReadRequest("") == Incomplete
  {
  }

  lemma {:induction false} PipelinedRoundTrip(rs: seq<Request>)
    requires AllWellFormed(rs)
    ensures Drain(RenderAll(rs)) == (Meanings(rs), "")
    decreases |rs|
  {
    hide ReadRequest, Render, WellFormed;
    if rs == [] {
      EmptyIsIncomplete();
      assert Meanings(rs) == [];
    } else {
      var r, t := rs[0], RenderAll(rs[1..]);
      RoundTrip(r, t);
      assert (Render(r) + t)[|Render(r)|..] == t;
      PipelinedRoundTrip(rs[1..]);
      assert Meanings(rs) == [Meaning(r)] + Meanings(rs[1..]);
    }
  }

  // ---------------------------------------------------------------- prefixes

  /** The cuts at which a partial request line is judged: inside the method
      name, or inside the version. */
  predicate JudgedCut(r: Request, k: nat) {
    var a := |MethodName(r.verb)|;
    var v := a + 2 + |r.url|;
    0 < k < a || v < k < v + 8
  }

  /** `b` from `i` on, a prefix of `t + rest`: cut inside `t`, or past it. */
  lemma CutAt(b: string, i: nat, t: string, rest: string)
    requires i <= |b| && b[i..] <= t + rest
    ensures if |b| < i + |t| then b[i..] == t[..|b| - i]
            else Has(b, i, t) && b[i + |t|..] <= rest
  {
    assert forall k :: i <= k < |b| ==> b[k] == b[i..][k - i] == (t + rest)[k - i];
  }

  /** A head cut anywhere before its end is pending. */
  lemma {:induction false} CutHead(b: string, i: nat, ls: seq<string>, m: map<string, string>)
    requires HeaderLines(ls) && i <= |b| < i + |RenderHead(ls)| && b[i..] <= RenderHead(ls)
    ensures ReadHead(b, i, m) == HeadPending
    decreases |ls|
  {
    hide ReadHead, Insert, Key, Value, Has, Find;
    if ls == [] {
      assert CRLF + "" == CRLF && "" + CRLF == CRLF;
      CutAt(b, i, CRLF, "");
      CutLine(b, i, "", m);
    } else {
      var l, rest := ls[0], RenderHead(ls[1..]);
      assert RenderHead(ls) == (l + CRLF) + rest;
      CutAt(b, i, l + CRLF, rest);
      if |b| < i + |l| + 2 {
        CutLine(b, i, l, m);
      } else {
        Cat(b, i, l, CRLF);
        HeadStep(b, i, l, m);
        CutHead(b, i + |l| + 2, ls[1..], Insert(m, Key(l), Value(l)));
      }
    }
  }

  lemma CutLine(b: string, i: nat, l: string, m: map<string, string>)
    requires CRFree(l) && i <= |b| < i + |l| + 2 && b[i..] == (l + CRLF)[..|b| - i]
    ensures ReadHead(b, i, m) == HeadPending
  {
    assert forall k :: i <= k < |b| ==> b[k] == b[i..][k - i];
    FindIs(b, '\r', i, |b|, if |b| <= i + |l| then |b| else i + |l|);
  }

  /** A CR-free buffer is scanned to its end. */
  lemma {:induction false} ScanPlain(b: string, i: nat)
    requires i <= |b| && forall k :: i <= k < |b| ==> b[k] != '\r'
    ensures ScanLine(b, i) == LineEnd(|b|)
    decreases |b| - i
  {
    if i < |b| {
      ScanPlain(b, i + 1);
    }
  }

  /** A CR that is the last byte leaves the line unread. */
  lemma {:induction false} ScanCut(b: string, i: nat)
    requires i < |b| && b[|b| - 1] == '\r' && forall k :: i <= k < |b| - 1 ==> b[k] != '\r'
    ensures ScanLine(b, i) == CutAfterCR
    decreases |b| - i
  {
    if i < |b| - 1 {
      ScanCut(b, i + 1);
    }
  }

  /** The verdict on a cut that holds the method and its space, as a line. */
  lemma CutTarget(b: string, m: Method, u: nat, url: string, version: string)
    requires SpaceFree(url) && IsVersion(version)
    requires u <= |b| <= u + |url| + 9 && b[u..] == (url + " " + version)[..|b| - u]
    ensures var v := u + |url| + 1;
            var o := ReadTarget(b, m, u, |b|);
            if v < |b| < v + 8 then o == LineRejected else o == LinePending || (o.LineRead? && o.next == |b|)
  {
    var k, s := |b|, u + |url|;
    var text := url + " " + version;
    assert forall j :: u <= j < k ==> b[j] == b[u..][j - u] == text[j - u];
    FindIs(b, ' ', u, k, if k <= s then k else s);
    if k == s + 9 {
      assert b[s + 1..s + 9] == version;
    }
  }

  lemma CutMethod(m: Method, b: string)
    requires 0 < |b| < |MethodName(m)| && b == MethodName(m)[..|b|]
    ensures ReadFields(b, |b|) == LineRejected
  {
    assert |b| >= 3 ==> b[0..3][0] == 'P';
  }

  /** The verdict on the first `k` bytes of a request line, taken as a line. */
  lemma CutFields(r: Request, k: nat)
    requires WellFormed(r) && 0 < k <= |RequestLine(r)|
    ensures var o := ReadFields(RequestLine(r)[..k], k);
            if JudgedCut(r, k) then o == LineRejected else o == LinePending || (o.LineRead? && o.next == k)
  {
    hide ReadTarget;
    var name := MethodName(r.verb);
    var a, b := |name|, RequestLine(r)[..k];
    var text := r.url + " " + r.version;
    LineParts(r);
    CutText(name, text, k);
    if k < a {
      CutMethod(r.verb, b);
    } else {
      MethodIs(b, k, r.verb);
      if k > a {
        CutTarget(b, r.verb, a + 1, r.url, r.version);
      }
    }
  }

  lemma LineParts(r: Request)
    ensures RequestLine(r) == MethodName(r.verb) + (" " + (r.url + " " + r.version))
  {
    var name := MethodName(r.verb);
    assert name + " " + r.url + " " + r.version == name + (" " + (r.url + " " + r.version));
  }

  lemma CutText(name: string, text: string, k: nat)
    requires k <= |name| + 1 + |text|
    ensures var a, b := |name|, (name + (" " + text))[..k];
            && (k < a ==> b == name[..k])
            && (a <= k ==> b[0..a] == name)
            && (a < k ==> b[a] == ' ' && b[a + 1..] == text[..k - a - 1])
  {
    var a, b := |name|, (name + (" " + text))[..k];
    if a < k {
      assert forall i :: 0 <= i < k - a - 1 ==> b[a + 1..][i] == text[i];
    }
  }

  /** A request cut inside its request line: failed exactly at a judged cut. */
  lemma CutRequestLine(r: Request, b: string)
    requires WellFormed(r) && |b| <= |RequestLine(r)| + 1 && b <= RequestLine(r) + CRLF
    ensures ReadRequest(b) == if JudgedCut(r, |b|) then Failed else Incomplete
  {
    var l := RequestLine(r);
    var k := |b|;
    RequestLineShape(r);
    assert |l| == |MethodName(r.verb)| + 10 + |r.url|;
    if k == |l| + 1 {
      assert b == l + "\r";
      ScanCut(b, 0);
    } else if k > 0 {
      assert b == l[..k];
      ScanPlain(b, 0);
      hide ReadFields;
      CutFields(r, k);
    }
  }

  /** What a cut behind the request line holds. */
  lemma CutParts(b: string, line: string, head: string, body: string)
    requires |line| + 2 <= |b| && b <= line + CRLF + head + body
    ensures Has(b, 0, line) && Has(b, |line|, CRLF)
    ensures var e := |line| + 2;
            if |b| < e + |head| then b[e..] <= head else Has(b, e, head)
  {
    var text := line + CRLF + head + body;
    assert forall k :: 0 <= k < |b| ==> b[k] == text[k];
  }

  /** The parts of a whole buffer, in terms of what is read of each. */
  lemma PendingHead(b: string, m: Method, url: string, version: string, e: nat)
    requires e <= |b| && b != "" && ReadLine(b) == LineRead(m, url, version, e) && ReadHead(b, e, map[]) == HeadPending
    ensures ReadRequest(b) == Incomplete
  {
    hide ReadLine, ReadHead;
  }

  lemma PendingBody(b: string, m: Method, url: string, version: string, e: nat)
    requires e <= |b| && b != "" && ReadLine(b) == LineRead(m, url, version, e) && ReadHead(b, e, map[]).HeadRead?
    requires var o := ReadHead(b, e, map[]); ReadBody(b, m, url, version, o.next, o.head) == Incomplete
    ensures ReadRequest(b) == Incomplete
  {
    hide ReadLine, ReadHead, ReadBody;
  }

  lemma WholeLine(r: Request, b: string)
    requires WellFormed(r) && Has(b, 0, RequestLine(r)) && Has(b, |RequestLine(r)|, CRLF)
    ensures b != "" && ReadLine(b) == LineRead(r.verb, r.url, r.version, |RequestLine(r)| + 2)
  {
    RequestLineShape(r);
    hide *;
    PlainLineBody(RequestLine(r));
    LineComplete(b, RequestLine(r), r.verb, r.url, r.version);
  }

  /** A request cut behind its request line is incomplete. */
  lemma CutLater(r: Request, b: string)
    requires WellFormed(r)
    requires |RequestLine(r)| + 2 <= |b| < |Render(r)| && b <= Render(r)
    ensures ReadRequest(b) == Incomplete
  {
    hide ReadRequest, ReadLine, ReadHead, ReadBody, WellFormed, RenderHead, PrintHeaders, RequestLine, HeaderLines, PlainHeaders, Has;
    var e := |RequestLine(r)| + 2;
    var head := RenderHead(PrintHeaders(r.headers));
    CutParts(b, RequestLine(r), head, r.body);
    WholeLine(r, b);
    if |b| < e + |head| {
      PlainOf(r);
      PrintedLines(r.headers);
      CutHead(b, e, PrintHeaders(r.headers), map[]);
      PendingHead(b, r.verb, r.url, r.version, e);
    } else {
      CutBody(r, b, e);
      PendingBody(b, r.verb, r.url, r.version, e);
    }
  }

  lemma PlainOf(r: Request)
    requires WellFormed(r)
    ensures PlainHeaders(r.headers)
  {
  }

  lemma CutBody(r: Request, b: string, e: nat)
    requires WellFormed(r) && e == |RequestLine(r)| + 2
    requires Has(b, e, RenderHead(PrintHeaders(r.headers))) && |b| < |Render(r)|
    ensures var o := ReadHead(b, e, map[]);
            o.HeadRead? && ReadBody(b, r.verb, r.url, r.version, o.next, o.head) == Incomplete
  {
    hide ReadHead, RenderHead, PrintHeaders, StoI, RequestLine, Has, PlainHeaders, HeaderMap, HeaderLines;
    InsertPrinted(map[], r.headers);
    assert map[] + HeaderMap(r.headers) == HeaderMap(r.headers);
    HeadComplete(b, e, PrintHeaders(r.headers), map[]);
  }

  /** Every prefix of a well-formed request, exactly: only the whole request
      succeeds, only a judged cut fails, every other cut is incomplete. */
  lemma PrefixVerdict(r: Request, b: string)
    requires WellFormed(r) && b <= Render(r)
    ensures ReadRequest(b) ==
            if b == Render(r) then Success(Meaning(r), |b|)
            else if JudgedCut(r, |b|) then Failed
            else Incomplete
  {
    var l := RequestLine(r);
    var head := RenderHead(PrintHeaders(r.headers));
    assert |l| == |MethodName(r.verb)| + 10 + |r.url|;
    hide ReadRequest, RenderHead, PrintHeaders, WellFormed, RequestLine;
    if b == Render(r) {
      RoundTrip(r, "");
      assert b + "" == b;
    } else if |b| <= |l| + 1 {
      assert b == Render(r)[..|b|] == (l + CRLF)[..|b|];
      CutRequestLine(r, b);
    } else {
      CutLater(r, b);
    }
  }

  lemma ExampleText(r: Request)
    requires r == Request(GET, "/", "HTTP/1.1", [], "")
    ensures WellFormed(r) && Render(r) == "GET / HTTP/1.1\r\n\r\n"
  {
    assert PrintHeaders([]) == [];
  }

  lemma JudgedExample(r: Request)
    requires r == Request(GET, "/", "HTTP/1.1", [], "")
    ensures JudgedCut(r, 8) && !JudgedCut(r, 18)
  {
  }

  /** The failing cuts are real: a GET cut inside its version is rejected,
      though one more read would have completed it. */
  lemma JudgedCutExample(r: Request)
    requires r == Request(GET, "/", "HTTP/1.1", [], "")
    ensures ReadRequest("GET / HTTP/1.1\r\n\r\n") == Success(Meaning(r), 18)
    ensures ReadRequest("GET / HT") == Failed
  {
    ExampleText(r);
    JudgedExample(r);
    hide ReadRequest, Render, WellFormed, JudgedCut, Meaning;
    var whole := "GET / HTTP/1.1\r\n\r\n";
    PrefixVerdict(r, whole);
    PrefixVerdict(r, whole[..8]);
    assert whole[..8] == "GET / HT";
  }
}
