/** Which byte strings the parser accepts, said as a grammar: sound and
    complete, for every buffer. */
module HttpAcceptance {
  import opened Options
  import opened HttpGrammar

  /** (any byte but CR | CR and any byte but LF)* : what may precede the CRLF of
      a request line. */
  predicate LineBody(l: string)
    decreases |l|
  {
    if l == "" then true
    else if l[0] != '\r' then LineBody(l[1..])
    else |l| >= 2 && l[1] != '\n' && LineBody(l[2..])
  }

  /** method SP url SP version, then anything. */
  ghost predicate LineFields(l: string, m: Method, url: string, version: string) {
    && SpaceFree(url)
    && IsVersion(version)
    && Has(l, 0, MethodName(m) + " " + url + " " + version)
  }

  predicate HeaderLine(l: string) {
    CRFree(l) && l != "" && l[0] != ' ' && !SpaceFree(l)
  }

  predicate HeaderLines(ls: seq<string>) {
    forall i :: 0 <= i < |ls| ==> HeaderLine(ls[i])
  }

  /** The lines, each with its CRLF, and the blank line that ends the head. */
  function RenderHead(ls: seq<string>): string {
    if ls == [] then CRLF else ls[0] + (CRLF + RenderHead(ls[1..]))
  }

  /** The map that inserting the lines in order leaves. */
  function InsertLines(m: map<string, string>, ls: seq<string>): map<string, string>
    requires HeaderLines(ls)
    decreases |ls|
  {
    if ls == [] then m
    else
      InsertLines(Insert(m, Key(ls[0]), Value(ls[0])), ls[1..])
  }

  /** `b` starts with a request line, header lines, a blank line and, for a
      POST, Content-Length bytes; that is `n` bytes, and `r` holds their fields. */
  ghost predicate Accepts(b: string, r: Parsed, n: nat, line: string, ls: seq<string>) {
    && LineBody(line)
    && LineFields(line, r.verb, r.url, r.version)
    && HeaderLines(ls)
    && r.head == InsertLines(map[], ls)
    && (r.verb == GET ==> r.body == "")
    && (r.verb == POST ==>
          CONTENT_LENGTH in r.head && r.body != "" && StoI(r.head[CONTENT_LENGTH]) == Some(|r.body|))
    && n == |line| + 2 + |RenderHead(ls)| + |r.body|
    && Has(b, 0, line + CRLF + RenderHead(ls) + r.body)
  }

  // ---------------------------------------------------------------- what the map of a head holds

  /** A header line is its key, one byte that is dropped, a space, its value. */
  lemma LineSplits(l: string)
    requires HeaderLine(l)
    ensures exists x: char :: l == Key(l) + [x] + " " + Value(l) && x != ' ' && SpaceFree(Key(l))
  {
    var q := Find(l, ' ', 0, |l|);
    var x := l[q - 1];
    assert l == l[..q - 1] + [x] + " " + l[q + 1..];
  }

  lemma {:induction false} InsertKeeps(m: map<string, string>, ls: seq<string>, k: string)
    requires HeaderLines(ls) && k in m
    ensures k in InsertLines(m, ls) && InsertLines(m, ls)[k] == m[k]
    decreases |ls|
  {
    hide Key, Value, HeaderLine;
    if ls != [] {
      LinesRest(ls);
      InsertKeeps(Insert(m, Key(ls[0]), Value(ls[0])), ls[1..], k);
    }
  }

  lemma LinesRest(ls: seq<string>)
    requires HeaderLines(ls) && ls != []
    ensures HeaderLine(ls[0]) && HeaderLines(ls[1..]) && 0 < Find(ls[0], ' ', 0, |ls[0]|) < |ls[0]|
  {
  }

  /** Line `i` is the first with the key `k`. */
  predicate FirstWith(ls: seq<string>, i: nat, k: string)
    requires HeaderLines(ls)
  {
    i < |ls| && Key(ls[i]) == k && forall j :: 0 <= j < i ==> Key(ls[j]) != k
  }

  lemma {:induction false} InsertedIff(m: map<string, string>, ls: seq<string>, k: string)
    requires HeaderLines(ls) && k !in m
    ensures k in InsertLines(m, ls) <==> exists i :: 0 <= i < |ls| && Key(ls[i]) == k
    ensures forall i :: 0 <= i < |ls| && FirstWith(ls, i, k) ==> k in InsertLines(m, ls) && InsertLines(m, ls)[k] == Value(ls[i])
    decreases |ls|
  {
    if ls != [] {
      var rest := ls[1..];
      var n := Insert(m, Key(ls[0]), Value(ls[0]));
      LinesRest(ls);
      if Key(ls[0]) == k {
        InsertKeeps(n, rest, k);
      } else {
        InsertedIff(n, rest, k);
        if k in InsertLines(n, rest) {
          var i :| 0 <= i < |rest| && Key(rest[i]) == k;
          assert Key(ls[i + 1]) == k;
        }
        forall i | 0 <= i < |ls| && Key(ls[i]) == k
          ensures k in InsertLines(n, rest)
          ensures FirstWith(ls, i, k) ==> InsertLines(n, rest)[k] == Value(ls[i])
        {
          assert rest[i - 1] == ls[i];
          if FirstWith(ls, i, k) {
            assert forall j :: 0 <= j < i - 1 ==> rest[j] == ls[j + 1];
            assert FirstWith(rest, i - 1, k);
          }
        }
      }
    }
  }

  /** The map of a head holds exactly the keys of its lines, each with the value of
      the first line that has it. */
  lemma FirstWins(ls: seq<string>, k: string)
    requires HeaderLines(ls)
    ensures k in InsertLines(map[], ls) <==> exists i :: 0 <= i < |ls| && Key(ls[i]) == k
    ensures forall i :: 0 <= i < |ls| && FirstWith(ls, i, k) ==> k in InsertLines(map[], ls) && InsertLines(map[], ls)[k] == Value(ls[i])
  {
    InsertedIff(map[], ls, k);
  }

  // ---------------------------------------------------------------- positions

  lemma Cat(b: string, i: nat, s: string, t: string)
    ensures Has(b, i, s + t) <==> Has(b, i, s) && Has(b, i + |s|, t)
  {
    if i + |s| + |t| <= |b| {
      var w := b[i..i + |s + t|];
      assert w == b[i..i + |s|] + b[i + |s|..i + |s| + |t|];
      assert w[..|s|] == b[i..i + |s|] && w[|s|..] == b[i + |s|..i + |s| + |t|];
      assert (s + t)[..|s|] == s && (s + t)[|s|..] == t;
    }
  }

  lemma At(b: string, i: nat, s: string)
    requires Has(b, i, s)
    ensures forall k :: i <= k < i + |s| ==> b[k] == s[k - i]
  {
    forall k | i <= k < i + |s| ensures b[k] == s[k - i] {
      assert b[i..i + |s|][k - i] == b[k];
    }
  }

  lemma FindIs(b: string, c: char, i: nat, e: nat, p: nat)
    requires i <= p <= e <= |b|
    requires forall k :: i <= k < p ==> b[k] != c
    requires p < e ==> b[p] == c
    ensures Find(b, c, i, e) == p
  {
  }

  /** Searching the line `l` that stands at `i` in `b`, followed by CRLF. */
  lemma FindInLine(b: string, c: char, i: nat, l: string)
    requires c != '\r' && c != '\n' && Has(b, i, l) && Has(b, i + |l|, CRLF)
    ensures var q := Find(l, c, 0, |l|);
            Find(b, c, i, i + |l| + 2) == (if q < |l| then i + q else i + |l| + 2)
  {
    At(b, i, l);
    At(b, i + |l|, CRLF);
    var q := Find(l, c, 0, |l|);
    FindIs(b, c, i, i + |l| + 2, if q < |l| then i + q else i + |l| + 2);
  }

  lemma FindCR(b: string, i: nat, l: string)
    requires Has(b, i, l) && CRFree(l)
    requires i + |l| < |b| ==> b[i + |l|] == '\r'
    ensures Find(b, '\r', i, |b|) == i + |l|
  {
    At(b, i, l);
    FindIs(b, '\r', i, |b|, i + |l|);
  }

  // ---------------------------------------------------------------- request line

  /** A line body followed by CRLF is scanned to just past that CRLF. */
  lemma {:induction false} ScanComplete(b: string, i: nat, l: string)
    requires LineBody(l) && Has(b, i, l) && Has(b, i + |l|, CRLF)
    ensures i + |l| + 2 <= |b| && ScanLine(b, i) == LineEnd(i + |l| + 2)
    decreases |l|
  {
    At(b, i, l);
    At(b, i + |l|, CRLF);
    if l != "" {
      if l[0] != '\r' {
        assert b[i + 1..i + |l|] == l[1..];
        ScanComplete(b, i + 1, l[1..]);
      } else {
        assert b[i + 2..i + |l|] == l[2..];
        ScanComplete(b, i + 2, l[2..]);
      }
    }
  }

  /** A scan that stops before the end of the buffer stopped at a CRLF. */
  lemma {:induction false} ScanSound(b: string, i: nat)
    requires i <= |b|
    requires ScanLine(b, i).LineEnd? && ScanLine(b, i).end < |b|
    ensures var e := ScanLine(b, i).end;
            i + 2 <= e && Has(b, e - 2, CRLF) && LineBody(b[i..e - 2])
    decreases |b| - i
  {
    var e := ScanLine(b, i).end;
    if b[i] != '\r' {
      ScanSound(b, i + 1);
      assert b[i..e - 2][1..] == b[i + 1..e - 2];
    } else if b[i + 1] != '\n' {
      ScanSound(b, i + 2);
      assert b[i..e - 2][2..] == b[i + 2..e - 2];
    }
  }

  lemma MethodIs(b: string, e: nat, m: Method)
    requires e <= |b| && |MethodName(m)| <= e && Has(b, 0, MethodName(m))
    ensures ReadMethod(b, e) == Some(m)
  {
    At(b, 0, MethodName(m));
    assert b[0..3][0] == b[0];
  }

  /** The four parts of a request line, one behind the other. */
  lemma FieldPositions(b: string, m: Method, url: string, version: string)
    ensures var a := |MethodName(m)|;
            Has(b, 0, MethodName(m) + " " + url + " " + version) <==>
            && Has(b, 0, MethodName(m))
            && Has(b, a, " ")
            && Has(b, a + 1, url)
            && Has(b, a + 1 + |url|, " ")
            && Has(b, a + 2 + |url|, version)
  {
    var name := MethodName(m);
    Cat(b, 0, name, " ");
    Cat(b, 0, name + " ", url);
    Cat(b, 0, name + " " + url, " ");
    Cat(b, 0, name + " " + url + " ", version);
  }

  lemma TargetComplete(b: string, m: Method, u: nat, url: string, version: string, e: nat)
    requires SpaceFree(url) && IsVersion(version)
    requires Has(b, u, url) && Has(b, u + |url|, " ") && Has(b, u + |url| + 1, version)
    requires u + |url| + 1 < e <= |b|
    ensures ReadTarget(b, m, u, e) == LineRead(m, url, version, e)
  {
    var s := u + |url|;
    At(b, u, url);
    At(b, s, " ");
    FindIs(b, ' ', u, e, s);
  }

  lemma FieldsComplete(b: string, e: nat, m: Method, url: string, version: string)
    requires SpaceFree(url) && IsVersion(version)
    requires Has(b, 0, MethodName(m) + " " + url + " " + version)
    requires |MethodName(m)| + 10 + |url| <= e <= |b|
    ensures ReadFields(b, e) == LineRead(m, url, version, e)
  {
    var a := |MethodName(m)|;
    FieldPositions(b, m, url, version);
    MethodIs(b, e, m);
    At(b, a, " ");
    TargetComplete(b, m, a + 1, url, version, e);
  }

  /** The version, holding no CR and no LF, ends before the CRLF. */
  lemma VersionBeforeBreak(b: string, v: nat, version: string, e: nat)
    requires v < e && 2 <= e && IsVersion(version) && Has(b, v, version) && Has(b, e - 2, CRLF)
    ensures v + 8 <= e - 2
  {
    At(b, e - 2, CRLF);
    At(b, v, version);
    assert forall k :: v <= k < v + 8 ==> b[k] != '\r' && b[k] != '\n';
    assert b[e - 2] == '\r' && b[e - 1] == '\n';
  }

  /** Where the parts of a request line that was read stand. */
  lemma FieldsRead(b: string, e: nat)
    requires 2 < e <= |b| && ReadFields(b, e).LineRead?
    ensures var r := ReadFields(b, e);
            var a := |MethodName(r.verb)|;
            && SpaceFree(r.url) && IsVersion(r.version)
            && a + 2 + |r.url| < e
            && Has(b, 0, MethodName(r.verb)) && Has(b, a, " ") && Has(b, a + 1, r.url)
            && Has(b, a + 1 + |r.url|, " ") && Has(b, a + 2 + |r.url|, r.version)
  {
  }

  /** What stands in `b` before `e` stands in `b[..e]` too. */
  lemma HasBefore(b: string, i: nat, s: string, e: nat)
    requires Has(b, i, s) && i + |s| <= e <= |b|
    ensures Has(b[..e], i, s)
  {
    assert b[..e][i..i + |s|] == b[i..i + |s|];
  }

  lemma FieldsSound(b: string, e: nat)
    requires 2 < e <= |b| && Has(b, e - 2, CRLF)
    requires ReadFields(b, e).LineRead?
    ensures var r := ReadFields(b, e);
            LineFields(b[..e - 2], r.verb, r.url, r.version)
  {
    var r := ReadFields(b, e);
    var text := MethodName(r.verb) + " " + r.url + " " + r.version;
    FieldsRead(b, e);
    hide ReadFields, Has;
    FieldPositions(b, r.verb, r.url, r.version);
    VersionBeforeBreak(b, |text| - 8, r.version, e);
    HasBefore(b, 0, text, e - 2);
  }

  lemma HasPrefix(b: string, l: string, text: string)
    requires Has(b, 0, l) && Has(l, 0, text)
    ensures Has(b, 0, text)
  {
    assert b[0..|text|] == b[0..|l|][0..|text|];
  }

  lemma ReadLineIs(b: string, e: nat)
    requires b != "" && ScanLine(b, 0) == LineEnd(e)
    ensures 0 < e <= |b| && ReadLine(b) == ReadFields(b, e)
  {
  }

  lemma FieldsFit(l: string, m: Method, url: string, version: string)
    requires LineFields(l, m, url, version)
    ensures SpaceFree(url) && IsVersion(version) && |MethodName(m)| + 10 + |url| <= |l| + 2
    ensures Has(l, 0, MethodName(m) + " " + url + " " + version)
  {
  }

  lemma LineComplete(b: string, l: string, m: Method, url: string, version: string)
    requires LineBody(l) && LineFields(l, m, url, version)
    requires Has(b, 0, l) && Has(b, |l|, CRLF)
    ensures b != "" && ReadLine(b) == LineRead(m, url, version, |l| + 2)
  {
    hide *;
    FieldsFit(l, m, url, version);
    ScanComplete(b, 0, l);
    ReadLineIs(b, |l| + 2);
    HasPrefix(b, l, MethodName(m) + " " + url + " " + version);
    FieldsComplete(b, |l| + 2, m, url, version);
  }

  lemma LineSound(b: string)
    requires b != "" && ReadLine(b).LineRead? && ReadLine(b).next < |b|
    ensures var r := ReadLine(b);
            && 2 <= r.next && Has(b, r.next - 2, CRLF)
            && LineBody(b[..r.next - 2])
            && LineFields(b[..r.next - 2], r.verb, r.url, r.version)
  {
    var e := ReadLine(b).next;
    ScanSound(b, 0);
    assert b[0..e - 2] == b[..e - 2];
    if e > 2 {
      FieldsSound(b, e);
    }
  }

  // ---------------------------------------------------------------- head

  lemma NextLineIs(b: string, i: nat, p: nat, s: nat)
    requires i < s < p && p + 2 <= |b| && b[p + 1] == '\n'
    requires p == Find(b, '\r', i, |b|) && s == Find(b, ' ', i, p + 2)
    ensures NextLine(b, i) == Field(b[i..s - 1], b[s + 1..p], p + 2)
  {
  }

  lemma Slice(b: string, i: nat, l: string, x: nat, y: nat)
    requires Has(b, i, l) && x <= y <= |l|
    ensures b[i + x..i + y] == l[x..y]
  {
    At(b, i, l);
  }

  /** A header line at `i` is cut into key and value. */
  lemma NextIsField(b: string, i: nat, l: string)
    requires HeaderLine(l) && Has(b, i, l) && Has(b, i + |l|, CRLF)
    ensures NextLine(b, i) == Field(Key(l), Value(l), i + |l| + 2)
  {
    hide NextLine;
    var p, q := i + |l|, Find(l, ' ', 0, |l|);
    At(b, p, CRLF);
    FindCR(b, i, l);
    FindInLine(b, ' ', i, l);
    Slice(b, i, l, 0, q - 1);
    Slice(b, i, l, q + 1, |l|);
    NextLineIs(b, i, p, i + q);
  }

  /** One accepted header line at `i` is consumed with its CRLF. */
  lemma HeadStep(b: string, i: nat, l: string, m: map<string, string>)
    requires HeaderLine(l) && Has(b, i, l) && Has(b, i + |l|, CRLF)
    ensures i + |l| + 2 <= |b|
    ensures ReadHead(b, i, m) == ReadHead(b, i + |l| + 2, Insert(m, Key(l), Value(l)))
  {
    hide NextLine, Insert, Has, Find, Key, Value, CRFree, SpaceFree;
    NextIsField(b, i, l);
  }

  lemma ReadBlankLine(b: string, i: nat, m: map<string, string>)
    requires Has(b, i, CRLF)
    ensures ReadHead(b, i, m) == HeadRead(i + 2, m)
  {
    At(b, i, CRLF);
    FindIs(b, '\r', i, |b|, i);
  }

  lemma {:induction false} HeadComplete(b: string, i: nat, ls: seq<string>, m: map<string, string>)
    requires HeaderLines(ls) && Has(b, i, RenderHead(ls))
    ensures ReadHead(b, i, m) == HeadRead(i + |RenderHead(ls)|, InsertLines(m, ls))
    decreases |ls|
  {
    hide ReadHead, Find, Has, Insert, Key, Value;
    if ls == [] {
      ReadBlankLine(b, i, m);
    } else {
      var l := ls[0];
      Cat(b, i, l, CRLF + RenderHead(ls[1..]));
      Cat(b, i + |l|, CRLF, RenderHead(ls[1..]));
      HeadStep(b, i, l, m);
      HeadComplete(b, i + |l| + 2, ls[1..], Insert(m, Key(l), Value(l)));
    }
  }

  lemma FieldIsLine(b: string, i: nat) returns (l: string)
    requires i <= |b| && NextLine(b, i).Field?
    ensures HeaderLine(l) && Has(b, i, l) && Has(b, i + |l|, CRLF)
  {
    var p := Find(b, '\r', i, |b|);
    l := b[i..p];
    var s := Find(b, ' ', i, p + 2);
    assert l[s - i] == ' ' && l[0] == b[i];
  }

  lemma BlankIsBreak(b: string, i: nat)
    requires i <= |b| && NextLine(b, i).Blank?
    ensures Has(b, i, CRLF)
  {
  }

  lemma {:induction false} HeadSound(b: string, i: nat, m: map<string, string>) returns (ls: seq<string>)
    requires i <= |b| && ReadHead(b, i, m).HeadRead?
    ensures HeaderLines(ls)
    ensures ReadHead(b, i, m).next == i + |RenderHead(ls)| && Has(b, i, RenderHead(ls))
    ensures ReadHead(b, i, m).head == InsertLines(m, ls)
    decreases |b| - i
  {
    hide NextLine, Find, Has, Insert;
    if NextLine(b, i).Blank? {
      BlankIsBreak(b, i);
      ls := [];
    } else {
      var l := FieldIsLine(b, i);
      NextIsField(b, i, l);
      var tail := HeadSound(b, i + |l| + 2, Insert(m, Key(l), Value(l)));
      ls := [l] + tail;
      assert ls[1..] == tail;
      Cat(b, i, l, CRLF + RenderHead(tail));
      Cat(b, i + |l|, CRLF, RenderHead(tail));
    }
  }

  // ---------------------------------------------------------------- whole request

  /** The positions of the parts of a request. */
  lemma Parts(b: string, line: string, head: string, body: string)
    ensures Has(b, 0, line + CRLF + head + body) <==>
            && Has(b, 0, line)
            && Has(b, |line|, CRLF)
            && Has(b, |line| + 2, head)
            && Has(b, |line| + 2 + |head|, body)
  {
    Cat(b, 0, line, CRLF);
    Cat(b, 0, line + CRLF, head);
    Cat(b, 0, line + CRLF + head, body);
  }

  lemma RequestComplete(b: string, r: Parsed, n: nat, line: string, ls: seq<string>)
    requires Accepts(b, r, n, line, ls)
    ensures ReadRequest(b) == Success(r, n)
  {
    hide ReadLine, ReadHead, LineBody, LineFields, StoI, RenderHead, InsertLines;
    Parts(b, line, RenderHead(ls), r.body);
    LineComplete(b, line, r.verb, r.url, r.version);
    HeadComplete(b, |line| + 2, ls, map[]);
  }

  lemma RequestSound(b: string) returns (line: string, ls: seq<string>)
    requires ReadRequest(b).Success?
    ensures Accepts(b, ReadRequest(b).request, ReadRequest(b).size, line, ls)
  {
    hide ReadLine, ReadHead, LineBody, LineFields, StoI, RenderHead, InsertLines;
    var Success(r, n) := ReadRequest(b);
    var e := ReadLine(b).next;
    LineSound(b);
    line := b[..e - 2];
    ls := HeadSound(b, e, map[]);
    Parts(b, line, RenderHead(ls), r.body);
  }

  /** Success, the request and the consumed length are exactly what the grammar
      says, for every buffer; and something is always consumed. */
  lemma SuccessIff(b: string, r: Parsed, n: nat)
    ensures ReadRequest(b) == Success(r, n) <==> exists line, ls :: Accepts(b, r, n, line, ls)
    ensures ReadRequest(b) == Success(r, n) ==> 0 < n <= |b|
  {
    if ReadRequest(b) == Success(r, n) {
      var line, ls := RequestSound(b);
    }
    forall line, ls | Accepts(b, r, n, line, ls) ensures ReadRequest(b) == Success(r, n) {
      RequestComplete(b, r, n, line, ls);
    }
  }

  /** Whatever follows an accepted request cannot change it. */
  lemma SuffixIrrelevant(b: string, suffix: string)
    requires ReadRequest(b).Success?
    ensures ReadRequest(b + suffix) == ReadRequest(b)
  {
    var line, ls := RequestSound(b);
    var Success(r, n) := ReadRequest(b);
    var text := line + CRLF + RenderHead(ls) + r.body;
    assert (b + suffix)[0..|text|] == b[0..|text|];
    RequestComplete(b + suffix, r, n, line, ls);
  }
}
