/** Which buffers `parse()` judges failed, said as a grammar, for every buffer;
    what is left, when the other verdicts are taken away too, is incomplete. */
module HttpFailures {
  import opened HttpGrammar
  import opened HttpAcceptance
  import opened HttpLoops
  import HttpRoundTrip

  // ---------------------------------------------------------------- where a request line ends

  /** The request line that the parser looks at ends at `e`: behind a CRLF, or
      with the buffer, if no CRLF is in it and no CR is its last byte. */
  ghost predicate LineEnds(b: string, e: nat) {
    && 0 < e <= |b|
    && ((e == |b| && LineBody(b)) || (2 <= e && LineBody(b[..e - 2]) && Has(b, e - 2, CRLF)))
  }

  lemma {:induction false} ScanReaches(b: string, i: nat)
    requires i <= |b| && ScanLine(b, i).LineEnd?
    ensures var e := ScanLine(b, i).end;
            (e == |b| && LineBody(b[i..])) || (i + 2 <= e <= |b| && LineBody(b[i..e - 2]) && Has(b, e - 2, CRLF))
    decreases |b| - i
  {
    if i < |b| {
      var e := ScanLine(b, i).end;
      if b[i] != '\r' {
        ScanReaches(b, i + 1);
        assert b[i..][1..] == b[i + 1..];
        assert i + 3 <= e ==> b[i..e - 2][1..] == b[i + 1..e - 2];
      } else if b[i + 1] != '\n' {
        ScanReaches(b, i + 2);
        assert b[i..][2..] == b[i + 2..];
        assert i + 4 <= e ==> b[i..e - 2][2..] == b[i + 2..e - 2];
      }
    }
  }

  lemma {:induction false} ScanToEnd(b: string, i: nat)
    requires i <= |b| && LineBody(b[i..])
    ensures ScanLine(b, i) == LineEnd(|b|)
    decreases |b| - i
  {
    if i < |b| {
      if b[i] != '\r' {
        assert b[i..][1..] == b[i + 1..];
        ScanToEnd(b, i + 1);
      } else {
        assert b[i..][2..] == b[i + 2..];
        ScanToEnd(b, i + 2);
      }
    }
  }

  lemma ScanIff(b: string, e: nat)
    requires b != ""
    ensures ScanLine(b, 0) == LineEnd(e) <==> LineEnds(b, e)
  {
    assert b[0..] == b;
    if ScanLine(b, 0) == LineEnd(e) {
      ScanReaches(b, 0);
      assert 2 <= e <= |b| ==> b[0..e - 2] == b[..e - 2];
    }
    if LineEnds(b, e) {
      if e == |b| && LineBody(b) {
        ScanToEnd(b, 0);
      } else {
        ScanComplete(b, 0, b[..e - 2]);
      }
    }
  }

  // ---------------------------------------------------------------- rejected request lines

  /** The line begins with neither method. */
  ghost predicate BadMethod(b: string, e: nat) {
    LineEnds(b, e) && !Has(b[..e], 0, "GET") && !Has(b[..e], 0, "POST")
  }

  /** Method, url and their spaces, and then, before the line ends, something that
      is not one of the two versions. */
  ghost predicate BadVersion(b: string, e: nat, m: Method, url: string) {
    var v := |MethodName(m)| + 2 + |url|;
    && LineEnds(b, e) && SpaceFree(url) && v < e
    && Has(b, 0, MethodName(m)) && Has(b, |MethodName(m)|, " ")
    && Has(b, |MethodName(m)| + 1, url) && Has(b, v - 1, " ")
    && !Has(b, v, "HTTP/1.1") && !Has(b, v, "HTTP/1.0")
  }

  lemma HasIn(b: string, e: nat, word: string)
    requires e <= |b|
    ensures Has(b[..e], 0, word) <==> |word| <= e && Has(b, 0, word)
  {
    if |word| <= e {
      assert b[..e][0..|word|] == b[0..|word|];
    }
  }

  lemma NoMethodIff(b: string, e: nat)
    requires e <= |b|
    ensures ReadMethod(b, e).None? <==> !Has(b[..e], 0, "GET") && !Has(b[..e], 0, "POST")
  {
    HasIn(b, e, "GET");
    HasIn(b, e, "POST");
  }

  lemma VersionAt(b: string, v: nat)
    ensures (v + 8 <= |b| && IsVersion(b[v..v + 8])) <==> Has(b, v, "HTTP/1.1") || Has(b, v, "HTTP/1.0")
  {
  }

  lemma TargetRejected(b: string, m: Method, u: nat, url: string, e: nat)
    requires SpaceFree(url) && Has(b, u, url) && Has(b, u + |url|, " ") && u + |url| + 1 < e <= |b|
    requires !Has(b, u + |url| + 1, "HTTP/1.1") && !Has(b, u + |url| + 1, "HTTP/1.0")
    ensures ReadTarget(b, m, u, e) == LineRejected
  {
    var s := u + |url|;
    At(b, u, url);
    At(b, s, " ");
    FindIs(b, ' ', u, e, s);
    VersionAt(b, s + 1);
  }

  lemma RejectedFields(b: string, e: nat) returns (m: Method, url: string)
    requires 0 < e <= |b| && ReadFields(b, e) == LineRejected && ReadMethod(b, e).Some?
    requires LineEnds(b, e)
    ensures BadVersion(b, e, m, url)
  {
    hide LineEnds, LineBody, IsVersion;
    m := ReadMethod(b, e).value;
    var u := |MethodName(m)| + 1;
    assert b[u - 1] == ' ' && ReadTarget(b, m, u, e) == LineRejected;
    hide ReadFields, ReadMethod;
    url := RejectedTarget(b, m, u, e);
  }

  lemma RejectedTarget(b: string, m: Method, u: nat, e: nat) returns (url: string)
    requires u <= e <= |b| && ReadTarget(b, m, u, e) == LineRejected
    ensures SpaceFree(url) && u + |url| + 1 < e && Has(b, u, url) && Has(b, u + |url|, " ")
    ensures !Has(b, u + |url| + 1, "HTTP/1.1") && !Has(b, u + |url| + 1, "HTTP/1.0")
  {
    var s := Find(b, ' ', u, e);
    url := b[u..s];
    VersionAt(b, s + 1);
    hide IsVersion;
  }

  lemma BadVersionFields(b: string, e: nat, m: Method, url: string)
    requires BadVersion(b, e, m, url)
    ensures ReadFields(b, e) == LineRejected
  {
    hide LineBody, ReadTarget;
    var a := |MethodName(m)|;
    At(b, a, " ");
    MethodIs(b, e, m);
    TargetRejected(b, m, a + 1, url, e);
  }

  lemma NoMethodFields(b: string, e: nat)
    requires 0 < e <= |b| && ReadMethod(b, e).None?
    ensures ReadFields(b, e) == LineRejected
  {
  }

  lemma RejectedLine(b: string)
    requires b != "" && ReadLine(b) == LineRejected
    ensures ScanLine(b, 0).LineEnd? && ReadFields(b, ScanLine(b, 0).end) == LineRejected
  {
    hide ReadFields;
  }

  lemma LineFrom(b: string, e: nat)
    requires b != "" && ScanLine(b, 0) == LineEnd(e) && 0 < e <= |b| && ReadFields(b, e) == LineRejected
    ensures ReadLine(b) == LineRejected
  {
    hide ReadFields;
  }

  /** The request lines that are rejected, exactly. */
  lemma RejectedIff(b: string)
    requires b != ""
    ensures ReadLine(b) == LineRejected <==>
            (exists e :: BadMethod(b, e)) || (exists e, m, url :: BadVersion(b, e, m, url))
  {
    hide ReadLine, ReadFields, LineEnds, ReadMethod, ScanLine;
    if ReadLine(b) == LineRejected {
      RejectedLine(b);
      var e := ScanLine(b, 0).end;
      ScanIff(b, e);
      EndInside(b, e);
      NoMethodIff(b, e);
      if ReadMethod(b, e).None? {
        assert BadMethod(b, e);
      } else {
        var m, url := RejectedFields(b, e);
      }
    }
    forall e | BadMethod(b, e) ensures ReadLine(b) == LineRejected {
      ScanIff(b, e);
      EndInside(b, e);
      NoMethodIff(b, e);
      NoMethodFields(b, e);
      LineFrom(b, e);
    }
    forall e, m, url | BadVersion(b, e, m, url) ensures ReadLine(b) == LineRejected {
      ScanIff(b, e);
      EndInside(b, e);
      BadVersionFields(b, e, m, url);
      LineFrom(b, e);
    }
  }

  lemma EndInside(b: string, e: nat)
    requires LineEnds(b, e)
    ensures 0 < e <= |b|
  {
  }

  // ---------------------------------------------------------------- rejected heads and bodies

  /** A whole line, not blank, without a space. */
  ghost predicate NoSpaceAt(b: string, i: nat, t: string) {
    CRFree(t) && SpaceFree(t) && t != "" && Has(b, i, t) && Has(b, i + |t|, CRLF)
  }

  lemma NoSpaceFound(b: string, i: nat) returns (t: string)
    requires i <= |b| && NextLine(b, i) == NoSpace
    ensures NoSpaceAt(b, i, t)
  {
    t := b[i..Find(b, '\r', i, |b|)];
  }

  lemma NoSpaceRead(b: string, i: nat, t: string)
    requires i <= |b| && NoSpaceAt(b, i, t)
    ensures NextLine(b, i) == NoSpace
  {
    At(b, i, t);
    At(b, i + |t|, CRLF);
    FindCR(b, i, t);
    FindIs(b, ' ', i, i + |t| + 2, i + |t| + 2);
  }

  ghost predicate NoSpaceShape(b: string, w: Lead, j: nat, t: string) {
    LinesEnd(b, w, j) && NoSpaceAt(b, j, t)
  }

  /** A POST with a whole head that holds no Content-Length, and a byte more. */
  ghost predicate LengthlessPost(b: string, w: Lead) {
    && Leads(b, w) && w.m == POST && Has(b, |w.line| + 2, RenderHead(w.ls))
    && |w.line| + 2 + |RenderHead(w.ls)| < |b|
    && CONTENT_LENGTH !in InsertLines(map[], w.ls)
  }

  lemma FailedFrom(b: string)
    requires ReadRequest(b) == Failed
    ensures b != ""
    ensures ReadLine(b) != LineRejected ==>
              && ReadLine(b).LineRead? && ReadLine(b).next < |b|
              && var h := HeadOf(b);
                 h == HeadRejected || (h.HeadRead? && ReadLine(b).verb == POST && h.next < |b| && CONTENT_LENGTH !in h.head)
  {
    hide ReadLine, ReadHead, StoI;
  }

  lemma LineFails(b: string)
    requires b != "" && ReadLine(b) == LineRejected
    ensures ReadRequest(b) == Failed
  {
    hide ReadLine;
  }

  lemma NoSpaceFails(b: string, w: Lead, j: nat)
    requires LinesEnd(b, w, j) && j <= |b| && NextLine(b, j) == NoSpace
    ensures ReadRequest(b) == Failed
  {
    hide LineBody, LineFields, ReadLine, ReadHead, NextLine, Has, HeaderLines, RenderLines;
    LeadRead(b, w);
    StopsAfterLines(b, |w.line| + 2, map[], w.ls);
  }

  lemma LengthlessFails(b: string, w: Lead)
    requires LengthlessPost(b, w)
    ensures ReadRequest(b) == Failed
  {
    hide LineBody, LineFields, ReadLine, ReadHead, StoI, Has, HeaderLines, RenderHead, InsertLines;
    LeadRead(b, w);
    HeadComplete(b, |w.line| + 2, w.ls, map[]);
  }

  lemma LengthlessFound(b: string) returns (w: Lead)
    requires b != "" && ReadLine(b).LineRead? && ReadLine(b).next < |b| && HeadOf(b).HeadRead?
    requires ReadLine(b).verb == POST && HeadOf(b).next < |b| && CONTENT_LENGTH !in HeadOf(b).head
    ensures LengthlessPost(b, w)
  {
    hide LineBody, LineFields, ReadLine, ReadHead, Has, HeaderLines, RenderHead, InsertLines;
    var v := LineOf(b);
    var ls := HeadSound(b, ReadLine(b).next, map[]);
    w := v.(ls := ls);
  }

  lemma HeadStops(b: string) returns (w: Lead, j: nat, t: string)
    requires b != "" && ReadLine(b).LineRead? && ReadLine(b).next < |b| && HeadOf(b) == HeadRejected
    ensures NoSpaceShape(b, w, j, t)
  {
    hide ReadLine, HeadOf, LinesEnd, NextLine, NoSpaceAt;
    w, j := StopPlace(b);
    t := NoSpaceFound(b, j);
  }

  /** Some of the four ways to fail. */
  ghost predicate Fails(b: string) {
    || (exists e :: BadMethod(b, e))
    || (exists e, m, url :: BadVersion(b, e, m, url))
    || (exists w, j, t :: NoSpaceShape(b, w, j, t))
    || (exists w :: LengthlessPost(b, w))
  }

  lemma FailedFails(b: string)
    requires ReadRequest(b) == Failed
    ensures Fails(b)
  {
    FailedFrom(b);
    hide ReadRequest, ReadLine, HeadOf, BadMethod, BadVersion, NoSpaceShape, LengthlessPost;
    if ReadLine(b) == LineRejected {
      RejectedIff(b);
    } else if HeadOf(b) == HeadRejected {
      var w, j, t := HeadStops(b);
    } else {
      var w := LengthlessFound(b);
    }
  }

  lemma NotEmpty(b: string)
    requires (exists e :: BadMethod(b, e)) || (exists e, m, url :: BadVersion(b, e, m, url))
    ensures b != ""
  {
    hide LineBody, Has, SpaceFree;
  }

  lemma InsideNoSpace(b: string, j: nat, t: string)
    requires NoSpaceAt(b, j, t)
    ensures j <= |b|
  {
  }

  /** The buffers that are judged failed, exactly: a line that begins with neither
      method, or has something else where its version should be; a whole line of
      the head without a space; a POST without a Content-Length whose body has
      begun. */
  lemma FailedIff(b: string)
    ensures ReadRequest(b) == Failed <==> Fails(b)
  {
    hide ReadRequest, ReadLine, NextLine, BadMethod, BadVersion, LinesEnd, NoSpaceAt, LengthlessPost;
    if ReadRequest(b) == Failed {
      FailedFails(b);
    }
    if (exists e :: BadMethod(b, e)) || (exists e, m, url :: BadVersion(b, e, m, url)) {
      NotEmpty(b);
      RejectedIff(b);
      LineFails(b);
    }
    forall w, j, t | NoSpaceShape(b, w, j, t) ensures ReadRequest(b) == Failed {
      InsideNoSpace(b, j, t);
      NoSpaceRead(b, j, t);
      NoSpaceFails(b, w, j);
    }
    forall w | LengthlessPost(b, w) ensures ReadRequest(b) == Failed {
      LengthlessFails(b, w);
    }
  }

  /** And so a buffer is incomplete exactly when none of the grammars names it. */
  lemma IncompleteIff(b: string)
    ensures ReadRequest(b) == Incomplete <==>
            && !(exists r, n, line, ls :: Accepts(b, r, n, line, ls))
            && !Fails(b)
            && !(exists w, j, t :: BareCRShape(b, w, j, t)) && !(exists w :: IdlePost(b, w))
            && !(exists w, j, t :: SpaceShape(b, w, j, t)) && !(exists w :: NumberlessPost(b, w))
  {
    hide ReadRequest, Accepts, Fails, BareCRShape, IdlePost, SpaceShape, NumberlessPost;
    FailedIff(b);
    SpinsIff(b);
    ThrowsIff(b);
    forall r, n, line, ls | Accepts(b, r, n, line, ls) ensures ReadRequest(b) == Success(r, n) {
      RequestComplete(b, r, n, line, ls);
    }
    if ReadRequest(b).Success? {
      var line, ls := RequestSound(b);
    }
  }

  /** A whole request with a method the server does not know is refused. */
  lemma UnknownMethodExample()
    ensures ReadRequest("PUT / HTTP/1.1\r\n\r\n") == Failed
  {
    var b := "PUT / HTTP/1.1\r\n\r\n";
    var line := "PUT / HTTP/1.1";
    assert b[..14] == line && b[14..16] == CRLF;
    PlainPut(line);
    NeitherMethod(b[..16]);
    hide ReadRequest, LineBody;
    assert BadMethod(b, 16);
    FailedIff(b);
  }

  lemma NeitherMethod(l: string)
    requires 2 <= |l| && l[0] == 'P' && l[1] == 'U'
    ensures !Has(l, 0, "GET") && !Has(l, 0, "POST")
  {
    if Has(l, 0, "GET") {
      At(l, 0, "GET");
    }
    if Has(l, 0, "POST") {
      At(l, 0, "POST");
    }
  }

  lemma PlainPut(line: string)
    requires CRFree(line)
    ensures LineBody(line)
  {
    HttpRoundTrip.PlainLineBody(line);
  }
}
