/** `httpParser` as it runs: one object whose cursors, states and request are
    updated in place by three nested loops, proved to give the verdict of
    `HttpGrammar.ReadRequest` on its buffer. */
module HttpParser {
  import opened Options
  import opened HttpGrammar

  datatype ProcessState = AtLine | AtHead | AtBody

  datatype RequestLineState = AtMethod | AtUrl | AtVersion

  /** The source's three line states; the last two are the ways its loops have
      of not setting any (see `HttpGrammar`). */
  datatype LineState = LineOk | LineBad | LineIncomplete | LineSpins | LineThrows

  datatype FinalState = ParseSuccess | ParseFailed | ParseIncomplete | ParseSpins | ParseThrows

  /** `httpRequest`; the method is unset until the request line is read. */
  datatype HttpRequest = HttpRequest(parseSize: nat, verb: Option<Method>, url: string, version: string,
                                     head: map<string, string>, body: string)

  class Parser {
    const buf: string
    var cur: nat
    var lbeg: nat
    var lend: nat
    var processState: ProcessState
    var finalState: FinalState
    var lineState: LineState
    var request: HttpRequest

    constructor (content: string)
      ensures buf == content
      ensures cur == lbeg == lend == 0
      ensures processState == AtLine && finalState == ParseIncomplete && lineState == LineIncomplete
      ensures request == HttpRequest(0, None, "", "", map[], "")
    {
      buf := content;
      cur, lbeg, lend := 0, 0, 0;
      processState, finalState, lineState := AtLine, ParseIncomplete, LineIncomplete;
      request := HttpRequest(0, None, "", "", map[], "");
    }

    /** The verdict and request that the fields stand for once `Parse` is done. */
    function Verdict(): Outcome
      reads this
    {
      match finalState
      case ParseSuccess =>
        if request.verb.Some? then
          Success(Parsed(request.verb.value, request.url, request.version, request.head, request.body), request.parseSize)
        else Failed
      case ParseFailed => Failed
      case ParseIncomplete => Incomplete
      case ParseSpins => Spins
      case ParseThrows => Throws
    }

    /** Puts `cur` behind the request line's CRLF, or at the end of the buffer;
        says whether the bytes stop right after a CR instead. */
    method SkipRequestLine() returns (cut: bool)
      requires cur == 0
      modifies this`cur
      ensures cur <= |buf| && ScanLine(buf, 0) == if cut then CutAfterCR else LineEnd(cur)
    {
      while cur != |buf|
        invariant cur <= |buf| && ScanLine(buf, 0) == ScanLine(buf, cur)
      {
        cur := cur + 1;
        if buf[cur - 1] != '\r' {
          continue;
        }
        if cur == |buf| {
          return true;
        }
        cur := cur + 1;
        if buf[cur - 1] == '\n' {
          return false;
        }
      }
      return false;
    }

    /** Moves `cur` to just behind the next space before `lend`, or to `lend`. */
    method SkipToSpace()
      requires cur <= lend <= |buf|
      modifies this`cur
      ensures var s := Find(buf, ' ', old(cur), lend); cur == if s < lend then s + 1 else lend
    {
      while cur != lend
        invariant old(cur) <= cur <= lend && Find(buf, ' ', old(cur), lend) == Find(buf, ' ', cur, lend)
      {
        cur := cur + 1;
        if buf[cur - 1] == ' ' {
          return;
        }
      }
    }

    /** The method and the space behind it; `more` when the url is next. */
    method MethodParse() returns (more: bool)
      requires cur == lbeg == 0 < lend <= |buf| && lineState == LineIncomplete
      modifies this`cur, this`lineState, this`request
      ensures cur <= lend && request == old(request).(verb := request.verb)
      ensures more ==> lineState == LineIncomplete && request.verb.Some?
                       && ReadFields(buf, lend) == ReadTarget(buf, request.verb.value, cur, lend)
      ensures !more && lineState == LineBad ==> ReadFields(buf, lend) == LineRejected
      ensures !more && lineState != LineBad ==> lineState == LineIncomplete && ReadFields(buf, lend) == LinePending
    {
      hide ReadTarget;
      if lend >= 3 && Has(buf, lbeg, "GET") {
        request := request.(verb := Some(GET));
        cur := cur + 3;
      } else if lend >= 4 && Has(buf, lbeg, "POST") {
        request := request.(verb := Some(POST));
        cur := cur + 4;
      } else {
        lineState := LineBad;
        return false;
      }
      if cur == lend {
        return false;
      }
      cur := cur + 1;
      return buf[cur - 1] == ' ';
    }

    method VersionParse()
      requires 0 < cur < lend <= |buf|
      modifies this`cur, this`lineState, this`request
      ensures cur == lend && request == old(request).(version := request.version)
      ensures if old(cur) + 8 <= |buf| && IsVersion(buf[old(cur)..old(cur) + 8])
              then lineState == LineOk && request.version == buf[old(cur)..old(cur) + 8]
              else lineState == LineBad
    {
      if Has(buf, cur, "HTTP/1.1") || Has(buf, cur, "HTTP/1.0") {
        request := request.(version := buf[cur..cur + 8]);
        lineState := LineOk;
      } else {
        lineState := LineBad;
      }
      cur := lend;
    }

    /** Method, url and version of the line that ends at `lend`. */
    method RequestFieldsParse()
      requires cur == lbeg == 0 < lend <= |buf| && lineState == LineIncomplete
      modifies this`cur, this`lineState, this`request
      ensures cur <= lend
      ensures request == old(request).(verb := request.verb, url := request.url, version := request.version)
      ensures match ReadFields(buf, lend)
              case LineRead(m, url, version, e) =>
                lineState == LineOk && cur == e
                && request.verb == Some(m) && request.url == url && request.version == version
              case LineRejected => lineState == LineBad
              case LinePending => lineState == LineIncomplete
    {
      hide ReadFields, IsVersion;
      var rlState := AtMethod;
      while cur != lend
        invariant cur <= lend && lineState == LineIncomplete
        invariant request == old(request).(verb := request.verb, url := request.url, version := request.version)
        invariant rlState == AtMethod ==> cur == 0
        invariant rlState == AtUrl ==>
                    request.verb.Some? && ReadFields(buf, lend) == ReadTarget(buf, request.verb.value, cur, lend)
        invariant rlState == AtVersion ==>
                    && request.verb.Some? && 0 < cur < lend
                    && ReadFields(buf, lend) ==
                       if cur + 8 <= |buf| && IsVersion(buf[cur..cur + 8])
                       then LineRead(request.verb.value, request.url, buf[cur..cur + 8], lend) else LineRejected
        decreases match rlState case AtMethod => 2 case AtUrl => 1 case AtVersion => 0
      {
        if rlState == AtMethod {
          var more := MethodParse();
          if !more {
            break;
          }
          rlState := AtUrl;
        } else if rlState == AtUrl {
          var uBegin := cur;
          SkipToSpace();
          if cur == lend {
            break;
          }
          request := request.(url := buf[uBegin..cur - 1]);
          rlState := AtVersion;
        } else {
          VersionParse();
          break;
        }
      }
    }

    method RequestLineParse()
      requires 0 < |buf| && cur == lbeg == lend == 0 && lineState == LineIncomplete
      modifies this`cur, this`lend, this`lineState, this`request
      ensures cur <= |buf| && lend <= |buf|
      ensures request == old(request).(verb := request.verb, url := request.url, version := request.version)
      ensures match ReadLine(buf)
              case LineRead(m, url, version, e) =>
                lineState == LineOk && cur == lend == e
                && request.verb == Some(m) && request.url == url && request.version == version
              case LineRejected => lineState == LineBad
              case LinePending => lineState == LineIncomplete
    {
      var cut := SkipRequestLine();
      if cut {
        lineState := LineIncomplete;
        return;
      }
      lend := cur;
      cur := lbeg;
      hide ReadFields;
      RequestFieldsParse();
    }

    /** Moves `cur` to just behind the next CR, or to the end of the buffer. */
    method SkipToCR()
      requires cur <= |buf|
      modifies this`cur
      ensures var p := Find(buf, '\r', old(cur), |buf|); cur == if p < |buf| then p + 1 else |buf|
    {
      while cur != |buf|
        invariant old(cur) <= cur <= |buf| && Find(buf, '\r', old(cur), |buf|) == Find(buf, '\r', cur, |buf|)
      {
        cur := cur + 1;
        if buf[cur - 1] == '\r' {
          return;
        }
      }
    }

    /** Puts `cur` on the first space of the current line, or on its end. */
    method SeekSpace()
      requires lbeg <= lend <= |buf|
      modifies this`cur
      ensures cur == Find(buf, ' ', lbeg, lend)
    {
      cur := lbeg;
      while cur < lend
        invariant lbeg <= cur <= lend && Find(buf, ' ', lbeg, lend) == Find(buf, ' ', cur, lend)
      {
        if buf[cur] == ' ' {
          return;
        }
        cur := cur + 1;
      }
    }

    /** One pass of the head loop; `done` when the loop is left. */
    method HeadPass() returns (done: bool)
      requires lend <= |buf|
      modifies this`cur, this`lbeg, this`lend, this`lineState, this`request
      ensures cur <= |buf| && lbeg == old(lend)
      ensures match NextLine(buf, old(lend))
              case Blank(next) => done && lineState == LineOk && cur == lend == next && request == old(request)
              case Field(k, v, next) =>
                !done && lineState == LineOk && cur < |buf| && lend == next
                && request == old(request).(head := Insert(old(request.head), k, v))
              case NoSpace => done && lineState == LineBad && request == old(request)
              case SpaceFirst => done && lineState == LineThrows && request == old(request)
              case Cut => done && lineState == LineIncomplete && request == old(request)
              case BareCR => done && lineState == LineSpins && request == old(request) && lend == old(lend)
      ensures lend <= |buf|
    {
      lbeg := lend;
      cur := lend;
      lineState := LineIncomplete;
      SkipToCR();
      if cur == |buf| {
        return true;
      }
      cur := cur + 1;
      if buf[cur - 1] != '\n' {
        // `continue`: the loop is left at the end of the buffer, and otherwise
        // starts over from the same `lend`, for ever
        if cur != |buf| {
          lineState := LineSpins;
        }
        return true;
      }
      lend := cur;
      if lbeg + 2 == lend {
        lineState := LineOk;
        return true;
      }
      done := FieldPass();
    }

    /** The line from `lbeg` to `lend`, which is not blank, as a header. */
    method FieldPass() returns (done: bool)
      requires lbeg + 2 < lend <= |buf| && lend - 2 == Find(buf, '\r', lbeg, |buf|) && buf[lend - 1] == '\n'
      modifies this`cur, this`lineState, this`request
      ensures cur <= |buf|
      ensures match NextLine(buf, lbeg)
              case Field(k, v, next) =>
                !done && lineState == LineOk && cur < |buf| && lend == next
                && request == old(request).(head := Insert(old(request.head), k, v))
              case NoSpace => done && lineState == LineBad && request == old(request)
              case SpaceFirst => done && lineState == LineThrows && request == old(request)
              case _ => false
    {
      hide Insert;
      SeekSpace();
      if cur == lend {
        lineState := LineBad;
        return true;
      }
      if cur == lbeg {
        // a key from `lbeg` to `lbeg - 1`: std::string throws length_error
        lineState := LineThrows;
        return true;
      }
      request := request.(head := Insert(request.head, buf[lbeg..cur - 1], buf[cur + 1..lend - 2]));
      lineState := LineOk;
      return false;
    }

    method RequestHeadParse()
      requires cur < |buf| && lend <= |buf|
      modifies this`cur, this`lbeg, this`lend, this`lineState, this`request
      ensures cur <= |buf| && lend <= |buf|
      ensures request == old(request).(head := request.head)
      ensures match ReadHead(buf, old(lend), old(request.head))
              case HeadRead(next, head) => lineState == LineOk && cur == lend == next && request.head == head
              case HeadRejected => lineState == LineBad
              case HeadPending => lineState == LineIncomplete
              case HeadSpins => lineState == LineSpins
              case HeadThrows => lineState == LineThrows
    {
      hide NextLine, Insert;
      var done := false;
      while !done && cur != |buf|
        invariant cur <= |buf| && lend <= |buf|
        invariant request == old(request).(head := request.head)
        invariant !done ==> cur < |buf| && ReadHead(buf, lend, request.head) == ReadHead(buf, old(lend), old(request.head))
        invariant done ==>
                    match ReadHead(buf, old(lend), old(request.head))
                    case HeadRead(next, head) => lineState == LineOk && cur == lend == next && request.head == head
                    case HeadRejected => lineState == LineBad
                    case HeadPending => lineState == LineIncomplete
                    case HeadSpins => lineState == LineSpins
                    case HeadThrows => lineState == LineThrows
        decreases !done, |buf| - lend
      {
        done := HeadPass();
      }
    }

    method RequestBodyParse(n: nat)
      requires cur <= |buf|
      modifies this`cur, this`lineState, this`request
      ensures request == old(request).(body := request.body)
      ensures old(cur) + n > |buf| ==> lineState == LineIncomplete && cur == old(cur)
      ensures old(cur) + n <= |buf| ==> lineState == LineOk && cur == old(cur) + n && request.body == buf[old(cur)..cur]
    {
      if cur + n > |buf| {
        lineState := LineIncomplete;
      } else {
        request := request.(body := buf[cur..cur + n]);
        cur := cur + n;
        lineState := LineOk;
      }
    }

    /** One pass of the loop of `Parse` over a body. With a Content-Length that
        is not positive it changes nothing, so that the next pass is the same. */
    method BodyPass() returns (done: bool)
      requires 0 < cur < |buf| && request.verb == Some(POST) && request.body == "" && finalState == ParseIncomplete
      modifies this`cur, this`lineState, this`request, this`finalState
      ensures !done <==> CONTENT_LENGTH in request.head && StoI(request.head[CONTENT_LENGTH]).Some?
                         && StoI(request.head[CONTENT_LENGTH]).value <= 0
      ensures !done ==> cur == old(cur) && request == old(request) && finalState == old(finalState) && lineState == old(lineState)
      ensures done ==>
                var r := old(request);
                Verdict() == ReadBody(buf, POST, r.url, r.version, old(cur), r.head)
    {
      hide StoI, CONTENT_LENGTH;
      if CONTENT_LENGTH !in request.head {
        finalState := ParseFailed;
        return true;
      }
      var value := StoI(request.head[CONTENT_LENGTH]);
      if value.None? {
        finalState := ParseThrows;
        return true;
      }
      if value.value <= 0 {
        return false;
      }
      RequestBodyParse(value.value);
      if lineState == LineOk {
        request := request.(parseSize := cur);
        finalState := ParseSuccess;
      } else {
        finalState := ParseIncomplete;
      }
      return true;
    }

    /** A fresh parser gives the verdict of `ReadRequest`, and the request. Where
        a pass of a loop would leave the parser as it found it, and so be followed
        by the same pass for ever (see `HttpLoops`), the model stops and says so. */
    method Parse() returns (final: FinalState)
      requires cur == lbeg == lend == 0
      requires processState == AtLine && finalState == ParseIncomplete && lineState == LineIncomplete
      requires request == HttpRequest(0, None, "", "", map[], "")
      modifies this
      ensures final == finalState && Verdict() == ReadRequest(buf)
    {
      hide ReadLine, ReadHead, StoI, CONTENT_LENGTH;
      ghost var next := if buf != "" && ReadLine(buf).LineRead? then ReadLine(buf).next else 0;
      while cur != |buf|
        invariant cur <= |buf| && lend <= |buf| && finalState == ParseIncomplete
        invariant request.body == "" && request.parseSize == 0
        invariant processState == AtLine ==> cur == lbeg == lend == 0 && request.head == map[]
        invariant processState != AtLine ==>
                    && buf != "" && request.verb.Some?
                    && ReadLine(buf) == LineRead(request.verb.value, request.url, request.version, next)
        invariant processState == AtHead ==> cur == lend == next && request.head == map[]
        invariant processState == AtBody ==>
                    && request.verb == Some(POST) && next < |buf|
                    && ReadHead(buf, next, map[]) == HeadRead(cur, request.head)
        decreases match processState case AtLine => 2 case AtHead => 1 case AtBody => 0
      {
        lineState := LineIncomplete;
        if processState == AtLine {
          RequestLineParse();
          if lineState == LineBad {
            finalState := ParseFailed;
            break;
          } else if lineState == LineOk {
            processState := AtHead;
          } else {
            finalState := ParseIncomplete;
            break;
          }
        } else if processState == AtHead {
          RequestHeadParse();
          if lineState == LineBad {
            finalState := ParseFailed;
            break;
          } else if lineState == LineSpins {
            finalState := ParseSpins;
            break;
          } else if lineState == LineThrows {
            finalState := ParseThrows;
            break;
          } else if lineState == LineOk {
            if request.verb == Some(GET) {
              request := request.(parseSize := cur);
              finalState := ParseSuccess;
              break;
            }
            assert request.verb.value.GET? || request.verb.value.POST?;
            processState := AtBody;
          } else {
            finalState := ParseIncomplete;
            break;
          }
        } else {
          var done := BodyPass();
          if !done {
            finalState := ParseSpins;
          }
          break;
        }
      }
      final := finalState;
    }
  }
}
