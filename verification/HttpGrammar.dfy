/** The values an HTTP request is made of, and the byte-level reading that
    `httpParser` performs on one receive buffer, as functions of that buffer.

    The C++ parser has two ways of not answering: it can loop for ever
    (`Spins`), and it can leave by a C++ exception (`Throws`). Both are
    outcomes here, so that no buffer has to be excluded.
  */
module HttpGrammar {
  import opened Options

  const CRLF := "\r\n"
  const CONTENT_LENGTH := "Content-Length"
  const INT_MAX: int := 0x7fff_ffff
  const INT_MIN: int := -0x8000_0000

  datatype Method = GET | POST

  /** What the parser leaves in its `httpRequest` on success. */
  datatype Parsed = Parsed(verb: Method, url: string, version: string, head: map<string, string>, body: string)

  datatype Scan = LineEnd(end: nat) | CutAfterCR

  datatype LineOutcome = LineRead(verb: Method, url: string, version: string, next: nat) | LineRejected | LinePending

  datatype HeadOutcome = HeadRead(next: nat, head: map<string, string>) | HeadRejected | HeadPending | HeadSpins | HeadThrows

  datatype Outcome = Success(request: Parsed, size: nat) | Failed | Incomplete | Spins | Throws

  function MethodName(m: Method): string {
    match m case GET => "GET" case POST => "POST"
  }

  predicate CRFree(s: string) {
    forall i :: 0 <= i < |s| ==> s[i] != '\r'
  }

  predicate SpaceFree(s: string) {
    forall i :: 0 <= i < |s| ==> s[i] != ' '
  }

  /** Position of the first `c` in `b[i..e]`, or `e`. */
  function Find(b: string, c: char, i: nat, e: nat): (p: nat)
    requires i <= e <= |b|
    ensures i <= p <= e
    ensures forall k :: i <= k < p ==> b[k] != c
    ensures p < e ==> b[p] == c
    decreases e - i
  {
    if i == e || b[i] == c then i else Find(b, c, i + 1, e)
  }

  // ---------------------------------------------------------------- request line

  /** The search for the end of the request line. A CR takes the byte after it
      along, whatever that byte is; running out of bytes ends the line too. */
  function ScanLine(b: string, i: nat): (r: Scan)
    requires i <= |b|
    ensures r.LineEnd? ==> i <= r.end <= |b| && (i < |b| ==> i < r.end)
    decreases |b| - i
  {
    if i == |b| then LineEnd(|b|)
    else if b[i] != '\r' then ScanLine(b, i + 1)
    else if i + 1 == |b| then CutAfterCR
    else if b[i + 1] == '\n' then LineEnd(i + 2)
    else ScanLine(b, i + 2)
  }

  /** The bytes of `word` stand at position `i` of `b`. */
  predicate Has(b: string, i: nat, word: string) {
    i + |word| <= |b| && b[i..i + |word|] == word
  }

  function ReadMethod(b: string, e: nat): (r: Option<Method>)
    requires e <= |b|
    ensures r.Some? ==> Has(b, 0, MethodName(r.value)) && |MethodName(r.value)| <= e
  {
    if e >= 3 && Has(b, 0, "GET") then Some(GET)
    else if e >= 4 && Has(b, 0, "POST") then Some(POST)
    else None
  }

  predicate IsVersion(v: string) {
    v == "HTTP/1.1" || v == "HTTP/1.0"
  }

  /** The part of the request line after the method and its space, from `u`. */
  function ReadTarget(b: string, m: Method, u: nat, e: nat): (r: LineOutcome)
    requires u <= e <= |b|
    ensures r.LineRead? ==> r.next == e
  {
    var s := Find(b, ' ', u, e);
    if s + 1 >= e then LinePending
    else if s + 9 <= |b| && IsVersion(b[s + 1..s + 9]) then LineRead(m, b[u..s], b[s + 1..s + 9], e)
    else LineRejected
  }

  function ReadFields(b: string, e: nat): (r: LineOutcome)
    requires 0 < e <= |b|
    ensures r.LineRead? ==> r.next == e
  {
    match ReadMethod(b, e)
    case None => LineRejected
    case Some(m) =>
      var a := |MethodName(m)|;
      if a == e || b[a] != ' ' then LinePending else ReadTarget(b, m, a + 1, e)
  }

  function ReadLine(b: string): (r: LineOutcome)
    requires 0 < |b|
    ensures r.LineRead? ==> 0 < r.next <= |b|
  {
    match ScanLine(b, 0)
    case CutAfterCR => LinePending
    case LineEnd(e) => ReadFields(b, e)
  }

  // ---------------------------------------------------------------- head

  /** `std::map::insert`: the first value of a key stays. */
  function Insert(m: map<string, string>, k: string, v: string): map<string, string> {
    if k in m then m else m[k := v]
  }

  /** A header line is cut at its first space: the byte before the space (a
      colon, in HTTP) is dropped, the rest of the line is the value. */
  function Key(l: string): string
    requires 0 < Find(l, ' ', 0, |l|)
  {
    l[..Find(l, ' ', 0, |l|) - 1]
  }

  function Value(l: string): string
    requires Find(l, ' ', 0, |l|) < |l|
  {
    l[Find(l, ' ', 0, |l|) + 1..]
  }

  /** What the bytes from `i` hold: the blank line, a header line, a line the
      parser rejects (no space) or throws on (a space in front, giving a key of
      negative length), too few bytes, or a CR without LF and more behind it. */
  datatype HeadLine = Blank(next: nat) | Field(key: string, value: string, next: nat)
                    | NoSpace | SpaceFirst | Cut | BareCR

  function NextLine(b: string, i: nat): (r: HeadLine)
    requires i <= |b|
    ensures r.Blank? ==> r.next == i + 2 <= |b|
    ensures r.Field? ==> i + 2 < r.next <= |b|
  {
    var p := Find(b, '\r', i, |b|);
    if p + 1 >= |b| then Cut
    else if b[p + 1] != '\n' then (if p + 2 == |b| then Cut else BareCR)
    else if p == i then Blank(i + 2)
    else
      var s := Find(b, ' ', i, p + 2);
      if s == p + 2 then NoSpace
      else if s == i then SpaceFirst
      else Field(b[i..s - 1], b[s + 1..p], p + 2)
  }

  function ReadHead(b: string, i: nat, m: map<string, string>): (r: HeadOutcome)
    requires i <= |b|
    ensures r.HeadRead? ==> i + 2 <= r.next <= |b|
    decreases |b| - i
  {
    match NextLine(b, i)
    case Blank(next) => HeadRead(next, m)
    case Field(k, v, next) => ReadHead(b, next, Insert(m, k, v))
    case NoSpace => HeadRejected
    case SpaceFirst => HeadThrows
    case Cut => HeadPending
    case BareCR => HeadSpins
  }

  // ---------------------------------------------------------------- body

  predicate IsDigit(c: char) { '0' <= c <= '9' }

  function DigitValue(c: char): nat
    requires IsDigit(c)
  { c as int - '0' as int }

  predicate IsBlank(c: char) {
    c == ' ' || ('\t' <= c <= '\r')
  }

  /** Value of the digits at the front of `s`, read on top of `acc`. */
  function LeadingNumber(s: string, acc: nat): nat {
    if s == "" || !IsDigit(s[0]) then acc else LeadingNumber(s[1..], 10 * acc + DigitValue(s[0]))
  }

  function SkipBlanks(s: string): string {
    if s != "" && IsBlank(s[0]) then SkipBlanks(s[1..]) else s
  }

  /** `std::stoi`: `None` stands for `invalid_argument` and `out_of_range`. */
  function StoI(s: string): Option<int> {
    var t := SkipBlanks(s);
    var negative := t != "" && t[0] == '-';
    var d := if t != "" && (t[0] == '-' || t[0] == '+') then t[1..] else t;
    if d == "" || !IsDigit(d[0]) then None
    else
      var n: int := LeadingNumber(d, 0);
      var v := if negative then -n else n;
      if INT_MIN <= v <= INT_MAX then Some(v) else None
  }

  function ReadBody(b: string, m: Method, url: string, version: string, i: nat, head: map<string, string>): (o: Outcome)
    requires 0 < i <= |b|
    ensures o.Success? ==> 0 < o.size <= |b|
  {
    if m == GET then Success(Parsed(m, url, version, head, ""), i)
    else if i == |b| then Incomplete
    else if CONTENT_LENGTH !in head then Failed
    else
      match StoI(head[CONTENT_LENGTH])
      case None => Throws
      case Some(n) =>
        if n <= 0 then Spins
        else if i + n > |b| then Incomplete
        else Success(Parsed(m, url, version, head, b[i..i + n]), i + n)
  }

  /** The verdict of a fresh parser on the buffer `b`. */
  function ReadRequest(b: string): (o: Outcome)
    ensures o.Success? ==> 0 < o.size <= |b|
  {
    if b == "" then Incomplete
    else
      match ReadLine(b)
      case LineRejected => Failed
      case LinePending => Incomplete
      case LineRead(m, url, version, e) =>
        if e == |b| then Incomplete
        else
          match ReadHead(b, e, map[])
          case HeadRejected => Failed
          case HeadPending => Incomplete
          case HeadSpins => Spins
          case HeadThrows => Throws
          case HeadRead(i, head) => ReadBody(b, m, url, version, i, head)
  }
}
