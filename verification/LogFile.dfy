/** The rolling log file: `fileApp::append`, which repeats partial writes, and
    `logFile`, which opens a new file when the old one is too long or the day
    is over.

    The kernel is a list of write results, the clock a reading per call; nothing
    is assumed of either, not even that the clock moves forward. */
module LogFile {
  const DAY: int := 86400

  datatype Config = Config(rollSize: int, flushInterval: int, checkEveryN: int)

  /** A file by the second it was opened in and what this process put there. */
  datatype File = File(since: int, content: string)

  datatype State = State(
    closed: seq<File>, file: File,
    count: int, period: int, lastRoll: int, lastFlush: int)

  /** One call of `append`: the record, what each `fwrite` takes (all that is
      left, once the list ends), and the clock as read by the day check and by
      `rollfile`. */
  datatype Call = Call(rec: string, sizes: seq<nat>, check: int, roll: int)

  // ---------------------------------------------------------------- partial writes

  function Min(a: nat, b: nat): nat { if a < b then a else b }

  /** How many of `len` bytes the write loop hands over. */
  function Took(len: nat, sizes: seq<nat>): (n: nat)
    ensures n <= len
    decreases |sizes|
  {
    if len == 0 then 0
    else if sizes == [] then len
    else
      var w := Min(sizes[0], len);
      if w == 0 then 0 else w + Took(len - w, sizes[1..])
  }

  function Sum(sizes: seq<nat>): nat {
    if sizes == [] then 0 else sizes[0] + Sum(sizes[1..])
  }

  function FirstZero(sizes: seq<nat>): (z: nat)
    ensures z <= |sizes| && (z < |sizes| ==> sizes[z] == 0)
    ensures forall i :: 0 <= i < z ==> sizes[i] > 0
  {
    if sizes == [] || sizes[0] == 0 then 0 else 1 + FirstZero(sizes[1..])
  }

  /** The writes before the first one that takes nothing are all there is. */
  lemma {:induction false} TookIs(len: nat, sizes: seq<nat>)
    ensures var z := FirstZero(sizes);
            Took(len, sizes) == if z < |sizes| then Min(len, Sum(sizes[..z])) else len
    decreases |sizes|
  {
    if sizes != [] && sizes[0] > 0 {
      var w := Min(sizes[0], len);
      TookIs(len - w, sizes[1..]);
      var z := FirstZero(sizes);
      assert sizes[..z][1..] == sizes[1..][..z - 1];
    }
  }

  // ---------------------------------------------------------------- rolling

  /** `now / kRollPerSeconds_ * kRollPerSeconds_`, with C's division. */
  function DayStart(now: int): int {
    if now >= 0 then now / DAY * DAY else -(-now / DAY * DAY)
  }

  function Roll(s: State, now: int): State {
    if now <= s.lastRoll then s
    else s.(closed := s.closed + [s.file], file := File(now, ""), lastRoll := now, lastFlush := now, period := DayStart(now))
  }

  /** What of the record reaches the file. */
  function Piece(c: Call): string {
    c.rec[..Took(|c.rec|, c.sizes)]
  }

  function AfterAppend(g: Config, s: State, c: Call): State {
    var t := s.(file := s.file.(content := s.file.content + Piece(c)));
    if |t.file.content| > g.rollSize then Roll(t, c.roll)
    else if t.count + 1 < g.checkEveryN then t.(count := t.count + 1)
    else
      var u := t.(count := 0);
      if DayStart(c.check) != u.period then Roll(u, c.roll)
      else if c.check - u.lastFlush > g.flushInterval then u.(lastFlush := c.check)
      else u
  }

  /** What the constructor leaves; its `rollfile` opens the first file. */
  function Start(now: int): State {
    State([], File(now, ""), 0, DayStart(now), now, now)
  }

  function Run(g: Config, start: int, calls: seq<Call>): State {
    if calls == [] then Start(start)
    else AfterAppend(g, Run(g, start, calls[..|calls| - 1]), calls[|calls| - 1])
  }

  function Files(s: State): seq<File> { s.closed + [s.file] }

  // ---------------------------------------------------------------- nothing lost, nothing split

  function Concat(parts: seq<string>): string {
    if parts == [] then "" else Concat(parts[..|parts| - 1]) + parts[|parts| - 1]
  }

  function Flatten<T>(groups: seq<seq<T>>): seq<T> {
    if groups == [] then [] else Flatten(groups[..|groups| - 1]) + groups[|groups| - 1]
  }

  function Pieces(calls: seq<Call>): seq<string> {
    seq(|calls|, i requires 0 <= i < |calls| => Piece(calls[i]))
  }

  /** Each file holds one group, whole. */
  predicate Holds(files: seq<File>, groups: seq<seq<string>>) {
    && |files| == |groups|
    && forall f :: 0 <= f < |files| ==> files[f].content == Concat(groups[f])
  }

  /** The record joins the last group; a new file starts an empty one. */
  function Groups(g: Config, start: int, calls: seq<Call>): (r: seq<seq<string>>)
    ensures r != []
  {
    if calls == [] then [[]]
    else
      var n := |calls| - 1;
      var before := Groups(g, start, calls[..n]);
      var s := Run(g, start, calls[..n]);
      var k := |before| - 1;
      before[..k] + [before[k] + [Piece(calls[n])]] +
      if |AfterAppend(g, s, calls[n]).closed| > |s.closed| then [[]] else []
  }

  /** Whatever the branch, the piece goes to the current file, which then stays
      current or is closed for an empty one. */
  lemma AppendFiles(g: Config, s: State, c: Call)
    ensures var t := AfterAppend(g, s, c);
            var filled := File(s.file.since, s.file.content + Piece(c));
            || (|t.closed| == |s.closed| && Files(t) == s.closed + [filled])
            || (|t.closed| > |s.closed| && Files(t) == s.closed + [filled, File(t.lastRoll, "")])
  {
    hide DayStart, Piece;
  }

  lemma ConcatSnoc(parts: seq<string>, p: string)
    ensures Concat(parts + [p]) == Concat(parts) + p
  {
    assert (parts + [p])[..|parts|] == parts;
  }

  lemma HoldsSnoc(closed: seq<File>, file: File, groups: seq<seq<string>>, p: string, since: int)
    requires groups != [] && Holds(closed + [file], groups)
    ensures var k := |groups| - 1;
            && Holds(closed + [file.(content := file.content + p)], groups[..k] + [groups[k] + [p]])
            && Holds(closed + [file.(content := file.content + p), File(since, "")], groups[..k] + [groups[k] + [p]] + [[]])
  {
    hide Concat;
    var k := |groups| - 1;
    assert (closed + [file])[k].content == Concat(groups[k]);
    ConcatSnoc(groups[k], p);
    EmptyConcat();
    assert forall f :: 0 <= f < k ==> (closed + [file])[f] == closed[f];
  }

  lemma EmptyConcat()
    ensures Concat([]) == ""
  {
  }

  lemma {:induction false} GroupsHeld(g: Config, start: int, calls: seq<Call>)
    ensures Holds(Files(Run(g, start, calls)), Groups(g, start, calls))
    decreases |calls|
  {
    hide AfterAppend, Holds;
    if calls == [] {
      StartHolds(start);
    } else {
      var n := |calls| - 1;
      var s, c := Run(g, start, calls[..n]), calls[n];
      GroupsHeld(g, start, calls[..n]);
      AppendFiles(g, s, c);
      HoldsSnoc(s.closed, s.file, Groups(g, start, calls[..n]), Piece(c), AfterAppend(g, s, c).lastRoll);
      AppendNone(Groups(g, start, calls[..n]), Piece(c));
    }
  }

  lemma StartHolds(start: int)
    ensures Holds(Files(Start(start)), [[]])
  {
    assert Files(Start(start)) == [File(start, "")];
  }

  lemma AppendNone(groups: seq<seq<string>>, p: string)
    requires groups != []
    ensures var filled := groups[..|groups| - 1] + [groups[|groups| - 1] + [p]];
            filled + [] == filled
  {
  }

  lemma FlattenSnoc<T>(groups: seq<seq<T>>, last: seq<T>)
    ensures Flatten(groups + [last]) == Flatten(groups) + last
  {
    assert (groups + [last])[..|groups|] == groups;
  }

  lemma {:induction false} GroupsArePieces(g: Config, start: int, calls: seq<Call>)
    ensures Flatten(Groups(g, start, calls)) == Pieces(calls)
    decreases |calls|
  {
    hide AfterAppend, Flatten;
    if calls == [] {
      FlattenNothing<string>();
    } else {
      var n := |calls| - 1;
      var p := Piece(calls[n]);
      var before := Groups(g, start, calls[..n]);
      var k := |before| - 1;
      GroupsArePieces(g, start, calls[..n]);
      FlattenSnoc(before[..k], before[k]);
      assert before[..k] + [before[k]] == before;
      var filled := before[..k] + [before[k] + [p]];
      FlattenSnoc(before[..k], before[k] + [p]);
      FlattenSnoc(filled, []);
      AppendNone(before, p);
      assert Flatten(filled) + [] == Flatten(filled);
      assert (Flatten(before[..k]) + before[k]) + [p] == Flatten(before[..k]) + (before[k] + [p]);
      assert Pieces(calls) == Pieces(calls[..n]) + [p];
    }
  }

  lemma FlattenNothing<T>()
    ensures Flatten<T>([[]]) == []
  {
    var none: seq<T> := [];
    assert Flatten([none]) == Flatten([none][..0]) + none;
  }

  predicate Progresses(c: Call) { Took(|c.rec|, c.sizes) == |c.rec| }

  /** In every run the files, in the order they were opened, are the records,
      in order, none of them split; a record whose writes stop is cut short. */
  lemma RecordsInOrder(g: Config, start: int, calls: seq<Call>)
    ensures exists groups: seq<seq<string>> ::
              Holds(Files(Run(g, start, calls)), groups) && Flatten(groups) == Pieces(calls)
    ensures (forall i :: 0 <= i < |calls| ==> Progresses(calls[i])) ==>
              Pieces(calls) == seq(|calls|, i requires 0 <= i < |calls| => calls[i].rec)
  {
    GroupsHeld(g, start, calls);
    GroupsArePieces(g, start, calls);
    if forall i :: 0 <= i < |calls| ==> Progresses(calls[i]) {
      forall i | 0 <= i < |calls| ensures Pieces(calls)[i] == calls[i].rec {
        assert Progresses(calls[i]);
      }
    }
  }

  // ---------------------------------------------------------------- clocks and counters

  predicate Inv(g: Config, s: State) {
    && s.file.since == s.lastRoll && s.period == DayStart(s.lastRoll)
    && 0 <= s.count && (s.count == 0 || s.count < g.checkEveryN)
    && (g.flushInterval >= 0 ==> s.lastFlush >= s.lastRoll)
    && (forall i, j :: 0 <= i < j < |Files(s)| ==> Files(s)[i].since < Files(s)[j].since)
  }

  lemma {:induction false} RunInv(g: Config, start: int, calls: seq<Call>)
    ensures Inv(g, Run(g, start, calls))
    decreases |calls|
  {
    if calls != [] {
      var n := |calls| - 1;
      RunInv(g, start, calls[..n]);
      hide Run;
      AppendInv(g, Run(g, start, calls[..n]), calls[n]);
    }
  }

  lemma AppendInv(g: Config, s: State, c: Call)
    requires Inv(g, s)
    ensures Inv(g, AfterAppend(g, s, c))
  {
    hide DayStart, Piece;
    var filled := File(s.file.since, s.file.content + Piece(c));
    var t := AfterAppend(g, s, c);
    AppendFiles(g, s, c);
    assert forall i :: 0 <= i < |Files(s)| ==> Files(t)[i].since == Files(s)[i].since;
    assert Files(s)[|s.closed|] == s.file;
  }

  /** The appends after which the file was still within its size. */
  function Small(g: Config, start: int, calls: seq<Call>): nat {
    if calls == [] then 0
    else
      var n := |calls| - 1;
      Small(g, start, calls[..n]) +
      if |Run(g, start, calls[..n]).file.content| + |Piece(calls[n])| <= g.rollSize then 1 else 0
  }

  lemma CountUp(a: nat, n: int)
    requires n >= 1
    ensures (a + 1) % n == if a % n + 1 < n then a % n + 1 else 0
  {
    var r := a % n;
    assert a == n * (a / n) + r && a + 1 == n * ((a + 1) / n) + (a + 1) % n;
    if r + 1 < n {
      SameRemainder(n, (a + 1) / n, (a + 1) % n, a / n, r + 1);
    } else {
      assert n * (a / n + 1) == n * (a / n) + n;
      SameRemainder(n, (a + 1) / n, (a + 1) % n, a / n + 1, 0);
    }
  }

  lemma SameRemainder(n: int, q: int, r: int, p: int, s: int)
    requires 0 <= r < n && 0 <= s < n && n * q + r == n * p + s
    ensures r == s
  {
    AtLeastOnce(n, q - p);
    AtLeastOnce(n, p - q);
    assert n * (q - p) == n * q - n * p && n * (p - q) == n * p - n * q;
    assert q != p ==> q - p >= 1 || p - q >= 1;
  }

  lemma AtLeastOnce(n: int, k: int)
    requires n >= 0
    ensures k >= 1 ==> n * k >= n
  {
    if k >= 1 {
      assert n * (k - 1) >= 0;
      assert n * k == n * (k - 1) + n;
    }
  }

  lemma AppendCount(g: Config, s: State, c: Call)
    ensures AfterAppend(g, s, c).count ==
            if |s.file.content| + |Piece(c)| > g.rollSize then s.count
            else if s.count + 1 < g.checkEveryN then s.count + 1 else 0
  {
    hide DayStart, Piece;
  }

  /** The clock is looked at on exactly every `checkEveryN`-th append that stays
      within the size; appends that do not stay within it never delay the look. */
  lemma {:induction false} CountIsModulo(g: Config, start: int, calls: seq<Call>)
    requires g.checkEveryN >= 1
    ensures Run(g, start, calls).count == Small(g, start, calls) % g.checkEveryN
    decreases |calls|
  {
    hide AfterAppend, Piece;
    if calls != [] {
      var n := |calls| - 1;
      CountIsModulo(g, start, calls[..n]);
      AppendCount(g, Run(g, start, calls[..n]), calls[n]);
      CountUp(Small(g, start, calls[..n]), g.checkEveryN);
    }
  }

  // ---------------------------------------------------------------- when a file is closed

  /** The day of a moment since 1970. */
  lemma DayIs(now: int)
    requires 0 <= now
    ensures DayStart(now) % 86400 == 0 && DayStart(now) <= now < DayStart(now) + 86400
  {
  }

  lemma SameDayIff(a: int, b: int)
    requires 0 <= a && 0 <= b
    ensures DayStart(a) == DayStart(b) <==> a / 86400 == b / 86400
  {
  }

  /** Whether this append looks at the clock, by how many stayed small before. */
  predicate Looks(g: Config, small: nat) {
    g.checkEveryN <= 1 || (small + 1) % g.checkEveryN == 0
  }

  lemma LooksIff(g: Config, small: nat, count: int)
    requires g.checkEveryN >= 1 ==> count == small % g.checkEveryN
    requires g.checkEveryN < 1 ==> count == 0
    ensures Looks(g, small) <==> !(count + 1 < g.checkEveryN)
  {
    if g.checkEveryN >= 1 {
      CountUp(small, g.checkEveryN);
    }
  }

  lemma AppendRolls(g: Config, s: State, c: Call)
    ensures var t := AfterAppend(g, s, c);
            var long := |s.file.content| + |Piece(c)| > g.rollSize;
            var looks := !long && !(s.count + 1 < g.checkEveryN);
            && (|t.closed| > |s.closed| <==> s.lastRoll < c.roll && (long || (looks && DayStart(c.check) != s.period)))
            && t.lastRoll == (if |t.closed| > |s.closed| then c.roll else s.lastRoll)
            && t.lastFlush == (if |t.closed| > |s.closed| then c.roll
                               else if looks && DayStart(c.check) == s.period && c.check - s.lastFlush > g.flushInterval then c.check
                               else s.lastFlush)
  {
    hide DayStart, Piece;
  }

  /** In every run, a call closes the file exactly when its clock is past the last
      roll and either the file is now too long, or it is this call's turn to look
      at the day and the day is not that of the last roll. When it is its turn and
      the day is the same, it flushes exactly after the interval. */
  lemma ClosesIff(g: Config, start: int, calls: seq<Call>, i: nat)
    requires i < |calls|
    ensures var s, t, c := Run(g, start, calls[..i]), Run(g, start, calls[..i + 1]), calls[i];
            var long := |s.file.content| + |Piece(c)| > g.rollSize;
            var looks := !long && Looks(g, Small(g, start, calls[..i]));
            && (|t.closed| > |s.closed| <==>
                s.lastRoll < c.roll && (long || (looks && DayStart(c.check) != DayStart(s.lastRoll))))
            && t.lastFlush == (if |t.closed| > |s.closed| then c.roll
                               else if looks && DayStart(c.check) == DayStart(s.lastRoll) && c.check - s.lastFlush > g.flushInterval
                               then c.check
                               else s.lastFlush)
  {
    var s := Run(g, start, calls[..i]);
    assert calls[..i + 1][..i] == calls[..i];
    RunInv(g, start, calls[..i]);
    if g.checkEveryN >= 1 {
      CountIsModulo(g, start, calls[..i]);
    }
    assert Run(g, start, calls[..i + 1]) == AfterAppend(g, s, calls[i]);
    hide AfterAppend, Piece, Run, DayStart, Small, Looks;
    LooksIff(g, Small(g, start, calls[..i]), s.count);
    AppendRolls(g, s, calls[i]);
  }

  // ---------------------------------------------------------------- how long a file gets

  /** The call finds the file too long, and `rollfile` refuses: its clock reads
      no later than the last roll. */
  predicate Refused(g: Config, start: int, calls: seq<Call>, i: nat)
    requires i < |calls|
  {
    var s := Run(g, start, calls[..i]);
    |s.file.content| + |Piece(calls[i])| > g.rollSize && calls[i].roll <= s.lastRoll
  }

  lemma AppendLength(g: Config, s: State, c: Call)
    requires 0 <= g.rollSize
    ensures |AfterAppend(g, s, c).file.content| > g.rollSize <==>
            |s.file.content| + |Piece(c)| > g.rollSize && c.roll <= s.lastRoll
  {
    hide DayStart, Piece;
  }

  /** The file a record goes to is already too long exactly when the call before
      asked for a new one and was refused. */
  lemma OverlongIff(g: Config, start: int, calls: seq<Call>, i: nat)
    requires 0 <= g.rollSize && 0 < i <= |calls|
    ensures |Run(g, start, calls[..i]).file.content| > g.rollSize <==> Refused(g, start, calls, i - 1)
  {
    hide AfterAppend, Piece;
    assert calls[..i][..i - 1] == calls[..i - 1];
    AppendLength(g, Run(g, start, calls[..i - 1]), calls[i - 1]);
  }

  /** Two records in the second the file was opened in: the first makes it too
      long, its roll is refused, and the second follows it. */
  lemma OverlongExample()
    ensures var g := Config(0, 3, 1024);
            var calls := [Call("a", [], 1, 1), Call("b", [], 1, 1)];
            && |Run(g, 1, calls[..1]).file.content| > g.rollSize
            && Files(Run(g, 1, calls)) == [File(1, "ab")]
  {
    var g := Config(0, 3, 1024);
    var a, b := Call("a", [], 1, 1), Call("b", [], 1, 1);
    var calls := [a, b];
    assert calls[..1] == [a] && [a][..0] == [];
    assert Run(g, 1, [a]) == AfterAppend(g, Start(1), a);
    assert Run(g, 1, calls) == AfterAppend(g, Run(g, 1, [a]), b);
    assert Piece(a) == "a" && Piece(b) == "b";
    assert "" + "a" == "a" && "a" + "b" == "ab";
    assert Run(g, 1, [a]).file == File(1, "a") && Run(g, 1, [a]).closed == [];
    assert Run(g, 1, calls).file == File(1, "ab") && Run(g, 1, calls).closed == [];
  }

  /** For each file, the bytes of its records that were written right after a
      refused roll. Where the roll was refused the file did not change, so they
      went to the file that was too long. */
  function Excess(g: Config, start: int, calls: seq<Call>): (r: seq<nat>)
    ensures r != []
  {
    if calls == [] then [0]
    else
      var n := |calls| - 1;
      var before := Excess(g, start, calls[..n]);
      var s := Run(g, start, calls[..n]);
      var k := |before| - 1;
      before[..k] + [before[k] + if n > 0 && Refused(g, start, calls, n - 1) then |Piece(calls[n])| else 0] +
      if |AfterAppend(g, s, calls[n]).closed| > |s.closed| then [0] else []
  }

  /** Each file within its own bound. */
  predicate Bounded(files: seq<File>, base: int, excess: seq<nat>) {
    && |files| == |excess|
    && forall f :: 0 <= f < |files| ==> |files[f].content| <= base + excess[f]
  }

  lemma BoundedSnoc(closed: seq<File>, file: File, base: nat, excess: seq<nat>, p: string, more: nat, since: int)
    requires excess != [] && Bounded(closed + [file], base, excess)
    requires |file.content| + |p| <= base + excess[|excess| - 1] + more
    ensures var k := |excess| - 1;
            var filled := File(file.since, file.content + p);
            && Bounded(closed + [filled], base, excess[..k] + [excess[k] + more])
            && Bounded(closed + [filled, File(since, "")], base, excess[..k] + [excess[k] + more] + [0])
  {
    var k := |excess| - 1;
    assert forall f :: 0 <= f < k ==> (closed + [file])[f] == closed[f];
  }

  /** Each file is longer than the roll size by no more than one record and
      those of its own records that came right after refused rolls; a file with
      no roll refused, by no more than one record. */
  lemma {:induction false} LengthBound(g: Config, start: int, calls: seq<Call>, longest: nat)
    requires 0 <= g.rollSize && forall i :: 0 <= i < |calls| ==> |calls[i].rec| <= longest
    ensures Bounded(Files(Run(g, start, calls)), g.rollSize + longest, Excess(g, start, calls))
    decreases |calls|
  {
    hide AfterAppend, Piece, Bounded;
    if calls == [] {
      StartBounded(start, g.rollSize + longest);
    } else {
      var n := |calls| - 1;
      var s, c := Run(g, start, calls[..n]), calls[n];
      var before := Excess(g, start, calls[..n]);
      var more := if n > 0 && Refused(g, start, calls, n - 1) then |Piece(c)| else 0;
      LengthBound(g, start, calls[..n], longest);
      LastBounded(s, g.rollSize + longest, before);
      PieceShort(c);
      assert |calls[n].rec| <= longest;
      if n > 0 {
        OverlongIff(g, start, calls, n);
      }
      AppendFiles(g, s, c);
      BoundedSnoc(s.closed, s.file, g.rollSize + longest, before, Piece(c), more, AfterAppend(g, s, c).lastRoll);
      var filled := before[..|before| - 1] + [before[|before| - 1] + more];
      assert filled + [] == filled;
    }
  }

  lemma StartBounded(start: int, base: nat)
    ensures Bounded(Files(Start(start)), base, [0])
  {
    assert Files(Start(start)) == [File(start, "")];
  }

  lemma LastBounded(s: State, base: nat, excess: seq<nat>)
    requires Bounded(Files(s), base, excess)
    ensures excess != [] && |s.file.content| <= base + excess[|excess| - 1]
  {
    assert Files(s)[|s.closed|] == s.file;
  }

  lemma PieceShort(c: Call)
    ensures |Piece(c)| <= |c.rec|
  {
  }

  // ---------------------------------------------------------------- the objects

  class FileApp {
    const since: int
    var content: string
    var written: nat

    predicate Valid()
      reads this
    {
      written == |content|
    }

    constructor (now: int)
      ensures Valid() && since == now && content == ""
    {
      since, content, written := now, "", 0;
    }

    /** -1 exactly when a write takes nothing; what was taken before stays. */
    method Append(data: string, sizes: seq<nat>) returns (r: int)
      requires Valid()
      modifies this`content, this`written
      ensures Valid() && content == old(content) + data[..Took(|data|, sizes)]
      ensures r == if Took(|data|, sizes) == |data| then |data| else -1
    {
      var p, len, total, i := 0, |data|, 0, 0;
      while len > 0
        invariant p == total && 0 <= total && 0 <= len && total + len == |data| && 0 <= i <= |sizes|
        invariant total + Took(len, sizes[i..]) == Took(|data|, sizes)
        invariant Valid() && content == old(content) + data[..p]
      {
        var w := if i < |sizes| then Min(sizes[i], len) else len;
        if w == 0 {
          return -1;
        }
        content := content + data[p..p + w];
        assert data[..p] + data[p..p + w] == data[..p + w];
        len, total, p, written := len - w, total + w, p + w, written + w;
        if i < |sizes| {
          assert sizes[i..][1..] == sizes[i + 1..];
          i := i + 1;
        }
      }
      return total;
    }
  }

  class Roller {
    const g: Config
    var closed: seq<File>
    var file: FileApp
    var count: int
    var period: int
    var lastRoll: int
    var lastFlush: int

    predicate Valid()
      reads this, file
    {
      file.Valid()
    }

    ghost function View(): State
      reads this, file
    {
      State(closed, File(file.since, file.content), count, period, lastRoll, lastFlush)
    }

    /** A clock at or before 1970 would leave no file at all. */
    constructor (g: Config, now: int)
      requires now > 0
      ensures Valid() && fresh(file) && this.g == g && View() == Start(now)
    {
      this.g := g;
      closed, count, period, lastRoll, lastFlush := [], 0, DayStart(now), now, now;
      file := new FileApp(now);
    }

    method RollFile(now: int) returns (rolled: bool)
      requires Valid()
      modifies this
      ensures Valid() && rolled == (now > old(lastRoll))
      ensures View() == Roll(old(View()), now)
      ensures file == old(file) || fresh(file)
    {
      var start := DayStart(now);
      if now <= lastRoll {
        return false;
      }
      lastRoll, lastFlush, period := now, now, start;
      closed := closed + [File(file.since, file.content)];
      file := new FileApp(now);
      return true;
    }

    method AppendUnlocked(c: Call)
      requires Valid()
      modifies this, file
      ensures Valid() && View() == AfterAppend(g, old(View()), c)
      ensures file == old(file) || fresh(file)
    {
      var r := file.Append(c.rec, c.sizes);
      if file.written > g.rollSize {
        var rolled := RollFile(c.roll);
      } else {
        count := count + 1;
        if count >= g.checkEveryN {
          count := 0;
          var thisPeriod := DayStart(c.check);
          if thisPeriod != period {
            var rolled := RollFile(c.roll);
          } else if c.check - lastFlush > g.flushInterval {
            lastFlush := c.check;
          }
        }
      }
    }
  }
}
