/** Everything that reaches the rolling file: the buffers of the logger's back
    end, and the lines that `LOG` sends there at once. `threadFunc` itself makes
    its file the target of every `Logger`, so both go through one `logFile`,
    under that file's mutex, in any order. */
module LogDelivery {
  import opened LogPipeline
  import Log = LogFile

  /** What the kernel and the clock do during one call of `logFile::append`. */
  datatype Timing = Timing(sizes: seq<nat>, check: int, roll: int)

  /** A call: a buffer of the back end, with the records in it, or a line that a
      thread logs directly. */
  datatype Entry = FromBackEnd(recs: seq<string>) | Direct(line: string)

  /** What a file is made of. */
  datatype Item = Record(text: string) | Line(text: string)

  /** The records of each buffer written so far. */
  function Written(events: seq<Event>): (r: seq<seq<string>>)
    requires Execute(events).Some?
    decreases |events|
  {
    if events == [] then []
    else
      var before := events[..|events| - 1];
      var s := Execute(before).value.s;
      Written(before) + if events[|events| - 1].DoWrite? then [s.write[s.phase.written].recs] else []
  }

  function Items(e: Entry): seq<Item> {
    match e
    case FromBackEnd(recs) => seq(|recs|, i requires 0 <= i < |recs| => Record(recs[i]))
    case Direct(line) => [Line(line)]
  }

  function Texts(items: seq<Item>): seq<string> {
    seq(|items|, i requires 0 <= i < |items| => items[i].text)
  }

  /** The bytes of a call, and of a file. */
  function Text(items: seq<Item>): string {
    Log.Concat(Texts(items))
  }

  /** The calls of `logFile::append`. */
  function Calls(entries: seq<Entry>, timings: seq<Timing>): seq<Log.Call>
    requires |entries| == |timings|
  {
    seq(|entries|, i requires 0 <= i < |entries| =>
      Log.Call(Text(Items(entries[i])), timings[i].sizes, timings[i].check, timings[i].roll))
  }

  predicate AllProgress(calls: seq<Log.Call>) {
    forall i :: 0 <= i < |calls| ==> Log.Progresses(calls[i])
  }

  /** The buffers among the calls. */
  function Buffers(entries: seq<Entry>): seq<seq<string>> {
    if entries == [] then []
    else
      var e := entries[|entries| - 1];
      Buffers(entries[..|entries| - 1]) + if e.FromBackEnd? then [e.recs] else []
  }

  /** The direct lines among the calls. */
  function Lines(entries: seq<Entry>): seq<string> {
    if entries == [] then []
    else
      var e := entries[|entries| - 1];
      Lines(entries[..|entries| - 1]) + if e.Direct? then [e.line] else []
  }

  /** Items with the lines taken out, and with the records taken out. */
  function RecordsOf(items: seq<Item>): seq<string> {
    if items == [] then []
    else
      var x := items[|items| - 1];
      RecordsOf(items[..|items| - 1]) + if x.Record? then [x.text] else []
  }

  function LinesOf(items: seq<Item>): seq<string> {
    if items == [] then []
    else
      var x := items[|items| - 1];
      LinesOf(items[..|items| - 1]) + if x.Line? then [x.text] else []
  }

  /** Written buffer by buffer is written record by record. */
  lemma {:induction false} WrittenIsFile(events: seq<Event>)
    requires Execute(events).Some?
    ensures Log.Flatten(Written(events)) == Execute(events).value.s.file
    decreases |events|
  {
    hide Faithful, Append, Collect, Trim, Refill, Log.Flatten;
    if events == [] {
      EmptyFlat<string>();
    } else {
      var before := events[..|events| - 1];
      var e := events[|events| - 1];
      WrittenIsFile(before);
      OneWritten(Execute(before).value, e);
      if e.DoWrite? {
        var s := Execute(before).value.s;
        Log.FlattenSnoc(Written(before), s.write[s.phase.written].recs);
      } else {
        assert Written(before) + [] == Written(before);
      }
    }
  }

  lemma EmptyFlat<T>()
    ensures Log.Flatten<T>([]) == []
  {
  }

  lemma OneWritten(r: Run, e: Event)
    requires Faithful(r) && Enabled(r.s, e)
    ensures Next(r, e).s.file == r.s.file + if e.DoWrite? then r.s.write[r.s.phase.written].recs else []
  {
    hide Inv, Accounts, Pipeline, Select;
  }

  // ---------------------------------------------------------------- through the roller

  /** The items of each file: a call's join the last, a new file starts empty. */
  function Placed(g: Log.Config, start: int, calls: seq<Log.Call>, parts: seq<seq<Item>>): (r: seq<seq<Item>>)
    requires |calls| == |parts|
    ensures r != []
    decreases |calls|
  {
    if calls == [] then [[]]
    else
      var n := |calls| - 1;
      var before := Placed(g, start, calls[..n], parts[..n]);
      var s := Log.Run(g, start, calls[..n]);
      var k := |before| - 1;
      before[..k] + [before[k] + parts[n]] +
      if |Log.AfterAppend(g, s, calls[n]).closed| > |s.closed| then [[]] else []
  }

  /** Each file holds its items, whole and in order. */
  predicate Holds(files: seq<Log.File>, groups: seq<seq<Item>>) {
    && |files| == |groups|
    && forall f :: 0 <= f < |files| ==> files[f].content == Text(groups[f])
  }

  lemma {:induction false} ConcatCat(a: seq<string>, b: seq<string>)
    ensures Log.Concat(a + b) == Log.Concat(a) + Log.Concat(b)
    decreases |b|
  {
    if b == [] {
      assert a + b == a;
    } else {
      var n := |b| - 1;
      assert (a + b)[..|a + b| - 1] == a + b[..n];
      ConcatCat(a, b[..n]);
      assert Log.Concat(a) + (Log.Concat(b[..n]) + b[n]) == (Log.Concat(a) + Log.Concat(b[..n])) + b[n];
    }
  }

  lemma TextCat(a: seq<Item>, b: seq<Item>)
    ensures Text(a + b) == Text(a) + Text(b)
  {
    ConcatCat(Texts(a), Texts(b));
    assert Texts(a + b) == Texts(a) + Texts(b);
  }

  lemma NoText()
    ensures Text([]) == ""
  {
    assert Texts([]) == [];
  }

  lemma HoldsMore(closed: seq<Log.File>, file: Log.File, groups: seq<seq<Item>>, items: seq<Item>, since: int)
    requires groups != [] && Holds(closed + [file], groups)
    ensures var k := |groups| - 1;
            var filled := Log.File(file.since, file.content + Text(items));
            && Holds(closed + [filled], groups[..k] + [groups[k] + items])
            && Holds(closed + [filled, Log.File(since, "")], groups[..k] + [groups[k] + items] + [[]])
  {
    hide Text;
    var k := |groups| - 1;
    assert (closed + [file])[k].content == Text(groups[k]);
    TextCat(groups[k], items);
    NoText();
    assert forall f :: 0 <= f < k ==> (closed + [file])[f] == closed[f];
  }

  lemma WholePiece(c: Log.Call)
    requires Log.Progresses(c)
    ensures Log.Piece(c) == c.rec
  {
  }

  function Parts(entries: seq<Entry>): seq<seq<Item>> {
    seq(|entries|, i requires 0 <= i < |entries| => Items(entries[i]))
  }

  lemma Prefixes(entries: seq<Entry>, timings: seq<Timing>)
    requires |entries| == |timings| > 0
    ensures var n := |entries| - 1;
            && Calls(entries, timings)[..n] == Calls(entries[..n], timings[..n])
            && Calls(entries, timings)[n].rec == Text(Items(entries[n]))
            && Parts(entries)[..n] == Parts(entries[..n]) && Parts(entries)[n] == Items(entries[n])
  {
    hide Items, Text;
  }

  lemma StartHolds(start: int)
    ensures Holds(Log.Files(Log.Start(start)), [[]])
  {
    assert Log.Files(Log.Start(start)) == [Log.File(start, "")];
    NoText();
  }

  lemma {:induction false} PlacedHeld(g: Log.Config, start: int, entries: seq<Entry>, timings: seq<Timing>)
    requires |entries| == |timings| && AllProgress(Calls(entries, timings))
    ensures var calls := Calls(entries, timings);
            Holds(Log.Files(Log.Run(g, start, calls)), Placed(g, start, calls, Parts(entries)))
    decreases |entries|
  {
    hide Log.AfterAppend, Holds, Text, Items, Log.Piece, Log.Progresses;
    var calls := Calls(entries, timings);
    if entries == [] {
      StartHolds(start);
    } else {
      var n := |entries| - 1;
      Prefixes(entries, timings);
      assert AllProgress(calls[..n]);
      PlacedHeld(g, start, entries[..n], timings[..n]);
      var s, c := Log.Run(g, start, calls[..n]), calls[n];
      var before := Placed(g, start, calls[..n], Parts(entries[..n]));
      assert Log.Progresses(c);
      WholePiece(c);
      Log.AppendFiles(g, s, c);
      HoldsMore(s.closed, s.file, before, Items(entries[n]), Log.AfterAppend(g, s, c).lastRoll);
      var filled := before[..|before| - 1] + [before[|before| - 1] + Items(entries[n])];
      assert filled + [] == filled;
    }
  }

  lemma {:induction false} PlacedFlat(g: Log.Config, start: int, calls: seq<Log.Call>, parts: seq<seq<Item>>)
    requires |calls| == |parts|
    ensures Log.Flatten(Placed(g, start, calls, parts)) == Log.Flatten(parts)
    decreases |calls|
  {
    hide Log.AfterAppend, Log.Flatten;
    if calls == [] {
      EmptyFlat<Item>();
      Log.FlattenNothing<Item>();
    } else {
      var n := |calls| - 1;
      var before := Placed(g, start, calls[..n], parts[..n]);
      var k := |before| - 1;
      var items := parts[n];
      PlacedFlat(g, start, calls[..n], parts[..n]);
      Log.FlattenSnoc(parts[..n], items);
      assert parts[..n] + [items] == parts;
      Log.FlattenSnoc(before[..k], before[k]);
      assert before[..k] + [before[k]] == before;
      var filled := before[..k] + [before[k] + items];
      Log.FlattenSnoc(before[..k], before[k] + items);
      Log.FlattenSnoc(filled, []);
      assert filled + [] == filled && Log.Flatten(filled) + [] == Log.Flatten(filled);
      assert (Log.Flatten(before[..k]) + before[k]) + items == Log.Flatten(before[..k]) + (before[k] + items);
    }
  }

  // ---------------------------------------------------------------- telling the two writers apart

  lemma {:induction false} ProjectCat(a: seq<Item>, b: seq<Item>)
    ensures RecordsOf(a + b) == RecordsOf(a) + RecordsOf(b)
    ensures LinesOf(a + b) == LinesOf(a) + LinesOf(b)
    decreases |b|
  {
    if b == [] {
      assert a + b == a;
    } else {
      assert (a + b)[..|a + b| - 1] == a + b[..|b| - 1];
      ProjectCat(a, b[..|b| - 1]);
    }
  }

  lemma {:induction false} ProjectBuffer(recs: seq<string>)
    ensures RecordsOf(Items(FromBackEnd(recs))) == recs && LinesOf(Items(FromBackEnd(recs))) == []
    decreases |recs|
  {
    if recs != [] {
      var n := |recs| - 1;
      ProjectBuffer(recs[..n]);
      assert Items(FromBackEnd(recs))[..n] == Items(FromBackEnd(recs[..n]));
    }
  }

  lemma ProjectEntry(e: Entry)
    ensures RecordsOf(Items(e)) == if e.FromBackEnd? then e.recs else []
    ensures LinesOf(Items(e)) == if e.Direct? then [e.line] else []
  {
    match e {
      case FromBackEnd(recs) => ProjectBuffer(recs);
      case Direct(line) => assert [Line(line)][..0] == [];
    }
  }

  /** Taking the lines out of everything that was written leaves the back end's
      records; taking the records out leaves the lines. */
  lemma {:induction false} Projections(entries: seq<Entry>)
    ensures RecordsOf(Log.Flatten(Parts(entries))) == Log.Flatten(Buffers(entries))
    ensures LinesOf(Log.Flatten(Parts(entries))) == Lines(entries)
    decreases |entries|
  {
    hide Items, RecordsOf, LinesOf, Log.Flatten;
    if entries == [] {
      EmptyFlat<Item>();
      EmptyFlat<string>();
      NoItems();
    } else {
      var n := |entries| - 1;
      var e := entries[n];
      Projections(entries[..n]);
      ProjectEntry(e);
      assert Parts(entries) == Parts(entries[..n]) + [Items(e)];
      Log.FlattenSnoc(Parts(entries[..n]), Items(e));
      ProjectCat(Log.Flatten(Parts(entries[..n])), Items(e));
      if e.FromBackEnd? {
        Log.FlattenSnoc(Buffers(entries[..n]), e.recs);
      } else {
        assert Buffers(entries[..n]) + [] == Buffers(entries[..n]);
      }
    }
  }

  lemma NoItems()
    ensures RecordsOf([]) == [] && LinesOf([]) == []
  {
  }

  // ---------------------------------------------------------------- every run

  /** The files hold `groups` of whole records and whole lines. Their lines are
      `lines`, in order; their records, and with them those still on their way,
      are the records of the history that the ledger has as live, in order. */
  ghost predicate InFiles(files: seq<Log.File>, r: Run, lines: seq<string>, groups: seq<seq<Item>>)
    requires Faithful(r)
  {
    && Holds(files, groups)
    && LinesOf(Log.Flatten(groups)) == lines
    && RecordsOf(Log.Flatten(groups)) + Recs(Unwritten(r.s)) + Front(r.s) == Select(r.ledger.history, r.ledger.live)
  }

  lemma FileInFiles(files: seq<Log.File>, r: Run, lines: seq<string>, groups: seq<seq<Item>>)
    requires Faithful(r) && Holds(files, groups) && LinesOf(Log.Flatten(groups)) == lines
    requires RecordsOf(Log.Flatten(groups)) == r.s.file
    ensures InFiles(files, r, lines, groups)
  {
    hide Holds, Log.Flatten, RecordsOf, LinesOf, Recs, Unwritten, Front, Select, Accounts, Inv;
  }

  /** From `append` and from `LOG` to the disk. In every run of the logger, with
      its buffers and any direct lines written through the rolling file in any
      order, at any times and in any pieces that get on: the files, in opening
      order, hold whole records and whole lines; the lines are the direct ones,
      in order; and the records, with those still on their way, are the appended
      records, in order, at the ledger's live indices, which leave out only what
      an overloaded round dropped or no buffer takes. */
  lemma RecordsReachFiles(events: seq<Event>, g: Log.Config, start: int, entries: seq<Entry>, timings: seq<Timing>)
    requires Execute(events).Some? && Buffers(entries) == Written(events)
    requires |timings| == |entries| && AllProgress(Calls(entries, timings))
    ensures var files := Log.Files(Log.Run(g, start, Calls(entries, timings)));
            exists groups: seq<seq<Item>> :: InFiles(files, Execute(events).value, Lines(entries), groups)
    ensures Execute(events).value.ledger.history == Appended(events)
  {
    hide Holds, Log.Flatten, Log.Run, Log.Files, Placed, Parts, Calls, Written, Buffers, Lines, AllProgress, Faithful, InFiles, Execute;
    var calls := Calls(entries, timings);
    PlacedHeld(g, start, entries, timings);
    SameCount(entries, timings);
    PlacedFlat(g, start, calls, Parts(entries));
    Projections(entries);
    WrittenIsFile(events);
    HistoryIsAppended(events);
    FileInFiles(Log.Files(Log.Run(g, start, calls)), Execute(events).value, Lines(entries), Placed(g, start, calls, Parts(entries)));
  }

  lemma SameCount(entries: seq<Entry>, timings: seq<Timing>)
    requires |entries| == |timings|
    ensures |Calls(entries, timings)| == |entries| && |Parts(entries)| == |entries|
  {
  }
}
