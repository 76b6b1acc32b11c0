/** Runs of the memory log: appends, compactions and Dream runs that complete, fail or are
    refused, in any order and with a crash anywhere. Nothing leaves the log before a completed
    Dream run was shown it. */
module MemoryRuns {
  import opened Transcript
  import opened MemoryLog

  /** Beside the files and the run that holds the lock: every record ever appended, and the
      batches of the completed runs, one after the other. */
  datatype State = State(
    limit: int,
    files: Files,
    run: Option<seq<Line>>,
    ever: seq<Line>,
    offered: seq<Line>)

  function Initial(limit: int): State {
    State(limit, Files([], None, Missing), None, [], [])
  }

  datatype Action =
    | Append(content: string, stamp: string, readable: bool)
    | AppendCut(content: string, stamp: string, readable: bool, counted: bool) // the process dies in it
    | LoseCounter                    // the counter file is gone, or does not hold a number
    | Unparsable(line: Line)         // something else wrote a line
    | TouchCursor                    // the empty file that version control starts from
    | SpoilCursor                    // the Dream cursor file is overwritten with something else
    | BeginDream
    | CompleteDream
    | FailDream
    | Compact                        // what a Dream run does when it ends
    | Die                            // the process dies, and the lock with it

  function Written(s: State, content: string, stamp: string, readable: bool, counted: bool): State {
    var record := Record(Some(NextCursor(s.files, readable)), true, stamp, content);
    s.(files := s.files.(lines := s.files.lines + [record],
                         counter := if counted then record.cursor else s.files.counter),
       ever := s.ever + [record])
  }

  function OrElse(f: Option<Files>, g: Files): Files { if f.Some? then f.value else g }

  predicate Enabled(s: State, a: Action) {
    match a
    case Unparsable(line) => !line.Record?
    case TouchCursor => s.files.dream.Missing?
    case CompleteDream => s.run.Some?
    case FailDream => s.run.Some?
    case Compact => s.limit > 0
    case _ => true
  }

  function BatchSize(entries: seq<Line>, n: nat): (size: nat)
    requires forall e :: e in entries ==> e.Record?
    requires n <= DREAM_MAX_ENTRIES && n <= |entries|
    requires n > 1 ==> TotalShown(entries[..n]) <= DREAM_HISTORY_SECTION_CAP
    ensures BatchOf(entries, DREAM_MAX_ENTRIES, size)
    decreases |entries| - n
  {
    if n < DREAM_MAX_ENTRIES && n < |entries|
       && (n == 0 || TotalShown(entries[..n + 1]) <= DREAM_HISTORY_SECTION_CAP)
    then BatchSize(entries, n + 1)
    else n
  }

  /** What the next run is shown; nothing when the cursor cannot be read. */
  function NextBatch(f: Files): seq<Line> {
    match DreamCursor(f.dream)
    case None => []
    case Some(done) =>
      var entries := Unprocessed(f.lines, done);
      entries[..BatchSize(entries, 0)]
  }

  function Cursor(l: Line): nat { if Numbered(l) then l.cursor.value else 0 }

  function After(s: State, a: Action): State
    requires Enabled(s, a)
  {
    match a
    case Append(content, stamp, readable) =>
      var t := Written(s, content, stamp, readable, true);
      t.(files := OrElse(IfOverBand(t.files, s.limit), t.files))
    case AppendCut(content, stamp, readable, counted) => Written(s, content, stamp, readable, counted).(run := None)
    case LoseCounter => s.(files := s.files.(counter := None))
    case Unparsable(line) => s.(files := s.files.(lines := s.files.lines + [line]))
    case TouchCursor => s.(files := s.files.(dream := Empty))
    case SpoilCursor => s.(files := s.files.(dream := Garbled))
    case BeginDream =>
      if s.run.Some? || NextBatch(s.files) == [] then s
      else s.(run := Some(NextBatch(s.files)))
    case CompleteDream =>
      var batch := s.run.value;
      if batch == [] then s.(run := None)
      else s.(files := s.files.(dream := Holds(Cursor(batch[|batch| - 1]))), run := None, offered := s.offered + batch)
    case FailDream => s.(run := None)
    case Compact => s.(files := OrElse(Compacted(s.files, s.limit), s.files))
    case Die => s.(run := None)
  }

  // ---------------------------------------------------------------- the invariant

  /** The n-th record ever appended has cursor n, so no cursor is used twice. */
  ghost predicate Numbering(ever: seq<Line>) {
    forall i :: 0 <= i < |ever| ==> Valid(ever[i]) && ever[i].cursor == Some(i + 1)
  }

  /** The file holds the last records: all the unprocessed ones, and at least the newest. */
  ghost predicate HoldsTail(lines: seq<Line>, ever: seq<Line>, done: nat) {
    TailOf(Parsed(lines), ever, done)
  }

  ghost predicate TailOf(kept: seq<Line>, ever: seq<Line>, done: nat) {
    && |kept| <= |ever| && kept == ever[|ever| - |kept|..]
    && |ever| - |kept| <= done <= |ever|
    && (ever != [] ==> kept != [])
  }

  /** The run was shown the next records after those of the completed runs. */
  ghost predicate RunIsNext(ever: seq<Line>, done: nat, batch: seq<Line>) {
    |batch| > 0 && done + |batch| <= |ever| && batch == ever[done..done + |batch|]
  }

  ghost predicate CursorsOk(f: Files, top: nat, done: nat) {
    && (f.counter.Some? ==> f.counter.value <= top)
    && (f.dream.Garbled? || DreamCursor(f.dream) == Some(done))
  }

  ghost predicate Inv(s: State) {
    && Numbering(s.ever)
    && HoldsTail(s.files.lines, s.ever, |s.offered|)
    && CursorsOk(s.files, |s.ever|, |s.offered|)
    && s.offered == s.ever[..|s.offered|]
    && (s.run.Some? ==> RunIsNext(s.ever, |s.offered|, s.run.value))
  }

  // ---------------------------------------------------------------- cursors

  lemma {:induction false} ParsedAppend(a: seq<Line>, b: seq<Line>)
    ensures Parsed(a + b) == Parsed(a) + Parsed(b)
  {
    if a == [] {
      assert a + b == b;
    } else {
      ParsedAppend(a[1..], b);
      assert (a + b)[1..] == a[1..] + b;
      if a[0].Record? { Regroup([a[0]], Parsed(a[1..]), Parsed(b)); }
    }
  }

  lemma {:induction false} ParsedRecords(records: seq<Line>)
    requires forall l :: l in records ==> l.Record?
    ensures Parsed(records) == records
  {
    if records != [] { ParsedRecords(records[1..]); }
  }

  lemma {:induction false} MaxOfParsed(lines: seq<Line>)
    ensures MaxCursor(lines) == MaxCursor(Parsed(lines))
  {
    if lines != [] {
      MaxOfParsed(lines[1..]);
      if lines[0].Record? {
        assert Parsed(lines)[1..] == Parsed(lines[1..]);
      }
    }
  }

  lemma {:induction false} MaxOfTail(ever: seq<Line>, k: nat)
    requires Numbering(ever) && k <= |ever|
    ensures MaxCursor(ever[k..]) == if k < |ever| then |ever| else 0
    decreases |ever| - k
  {
    if k < |ever| {
      MaxOfTail(ever, k + 1);
      assert ever[k..][1..] == ever[k + 1..];
      assert ever[k..][0] == ever[k];
    }
  }

  /** The tail, when it reads at all, holds the newest record. */
  lemma {:induction false} TailIsNewest(lines: seq<Line>, ever: seq<Line>, readable: bool)
    requires Numbering(ever) && |Parsed(lines)| <= |ever| && Parsed(lines) == ever[|ever| - |Parsed(lines)|..]
    ensures TailCursor(lines, readable).Some? ==> TailCursor(lines, readable).value == |ever|
  {
    if lines != [] && readable {
      var n := |lines| - 1;
      ParsedAppend(lines[..n], [lines[n]]);
      assert lines[..n] + [lines[n]] == lines;
      if lines[n].Blank? {
        assert Parsed([lines[n]]) == [];
        TailIsNewest(lines[..n], ever, readable);
      } else if lines[n].Record? {
        ParsedRecords([lines[n]]);
        var kept := Parsed(lines);
        assert kept[|kept| - 1] == lines[n];
        assert ever[|ever| - |kept|..][|kept| - 1] == ever[|ever| - 1];
      }
    }
  }

  /** Whatever the counter file and the tail say: the next cursor is one more than the number
      of records ever appended. */
  lemma NextIsFresh(s: State, readable: bool)
    requires Inv(s)
    ensures NextCursor(s.files, readable) == |s.ever| + 1
  {
    var lines := s.files.lines;
    TailIsNewest(lines, s.ever, readable);
    MaxOfParsed(lines);
    MaxOfTail(s.ever, |s.ever| - |Parsed(lines)|);
  }

  // ---------------------------------------------------------------- what is unprocessed

  lemma {:induction false} UnprocessedOfParsed(lines: seq<Line>, done: nat)
    ensures Unprocessed(lines, done) == Unprocessed(Parsed(lines), done)
  {
    if lines != [] {
      UnprocessedOfParsed(lines[1..], done);
      if lines[0].Record? {
        assert Parsed(lines)[1..] == Parsed(lines[1..]);
      }
    }
  }

  lemma {:induction false} UnprocessedOfTail(ever: seq<Line>, k: nat, done: nat)
    requires Numbering(ever) && k <= |ever| && done <= |ever|
    ensures Unprocessed(ever[k..], done) == if k <= done then ever[done..] else ever[k..]
    decreases |ever| - k
  {
    if k < |ever| {
      assert ever[k..][1..] == ever[k + 1..] && ever[k..][0] == ever[k];
      UnprocessedOfTail(ever, k + 1, done);
      if k >= done { assert [ever[k]] + ever[k + 1..] == ever[k..]; }
    }
  }

  /** The records a Dream run has still to be shown. */
  function Backlog(s: State): seq<Line> { Unprocessed(s.files.lines, |s.offered|) }

  lemma UnprocessedIsTheRest(s: State)
    requires Inv(s)
    ensures Unprocessed(s.files.lines, |s.offered|) == s.ever[|s.offered|..]
  {
    UnprocessedOfParsed(s.files.lines, |s.offered|);
    UnprocessedOfTail(s.ever, |s.ever| - |Parsed(s.files.lines)|, |s.offered|);
  }

  // ---------------------------------------------------------------- one step

  lemma AppendTail(lines: seq<Line>, ever: seq<Line>, done: nat, line: Line)
    requires HoldsTail(lines, ever, done)
    ensures line.Record? ==> HoldsTail(lines + [line], ever + [line], done)
    ensures !line.Record? ==> HoldsTail(lines + [line], ever, done)
  {
    ParsedAppend(lines, [line]);
    assert [line][1..] == [];
    var kept := Parsed(lines);
    if line.Record? {
      assert Parsed([line]) == [line];
      assert (ever + [line])[|ever| - |kept|..] == ever[|ever| - |kept|..] + [line];
    } else {
      assert Parsed([line]) == [] && kept + [] == kept;
    }
  }

  lemma EverGrows(ever: seq<Line>, offered: seq<Line>, record: Line)
    requires Numbering(ever) && Valid(record) && record.cursor == Some(|ever| + 1)
    requires |offered| <= |ever| && offered == ever[..|offered|]
    ensures Numbering(ever + [record]) && offered == (ever + [record])[..|offered|]
  {
  }

  lemma RunStaysNext(ever: seq<Line>, done: nat, batch: seq<Line>, record: Line)
    requires RunIsNext(ever, done, batch)
    ensures RunIsNext(ever + [record], done, batch)
  {
    assert (ever + [record])[done..done + |batch|] == ever[done..done + |batch|];
  }

  lemma WrittenKeepsInv(s: State, content: string, stamp: string, readable: bool, counted: bool)
    requires Inv(s)
    ensures Inv(Written(s, content, stamp, readable, counted))
  {
    NextIsFresh(s, readable);
    var record := Record(Some(NextCursor(s.files, readable)), true, stamp, content);
    AppendTail(s.files.lines, s.ever, |s.offered|, record);
    EverGrows(s.ever, s.offered, record);
    if s.run.Some? { RunStaysNext(s.ever, |s.offered|, s.run.value, record); }
  }

  lemma FirstOfTail(ever: seq<Line>, k: nat, done: nat)
    requires Numbering(ever) && k <= done <= |ever|
    ensures FirstUnprocessed(ever[k..], done) == done - k
  {
    var i := FirstUnprocessed(ever[k..], done);
    assert forall j :: 0 <= j < |ever| - k ==> ever[k..][j] == ever[k + j];
    if done < |ever| {
      assert ever[k..][done - k] == ever[done];
    }
  }

  lemma TailShrinks(kept: seq<Line>, ever: seq<Line>, limit: nat, done: nat)
    requires Numbering(ever) && TailOf(kept, ever, done) && 0 < limit < |kept|
    ensures TailOf(Kept(kept, limit, done), ever, done)
  {
    var k := |ever| - |kept|;
    FirstOfTail(ever, k, done);
    var drop := if |kept| - limit <= done - k then |kept| - limit else done - k;
    assert kept[drop..] == ever[k + drop..];
  }

  lemma KeptRecords(kept: seq<Line>, limit: nat, done: nat)
    requires |kept| > limit && forall l :: l in kept ==> l.Record?
    ensures Parsed(Kept(kept, limit, done)) == Kept(kept, limit, done)
  {
    var rest := Kept(kept, limit, done);
    assert forall l :: l in rest ==> l in kept;
    ParsedRecords(rest);
  }

  lemma CompactedTail(lines: seq<Line>, ever: seq<Line>, limit: nat, done: nat)
    requires Numbering(ever) && HoldsTail(lines, ever, done) && limit > 0 && |Parsed(lines)| > limit
    ensures HoldsTail(Kept(Parsed(lines), limit, done), ever, done)
  {
    TailShrinks(Parsed(lines), ever, limit, done);
    KeptRecords(Parsed(lines), limit, done);
  }

  lemma CompactKeepsInv(s: State)
    requires Inv(s) && s.limit > 0
    ensures Inv(s.(files := OrElse(Compacted(s.files, s.limit), s.files)))
  {
    var lines := s.files.lines;
    if |Parsed(lines)| > s.limit && !s.files.dream.Garbled? {
      var kept := Kept(Parsed(lines), s.limit, |s.offered|);
      CompactedTail(lines, s.ever, s.limit, |s.offered|);
      assert Compacted(s.files, s.limit) == Some(s.files.(lines := kept));
    } else {
      assert OrElse(Compacted(s.files, s.limit), s.files) == s.files;
    }
  }

  lemma BeginKeepsInv(s: State)
    requires Inv(s)
    ensures Inv(After(s, BeginDream))
  {
    if s.run.None? && NextBatch(s.files) != [] {
      UnprocessedIsTheRest(s);
      var n := |NextBatch(s.files)|;
      assert s.ever[|s.offered|..][..n] == s.ever[|s.offered|..|s.offered| + n];
    }
  }

  lemma OfferedGrows(ever: seq<Line>, n: nat, batch: seq<Line>)
    requires Numbering(ever) && RunIsNext(ever, n, batch)
    ensures ever[..n] + batch == ever[..n + |batch|]
    ensures Cursor(batch[|batch| - 1]) == n + |batch|
  {
    assert batch[|batch| - 1] == ever[n + |batch| - 1];
  }

  lemma CompleteKeepsInv(s: State)
    requires Inv(s) && Enabled(s, CompleteDream)
    ensures Inv(After(s, CompleteDream))
  {
    OfferedGrows(s.ever, |s.offered|, s.run.value);
  }

  lemma AppendKeepsInv(s: State, content: string, stamp: string, readable: bool)
    requires Inv(s)
    ensures Inv(After(s, Append(content, stamp, readable)))
  {
    WrittenKeepsInv(s, content, stamp, readable, true);
    var t := Written(s, content, stamp, readable, true);
    if s.limit > 0 && |t.files.lines| > Band(s.limit) {
      CompactKeepsInv(t);
    }
  }

  lemma OtherKeepsInv(s: State, a: Action)
    requires Inv(s) && Enabled(s, a)
    requires a.LoseCounter? || a.TouchCursor? || a.SpoilCursor? || a.FailDream? || a.Die?
    ensures Inv(After(s, a))
  {
  }

  lemma UnparsableKeepsInv(s: State, line: Line)
    requires Inv(s) && !line.Record?
    ensures Inv(After(s, Unparsable(line)))
  {
    AppendTail(s.files.lines, s.ever, |s.offered|, line);
  }

  lemma StepKeepsInv(s: State, a: Action)
    requires Inv(s) && Enabled(s, a)
    ensures Inv(After(s, a))
  {
    match a
    case Append(content, stamp, readable) => AppendKeepsInv(s, content, stamp, readable);
    case AppendCut(content, stamp, readable, counted) => WrittenKeepsInv(s, content, stamp, readable, counted);
    case Unparsable(line) => UnparsableKeepsInv(s, line);
    case BeginDream => BeginKeepsInv(s);
    case CompleteDream => CompleteKeepsInv(s);
    case Compact => CompactKeepsInv(s);
    case _ => OtherKeepsInv(s, a);
  }

  // ---------------------------------------------------------------- the guarantees

  ghost predicate Leads(s: State, actions: seq<Action>, t: State)
    decreases |actions|
  {
    if actions == [] then t == s
    else Enabled(s, actions[0]) && Leads(After(s, actions[0]), actions[1..], t)
  }

  lemma {:induction false} LeadsOn(s: State, actions: seq<Action>, t: State, a: Action)
    requires Leads(s, actions, t) && Enabled(t, a)
    ensures Leads(s, actions + [a], After(t, a))
    decreases |actions|
  {
    if actions == [] {
      assert [] + [a] == [a] && [a][1..] == [];
    } else {
      LeadsOn(After(s, actions[0]), actions[1..], t, a);
      assert (actions + [a])[1..] == actions[1..] + [a];
    }
  }

  lemma {:induction false} RunKeepsInv(s: State, actions: seq<Action>, t: State)
    requires Inv(s) && Leads(s, actions, t)
    ensures Inv(t)
    decreases |actions|
  {
    if actions != [] {
      StepKeepsInv(s, actions[0]);
      RunKeepsInv(After(s, actions[0]), actions[1..], t);
    }
  }

  lemma StartsInv(limit: int)
    ensures Inv(Initial(limit))
  {
  }

  /** The completed runs were shown, in order and once each, exactly the records up to the
      Dream cursor; and all later ones are still in the file. */
  lemma NothingLeavesUnseen(limit: int, actions: seq<Action>, s: State)
    requires Leads(Initial(limit), actions, s)
    ensures |s.offered| <= |s.ever| && s.offered + Unprocessed(s.files.lines, |s.offered|) == s.ever
    ensures s.files.dream.Garbled? || DreamCursor(s.files.dream) == Some(|s.offered|)
    ensures forall l :: l in s.ever ==> l in s.files.lines || l in s.offered
  {
    StartsInv(limit);
    RunKeepsInv(Initial(limit), actions, s);
    InvKeepsAll(s);
  }

  lemma InvKeepsAll(s: State)
    requires Inv(s)
    ensures s.offered + Unprocessed(s.files.lines, |s.offered|) == s.ever
    ensures forall l :: l in s.ever ==> l in s.files.lines || l in s.offered
  {
    var done := |s.offered|;
    UnprocessedIsTheRest(s);
    var rest := Unprocessed(s.files.lines, done);
    assert s.ever[..done] + s.ever[done..] == s.ever;
    forall l | l in s.ever && l !in s.offered ensures l in s.files.lines {
      assert l in s.offered + rest;
      UnprocessedIsThere(s.files.lines, done, l);
    }
  }

  lemma {:induction false} UnprocessedIsThere(lines: seq<Line>, done: nat, l: Line)
    requires l in Unprocessed(lines, done)
    ensures l in lines
  {
    if l != lines[0] { UnprocessedIsThere(lines[1..], done, l); }
  }

  /** Cursors are never used twice, and the file stays strictly increasing. */
  lemma CursorsIncrease(limit: int, actions: seq<Action>, s: State, i: nat, j: nat)
    requires Leads(Initial(limit), actions, s) && i < j
    ensures j < |s.ever| ==> Cursor(s.ever[i]) < Cursor(s.ever[j])
    ensures j < |Parsed(s.files.lines)| ==> Cursor(Parsed(s.files.lines)[i]) < Cursor(Parsed(s.files.lines)[j])
    ensures forall readable, l :: l in s.ever ==> Cursor(l) < NextCursor(s.files, readable)
  {
    StartsInv(limit);
    RunKeepsInv(Initial(limit), actions, s);
    var kept := Parsed(s.files.lines);
    var k := |s.ever| - |kept|;
    if j < |kept| { assert kept[i] == s.ever[k + i] && kept[j] == s.ever[k + j]; }
    forall readable: bool { NextIsFresh(s, readable); }
  }

  /** No step takes the Dream cursor back. */
  lemma CursorNeverGoesBack(s: State, a: Action)
    requires Inv(s) && Enabled(s, a)
    requires !s.files.dream.Garbled? && !After(s, a).files.dream.Garbled?
    ensures DreamCursor(After(s, a).files.dream).value >= DreamCursor(s.files.dream).value
    ensures DreamCursor(After(s, a).files.dream).value > DreamCursor(s.files.dream).value <==> a.CompleteDream?
  {
    if a.CompleteDream? { OfferedGrows(s.ever, |s.offered|, s.run.value); }
  }

  lemma Split(ever: seq<Line>, n: nat, m: nat)
    requires n <= m <= |ever|
    ensures ever[n..] == ever[n..m] + ever[m..]
  {
  }

  lemma AfterComplete(s: State)
    requires Inv(s) && Enabled(s, CompleteDream)
    ensures var t := After(s, CompleteDream);
      t.files.lines == s.files.lines && t.ever == s.ever && |t.offered| == |s.offered| + |s.run.value|
  {
  }

  /** A completed run takes its batch, which is not empty, off the front of the backlog. */
  lemma CompletionShrinksBacklog(s: State)
    requires Inv(s) && Enabled(s, CompleteDream)
    ensures s.run.value != []
    ensures Backlog(s) == s.run.value + Backlog(After(s, CompleteDream))
  {
    AfterComplete(s);
    CompleteKeepsInv(s);
    UnprocessedIsTheRest(s);
    UnprocessedIsTheRest(After(s, CompleteDream));
    Split(s.ever, |s.offered|, |s.offered| + |s.run.value|);
  }

  /** A run that is refused, or that fails, leaves the files as they are. */
  lemma OnlyCompletionCommits(s: State, a: Action)
    requires Enabled(s, a) && (a.FailDream? || a.Die? || a.BeginDream?)
    ensures After(s, a).files == s.files && After(s, a).offered == s.offered
    ensures a.BeginDream? && s.run.Some? ==> After(s, a) == s
  {
  }

  // ---------------------------------------------------------------- the band

  lemma PendingIsBacklog(s: State)
    requires Inv(s) && !s.files.dream.Garbled?
    ensures Pending(s.files) == |Backlog(s)|
  {
    UnprocessedIsTheRest(s);
    FirstOfTail(s.ever, |s.ever| - |Parsed(s.files.lines)|, |s.offered|);
  }

  lemma WrittenGrows(s: State, content: string, stamp: string, readable: bool)
    requires Inv(s)
    ensures var t := Written(s, content, stamp, readable, true);
      |Parsed(t.files.lines)| == |Parsed(s.files.lines)| + 1 && |Backlog(t)| == |Backlog(s)| + 1
  {
    var t := Written(s, content, stamp, readable, true);
    WrittenKeepsInv(s, content, stamp, readable, true);
    UnprocessedIsTheRest(s);
    UnprocessedIsTheRest(t);
    var record := t.ever[|s.ever|];
    ParsedAppend(s.files.lines, [record]);
    ParsedRecords([record]);
  }

  /** The exact condition under which an append leaves the file over its band. */
  ghost predicate StaysOverBand(s: State)
    requires s.limit > 0
  {
    && |s.files.lines| + 1 > Band(s.limit)
    && (|| s.files.dream.Garbled?
        || |Parsed(s.files.lines)| + 1 <= s.limit
        || |Backlog(s)| + 1 > Band(s.limit))
  }

  /** After an append the file is over the band exactly when it was written over the band and the
      Dream cursor does not read, or the records are no more than the limit, or those that Dream has
      still to see exceed the band on their own. */
  lemma OverBandAfterAppendIff(s: State, content: string, stamp: string, readable: bool)
    requires Inv(s) && s.limit > 0
    ensures |After(s, Append(content, stamp, readable)).files.lines| > Band(s.limit) <==> StaysOverBand(s)
  {
    var t := Written(s, content, stamp, readable, true);
    WrittenKeepsInv(s, content, stamp, readable, true);
    WrittenGrows(s, content, stamp, readable);
    if !t.files.dream.Garbled? { PendingIsBacklog(t); }
    OverBandIff(t.files, s.limit);
  }

  /** In the last case the file has become exactly what Dream has still to see. */
  lemma OverBandIsBacklog(s: State, content: string, stamp: string, readable: bool)
    requires Inv(s) && s.limit > 0 && !s.files.dream.Garbled? && |Parsed(s.files.lines)| + 1 > s.limit
    ensures var u := After(s, Append(content, stamp, readable));
      |u.files.lines| > Band(s.limit) ==> u.files.lines == Backlog(u)
  {
    var u := After(s, Append(content, stamp, readable));
    if |u.files.lines| > Band(s.limit) {
      var t := Written(s, content, stamp, readable, true);
      OverBandAfterAppendIff(s, content, stamp, readable);
      WrittenKeepsInv(s, content, stamp, readable, true);
      WrittenGrows(s, content, stamp, readable);
      PendingIsBacklog(t);
      AppendKeepsInv(s, content, stamp, readable);
      KeptIsBacklog(t);
      UnprocessedIsTheRest(u);
    }
  }

  lemma KeptIsBacklog(s: State)
    requires Inv(s) && s.limit > 0 && !s.files.dream.Garbled? && |Backlog(s)| > Band(s.limit)
    ensures |Parsed(s.files.lines)| > s.limit
    ensures Kept(Parsed(s.files.lines), s.limit, |s.offered|) == s.ever[|s.offered|..]
  {
    UnprocessedIsTheRest(s);
    var k := |s.ever| - |Parsed(s.files.lines)|;
    FirstOfTail(s.ever, k, |s.offered|);
    assert s.ever[k..][|s.offered| - k..] == s.ever[|s.offered|..];
  }

  // Each of the three is reached, and each leaves a file of any length.

  /** All lines are records of this log. */
  ghost predicate Piled(s: State, n: nat) {
    |s.files.lines| == n && forall i :: 0 <= i < n ==> Valid(s.files.lines[i]) && Cursor(s.files.lines[i]) > 0
  }

  lemma Pile(s: State, n: nat, content: string, stamp: string)
    requires s.limit > 0 && Piled(s, n) && (s.files.dream.Missing? || s.files.dream.Garbled?)
    ensures var u := After(s, Append(content, stamp, true)); Piled(u, n + 1) && u.files.dream == s.files.dream
  {
    var t := Written(s, content, stamp, true, true);
    assert Piled(t, n + 1);
    ParsedRecords(t.files.lines);
  }

  lemma {:induction false} PileUp(start: State, run: seq<Action>, s: State, n: nat)
    returns (longer: seq<Action>, u: State)
    requires Leads(start, run, s) && s.limit > 0 && Piled(s, 0)
    requires s.files.dream.Missing? || s.files.dream.Garbled?
    ensures Leads(start, longer, u) && Piled(u, n) && u.files.dream == s.files.dream && u.limit == s.limit
  {
    if n == 0 {
      longer, u := run, s;
    } else {
      longer, u := PileUp(start, run, s, n - 1);
      var a := Append("", "", true);
      LeadsOn(start, longer, u, a);
      Pile(u, n - 1, "", "");
      longer, u := longer + [a], After(u, a);
    }
  }

  /** While Dream never runs, the file holds whatever was appended. */
  lemma UnreadLogGrows(limit: nat, n: nat)
    requires limit > 0
    ensures exists run, s :: Leads(Initial(limit), run, s) && !s.files.dream.Garbled? && |s.files.lines| == n
  {
    var run, s := PileUp(Initial(limit), [], Initial(limit), n);
  }

  /** So it does once the Dream cursor does not read. */
  lemma SpoiledLogGrows(limit: nat, n: nat)
    requires limit > 0
    ensures exists run, s :: Leads(Initial(limit), run, s) && s.files.dream.Garbled? && |s.files.lines| == n
  {
    var start := Initial(limit);
    LeadsOn(start, [], start, SpoilCursor);
    var run, s := PileUp(start, [] + [SpoilCursor], After(start, SpoilCursor), n);
  }

  lemma {:induction false} Scribble(limit: nat, n: nat) returns (run: seq<Action>, s: State)
    ensures Leads(Initial(limit), run, s) && |s.files.lines| == n && s.limit == limit
    ensures forall i :: 0 <= i < n ==> s.files.lines[i].Junk?
  {
    run, s := [], Initial(limit);
    if n > 0 {
      run, s := Scribble(limit, n - 1);
      LeadsOn(Initial(limit), run, s, Unparsable(Junk));
      run, s := run + [Unparsable(Junk)], After(s, Unparsable(Junk));
    }
  }

  lemma {:induction false} ParsedJunk(lines: seq<Line>)
    requires forall i :: 0 <= i < |lines| ==> lines[i].Junk?
    ensures Parsed(lines) == []
  {
    if lines != [] { ParsedJunk(lines[1..]); }
  }

  /** And lines that do not parse are never removed while the records are few. */
  lemma UnparsableLogStays(limit: nat, n: nat)
    requires limit > 0
    ensures exists run, s :: Leads(Initial(limit), run, s) && |Parsed(s.files.lines)| == 1 && |s.files.lines| == n + 1
  {
    var run, s := Scribble(limit, n);
    var a := Append("", "", true);
    var t := Written(s, "", "", true, true);
    ParsedJunk(s.files.lines);
    ParsedAppend(s.files.lines, t.ever[|s.ever|..]);
    ParsedRecords(t.ever[|s.ever|..]);
    LeadsOn(Initial(limit), run, s, a);
    assert After(s, a).files.lines == t.files.lines;
  }
}
