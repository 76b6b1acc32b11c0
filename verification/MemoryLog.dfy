/** The history log: cursor allocation, compaction, and the batch one Dream run is shown.

    A file is a sequence of lines; a write replaces or extends it at once. */
module MemoryLog {
  import opened Transcript

  /** Junk does not parse. A record from elsewhere may lack a cursor or a well-formed payload. */
  datatype Line = Blank | Junk | Record(cursor: Option<int>, wellFormed: bool, stamp: string, content: string)

  datatype CursorFile = Missing | Empty | Garbled | Holds(value: nat)

  datatype Files = Files(lines: seq<Line>, counter: Option<nat>, dream: CursorFile)

  predicate Numbered(l: Line) { l.Record? && l.cursor.Some? && l.cursor.value >= 0 }

  predicate Valid(l: Line) { Numbered(l) && l.wellFormed }

  function Parsed(lines: seq<Line>): (records: seq<Line>)
    ensures |records| <= |lines|
    ensures forall l :: l in records ==> l.Record?
  {
    if lines == [] then []
    else if lines[0].Record? then [lines[0]] + Parsed(lines[1..])
    else Parsed(lines[1..])
  }

  /** None when the file is there and holds no cursor. */
  function DreamCursor(f: CursorFile): Option<nat> {
    match f
    case Missing => Some(0)
    case Empty => Some(0)
    case Garbled => None
    case Holds(v) => Some(v)
  }

  // ---------------------------------------------------------------- cursors

  function MaxCursor(lines: seq<Line>): nat {
    if lines == [] then 0
    else
      var rest := MaxCursor(lines[1..]);
      if Valid(lines[0]) && lines[0].cursor.value > rest then lines[0].cursor.value else rest
  }

  /** The cursor of the last line that is not blank; none if it does not parse, or if the few
      kilobytes read from the end do not hold it whole. */
  function TailCursor(lines: seq<Line>, readable: bool): Option<nat> {
    if lines == [] || !readable then None
    else
      var last := lines[|lines| - 1];
      if last.Blank? then TailCursor(lines[..|lines| - 1], readable)
      else if Numbered(last) then Some(last.cursor.value) else None
  }

  function Max(a: nat, b: nat): nat { if a >= b then a else b }

  function NextCursor(f: Files, readable: bool): nat {
    match TailCursor(f.lines, readable)
    case Some(last) => (if f.counter.Some? then Max(f.counter.value, last) else last) + 1
    case None => (if f.counter.Some? then Max(f.counter.value, MaxCursor(f.lines)) else MaxCursor(f.lines)) + 1
  }

  // ---------------------------------------------------------------- compaction

  function FirstUnprocessed(entries: seq<Line>, done: nat): (i: nat)
    ensures i <= |entries|
    ensures i < |entries| ==> Numbered(entries[i]) && entries[i].cursor.value > done
    ensures forall j :: 0 <= j < i ==> !(Numbered(entries[j]) && entries[j].cursor.value > done)
  {
    if entries == [] || (Numbered(entries[0]) && entries[0].cursor.value > done) then 0
    else 1 + FirstUnprocessed(entries[1..], done)
  }

  function Kept(entries: seq<Line>, limit: nat, done: nat): seq<Line>
    requires |entries| > limit
  {
    var unprocessed := FirstUnprocessed(entries, done);
    entries[if |entries| - limit <= unprocessed then |entries| - limit else unprocessed..]
  }

  function Band(limit: nat): nat { limit + Max(20, limit / 5) }

  /** None when the Dream cursor cannot be read: nothing is written then. */
  function Compacted(f: Files, limit: nat): Option<Files> {
    var entries := Parsed(f.lines);
    if |entries| <= limit then Some(f)
    else
      match DreamCursor(f.dream)
      case None => None
      case Some(done) => Some(f.(lines := Kept(entries, limit, done)))
  }

  function IfOverBand(f: Files, limit: int): Option<Files> {
    if limit <= 0 || |f.lines| <= Band(limit) then Some(f) else Compacted(f, limit)
  }

  /** How many records are not known to be processed. */
  function Pending(f: Files): (n: int) {
    match DreamCursor(f.dream)
    case None => |Parsed(f.lines)|
    case Some(done) => |Parsed(f.lines)| - FirstUnprocessed(Parsed(f.lines), done)
  }

  /** When the file is over the band although it was just to be compacted: the Dream cursor does not
      read, or few of the lines are records, or the unprocessed records alone exceed the band. */
  lemma OverBandIff(f: Files, limit: nat)
    requires limit > 0
    ensures var left := if IfOverBand(f, limit).Some? then IfOverBand(f, limit).value else f;
      |left.lines| > Band(limit) <==>
      && |f.lines| > Band(limit)
      && (DreamCursor(f.dream).None? || |Parsed(f.lines)| <= limit || Pending(f) > Band(limit))
  {
  }

  /** Compaction drops a prefix of the records, and no record beyond the Dream cursor. */
  lemma CompactionDropsOnlyProcessed(f: Files, limit: nat, done: nat)
    requires DreamCursor(f.dream) == Some(done) && |Parsed(f.lines)| > limit
    ensures Compacted(f, limit).Some?
    ensures var lines := Compacted(f, limit).value.lines;
      var entries := Parsed(f.lines);
      && |lines| >= limit && |lines| <= |entries| && lines == entries[|entries| - |lines|..]
      && forall j :: 0 <= j < |entries| - |lines| ==> !(Numbered(entries[j]) && entries[j].cursor.value > done)
  {
  }

  // ---------------------------------------------------------------- what Dream is shown

  const DREAM_ENTRY_CAP := 1_000
  const DREAM_RAW_ENTRY_CAP := 16_000
  const DREAM_HISTORY_SECTION_CAP := 48_000
  const DREAM_MAX_ENTRIES := 20
  const RAW_MARK := "[RAW]"

  function LStrip(s: string): string {
    if s != "" && IsSpace(s[0]) then LStrip(s[1..]) else s
  }

  predicate IsRaw(content: string) { RAW_MARK <= LStrip(content) }

  function EntryCap(content: string): nat {
    if IsRaw(content) then DREAM_RAW_ENTRY_CAP else DREAM_ENTRY_CAP
  }

  function Rendered(e: Line): string
    requires e.Record?
  {
    "[" + e.stamp + "] " + TruncateText(e.content, EntryCap(e.content))
  }

  /** The mark of a raw dump stands here, behind white space at most. */
  predicate MarkedAt(content: string, k: nat) {
    && k + 5 <= |content| && (forall i :: 0 <= i < k ==> IsSpace(content[i])) && content[k..k + 5] == "[RAW]"
  }

  ghost predicate Marked(content: string) { exists k: nat :: MarkedAt(content, k) }

  lemma {:induction false} MarkedIff(content: string)
    ensures IsRaw(content) <==> Marked(content)
  {
    if content != "" && IsSpace(content[0]) {
      MarkedIff(content[1..]);
      MarkedBehind(content);
    } else {
      if RAW_MARK <= content { assert MarkedAt(content, 0); }
      if k: nat :| MarkedAt(content, k) { assert k == 0; }
    }
  }

  lemma MarkedBehind(content: string)
    requires content != "" && IsSpace(content[0])
    ensures Marked(content) <==> Marked(content[1..])
  {
    var rest := content[1..];
    if k: nat :| MarkedAt(rest, k) {
      assert content[k + 1..k + 6] == rest[k..k + 5];
      assert MarkedAt(content, k + 1);
    }
    if k: nat :| MarkedAt(content, k) {
      assert content[k..k + 5][0] == content[k] && !IsSpace('[');
      assert rest[k - 1..k + 4] == content[k..k + 5];
      assert MarkedAt(rest, k - 1);
    }
  }

  /** What Dream is shown of an entry: its time, and its content, which is shortened to 16,000
      characters if it bears the mark of a raw dump, and to 1,000 if not. */
  lemma RenderedIs(e: Line) returns (shown: string)
    requires e.Record?
    ensures Rendered(e) == "[" + e.stamp + "] " + shown
    ensures Shortened(if Marked(e.content) then 16_000 else 1_000, e.content, shown)
  {
    MarkedIff(e.content);
    shown := TruncateText(e.content, EntryCap(e.content));
  }

  /** What is shown tells the content from every other content of its length. */
  ghost predicate ShownWhole(content: string, cap: nat) {
    forall other: string :: |other| == |content| && TruncateText(other, cap) == TruncateText(content, cap) ==>
      other == content
  }

  lemma ShownWholeIff(content: string, cap: nat)
    ensures ShownWhole(content, cap) <==> cap == 0 || |content| <= cap
  {
    if 0 < cap < |content| {
      var last := |content| - 1;
      var other := content[last := if content[last] == 'a' then 'b' else 'a'];
      assert other[..cap] == content[..cap] && other[last] != content[last];
      assert TruncateText(other, cap) == TruncateText(content, cap);
    }
  }

  function TotalShown(entries: seq<Line>): nat
    requires forall e :: e in entries ==> e.Record?
  {
    if entries == [] then 0 else |Rendered(entries[0])| + TotalShown(entries[1..])
  }

  lemma {:induction false} TotalAppend(a: seq<Line>, b: seq<Line>)
    requires forall e :: e in a + b ==> e.Record?
    ensures (forall e :: e in a ==> e.Record?) && (forall e :: e in b ==> e.Record?)
    ensures TotalShown(a + b) == TotalShown(a) + TotalShown(b)
  {
    assert forall e :: e in b ==> e in a + b;
    if a == [] {
      assert a + b == b;
    } else {
      assert (a + b)[1..] == a[1..] + b;
      assert forall e :: e in a ==> e in a + b;
      TotalAppend(a[1..], b);
    }
  }

  /** How many of the entries one run takes: as many as fit the section, but at least one. */
  ghost predicate BatchOf(entries: seq<Line>, most: nat, n: nat)
    requires forall e :: e in entries ==> e.Record?
  {
    && n <= most && n <= |entries|
    && (entries != [] && most > 0 ==> n > 0)
    && (n > 1 ==> TotalShown(entries[..n]) <= DREAM_HISTORY_SECTION_CAP)
    && (n < most && n < |entries| ==> TotalShown(entries[..n + 1]) > DREAM_HISTORY_SECTION_CAP)
  }

  lemma {:induction false} TotalGrows(entries: seq<Line>, m: nat, n: nat)
    requires forall e :: e in entries ==> e.Record?
    requires m <= n <= |entries|
    ensures TotalShown(entries[..m]) <= TotalShown(entries[..n])
  {
    TotalAppend(entries[..m], entries[m..n]);
    assert entries[..m] + entries[m..n] == entries[..n];
  }

  /** The batch is determined: there is one length that fits. */
  lemma BatchIsUnique(entries: seq<Line>, most: nat, m: nat, n: nat)
    requires forall e :: e in entries ==> e.Record?
    requires BatchOf(entries, most, m) && BatchOf(entries, most, n)
    ensures m == n
  {
    if m < n {
      TotalGrows(entries, m + 1, n);
    } else if n < m {
      TotalGrows(entries, n + 1, m);
    }
  }

  function Unprocessed(lines: seq<Line>, done: nat): (entries: seq<Line>)
    ensures forall e :: e in entries ==> Valid(e) && e.cursor.value > done
  {
    if lines == [] then []
    else if Valid(lines[0]) && lines[0].cursor.value > done then [lines[0]] + Unprocessed(lines[1..], done)
    else Unprocessed(lines[1..], done)
  }

  // ---------------------------------------------------------------- the store in place

  class MemoryStore {
    const maxHistoryEntries: int
    var history: seq<Line>
    var counter: Option<nat>
    var dreamCursor: CursorFile

    constructor (maxHistoryEntries: int)
      ensures Disk() == Files([], None, Missing) && this.maxHistoryEntries == maxHistoryEntries
    {
      this.maxHistoryEntries := maxHistoryEntries;
      history, counter, dreamCursor := [], None, Missing;
    }

    function Disk(): Files
      reads this
    {
      Files(history, counter, dreamCursor)
    }

    method ReadTailCursor(readable: bool) returns (last: Option<nat>)
      ensures last == TailCursor(history, readable)
    {
      last := None;
      if !readable { return; }
      var n: nat := |history|;
      assert history[..n] == history;
      while n > 0 && history[n - 1].Blank?
        invariant n <= |history| && TailCursor(history[..n], readable) == TailCursor(history, readable)
      {
        assert history[..n][..n - 1] == history[..n - 1];
        n := n - 1;
      }
      if n > 0 && Numbered(history[n - 1]) {
        last := Some(history[n - 1].cursor.value);
      }
    }

    /** The scan that replaces a tail that does not read. */
    method ScanCursors() returns (top: nat)
      ensures top == MaxCursor(history)
    {
      top := 0;
      var i: nat := |history|;
      while i > 0
        invariant i <= |history| && top == MaxCursor(history[i..])
      {
        i := i - 1;
        assert history[i..][1..] == history[i + 1..];
        if Valid(history[i]) && history[i].cursor.value > top {
          top := history[i].cursor.value;
        }
      }
    }

    method AllocateCursor(readable: bool) returns (cursor: nat)
      ensures cursor == NextCursor(Disk(), readable)
    {
      var last := ReadTailCursor(readable);
      var known;
      match last {
        case Some(c) => known := c;
        case None => known := ScanCursors();
      }
      cursor := (if counter.Some? then Max(counter.value, known) else known) + 1;
    }

    /** One appended entry. It stays when the compaction after it fails. */
    method AppendHistory(content: string, stamp: string, readable: bool) returns (cursor: nat, compacted: bool)
      modifies this`history, this`counter
      ensures cursor == NextCursor(old(Disk()), readable)
      ensures var written := old(Disk()).(
          lines := old(history) + [Record(Some(cursor), true, stamp, content)], counter := Some(cursor));
        && compacted == IfOverBand(written, maxHistoryEntries).Some?
        && Disk() == if compacted then IfOverBand(written, maxHistoryEntries).value else written
    {
      cursor := AllocateCursor(readable);
      history := history + [Record(Some(cursor), true, stamp, content)];
      counter := Some(cursor);
      compacted := CompactIfOverBand();
    }

    method CompactIfOverBand() returns (ok: bool)
      modifies this`history
      ensures ok == IfOverBand(old(Disk()), maxHistoryEntries).Some?
      ensures Disk() == if ok then IfOverBand(old(Disk()), maxHistoryEntries).value else old(Disk())
    {
      if maxHistoryEntries <= 0 || |history| <= maxHistoryEntries + Max(20, maxHistoryEntries / 5) {
        return true;
      }
      ok := CompactHistoryLocked();
    }

    method CompactHistoryLocked() returns (ok: bool)
      requires maxHistoryEntries > 0
      modifies this`history
      ensures ok == Compacted(old(Disk()), maxHistoryEntries).Some?
      ensures Disk() == if ok then Compacted(old(Disk()), maxHistoryEntries).value else old(Disk())
    {
      var entries := Parsed(history);
      if |entries| <= maxHistoryEntries { return true; }
      var done := DreamCursor(dreamCursor);
      if done.None? { return false; }
      var i := 0;
      while i < |entries| && !(Numbered(entries[i]) && entries[i].cursor.value > done.value)
        invariant i <= |entries|
        invariant forall j :: 0 <= j < i ==> !(Numbered(entries[j]) && entries[j].cursor.value > done.value)
      {
        i := i + 1;
      }
      var keepFrom := if |entries| - maxHistoryEntries <= i then |entries| - maxHistoryEntries else i;
      history := entries[keepFrom..];
      ok := true;
    }

    method DreamHistoryBatch(entries: seq<Line>, most: nat) returns (batch: seq<Line>)
      requires forall e :: e in entries ==> e.Record?
      ensures |batch| <= |entries| && batch == entries[..|batch|] && BatchOf(entries, most, |batch|)
    {
      batch := [];
      var used := 0;
      var i := 0;
      while i < most && i < |entries|
        invariant i <= most && i <= |entries| && batch == entries[..i] && used == TotalShown(entries[..i])
        invariant i > 1 ==> used <= DREAM_HISTORY_SECTION_CAP
      {
        var size := |Rendered(entries[i])|;
        assert entries[..i + 1] == entries[..i] + [entries[i]];
        TotalAppend(entries[..i], [entries[i]]);
        assert [entries[i]][1..] == [];
        if batch != [] && used + size > DREAM_HISTORY_SECTION_CAP { return; }
        batch := batch + [entries[i]];
        used := used + size;
        i := i + 1;
      }
    }
  }
}
