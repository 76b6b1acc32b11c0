/** Session consolidation: which messages go into one batch, how a batch becomes summaries or
    a raw dump, and how far the session may forget. Turns may append while a provider works. */
module Consolidation {
  import opened Transcript
  import MemoryLog
  import Windows

  const MAX_CONSOLIDATION_ROUNDS := 5
  const RAW_ARCHIVE_MAX_CHARS := 16_000
  const HISTORY_ENTRY_HARD_CAP := 64_000

  /** What a batch leaves in the history log. */
  datatype Note =
    | Summary(chunk: seq<Message>, text: string)
    | RawPart(part: string, number: nat, total: nat, count: nat)

  datatype Reply = Failed | Answer(text: string, cut: bool)

  /** The estimators, the renderings and the provider are arbitrary. */
  datatype Env = Env(
    tokens: Message -> nat,
    format: seq<Message> -> string,
    scrub: string -> string,
    size: string -> nat,                 // tokens of a rendered chunk
    publicView: Message -> Message,
    budget: int,
    target: int,
    estimate: (nat, seq<Message>, nat) -> int, // the prompt of the session, at some moment
    ask: (nat, seq<Message>) -> Reply,
    delivered: Message -> bool,          // a channel delivered it on its own
    meanwhile: nat -> seq<Message>)      // what turns append during the n-th call

  // ---------------------------------------------------------------- the boundary

  function Tokens(env: Env, ms: seq<Message>): nat {
    if ms == [] then 0 else Tokens(env, ms[..|ms| - 1]) + env.tokens(ms[|ms| - 1])
  }

  predicate Boundary(ms: seq<Message>, start: nat, i: int) {
    start < i < |ms| && ms[i].role == User
  }

  ghost predicate HasBoundary(ms: seq<Message>, start: nat) { exists i :: Boundary(ms, start, i) }

  ghost predicate Frees(env: Env, ms: seq<Message>, start: nat, i: int, need: int) {
    start <= i <= |ms| && Tokens(env, ms[start..i]) >= need
  }

  /** The boundary for a need: the earliest that frees enough, else the last. */
  ghost predicate Chosen(env: Env, ms: seq<Message>, start: nat, need: int, at: int) {
    && Boundary(ms, start, at)
    && (Frees(env, ms, start, at, need) ==>
          forall i :: Boundary(ms, start, i) && i < at ==> !Frees(env, ms, start, i, need))
    && (!Frees(env, ms, start, at, need) ==>
          forall i :: Boundary(ms, start, i) ==> i <= at && !Frees(env, ms, start, i, need))
  }

  /** The batch is what lies before the boundary for the need. */
  ghost predicate IsFirst(env: Env, ms: seq<Message>, start: nat, need: int, batch: seq<Message>) {
    exists end :: Chosen(env, ms, start, need, end) && start <= end <= |ms| && batch == ms[start..end]
  }

  lemma FirstHasBoundary(env: Env, ms: seq<Message>, start: nat, need: int, batch: seq<Message>)
    requires IsFirst(env, ms, start, need, batch)
    ensures HasBoundary(ms, start)
  {
  }

  /** The earliest later user message before which enough tokens lie; else the last later user
      message; none if there is no later user message. */
  method PickConsolidationBoundary(env: Env, ms: seq<Message>, start: nat, need: int)
    returns (at: Option<nat>, removed: nat)
    ensures at.None? <==> need <= 0 || forall i :: !Boundary(ms, start, i)
    ensures at.Some? ==> Boundary(ms, start, at.value) && removed == Tokens(env, ms[start..at.value])
    ensures at.Some? ==> Chosen(env, ms, start, need, at.value)
    ensures at.Some? && removed >= need ==>
      forall i :: Boundary(ms, start, i) && i < at.value ==> !Frees(env, ms, start, i, need)
    ensures at.Some? && removed < need ==>
      forall i :: Boundary(ms, start, i) ==> i <= at.value && !Frees(env, ms, start, i, need)
  {
    at, removed := None, 0;
    if start >= |ms| || need <= 0 { return; }
    var total := 0;
    for idx := start to |ms|
      invariant total == Tokens(env, ms[start..idx])
      invariant at.None? ==> forall i :: Boundary(ms, start, i) ==> i >= idx
      invariant at.Some? ==> Boundary(ms, start, at.value) && at.value < idx
      invariant at.Some? ==> removed == Tokens(env, ms[start..at.value]) && removed < need
      invariant forall i :: Boundary(ms, start, i) && i < idx ==>
        at.Some? && i <= at.value && !Frees(env, ms, start, i, need)
    {
      if idx > start && ms[idx].role == User {
        assert Boundary(ms, start, idx);
        at, removed := Some(idx), total;
        if removed >= need { return; }
      }
      assert ms[start..idx + 1][..idx - start] == ms[start..idx];
      total := total + env.tokens(ms[idx]);
    }
  }

  // ---------------------------------------------------------------- the chunks

  function Concat<T>(parts: seq<seq<T>>): seq<T> {
    if parts == [] then [] else Concat(parts[..|parts| - 1]) + parts[|parts| - 1]
  }

  lemma ConcatOne<T>(parts: seq<seq<T>>, part: seq<T>)
    ensures Concat(parts + [part]) == Concat(parts) + part
  {
    assert (parts + [part])[..|parts|] == parts;
  }

  predicate Fits(env: Env, chunk: seq<Message>) { env.size(env.format(chunk)) <= env.budget }

  /** Each chunk fits, unless it is a single message; and none could have taken the message
      after it. */
  ghost predicate GoodChunks(env: Env, chunks: seq<seq<Message>>) {
    && (forall k :: 0 <= k < |chunks| ==> |chunks[k]| > 0 && (|chunks[k]| == 1 || Fits(env, chunks[k])))
    && (forall k :: 0 < k < |chunks| ==> |chunks[k]| > 0 && !Fits(env, chunks[k - 1] + [chunks[k][0]]))
  }

  /** The finished chunks, and the one being filled. */
  ghost predicate OpenChunks(env: Env, chunks: seq<seq<Message>>, current: seq<Message>) {
    && GoodChunks(env, chunks) && |current| > 0 && (|current| == 1 || Fits(env, current))
    && (chunks != [] ==> !Fits(env, chunks[|chunks| - 1] + [current[0]]))
  }

  lemma GrowChunk(env: Env, chunks: seq<seq<Message>>, current: seq<Message>, m: Message)
    requires current == [] ==> chunks == []
    requires current != [] ==> OpenChunks(env, chunks, current) && Fits(env, current + [m])
    ensures OpenChunks(env, chunks, current + [m])
  {
  }

  lemma OneMoreChunk(env: Env, chunks: seq<seq<Message>>, chunk: seq<Message>)
    requires OpenChunks(env, chunks, chunk)
    ensures GoodChunks(env, chunks + [chunk])
    ensures forall m :: !Fits(env, chunk + [m]) ==> OpenChunks(env, chunks + [chunk], [m])
  {
    var all := chunks + [chunk];
    forall k | 0 < k < |all| ensures |all[k]| > 0 && !Fits(env, all[k - 1] + [all[k][0]]) {
      if k < |chunks| { assert all[k] == chunks[k] && all[k - 1] == chunks[k - 1]; }
    }
  }

  /** The chunks are the messages in order. */
  method ChunksWithinBudget(env: Env, ms: seq<Message>) returns (chunks: seq<seq<Message>>)
    ensures Concat(chunks) == ms
    ensures env.budget <= 0 ==> chunks == [ms]
    ensures env.budget > 0 ==> GoodChunks(env, chunks)
  {
    if env.budget <= 0 {
      ConcatOne([], ms);
      assert [] + [ms] == [ms] && [] + ms == ms;
      return [ms];
    }
    chunks := [];
    var current: seq<Message> := [];
    for i := 0 to |ms|
      invariant Concat(chunks) + current == ms[..i]
      invariant i > 0 || (chunks == [] && current == [])
      invariant i > 0 ==> OpenChunks(env, chunks, current)
    {
      assert ms[..i + 1] == ms[..i] + [ms[i]];
      var candidate := current + [ms[i]];
      if current != [] && !Fits(env, candidate) {
        ConcatOne(chunks, current);
        OneMoreChunk(env, chunks, current);
        chunks := chunks + [current];
        current := [ms[i]];
      } else {
        GrowChunk(env, chunks, current, ms[i]);
        Regroup(Concat(chunks), current, [ms[i]]);
        current := candidate;
      }
    }
    assert ms[..|ms|] == ms;
    if current != [] {
      ConcatOne(chunks, current);
      OneMoreChunk(env, chunks, current);
      chunks := chunks + [current];
    }
  }

  // ---------------------------------------------------------------- the raw dump

  lemma {:induction false} ConcatFront<T>(part: seq<T>, parts: seq<seq<T>>)
    ensures Concat([part] + parts) == part + Concat(parts)
  {
    if parts == [] {
      assert [part] + parts == [] + [part];
      ConcatOne([], part);
    } else {
      var n := |parts| - 1;
      ConcatFront(part, parts[..n]);
      assert [part] + parts == ([part] + parts[..n]) + [parts[n]];
      ConcatOne([part] + parts[..n], parts[n]);
      Regroup(part, Concat(parts[..n]), parts[n]);
    }
  }

  /** The text cut into parts of this size; one empty part for an empty text. */
  function RawParts(text: string, size: nat): (parts: seq<string>)
    requires size > 0
    ensures |parts| > 0
  {
    if |text| <= size then [text] else [text[..size]] + RawParts(text[size..], size)
  }

  lemma {:induction false} RawPartsAreTheText(text: string, size: nat)
    requires size > 0
    ensures Concat(RawParts(text, size)) == text
  {
    if |text| <= size {
      ConcatOne([], text);
      assert [] + [text] == [text];
    } else {
      RawPartsAreTheText(text[size..], size);
      ConcatFront(text[..size], RawParts(text[size..], size));
    }
  }

  /** All parts but the last are full; none is empty unless the text is. */
  ghost predicate FullParts(parts: seq<string>, size: nat) {
    && (forall i :: 0 <= i < |parts| - 1 ==> |parts[i]| == size)
    && (forall i :: 0 <= i < |parts| ==> |parts[i]| <= size)
  }

  lemma {:induction false} RawPartsAreFull(text: string, size: nat)
    requires size > 0
    ensures var parts := RawParts(text, size);
      FullParts(parts, size) && (text != "" ==> parts[|parts| - 1] != "")
  {
    if |text| > size {
      var rest := RawParts(text[size..], size);
      RawPartsAreFull(text[size..], size);
      assert RawParts(text, size) == [text[..size]] + rest;
    }
  }

  function Min(a: nat, b: nat): nat { if a <= b then a else b }

  function ChunkSize(limit: int): (size: nat)
    ensures 0 < size <= HISTORY_ENTRY_HARD_CAP - 1_000
  {
    Min(if limit >= 1 then limit else 1, HISTORY_ENTRY_HARD_CAP - 1_000)
  }

  function Public(env: Env, ms: seq<Message>): seq<Message> {
    seq(|ms|, i requires 0 <= i < |ms| => env.publicView(ms[i]))
  }

  function Dump(env: Env, batch: seq<Message>): string { env.scrub(env.format(Public(env, batch))) }

  function RawNotes(env: Env, batch: seq<Message>): (notes: seq<Note>) {
    var parts := RawParts(Dump(env, batch), ChunkSize(RAW_ARCHIVE_MAX_CHARS));
    seq(|parts|, i requires 0 <= i < |parts| => RawPart(parts[i], i + 1, |parts|, |batch|))
  }

  function Texts(notes: seq<Note>): seq<string>
    requires forall n :: n in notes ==> n.RawPart?
  {
    seq(|notes|, i requires 0 <= i < |notes| => notes[i].part)
  }

  /** The messages as anybody may see them. */
  ghost predicate Views(env: Env, ms: seq<Message>, shown: seq<Message>) {
    |shown| == |ms| && forall i :: 0 <= i < |ms| ==> shown[i] == env.publicView(ms[i])
  }

  /** The k-th part of so many, of a dump of this many messages. */
  ghost predicate IsPart(n: Note, k: nat, total: nat, count: nat) {
    n.RawPart? && |n.part| <= 16_000 && n.number == k + 1 && n.total == total && n.count == count
  }

  /** The raw notes of a batch hold, in order and within the bound, the whole of what anybody may see of
      it, scrubbed before it was cut. */
  lemma RawNotesHoldTheDump(env: Env, batch: seq<Message>, shown: seq<Message>)
    requires Views(env, batch, shown)
    ensures var notes := RawNotes(env, batch);
      && (forall k :: 0 <= k < |notes| ==> IsPart(notes[k], k, |notes|, |batch|))
      && Concat(Texts(notes)) == env.scrub(env.format(shown))
  {
    assert shown == Public(env, batch);
    var parts := RawParts(Dump(env, batch), ChunkSize(RAW_ARCHIVE_MAX_CHARS));
    RawPartsAreTheText(Dump(env, batch), ChunkSize(RAW_ARCHIVE_MAX_CHARS));
    RawPartsAreFull(Dump(env, batch), ChunkSize(RAW_ARCHIVE_MAX_CHARS));
    assert Texts(RawNotes(env, batch)) == parts;
  }

  function Digits(n: nat): string {
    var last := ["0123456789"[n % 10]];
    if n < 10 then last else Digits(n / 10) + last
  }

  function RawContent(n: Note): string
    requires n.RawPart?
  {
    RawHeader(n) + n.part
  }

  function RawHeader(n: Note): string
    requires n.RawPart?
  {
    "[RAW] " + Digits(n.count) + " messages" +
    (if n.total > 1 then " (part " + Digits(n.number) + "/" + Digits(n.total) + ")" else "") + "\n"
  }

  /** Dream is shown a raw entry whole exactly when header and part together stay within the
      bound that the part alone is cut to. So a part that is full is shown in part only. */
  lemma RawEntryShownIff(n: Note)
    requires n.RawPart?
    ensures MemoryLog.EntryCap(RawContent(n)) == MemoryLog.DREAM_RAW_ENTRY_CAP
    ensures MemoryLog.ShownWhole(RawContent(n), MemoryLog.EntryCap(RawContent(n)))
      <==> |RawHeader(n)| + |n.part| <= RAW_ARCHIVE_MAX_CHARS
    ensures |n.part| == RAW_ARCHIVE_MAX_CHARS ==>
      !MemoryLog.ShownWhole(RawContent(n), MemoryLog.EntryCap(RawContent(n)))
  {
    var content := RawContent(n);
    assert content[..5] == "[RAW]";
    assert MemoryLog.LStrip(content) == content;
    MemoryLog.ShownWholeIff(content, MemoryLog.DREAM_RAW_ENTRY_CAP);
  }

  // ---------------------------------------------------------------- the batch

  function Chunks(notes: seq<Note>): seq<seq<Message>>
    requires forall n :: n in notes ==> n.Summary?
  {
    seq(|notes|, i requires 0 <= i < |notes| => notes[i].chunk)
  }

  ghost predicate Summaries(notes: seq<Note>, chunks: seq<seq<Message>>) {
    |notes| == |chunks| && forall k :: 0 <= k < |notes| ==> notes[k].Summary? && notes[k].chunk == chunks[k]
  }

  lemma OneMoreSummary(notes: seq<Note>, chunks: seq<seq<Message>>, note: Note)
    requires Summaries(notes, chunks) && note.Summary?
    ensures Summaries(notes + [note], chunks + [note.chunk])
  {
  }

  lemma SummariesCover(notes: seq<Note>, chunks: seq<seq<Message>>)
    requires Summaries(notes, chunks)
    ensures (forall n :: n in notes ==> n.Summary?) && Chunks(notes) == chunks
  {
  }

  /** The notes are summaries of chunks that make up the batch. */
  ghost predicate Summarized(env: Env, notes: seq<Note>, batch: seq<Message>) {
    (forall n :: n in notes ==> n.Summary?) && Views(env, batch, Concat(Chunks(notes)))
  }

  /** The notes end with a raw dump of the whole batch. */
  ghost predicate Dumped(env: Env, notes: seq<Note>, batch: seq<Message>) {
    var raw := RawNotes(env, batch);
    |raw| <= |notes| && notes[|notes| - |raw|..] == raw
  }

  predicate Completes(r: Reply) { r.Answer? && !r.cut }

  predicate IsSummary(n: Note, chunk: seq<Message>, r: Reply) {
    Completes(r) && n == Summary(chunk, if r.text == "" then "[no summary]" else r.text)
  }

  /** Chunk after chunk is asked for. The first k were answered, and each has its summary; if there are
      more, the next was not, and the dump of the whole batch follows. */
  ghost predicate Archived(env: Env, asked: nat, chunks: seq<seq<Message>>, k: nat, notes: seq<Note>, batch: seq<Message>) {
    && k <= |chunks| && k <= |notes|
    && (forall j :: 0 <= j < k ==> IsSummary(notes[j], chunks[j], env.ask(asked + j, chunks[j])))
    && (if k == |chunks| then |notes| == k
        else !Completes(env.ask(asked + k, chunks[k])) && notes[k..] == RawNotes(env, batch))
  }

  ghost predicate Covers(env: Env, notes: seq<Note>, batch: seq<Message>) {
    batch != [] && (Summarized(env, notes, batch) || Dumped(env, notes, batch))
  }

  lemma DumpedTail(env: Env, notes: seq<Note>, batch: seq<Message>)
    ensures Dumped(env, notes + RawNotes(env, batch), batch)
  {
  }

  /** How much of the tail the replay does not show: up to where the window opens; nothing exactly when
      the tail is within the limit or shown whole. What is shown is legal on its own. */
  ghost predicate Hides(env: Env, tail: seq<Message>, replayMax: int, first: nat) {
    && (first == 0 <==> replayMax <= 0 || |tail| <= replayMax
                        || Windows.VisibleFrom(tail, replayMax, Delivered(env, tail), 0))
    && (first > 0 ==> first <= |tail| && Windows.VisibleFrom(tail, replayMax, Delivered(env, tail), first))
    && (first > 0 ==> first <= |tail| && Windows.LegalFrom(tail[first..], 0))
  }

  /** A batch that was archived, and whether the process lived to save that it was. */
  datatype Passed = Passed(batch: seq<Message>, notes: seq<Note>, saved: bool)

  function Batches(passed: seq<Passed>): seq<Message> {
    if passed == [] then []
    else
      var last := passed[|passed| - 1];
      Batches(passed[..|passed| - 1]) + if last.saved then last.batch else []
  }

  function Notes(passed: seq<Passed>): seq<Note> {
    if passed == [] then [] else Notes(passed[..|passed| - 1]) + passed[|passed| - 1].notes
  }

  lemma OneMorePassed(passed: seq<Passed>, p: Passed)
    ensures Batches(passed + [p]) == Batches(passed) + if p.saved then p.batch else []
    ensures Notes(passed + [p]) == Notes(passed) + p.notes
  {
    assert (passed + [p])[..|passed|] == passed;
  }

  lemma PrefixSlice<T>(before: seq<T>, now: seq<T>, start: nat, end: nat)
    requires before <= now && start <= end <= |before|
    ensures now[..end] == before[..start] + before[start..end]
  {
    assert now[..end] == before[..end];
  }

  function Delivered(env: Env, ms: seq<Message>): (delivered: seq<bool>)
    ensures |delivered| == |ms|
  {
    seq(|ms|, i requires 0 <= i < |ms| => env.delivered(ms[i]))
  }

  ghost predicate SummarizedAll(env: Env, passed: seq<Passed>, from: int, to: int) {
    forall i :: 0 <= from <= i < to <= |passed| ==> Summarized(env, passed[i].notes, passed[i].batch)
  }

  lemma SummarizedMore(env: Env, before: seq<Passed>, passed: seq<Passed>, from: int)
    requires before <= passed && SummarizedAll(env, before, from, |before|)
    ensures |passed| == |before| + 1 ==> SummarizedAll(env, passed, from, |passed| - 1)
    ensures SummarizedAll(env, passed, |before|, |passed|) ==> SummarizedAll(env, passed, from, |passed|)
  {
    forall i | 0 <= from <= i < |before| ensures Summarized(env, passed[i].notes, passed[i].batch) {
      assert passed[i] == before[i];
    }
  }

  ghost predicate MovedOn(messages: seq<Message>, at: nat, before: seq<Passed>,
                          more: seq<Message>, point: nat, passed: seq<Passed>, most: nat) {
    messages <= more && at <= point && before <= passed && |passed| <= |before| + most
  }

  lemma MovedOnAgain(messages: seq<Message>, at: nat, before: seq<Passed>,
                     mid: seq<Message>, half: nat, between: seq<Passed>,
                     more: seq<Message>, point: nat, passed: seq<Passed>, m: nat, n: nat)
    requires MovedOn(messages, at, before, mid, half, between, m)
    requires MovedOn(mid, half, between, more, point, passed, n)
    ensures MovedOn(messages, at, before, more, point, passed, m + n)
  {
  }

  /** A session, how many batches it has passed, and the estimate of its prompt. */
  datatype Shown = Shown(messages: seq<Message>, at: nat, passed: nat, estimated: int)

  /** Some rounds after the start. */
  ghost predicate Underway(env: Env, start: Shown, before: seq<Passed>,
                           messages: seq<Message>, at: nat, passed: seq<Passed>, rounds: nat, need: int) {
    && MovedOn(start.messages, start.at, before, messages, at, passed, rounds) && |passed| == |before| + rounds
    && SummarizedAll(env, passed, |before|, |passed| - 1)
    && (rounds == 0 ==> messages == start.messages && at == start.at)
    && (rounds > 0 ==> start.estimated > env.target)
    && (rounds > 0 ==> IsFirst(env, start.messages, start.at, need, passed[|before|].batch))
  }

  /** A round runs exactly when there is a boundary; it passes what lies before the one for the need; and
      it goes on exactly after a summary. */
  ghost predicate RoundDone(env: Env, mid: seq<Message>, half: nat, between: seq<Passed>,
                            messages: seq<Message>, at: nat, passed: seq<Passed>, ran: bool, going: bool, need: int) {
    && MovedOn(mid, half, between, messages, at, passed, 1)
    && (ran <==> HasBoundary(mid, half)) && (going ==> ran)
    && (!ran ==> messages == mid && at == half && passed == between)
    && (ran ==> |passed| == |between| + 1 && half <= at <= |mid| && Chosen(env, mid, half, need, at))
    && (ran ==> half <= at <= |mid| && passed[|passed| - 1].batch == mid[half..at])
    && (going ==> SummarizedAll(env, passed, |between|, |passed|))
    && (ran && !going ==> Dumped(env, passed[|passed| - 1].notes, passed[|passed| - 1].batch))
  }

  /** Why no more rounds follow: enough rounds, a prompt that fits, an estimate that says nothing, no
      boundary left, or a batch that could not be summarized. */
  ghost predicate StoppedAt(env: Env, messages: seq<Message>, at: nat, passed: seq<Passed>, now: int, rounds: nat) {
    || rounds == MAX_CONSOLIDATION_ROUNDS || now <= env.target || (rounds > 0 && now <= 0)
    || !HasBoundary(messages, at)
    || (0 < rounds <= |passed| && Dumped(env, passed[|passed| - 1].notes, passed[|passed| - 1].batch))
  }

  lemma AfterRound(env: Env, start: Shown, before: seq<Passed>,
                   mid: seq<Message>, half: nat, between: seq<Passed>,
                   messages: seq<Message>, at: nat, passed: seq<Passed>,
                   ran: bool, going: bool, rounds: nat, need: int, firstNeed: int, next: int)
    requires Underway(env, start, before, mid, half, between, rounds, firstNeed)
    requires SummarizedAll(env, between, |before|, |between|) && start.estimated > env.target
    requires RoundDone(env, mid, half, between, messages, at, passed, ran, going, need)
    requires rounds == 0 ==> need == firstNeed
    ensures Underway(env, start, before, messages, at, passed, if ran then rounds + 1 else rounds, firstNeed)
    ensures going ==> SummarizedAll(env, passed, |before|, |passed|)
    ensures !(going && next > 0) ==> StoppedAt(env, messages, at, passed, next, if ran then rounds + 1 else rounds)
  {
    if ran { OneMoreRound(env, start, before, mid, half, between, messages, at, passed, rounds, firstNeed); }
  }

  lemma OneMoreRound(env: Env, start: Shown, before: seq<Passed>,
                     mid: seq<Message>, half: nat, between: seq<Passed>,
                     messages: seq<Message>, at: nat, passed: seq<Passed>, rounds: nat, need: int)
    requires Underway(env, start, before, mid, half, between, rounds, need)
    requires SummarizedAll(env, between, |before|, |between|) && start.estimated > env.target
    requires MovedOn(mid, half, between, messages, at, passed, 1) && |passed| == |between| + 1
    requires half <= at <= |mid| && passed[|between|].batch == mid[half..at]
    requires rounds == 0 ==> Chosen(env, mid, half, need, at)
    ensures Underway(env, start, before, messages, at, passed, rounds + 1, need)
    ensures SummarizedAll(env, passed, |between|, |passed|) ==> SummarizedAll(env, passed, |before|, |passed|)
  {
    MovedOnAgain(start.messages, start.at, before, mid, half, between, messages, at, passed, rounds, 1);
    SummarizedMore(env, between, passed, |before|);
    if rounds > 0 {
      assert passed[|before|] == between[|before|];
    } else {
      assert |before| == |between|;
    }
  }

  // ---------------------------------------------------------------- in place

  class Session {
    var messages: seq<Message>
    var lastConsolidated: nat

    constructor ()
      ensures messages == [] && lastConsolidated == 0
    {
      messages, lastConsolidated := [], 0;
    }
  }

  class Consolidator {
    const env: Env
    const session: Session
    var history: seq<Note>
    var calls: nat
    ghost var passed: seq<Passed>

    /** The session has forgotten exactly the batches saved as passed, each of them covered by
        its notes, and the log holds these notes and those of the archives that were cut short. */
    ghost predicate Valid()
      reads this, session
    {
      && session.lastConsolidated <= |session.messages|
      && Batches(passed) == session.messages[..session.lastConsolidated]
      && Notes(passed) == history
      && forall p :: p in passed && p.saved ==> Covers(env, p.notes, p.batch)
    }

    constructor (env: Env, session: Session)
      requires session.lastConsolidated == 0
      ensures Valid() && this.session == session && this.env == env && history == [] && passed == []
    {
      this.env, this.session := env, session;
      history, calls, passed := [], 0, [];
    }

    /** A turn appends. */
    method Append(ms: seq<Message>)
      requires Valid()
      modifies session`messages
      ensures Valid() && session.messages == old(session.messages) + ms
    {
      session.messages := session.messages + ms;
    }

    /** Ask for a summary; on any failure, dump the whole batch. Turns append meanwhile. */
    method SummarizeOneChunk(chunk: seq<Message>, original: seq<Message>) returns (summary: Option<string>)
      modifies this`history, this`calls, session`messages
      ensures old(session.messages) <= session.messages
      ensures history == old(history) + match summary
        case Some(text) => [Summary(chunk, text)]
        case None => RawNotes(env, original)
      ensures calls == old(calls) + 1 && (summary.Some? <==> Completes(env.ask(old(calls), chunk)))
      ensures summary.Some? ==> IsSummary(Summary(chunk, summary.value), chunk, env.ask(old(calls), chunk))
    {
      var reply := env.ask(calls, chunk);
      session.messages := session.messages + env.meanwhile(calls);
      calls := calls + 1;
      match reply {
        case Answer(text, cut) =>
          if !cut {
            var kept := if text == "" then "[no summary]" else text;
            history := history + [Summary(chunk, kept)];
            return Some(kept);
          }
        case Failed =>
      }
      history := history + RawNotes(env, original);
      summary := None;
    }

    /** Chunk after chunk, until one fails. */
    method SummarizeChunks(chunks: seq<seq<Message>>, batch: seq<Message>)
      returns (ok: bool, ghost notes: seq<Note>, ghost k: nat)
      modifies this`history, this`calls, session`messages
      ensures old(session.messages) <= session.messages
      ensures history == old(history) + notes
      ensures if ok then Summaries(notes, chunks) else Dumped(env, notes, batch)
      ensures Archived(env, old(calls), chunks, k, notes, batch) && (ok <==> k == |chunks|)
    {
      notes := [];
      for i := 0 to |chunks|
        invariant old(session.messages) <= session.messages
        invariant history == old(history) + notes
        invariant Summaries(notes, chunks[..i]) && calls == old(calls) + i
        invariant forall j :: 0 <= j < i ==> IsSummary(notes[j], chunks[j], env.ask(old(calls) + j, chunks[j]))
      {
        var summary := SummarizeOneChunk(chunks[i], batch);
        if summary.None? {
          DumpedTail(env, notes, batch);
          Regroup(old(history), notes, RawNotes(env, batch));
          notes := notes + RawNotes(env, batch);
          return false, notes, i;
        }
        var note := Summary(chunks[i], summary.value);
        OneMoreSummary(notes, chunks[..i], note);
        Regroup(old(history), notes, [note]);
        assert chunks[..i + 1] == chunks[..i] + [chunks[i]];
        notes := notes + [note];
      }
      assert chunks[..|chunks|] == chunks;
      ok, k := true, |chunks|;
    }

    /** Summaries of all chunks, or whatever was summarized and then the raw dump. */
    method Archive(batch: seq<Message>)
      returns (ok: bool, ghost notes: seq<Note>, ghost chunks: seq<seq<Message>>, ghost k: nat)
      modifies this`history, this`calls, session`messages
      ensures old(session.messages) <= session.messages
      ensures history == old(history) + notes
      ensures batch == [] ==> notes == [] && !ok
      ensures batch != [] ==> if ok then Summarized(env, notes, batch) else Dumped(env, notes, batch)
      ensures batch != [] ==> Views(env, batch, Concat(chunks)) && (ok <==> k == |chunks|)
      ensures batch != [] ==> if env.budget <= 0 then |chunks| == 1 else GoodChunks(env, chunks)
      ensures batch != [] ==> Archived(env, old(calls), chunks, k, notes, batch)
    {
      if batch == [] { return false, [], [], 0; }
      var all := ChunksWithinBudget(env, Public(env, batch));
      ok, notes, k := SummarizeChunks(all, batch);
      chunks := all;
      if ok { SummariesCover(notes, chunks); }
    }

    /** Archive a batch from the point reached so far, and forget it. What turns append
        meanwhile stays beyond the new point. */
    method Advance(end: nat) returns (ok: bool)
      requires Valid() && session.lastConsolidated < end <= |session.messages|
      modifies this`history, this`calls, this`passed, session`messages, session`lastConsolidated
      ensures Valid() && session.lastConsolidated == end && old(session.messages) <= session.messages
      ensures |passed| == |old(passed)| + 1 && passed[..|old(passed)|] == old(passed)
      ensures passed[|old(passed)|].batch == old(session.messages)[old(session.lastConsolidated)..end]
      ensures passed[|old(passed)|].saved
      ensures if ok then Summarized(env, passed[|old(passed)|].notes, passed[|old(passed)|].batch)
              else Dumped(env, passed[|old(passed)|].notes, passed[|old(passed)|].batch)
    {
      var start := session.lastConsolidated;
      var batch := session.messages[start..end];
      ghost var notes, chunks, k;
      ok, notes, chunks, k := Archive(batch);
      ghost var p := Passed(batch, notes, true);
      OneMorePassed(passed, p);
      PrefixSlice(old(session.messages), session.messages, start, end);
      session.lastConsolidated := end;
      passed := passed + [p];
    }

    /** The process dies after the n-th note of an archive, before the new point is saved: the same
        messages will be archived again. */
    method ArchiveAndDie(end: nat, n: nat)
      requires Valid() && session.lastConsolidated < end <= |session.messages|
      modifies this`history, this`calls, this`passed, session`messages
      ensures Valid() && session.lastConsolidated == old(session.lastConsolidated)
      ensures old(session.messages) <= session.messages && old(history) <= history
      ensures |passed| == |old(passed)| + 1 && passed[..|old(passed)|] == old(passed) && !passed[|old(passed)|].saved
    {
      var at, before := session.lastConsolidated, history;
      var batch := session.messages[at..end];
      var _, notes, _, _ := Archive(batch);
      var written := Min(n, |history| - |before|);
      history := history[..|before| + written];
      ghost var p := Passed(batch, notes[..written], false);
      OneMorePassed(passed, p);
      assert Batches(passed) + [] == session.messages[..at];
      passed := passed + [p];
    }

    /** Where the replay window over these messages begins, after the code's adjustments. */
    method VisibleStart(tail: seq<Message>, replayMax: int) returns (first: nat)
      ensures first <= |tail| && Windows.LegalFrom(tail[first..], 0)
      ensures Windows.VisibleFrom(tail, replayMax, Delivered(env, tail), first)
    {
      var delivered := Delivered(env, tail);
      var start := Windows.RecentMessageStartIndex(tail, replayMax, true, delivered);
      var i := start;
      while i < |tail| && tail[i].role != User
        invariant start <= i <= |tail|
        invariant forall k :: start <= k < i ==> tail[k].role != User
      {
        i := i + 1;
      }
      ghost var recent := start;
      if i < |tail| {
        assert Windows.FirstUser(tail, start, i);
        start := if i > start && delivered[i - 1] then i - 1 else i;
      }
      var legal := Windows.FindLegalMessageStart(tail[start..]);
      Windows.LegalShift(tail[start..], legal);
      first := start + legal;
      assert tail[first..] == tail[start..][legal..];
      assert Windows.OpensThere(tail, replayMax, delivered, recent, start, first);
    }

    /** How much of the tail is hidden. */
    method HiddenPart(tail: seq<Message>, replayMax: int) returns (first: nat)
      ensures first <= |tail| && Hides(env, tail, replayMax, first)
    {
      if replayMax <= 0 || |tail| <= replayMax { return 0; }
      first := VisibleStart(tail, replayMax);
      Windows.AllVisibleIff(tail, replayMax, Delivered(env, tail), first);
    }

    /** How far the replay window no longer shows, when the tail exceeds it. What stays visible
        starts legally. */
    method ReplayOverflowBoundary(replayMax: int) returns (end: Option<nat>)
      requires session.lastConsolidated <= |session.messages|
      ensures end.Some? ==> session.lastConsolidated < end.value <= |session.messages|
      ensures Hides(env, session.messages[session.lastConsolidated..], replayMax,
                    if end.Some? then end.value - session.lastConsolidated else 0)
    {
      var at := session.lastConsolidated;
      var first := HiddenPart(session.messages[at..], replayMax);
      if first == 0 { return None; }
      end := Some(at + first);
    }

    method ConsolidateReplayOverflow(replayMax: int)
      requires Valid()
      modifies this`history, this`calls, this`passed, session`messages, session`lastConsolidated
      ensures Valid() && Advanced(old(session.messages), old(session.lastConsolidated), old(passed), 1)
      ensures Replayed(old(session.messages), old(session.lastConsolidated), replayMax, session.lastConsolidated)
    {
      var end := ReplayOverflowBoundary(replayMax);
      if end.Some? {
        var _ := Advance(end.value);
      }
    }

    /** The point after the replay window was looked at: behind what it hides. */
    ghost predicate Replayed(messages: seq<Message>, at: nat, replayMax: int, point: nat) {
      at <= |messages| && at <= point && Hides(env, messages[at..], replayMax, point - at)
    }

    /** The point moved on, over whole batches, at most this many. */
    ghost predicate Advanced(messages: seq<Message>, at: nat, before: seq<Passed>, most: nat)
      reads this, session
    {
      MovedOn(messages, at, before, session.messages, session.lastConsolidated, passed, most)
    }

    /** The batches passed from here on were summarized, one after the other. */
    ghost predicate AllSummarized(from: int, to: int)
      reads this
    {
      SummarizedAll(env, passed, from, to)
    }

    /** How many tokens a round must free. */
    function Need(now: int): int { if now - env.target > 1 then now - env.target else 1 }

    ghost predicate Stopped(now: int, rounds: nat)
      reads this, session
    {
      StoppedAt(env, session.messages, session.lastConsolidated, passed, now, rounds)
    }

    /** One round, if there is a boundary: archive up to it. It goes on after a summary. */
    method Round(now: int) returns (ran: bool, going: bool, next: int)
      requires Valid()
      modifies this`history, this`calls, this`passed, session`messages, session`lastConsolidated
      ensures Valid() && Advanced(old(session.messages), old(session.lastConsolidated), old(passed), 1)
      ensures RoundDone(env, old(session.messages), old(session.lastConsolidated), old(passed),
                        session.messages, session.lastConsolidated, passed, ran, going, Need(now))
      ensures next == if going then env.estimate(calls, session.messages, session.lastConsolidated) else now
    {
      var need := Need(now);
      var at, _ := PickConsolidationBoundary(env, session.messages, session.lastConsolidated, need);
      if at.None? { return false, false, now; }
      going := Advance(at.value);
      ran, next := true, now;
      if going {
        next := env.estimate(calls, session.messages, session.lastConsolidated);
      }
    }

    /** Archive from the front, up to a user message each time, until the prompt fits: at most
        five rounds, and none after one that failed. */
    method Rounds(estimated: int) returns (rounds: nat, ghost now: int)
      requires Valid()
      modifies this`history, this`calls, this`passed, session`messages, session`lastConsolidated
      ensures Valid() && rounds <= MAX_CONSOLIDATION_ROUNDS
      ensures Advanced(old(session.messages), old(session.lastConsolidated), old(passed), rounds)
      ensures |passed| == |old(passed)| + rounds && AllSummarized(|old(passed)|, |passed| - 1)
      ensures Stopped(now, rounds) && (rounds == 0 ==> now == estimated)
      ensures rounds > 0 <==>
        (estimated > env.target && HasBoundary(old(session.messages), old(session.lastConsolidated)))
      ensures rounds == 0 ==> session.messages == old(session.messages)
      ensures rounds == 0 ==> session.lastConsolidated == old(session.lastConsolidated)
      ensures rounds > 0 ==>
        IsFirst(env, old(session.messages), old(session.lastConsolidated), Need(estimated), passed[|old(passed)|].batch)
    {
      rounds, now := 0, estimated;
      var estimate, going := estimated, true;
      ghost var start := Shown(session.messages, session.lastConsolidated, |passed|, estimated);
      while rounds < MAX_CONSOLIDATION_ROUNDS && estimate > env.target && going
        invariant Valid() && rounds <= MAX_CONSOLIDATION_ROUNDS && now == estimate
        invariant Sofar(start, old(passed), rounds)
        invariant going ==> SummarizedAll(env, passed, |old(passed)|, |passed|)
        invariant !going ==> Stopped(now, rounds)
        invariant rounds == 0 ==> estimate == estimated
        decreases MAX_CONSOLIDATION_ROUNDS - rounds, if going then 1 else 0
      {
        rounds, going, estimate := NextRound(estimate, rounds, start, old(passed));
        now := estimate;
      }
      if rounds > 0 {
        FirstHasBoundary(env, start.messages, start.at, Need(estimated), passed[|old(passed)|].batch);
      }
    }

    ghost predicate Sofar(start: Shown, before: seq<Passed>, rounds: nat)
      reads this, session
    {
      Underway(env, start, before, session.messages, session.lastConsolidated, passed, rounds, Need(start.estimated))
    }

    /** One more round, and whether others may follow. */
    method NextRound(now: int, rounds: nat, ghost start: Shown, ghost before: seq<Passed>)
      returns (more: nat, going: bool, next: int)
      requires Valid() && rounds < MAX_CONSOLIDATION_ROUNDS && now > env.target
      requires Sofar(start, before, rounds) && SummarizedAll(env, passed, |before|, |passed|)
      requires rounds == 0 ==> now == start.estimated
      modifies this`history, this`calls, this`passed, session`messages, session`lastConsolidated
      ensures Valid() && rounds <= more <= rounds + 1 && Sofar(start, before, more)
      ensures going ==> more == rounds + 1 && SummarizedAll(env, passed, |before|, |passed|)
      ensures !going ==> Stopped(next, more)
      ensures more == 0 ==> next == now
    {
      ghost var mid, half, between := session.messages, session.lastConsolidated, passed;
      var ran;
      ran, going, next := Round(now);
      AfterRound(env, start, before, mid, half, between, session.messages, session.lastConsolidated, passed,
                 ran, going, rounds, Need(now), Need(start.estimated), next);
      more := if ran then rounds + 1 else rounds;
      going := going && next > 0;
    }

    /** What is archived when the prompt may not fit: first what the replay no longer shows; then, if
        the prompt is over the budget, round after round. The ghost results are the session after the
        first part, its estimate, the number of rounds, and the last estimate. */
    method MaybeConsolidateByTokens(windowTokens: int, replayMax: int)
      returns (ghost shown: Shown, ghost rounds: nat, ghost now: int)
      requires Valid()
      modifies this`history, this`calls, this`passed, session`messages, session`lastConsolidated
      ensures Valid()
      ensures Advanced(old(session.messages), old(session.lastConsolidated), old(passed), MAX_CONSOLIDATION_ROUNDS + 1)
      ensures windowTokens <= 0 || old(session.messages) == [] ==>
        && session.messages == old(session.messages) && session.lastConsolidated == old(session.lastConsolidated)
        && history == old(history)
      ensures windowTokens > 0 && old(session.messages) != [] ==>
        && Replayed(old(session.messages), old(session.lastConsolidated), replayMax, shown.at)
        && (exists n :: shown.estimated == env.estimate(n, shown.messages, shown.at))
        && (rounds > 0 <==> shown.estimated > 0 && shown.estimated >= env.budget && shown.estimated > env.target &&
                            HasBoundary(shown.messages, shown.at))
        && (rounds == 0 ==> session.messages == shown.messages && session.lastConsolidated == shown.at)
        && (rounds > 0 ==> shown.passed < |passed|)
        && (rounds > 0 ==>
              IsFirst(env, shown.messages, shown.at, Need(shown.estimated), passed[shown.passed].batch))
        && (shown.estimated > 0 && shown.estimated >= env.budget ==> Stopped(now, rounds))
    {
      shown, rounds, now := Shown([], 0, 0, 0), 0, 0;
      if windowTokens <= 0 || session.messages == [] { return; }
      ConsolidateReplayOverflow(replayMax);
      var estimated := env.estimate(calls, session.messages, session.lastConsolidated);
      shown := Shown(session.messages, session.lastConsolidated, |passed|, estimated);
      if estimated <= 0 || estimated < env.budget { return; }
      rounds, now := Rounds(estimated);
    }

    /** Archive the whole tail that was there before the provider call. */
    method CompactIdleSession()
      requires Valid()
      modifies this`history, this`calls, this`passed, session`messages, session`lastConsolidated
      ensures Valid() && session.lastConsolidated == |old(session.messages)|
      ensures Advanced(old(session.messages), old(session.lastConsolidated), old(passed), 1)
    {
      if session.lastConsolidated == |session.messages| { return; }
      var _ := Advance(|session.messages|);
    }
  }

  // ---------------------------------------------------------------- nothing forgotten unread

  lemma {:induction false} InSomeBatch(passed: seq<Passed>, i: nat) returns (k: nat)
    requires i < |Batches(passed)|
    ensures k < |passed| && passed[k].saved && Batches(passed)[i] in passed[k].batch
  {
    var n := |passed| - 1;
    if i < |Batches(passed[..n])| {
      k := InSomeBatch(passed[..n], i);
    } else {
      k := n;
      assert Batches(passed)[i] == passed[n].batch[i - |Batches(passed[..n])|];
    }
  }

  /** Whatever ran: each message the session has passed lies in a batch whose notes either
      summarize all of it or hold its whole raw dump. */
  lemma EveryPassedMessageIsCovered(c: Consolidator, i: nat)
    requires c.Valid() && i < c.session.lastConsolidated
    ensures exists p :: p in c.passed && p.saved && c.session.messages[i] in p.batch && Covers(c.env, p.notes, p.batch)
  {
    var k := InSomeBatch(c.passed, i);
    assert c.passed[k] in c.passed && c.session.messages[i] == Batches(c.passed)[i];
  }
}
