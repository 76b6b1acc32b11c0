/** The message records of a conversation, and what it means for tool calls and
    tool results to pair up.

    A provider refuses a request in which a tool result answers no call, or a call has
    no result directly after the assistant message that declared it. The two repair
    passes (drop orphan results, backfill missing ones) are defined here on values; the
    loops that run them over heap objects are in module Governance. */
module Transcript {

  datatype Option<+T> = None | Some(value: T)

  datatype Role = System | User | Assistant | Tool | OtherRole

  datatype Block = TextBlock(text: string) | MediaBlock(data: string)

  /** What str.strip() takes off. */
  predicate IsSpace(c: char) {
    || '\t' <= c <= '\r' || '\U{1C}' <= c <= ' ' || c == '\U{85}' || c == '\U{A0}' || c == '\U{1680}'
    || '\U{2000}' <= c <= '\U{200A}' || c == '\U{2028}' || c == '\U{2029}' || c == '\U{202F}'
    || c == '\U{205F}' || c == '\U{3000}'
  }

  predicate Blank(s: string) {
    forall i :: 0 <= i < |s| ==> IsSpace(s[i])
  }

  const TRUNCATED_SUFFIX := "\n... (truncated)"

  function TruncateText(text: string, cap: int): string {
    if cap <= 0 || |text| <= cap then text else text[..cap] + TRUNCATED_SUFFIX
  }

  /** The text itself while it fits, else its front and the mark. */
  ghost predicate Shortened(max: int, text: string, kept: string) {
    if max <= 0 || |text| <= max then kept == text else kept == text[..max] + "\n... (truncated)"
  }

  /** Null is a missing or null content field. */
  datatype Content = Null | Text(text: string) | Blocks(blocks: seq<Block>)
  {
    predicate Truthy() {
      match this
      case Null => false
      case Text(t) => t != ""
      case Blocks(bs) => bs != []
    }
  }

  /** The name field of a raw call; NotAString carries what str() shows for it. */
  datatype RawName = NoName | Name(text: string) | NotAString(shown: string)

  /** One element of an assistant's tool_calls list. An id is the text str() gives, and
      "" stands for every falsy id. fn is None when the function field is not a mapping. */
  datatype RawCall = NotACall | Call(id: string, fn: Option<RawName>, topName: RawName)

  datatype Message = Message(
    role: Role,
    content: Content,
    calls: seq<RawCall>,
    toolCallId: string,
    name: Option<string>,
    reasoning: string,
    stamp: int)

  // ---------------------------------------------------------------- declared calls

  function DeclaredName(c: RawCall): string
    requires c.Call?
  {
    match c.fn
    case None => ""
    case Some(NoName) => ""
    case Some(Name(t)) => t
    case Some(NotAString(t)) => t
  }

  /** The (id, tool name) pairs an assistant message declares, in order. */
  function DeclaredIn(calls: seq<RawCall>): (found: seq<(string, string)>)
    ensures forall p :: p in found ==> p.0 != ""
  {
    if calls == [] then []
    else
      var rest := DeclaredIn(calls[1..]);
      if calls[0].Call? && calls[0].id != "" then [(calls[0].id, DeclaredName(calls[0]))] + rest
      else rest
  }

  function Declared(m: Message): seq<(string, string)> {
    DeclaredIn(m.calls)
  }

  function IdsOf(pairs: seq<(string, string)>): set<string> {
    if pairs == [] then {} else {pairs[0].0} + IdsOf(pairs[1..])
  }

  function IdSet(m: Message): set<string> {
    IdsOf(Declared(m))
  }

  // ---------------------------------------------------------------- tool runs

  /** The length of the run of tool messages at the front. */
  function RunLength(ms: seq<Message>): (n: nat)
    ensures n <= |ms|
    ensures forall i :: 0 <= i < n ==> ms[i].role == Tool
    ensures n < |ms| ==> ms[n].role != Tool
  {
    if ms != [] && ms[0].role == Tool then 1 + RunLength(ms[1..]) else 0
  }

  function Run(ms: seq<Message>): seq<Message> {
    ms[..RunLength(ms)]
  }

  function AfterRun(ms: seq<Message>): seq<Message> {
    ms[RunLength(ms)..]
  }

  /** The non-empty ids a run of results answers. */
  function Answered(run: seq<Message>): set<string> {
    if run == [] then {}
    else (if run[0].toolCallId == "" then {} else {run[0].toolCallId}) + Answered(run[1..])
  }

  /** Every id is answered by one result, and there is no other result. */
  ghost predicate AnswersExactly(ids: set<string>, run: seq<Message>) {
    && (forall m :: m in run ==> m.toolCallId in ids)
    && ids <= Answered(run)
    && (forall i, j :: 0 <= i < j < |run| ==> run[i].toolCallId != run[j].toolCallId)
  }

  /** Each assistant's distinct declared ids are answered exactly once in the tool run
      directly after it, and no other tool message exists. */
  ghost predicate WellPaired(ms: seq<Message>)
    decreases |ms|
  {
    if ms == [] then true
    else match ms[0].role
      case Tool => false
      case Assistant =>
        AnswersExactly(IdSet(ms[0]), Run(ms[1..])) && WellPaired(AfterRun(ms[1..]))
      case _ => WellPaired(ms[1..])
  }

  /** Half of the property: every declared id has a result in the run directly after. */
  ghost predicate Complete(ms: seq<Message>) {
    ms != [] ==>
      && (ms[0].role == Assistant ==> IdSet(ms[0]) <= Answered(Run(ms[1..])))
      && Complete(ms[1..])
  }

  // ---------------------------------------------------------------- the repair passes

  /** Keep a result only while its id is open; an assistant message opens its own ids
      and closes every other. */
  function Drop(ms: seq<Message>, open: set<string>): seq<Message> {
    if ms == [] then []
    else
      var m := ms[0];
      if m.role == Assistant then [m] + Drop(ms[1..], IdSet(m))
      else if m.role == Tool then
        if m.toolCallId == "" || m.toolCallId !in open then Drop(ms[1..], open)
        else [m] + Drop(ms[1..], open - {m.toolCallId})
      else [m] + Drop(ms[1..], open)
  }

  const BACKFILL_CONTENT := "[Tool result unavailable — call was interrupted or lost]"

  function Synthetic(id: string, name: string): Message {
    Message(Tool, Text(BACKFILL_CONTENT), [], id, Some(name), "", 0)
  }

  /** One synthetic result for each declared call whose id is not answered. */
  function Missing(pairs: seq<(string, string)>, answered: set<string>): (out: seq<Message>)
    ensures forall m :: m in out ==> m.role == Tool && m.toolCallId !in answered
    ensures |out| <= |pairs|
  {
    if pairs == [] then []
    else if pairs[0].0 in answered then Missing(pairs[1..], answered)
    else [Synthetic(pairs[0].0, pairs[0].1)] + Missing(pairs[1..], answered)
  }

  /** After each assistant message's run, append one synthetic result per unanswered call. */
  function Backfill(ms: seq<Message>): seq<Message>
    decreases |ms|
  {
    if ms == [] then []
    else if ms[0].role == Assistant then
      var run := Run(ms[1..]);
      [ms[0]] + run + Missing(Declared(ms[0]), Answered(run)) + Backfill(AfterRun(ms[1..]))
    else [ms[0]] + Backfill(ms[1..])
  }

  // ---------------------------------------------------------------- facts about runs

  predicate AllTools(run: seq<Message>) {
    forall i :: 0 <= i < |run| ==> run[i].role == Tool
  }

  predicate NoToolFirst(rest: seq<Message>) {
    rest == [] || rest[0].role != Tool
  }

  lemma RunOfAppend(run: seq<Message>, rest: seq<Message>)
    requires AllTools(run) && NoToolFirst(rest)
    ensures Run(run + rest) == run && AfterRun(run + rest) == rest
  {
    var s := run + rest;
    assert forall i :: 0 <= i < |run| ==> s[i].role == Tool;
    assert rest != [] ==> s[|run|].role != Tool;
    assert RunLength(s) == |run|;
  }

  lemma RunParts(ms: seq<Message>)
    ensures ms == Run(ms) + AfterRun(ms) && AllTools(Run(ms)) && NoToolFirst(AfterRun(ms))
  {
  }

  lemma {:induction false} AnsweredAppend(a: seq<Message>, b: seq<Message>)
    ensures Answered(a + b) == Answered(a) + Answered(b)
  {
    if a == [] {
      assert a + b == b;
    } else {
      assert (a + b)[1..] == a[1..] + b;
      AnsweredAppend(a[1..], b);
    }
  }

  lemma {:induction false} MissingAnswers(pairs: seq<(string, string)>, answered: set<string>)
    requires forall p :: p in pairs ==> p.0 != ""
    ensures IdsOf(pairs) <= answered + Answered(Missing(pairs, answered))
  {
    if pairs != [] {
      MissingAnswers(pairs[1..], answered);
      assert pairs[0] in pairs;
      var out := Missing(pairs, answered);
      if pairs[0].0 in answered {
        assert out == Missing(pairs[1..], answered);
      } else {
        assert out[1..] == Missing(pairs[1..], answered);
      }
    }
  }

  lemma {:induction false} MissingNothing(pairs: seq<(string, string)>, answered: set<string>)
    ensures Missing(pairs, answered) == [] <==> IdsOf(pairs) <= answered
  {
    if pairs != [] {
      MissingNothing(pairs[1..], answered);
    }
  }

  // ---------------------------------------------------------------- one assistant at a time

  /** An assistant message with its run is one segment, and each notion here reads a
      segment on its own. */
  lemma Segment(m: Message, run: seq<Message>, rest: seq<Message>)
    requires m.role == Assistant && AllTools(run) && NoToolFirst(rest)
    ensures
      var ms := [m] + run + rest;
      && ms[1..] == run + rest && Run(ms[1..]) == run && AfterRun(ms[1..]) == rest
  {
    assert ([m] + run + rest)[1..] == run + rest;
    RunOfAppend(run, rest);
  }

  lemma {:induction false} CompleteAfterTools(run: seq<Message>, rest: seq<Message>)
    requires AllTools(run)
    ensures Complete(run + rest) == Complete(rest)
  {
    if run != [] {
      assert (run + rest)[1..] == run[1..] + rest;
      CompleteAfterTools(run[1..], rest);
    } else {
      assert run + rest == rest;
    }
  }

  lemma CompleteSegment(m: Message, run: seq<Message>, rest: seq<Message>)
    requires m.role == Assistant && AllTools(run) && NoToolFirst(rest)
    ensures Complete([m] + run + rest) <==> IdSet(m) <= Answered(run) && Complete(rest)
  {
    Segment(m, run, rest);
    CompleteAfterTools(run, rest);
  }

  lemma PairedSegment(m: Message, run: seq<Message>, rest: seq<Message>)
    requires m.role == Assistant && AllTools(run) && NoToolFirst(rest)
    ensures WellPaired([m] + run + rest) <==> AnswersExactly(IdSet(m), run) && WellPaired(rest)
  {
    Segment(m, run, rest);
  }

  lemma BackfillSegment(m: Message, run: seq<Message>, rest: seq<Message>)
    requires m.role == Assistant && AllTools(run) && NoToolFirst(rest)
    ensures Backfill([m] + run + rest)
         == [m] + (run + Missing(Declared(m), Answered(run))) + Backfill(rest)
  {
    Segment(m, run, rest);
  }

  lemma DropSegment(m: Message, run: seq<Message>, rest: seq<Message>, open: set<string>)
    requires m.role == Assistant && AllTools(run) && NoToolFirst(rest)
    ensures Drop([m] + run + rest, open)
         == [m] + Drop(run, IdSet(m)) + Drop(rest, IdSet(m) - Answered(run))
  {
    assert ([m] + run + rest)[1..] == run + rest;
    DropAcrossRun(run, rest, IdSet(m));
  }

  lemma {:induction false} DropAcrossRun(run: seq<Message>, rest: seq<Message>, open: set<string>)
    requires AllTools(run)
    ensures Drop(run + rest, open) == Drop(run, open) + Drop(rest, open - Answered(run))
  {
    if run == [] {
      assert run + rest == rest && open - Answered(run) == open;
    } else {
      assert (run + rest)[1..] == run[1..] + rest;
      var id := run[0].toolCallId;
      if id == "" || id !in open {
        DropAcrossRun(run[1..], rest, open);
        assert open - Answered(run) == open - Answered(run[1..]);
      } else {
        DropAcrossRun(run[1..], rest, open - {id});
        assert open - Answered(run) == open - {id} - Answered(run[1..]);
      }
    }
  }

  /** What a run keeps: each open id it answers, once. */
  lemma {:induction false} DropKeepsOnce(run: seq<Message>, open: set<string>)
    requires AllTools(run)
    ensures AllTools(Drop(run, open))
    ensures AnswersExactly(open * Answered(run), Drop(run, open))
  {
    if run != [] {
      var id := run[0].toolCallId;
      if id == "" || id !in open {
        DropKeepsOnce(run[1..], open);
        assert open * Answered(run) == open * Answered(run[1..]);
      } else {
        var open' := open - {id};
        var tail := Drop(run[1..], open');
        DropKeepsOnce(run[1..], open');
        assert open * Answered(run) == {id} + open' * Answered(run[1..]);
        assert Drop(run, open) == [run[0]] + tail;
        AnsweredAppend([run[0]], tail);
        forall j | 0 <= j < |tail| ensures tail[j].toolCallId != id {
          assert tail[j] in tail;
        }
      }
    }
  }

  // ---------------------------------------------------------------- the passes, proved

  lemma Cut(ms: seq<Message>)
    requires ms != []
    ensures var rest := ms[1..];
      && ms == [ms[0]] + rest
      && ms == [ms[0]] + Run(rest) + AfterRun(rest)
      && AllTools(Run(rest)) && NoToolFirst(AfterRun(rest))
  {
    RunParts(ms[1..]);
    HeadAndParts(ms, Run(ms[1..]), AfterRun(ms[1..]));
  }

  lemma HeadAndParts(ms: seq<Message>, run: seq<Message>, rest: seq<Message>)
    requires ms != [] && ms[1..] == run + rest
    ensures ms == [ms[0]] + ms[1..] && ms == [ms[0]] + run + rest
  {
  }

  /** A message that is no result lies behind the run. */
  lemma TurnSlices(m: Message, run: seq<Message>, rest: seq<Message>, p: nat)
    requires AllTools(run) && 0 < p <= 1 + |run| + |rest| && NoToolFirst(([m] + run + rest)[p..])
    ensures 1 + |run| <= p && rest[p - 1 - |run|..] == ([m] + run + rest)[p..]
    ensures ([m] + run + rest)[..p] == [m] + run + rest[..p - 1 - |run|]
  {
    var ms := [m] + run + rest;
    assert forall j :: 0 <= j < |run| ==> ms[j + 1] == run[j];
    assert p < |ms| ==> ms[p..][0] == ms[p];
  }

  lemma HeadsAgree(ms: seq<Message>, open: set<string>)
    requires NoToolFirst(ms)
    ensures NoToolFirst(Backfill(ms)) && NoToolFirst(Drop(ms, open))
  {
  }

  /** After a backfill, every call has a result directly after it. */
  lemma {:induction false} BackfillCompletes(ms: seq<Message>)
    ensures Complete(Backfill(ms))
    decreases |ms|
  {
    if ms != [] {
      Cut(ms);
      var m, run, rest := ms[0], Run(ms[1..]), AfterRun(ms[1..]);
      if m.role == Assistant {
        BackfillCompletes(rest);
        HeadsAgree(rest, {});
        BackfillSegment(m, run, rest);
        var added := Missing(Declared(m), Answered(run));
        MissingAnswers(Declared(m), Answered(run));
        AnsweredAppend(run, added);
        CompleteSegment(m, run + added, Backfill(rest));
      } else {
        BackfillCompletes(ms[1..]);
        assert Backfill(ms)[1..] == Backfill(ms[1..]);
      }
    }
  }

  lemma BackfillIdentityRun(m: Message, run: seq<Message>, rest: seq<Message>)
    requires m.role == Assistant && AllTools(run) && NoToolFirst(rest)
    requires (Backfill(rest) == rest <==> Complete(rest)) && |Backfill(rest)| >= |rest|
    ensures var ms := [m] + run + rest;
      (Backfill(ms) == ms <==> Complete(ms)) && |Backfill(ms)| >= |ms|
  {
    BackfillSegment(m, run, rest);
    CompleteSegment(m, run, rest);
    MissingNothing(Declared(m), Answered(run));
    SplitEqual(m, run, Missing(Declared(m), Answered(run)), Backfill(rest), rest);
  }

  lemma Regroup<T>(a: seq<T>, b: seq<T>, c: seq<T>)
    ensures a + b + c == a + (b + c)
  {
  }

  /** A backfill inserts nothing exactly when every call already has its result. */
  lemma {:induction false} BackfillIdentityIff(ms: seq<Message>)
    ensures Backfill(ms) == ms <==> Complete(ms)
    ensures |Backfill(ms)| >= |ms|
    decreases |ms|
  {
    if ms != [] {
      Cut(ms);
      var m, run, rest := ms[0], Run(ms[1..]), AfterRun(ms[1..]);
      if m.role == Assistant {
        BackfillIdentityIff(rest);
        BackfillIdentityRun(m, run, rest);
      } else {
        BackfillIdentityIff(ms[1..]);
        Cancel([m], Backfill(ms[1..]), ms[1..]);
      }
    }
  }

  lemma SplitEqual<T>(x: T, run: seq<T>, added: seq<T>, a: seq<T>, b: seq<T>)
    requires |a| >= |b|
    ensures [x] + (run + added) + a == [x] + run + b <==> added == [] && a == b
    ensures |[x] + (run + added) + a| >= |[x] + run + b|
  {
    if added == [] {
      assert run + added == run;
      Cancel([x] + run, a, b);
    } else {
      assert |[x] + (run + added) + a| > |[x] + run + b|;
    }
  }

  lemma Cancel<T>(pre: seq<T>, a: seq<T>, b: seq<T>)
    ensures pre + a == pre + b <==> a == b
  {
    if pre + a == pre + b {
      assert a == (pre + a)[|pre|..];
    }
  }

  lemma BackfillIdempotent(ms: seq<Message>)
    ensures Backfill(Backfill(ms)) == Backfill(ms)
  {
    BackfillCompletes(ms);
    BackfillIdentityIff(Backfill(ms));
  }

  lemma {:induction false} DropIdempotent(ms: seq<Message>, open: set<string>)
    ensures Drop(Drop(ms, open), open) == Drop(ms, open)
  {
    if ms != [] {
      var m, d := ms[0], Drop(ms, open);
      if m.role == Assistant {
        DropIdempotent(ms[1..], IdSet(m));
        assert d[1..] == Drop(ms[1..], IdSet(m));
      } else if m.role == Tool {
        if m.toolCallId == "" || m.toolCallId !in open {
          DropIdempotent(ms[1..], open);
        } else {
          DropIdempotent(ms[1..], open - {m.toolCallId});
          assert d[1..] == Drop(ms[1..], open - {m.toolCallId});
        }
      } else {
        DropIdempotent(ms[1..], open);
        assert d[1..] == Drop(ms[1..], open);
      }
    }
  }

  /** Where every call has a result directly after it, dropping orphans is enough. */
  lemma {:induction false} DropPairsComplete(ms: seq<Message>)
    requires Complete(ms)
    ensures WellPaired(Drop(ms, {}))
    decreases |ms|
  {
    if ms != [] {
      Cut(ms);
      var m, run, rest := ms[0], Run(ms[1..]), AfterRun(ms[1..]);
      if m.role == Assistant {
        var ids := IdSet(m);
        DropSegment(m, run, rest, {});
        CompleteSegment(m, run, rest);
        assert ids - Answered(run) == {} && ids * Answered(run) == ids;
        DropKeepsOnce(run, ids);
        HeadsAgree(rest, {});
        PairedSegment(m, Drop(run, ids), Drop(rest, {}));
        DropPairsComplete(rest);
      } else {
        DropPairsComplete(ms[1..]);
        if m.role != Tool {
          assert Drop(ms, {})[1..] == Drop(ms[1..], {});
        }
      }
    }
  }

  lemma {:induction false} DropOnce(run: seq<Message>, open: set<string>)
    requires AllTools(run) && AnswersExactly(open, run) && "" !in open
    ensures Drop(run, open) == run
  {
    if run != [] {
      var id := run[0].toolCallId;
      assert run[0] in run;
      forall m | m in run[1..] ensures m.toolCallId in open - {id} {
        var j :| 0 <= j < |run[1..]| && run[1..][j] == m;
        assert run[j + 1] == m;
      }
      DropOnce(run[1..], open - {id});
    }
  }

  /** Well paired is the common fixpoint of the two passes. */
  lemma {:induction false} PairedIffFixpoint(ms: seq<Message>)
    ensures WellPaired(ms) <==> Drop(ms, {}) == ms && Backfill(ms) == ms
  {
    BackfillIdentityIff(ms);
    if Drop(ms, {}) == ms && Backfill(ms) == ms {
      DropPairsComplete(ms);
    } else if WellPaired(ms) {
      PairedIsFixed(ms);
    }
  }

  lemma {:induction false} PairedIsFixed(ms: seq<Message>)
    requires WellPaired(ms)
    ensures Drop(ms, {}) == ms && Complete(ms)
    decreases |ms|
  {
    if ms != [] {
      Cut(ms);
      var m, run, rest := ms[0], Run(ms[1..]), AfterRun(ms[1..]);
      if m.role == Assistant {
        PairedSegment(m, run, rest);
        CompleteSegment(m, run, rest);
        DropSegment(m, run, rest, {});
        NoEmptyId(Declared(m));
        DropOnce(run, IdSet(m));
        assert IdSet(m) - Answered(run) == {};
        PairedIsFixed(rest);
      } else {
        PairedIsFixed(ms[1..]);
      }
    }
  }

  lemma {:induction false} NoEmptyId(pairs: seq<(string, string)>)
    requires forall p :: p in pairs ==> p.0 != ""
    ensures "" !in IdsOf(pairs)
  {
    if pairs != [] {
      assert pairs[0] in pairs;
      NoEmptyId(pairs[1..]);
    }
  }

  // ---------------------------------------------------------------- open calls

  /** The ids still open after the messages of ms. */
  function OpenAfter(ms: seq<Message>, open: set<string>): set<string> {
    if ms == [] then open
    else if ms[0].role == Assistant then OpenAfter(ms[1..], IdSet(ms[0]))
    else if ms[0].role == Tool then OpenAfter(ms[1..], open - {ms[0].toolCallId})
    else OpenAfter(ms[1..], open)
  }

  lemma {:induction false} OpenAcrossRun(run: seq<Message>, rest: seq<Message>, open: set<string>)
    requires AllTools(run) && "" !in open
    ensures OpenAfter(run + rest, open) == OpenAfter(rest, open - Answered(run))
  {
    if run == [] {
      assert run + rest == rest && open - Answered(run) == open;
    } else {
      assert (run + rest)[1..] == run[1..] + rest;
      var id := run[0].toolCallId;
      OpenAcrossRun(run[1..], rest, open - {id});
      assert open - Answered(run) == open - {id} - Answered(run[1..]);
    }
  }

  /** A turn whose calls are all answered leaves nothing open. */
  lemma TurnCloses(m: Message, run: seq<Message>, rest: seq<Message>)
    requires m.role == Assistant && AllTools(run) && IdSet(m) <= Answered(run)
    ensures OpenAfter([m] + run + rest, {}) == OpenAfter(rest, {})
  {
    assert ([m] + run + rest)[1..] == run + rest;
    NoEmptyId(Declared(m));
    OpenAcrossRun(run, rest, IdSet(m));
    assert IdSet(m) - Answered(run) == {};
  }

  predicate Orphan(m: Message, open: set<string>) {
    m.role == Tool && (m.toolCallId == "" || m.toolCallId !in open)
  }

  lemma {:induction false} DropStep(ms: seq<Message>, m: Message, open: set<string>)
    requires "" !in open
    ensures "" !in OpenAfter(ms, open)
    ensures Drop(ms + [m], open)
         == Drop(ms, open) + (if Orphan(m, OpenAfter(ms, open)) then [] else [m])
    ensures OpenAfter(ms + [m], open) == OpenAfter([m], OpenAfter(ms, open))
  {
    if ms == [] {
      assert [] + [m] == [m];
    } else {
      assert (ms + [m])[1..] == ms[1..] + [m];
      var h := ms[0];
      if h.role == Assistant {
        NoEmptyId(Declared(h));
        DropStep(ms[1..], m, IdSet(h));
      } else if h.role == Tool {
        assert Orphan(h, open) ==> open - {h.toolCallId} == open;
        DropStep(ms[1..], m, open - {h.toolCallId});
      } else {
        DropStep(ms[1..], m, open);
      }
    }
  }

  // ---------------------------------------------------------------- what the passes keep

  /** Some of b's elements, in b's order, are exactly a. */
  ghost predicate Subsequence<T>(a: seq<T>, b: seq<T>)
    decreases |b|
  {
    a == []
    || (b != [] && ((a[0] == b[0] && Subsequence(a[1..], b[1..])) || Subsequence(a, b[1..])))
  }

  lemma {:induction false} SubsequenceAppend<T>(a: seq<T>, b: seq<T>, c: seq<T>, d: seq<T>)
    requires Subsequence(a, b) && Subsequence(c, d)
    ensures Subsequence(a + c, b + d)
    decreases |b|
  {
    if b == [] {
      assert a + c == c && b + d == d;
    } else if a != [] && a[0] == b[0] && Subsequence(a[1..], b[1..]) {
      SubsequenceAppend(a[1..], b[1..], c, d);
      assert (a + c)[1..] == a[1..] + c && (b + d)[1..] == b[1..] + d;
    } else {
      SubsequenceAppend(a, b[1..], c, d);
      assert (b + d)[1..] == b[1..] + d;
    }
  }

  lemma {:induction false} SubsequenceSelf<T>(a: seq<T>)
    ensures Subsequence(a, a)
  {
    if a != [] { SubsequenceSelf(a[1..]); }
  }

  lemma SubsequenceInsert<T>(m: seq<T>, run: seq<T>, added: seq<T>, rest: seq<T>, more: seq<T>)
    requires Subsequence(rest, more)
    ensures Subsequence(m + run + rest, m + (run + added) + more)
  {
    SubsequenceAppend([], added, rest, more);
    assert [] + rest == rest;
    SubsequenceSelf(m + run);
    SubsequenceAppend(m + run, m + run, rest, added + more);
    assert m + (run + added) + more == (m + run) + (added + more);
  }

  /** The conversation without its tool results. */
  function Spoken(ms: seq<Message>): seq<Message> {
    if ms == [] then []
    else (if ms[0].role == Tool then [] else [ms[0]]) + Spoken(ms[1..])
  }

  lemma {:induction false} SpokenAppend(a: seq<Message>, b: seq<Message>)
    ensures Spoken(a + b) == Spoken(a) + Spoken(b)
  {
    if a == [] {
      assert a + b == b;
    } else {
      assert (a + b)[1..] == a[1..] + b;
      SpokenAppend(a[1..], b);
    }
  }

  lemma {:induction false} ToolsAreSilent(run: seq<Message>)
    requires AllTools(run)
    ensures Spoken(run) == []
  {
    if run != [] { ToolsAreSilent(run[1..]); }
  }

  /** Dropping removes results only, and reorders nothing. */
  lemma {:induction false} DropKeepsTheRest(ms: seq<Message>, open: set<string>)
    ensures Spoken(Drop(ms, open)) == Spoken(ms)
    ensures Subsequence(Drop(ms, open), ms)
  {
    if ms != [] {
      var m, d := ms[0], Drop(ms, open);
      if m.role == Assistant {
        DropKeepsTheRest(ms[1..], IdSet(m));
        assert d[1..] == Drop(ms[1..], IdSet(m));
      } else if m.role == Tool && m.toolCallId != "" && m.toolCallId in open {
        DropKeepsTheRest(ms[1..], open - {m.toolCallId});
        assert d[1..] == Drop(ms[1..], open - {m.toolCallId});
      } else {
        DropKeepsTheRest(ms[1..], open);
        if m.role != Tool { assert d[1..] == Drop(ms[1..], open); }
      }
    }
  }

  /** Backfilling adds results only... */
  lemma {:induction false} BackfillSpeaksTheSame(ms: seq<Message>)
    ensures Spoken(Backfill(ms)) == Spoken(ms)
    decreases |ms|
  {
    if ms != [] {
      Cut(ms);
      var m, run, rest := ms[0], Run(ms[1..]), AfterRun(ms[1..]);
      if m.role == Assistant {
        var added := Missing(Declared(m), Answered(run));
        BackfillSpeaksTheSame(rest);
        BackfillSegment(m, run, rest);
        SpokenSegment(m, run + added, Backfill(rest));
        SpokenSegment(m, run, rest);
      } else {
        BackfillSpeaksTheSame(ms[1..]);
        assert Backfill(ms)[1..] == Backfill(ms[1..]);
      }
    }
  }

  lemma SpokenSegment(m: Message, run: seq<Message>, rest: seq<Message>)
    requires m.role != Tool && AllTools(run)
    ensures Spoken([m] + run + rest) == [m] + Spoken(rest)
  {
    assert ([m] + run + rest)[1..] == run + rest;
    SpokenAppend(run, rest);
    ToolsAreSilent(run);
  }

  /** ...and the given messages are all there, in order. */
  lemma {:induction false} BackfillKeepsAll(ms: seq<Message>)
    ensures Subsequence(ms, Backfill(ms))
    decreases |ms|
  {
    if ms != [] {
      Cut(ms);
      var m, run, rest := ms[0], Run(ms[1..]), AfterRun(ms[1..]);
      if m.role == Assistant {
        var added := Missing(Declared(m), Answered(run));
        BackfillKeepsAll(rest);
        BackfillSegment(m, run, rest);
        SubsequenceInsert([m], run, added, rest, Backfill(rest));
      } else {
        BackfillKeepsAll(ms[1..]);
        assert Backfill(ms)[1..] == Backfill(ms[1..]);
      }
    }
  }

  /** One drop and one backfill do not pair a history: a result that comes after the
      next user turn is still open for the drop, and the backfill sees no answer. */
  lemma OneRoundIsNotEnough()
    ensures exists ms :: !WellPaired(Backfill(Drop(ms, {})))
  {
    var a := Message(Assistant, Text("x"), [Call("a", Some(Name("exec")), NoName)], "", None, "", 0);
    var u := Message(User, Text("hi"), [], "", None, "", 0);
    var t := Message(Tool, Text("late"), [], "a", Some("exec"), "", 0);
    var ms := [a, u, t];
    assert DeclaredIn(a.calls[1..]) == [];
    assert IdSet(a) == {"a"} by { assert IdsOf(Declared(a)[1..]) == {}; }
    assert ms[1..] == [u, t] && [u, t][1..] == [t];
    assert Drop([t], {"a"}) == [t];
    assert Drop(ms, {}) == ms;
    var s := Synthetic("a", "exec");
    assert Run([u, t]) == [] && AfterRun([u, t]) == [u, t];
    assert Missing(Declared(a), {}) == [s];
    assert Backfill([t]) == [t];
    assert Backfill([u, t]) == [u, t];
    var out := Backfill(ms);
    assert out == [a, s, u, t];
    assert out[1..] == [s] + [u, t];
    RunOfAppend([s], [u, t]);
    assert !WellPaired([t]) && !WellPaired([u, t]);
  }

  lemma {:induction false} DeclaredIff(calls: seq<RawCall>, x: string)
    ensures x in IdsOf(DeclaredIn(calls))
       <==> x != "" && exists i :: 0 <= i < |calls| && calls[i].Call? && calls[i].id == x
  {
    if calls != [] {
      DeclaredIff(calls[1..], x);
      assert forall i :: 0 <= i < |calls[1..]| ==> calls[1..][i] == calls[i + 1];
      var head := calls[0].Call? && calls[0].id != "";
      var rest := DeclaredIn(calls[1..]);
      if head {
        assert DeclaredIn(calls)[1..] == rest;
      } else {
        assert DeclaredIn(calls) == rest;
      }
      if i :| 0 <= i < |calls| && calls[i].Call? && calls[i].id == x && i > 0 {
        assert calls[1..][i - 1].Call?;
      }
    }
  }
}
