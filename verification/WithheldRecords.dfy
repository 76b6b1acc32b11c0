/** What a record holds when nobody scrubbed it, read from its fields: where the scrub would have put an
    answer, a marker stands, and all else is as it was. */
module WithheldRecords {
  import opened Transcript
  import opened Batching
  import opened Redaction
  import opened RedactionBatches
  import opened Withholding
  import opened ScrubbedRecords

  /** Every text that is not empty is answered with the marker. */
  function Marks(marker: string): PerText {
    (q: Asked) => if q.text == "" then "" else marker
  }

  // ---------------------------------------------------------------- what stands where

  /** Arguments are always replaced, by ones that still parse, so that no signature stays. */
  ghost predicate CallWithheld(call: Json, r: Json, rules: Rules, marker: string) {
    if HasArguments(call) then CallFilled(call, r, rules.withheldArguments(marker), rules.withheldCall) else r == call
  }

  ghost function CallMarked(rules: Rules, marker: string): (Json, Json) -> bool {
    (a: Json, b: Json) => CallWithheld(a, b, rules, marker)
  }

  ghost predicate HasThought(fields: seq<Field>) { exists i :: 0 <= i < |fields| && IsThought(fields[i]) }

  /** A block that holds a thought is never signed. */
  ghost predicate ThinkingWithheld(b: Json, c: Json, rules: Rules, marker: string) {
    if b.JObject? && HasThought(b.fields) then
      exists after :: ThoughtsScrubbed(b.fields, after, Marks(marker)) && BlockMarked(after, c, rules.withheldBlock)
    else c == b
  }

  ghost function ThinkingMarks(rules: Rules, marker: string): (Json, Json) -> bool {
    (a: Json, b: Json) => ThinkingWithheld(a, b, rules, marker)
  }

  /** The texts of a message are those the scrub asks about: its content or the texts of its blocks, the
      arguments of its calls, its reasoning and its thoughts. */
  ghost predicate MessageWithheld(m: seq<Field>, r: seq<Field>, rules: Rules, marker: string) {
    && (forall k {:trigger Has(r, k)} :: Has(r, k) <==> Has(m, k))
    && SameBut(m, r, {"content", "tool_calls", "reasoning_content", "thinking_blocks"})
    && ContentScrubbed(Get(m, "content"), Get(r, "content"), None, false, rules, Marks(marker))
    && EachScrubbed(Get(m, "tool_calls"), Get(r, "tool_calls"), CallMarked(rules, marker))
    && AnyScrubbed(Get(m, "reasoning_content"), Get(r, "reasoning_content"), Marks(marker))
    && EachScrubbed(Get(m, "thinking_blocks"), Get(r, "thinking_blocks"), ThinkingMarks(rules, marker))
  }

  ghost predicate RecordWithheld(v: Json, w: Json, rules: Rules, marker: string) {
    if v.JObject? then w.JObject? && MessageWithheld(v.fields, w.fields, rules, marker) else w == v
  }

  ghost function RecordMarked(rules: Rules, marker: string): (Json, Json) -> bool {
    (a: Json, b: Json) => RecordWithheld(a, b, rules, marker)
  }

  ghost predicate CheckpointWithheld(c: seq<Field>, r: seq<Field>, rules: Rules, marker: string) {
    && (forall k {:trigger Has(r, k)} :: Has(r, k) <==> Has(c, k))
    && SameBut(c, r, {"assistant_message", "completed_tool_results", "pending_tool_calls"})
    && RecordWithheld(Get(c, "assistant_message"), Get(r, "assistant_message"), rules, marker)
    && EachScrubbed(Get(c, "completed_tool_results"), Get(r, "completed_tool_results"), RecordMarked(rules, marker))
    && EachScrubbed(Get(c, "pending_tool_calls"), Get(r, "pending_tool_calls"), CallMarked(rules, marker))
  }

  ghost predicate PartWithheld(p: Part, v: Json, w: Json, rules: Rules, marker: string) {
    match p
    case Content => ContentScrubbed(v, w, None, false, rules, Marks(marker))
    case ToolCalls => EachScrubbed(v, w, CallMarked(rules, marker))
    case Reasoning => AnyScrubbed(v, w, Marks(marker))
    case Thinking => EachScrubbed(v, w, ThinkingMarks(rules, marker))
    case AssistantMessage => RecordWithheld(v, w, rules, marker)
    case CompletedResults => EachScrubbed(v, w, RecordMarked(rules, marker))
    case PendingCalls => EachScrubbed(v, w, CallMarked(rules, marker))
  }

  ghost function WithheldRule(rules: Rules, marker: string): Rule {
    (p: Part, v: Json, w: Json) => PartWithheld(p, v, w, rules, marker)
  }

  // ---------------------------------------------------------------- the parts of a message

  lemma EachOfIs(v: Json, f: Json -> Json, rel: (Json, Json) -> bool)
    requires forall x: Json {:trigger f(x)} :: rel(x, f(x))
    ensures EachScrubbed(v, EachOf(v, f), rel)
  {
    if v.JArray? {
      forall i | 0 <= i < |v.items| ensures rel(v.items[i], EachItem(v.items, f)[i]) {
        assert EachItem(v.items, f)[i] == f(v.items[i]);
      }
    }
  }

  lemma BlockIsWithheld(b: Json, rules: Rules, marker: string)
    ensures BlockScrubbed(b, WithheldBlock(b, marker), None, false, rules, Marks(marker))
  {
    if b.JObject? && Has(b.fields, "text") {
      PutBut(b.fields, "text", WithheldText(Get(b.fields, "text"), marker));
      if !Get(b.fields, "text").JString? { PutSame(b.fields, "text"); }
    } else if b.JObject? {
      MissingIsNull(b.fields, "text");
    }
  }

  lemma ContentIsWithheld(v: Json, rules: Rules, marker: string)
    ensures ContentScrubbed(v, WithheldContent(v, marker), None, false, rules, Marks(marker))
  {
    if !v.JString? {
      var f := (b: Json) => WithheldBlock(b, marker);
      var rel := BlockRule(None, false, rules, Marks(marker));
      forall b: Json ensures rel(b, f(b)) { BlockIsWithheld(b, rules, marker); }
      EachOfIs(v, f, rel);
    }
  }

  lemma CallIsWithheld(call: Json, rules: Rules, marker: string)
    ensures CallWithheld(call, WithheldToolCall(call, rules, marker), rules, marker)
  {
    if HasArguments(call) {
      var answer := rules.withheldArguments(marker);
      assert Arguments(call.fields).Some?;
      ChangedCallIs(call.fields, rules.withheldCall, answer);
      FilledFunction(Get(call.fields, "function").fields, answer);
    }
  }

  lemma CallsAreWithheld(v: Json, rules: Rules, marker: string)
    ensures EachScrubbed(v, EachOf(v, (c: Json) => WithheldToolCall(c, rules, marker)), CallMarked(rules, marker))
  {
    var f := (c: Json) => WithheldToolCall(c, rules, marker);
    var rel := CallMarked(rules, marker);
    forall c: Json ensures rel(c, f(c)) { CallIsWithheld(c, rules, marker); }
    EachOfIs(v, f, rel);
  }

  lemma {:induction false} ThoughtsAreWithheld(fields: seq<Field>, marker: string)
    ensures ThoughtsScrubbed(fields, WithheldThoughts(fields, marker), Marks(marker))
  {
    if fields != [] {
      var rest, all := WithheldThoughts(fields[1..], marker), WithheldThoughts(fields, marker);
      ThoughtsAreWithheld(fields[1..], marker);
      assert all[1..] == rest;
      forall i | 0 < i < |fields| ensures all[i] == rest[i - 1] && fields[i] == fields[1..][i - 1] {
      }
    }
  }

  lemma {:induction false} ThoughtIff(fields: seq<Field>)
    ensures AllLiteral(fields) <==> !HasThought(fields)
  {
    if fields != [] {
      ThoughtIff(fields[1..]);
      if HasThought(fields[1..]) {
        var i :| 0 <= i < |fields[1..]| && IsThought(fields[1..][i]);
        assert IsThought(fields[i + 1]);
      }
      if i :| 0 <= i < |fields| && IsThought(fields[i]) {
        if i > 0 { assert IsThought(fields[1..][i - 1]); }
      }
    }
  }

  lemma ThinkingIsWithheld(b: Json, rules: Rules, marker: string)
    ensures ThinkingWithheld(b, WithheldThinkingBlock(b, rules, marker), rules, marker)
  {
    if b.JObject? {
      var after := WithheldThoughts(b.fields, marker);
      ThoughtsAreWithheld(b.fields, marker);
      ThoughtIff(b.fields);
      UnsignedBlockIs(after, rules.withheldBlock);
      if HasThought(b.fields) {
        assert BlockMarked(after, WithheldThinkingBlock(b, rules, marker), rules.withheldBlock);
      }
    }
  }

  lemma ThinkingAreWithheld(v: Json, rules: Rules, marker: string)
    ensures EachScrubbed(v, EachOf(v, (b: Json) => WithheldThinkingBlock(b, rules, marker)), ThinkingMarks(rules, marker))
  {
    var f := (b: Json) => WithheldThinkingBlock(b, rules, marker);
    var rel := ThinkingMarks(rules, marker);
    forall b: Json ensures rel(b, f(b)) { ThinkingIsWithheld(b, rules, marker); }
    EachOfIs(v, f, rel);
  }

  lemma {:induction false} AnyIsWithheld(v: Json, marker: string)
    ensures AnyScrubbed(v, WithheldAny(v, marker), Marks(marker))
    decreases v
  {
    match v
    case JArray(items) => ItemsAreWithheld(items, marker);
    case JObject(fields) => MappingIsWithheld(fields, marker);
    case _ =>
  }

  lemma {:induction false} ItemsAreWithheld(items: seq<Json>, marker: string)
    ensures ItemsScrubbed(items, WithheldItems(items, marker), Marks(marker))
    decreases items
  {
    if items != [] {
      var rest, after := WithheldItems(items[1..], marker), WithheldItems(items, marker);
      AnyIsWithheld(items[0], marker);
      ItemsAreWithheld(items[1..], marker);
      assert after == [WithheldAny(items[0], marker)] + rest;
      forall i | 0 <= i < |items| ensures AnyScrubbed(items[i], after[i], Marks(marker)) {
        if i > 0 { assert items[i] == items[1..][i - 1] && after[i] == rest[i - 1]; }
      }
    }
  }

  /** A withheld mapping keeps its keys and its shape; every text in it that is not empty is the marker. */
  lemma {:induction false} MappingIsWithheld(fields: seq<Field>, marker: string)
    ensures FieldsScrubbed(fields, WithheldMapping(fields, marker), Marks(marker))
    decreases fields
  {
    if fields != [] {
      var rest, after := WithheldMapping(fields[1..], marker), WithheldMapping(fields, marker);
      AnyIsWithheld(fields[0].value, marker);
      MappingIsWithheld(fields[1..], marker);
      assert after == [Field(fields[0].key, WithheldAny(fields[0].value, marker))] + rest;
      forall i | 0 <= i < |fields|
        ensures after[i].key == fields[i].key && AnyScrubbed(fields[i].value, after[i].value, Marks(marker))
      {
        if i > 0 { assert fields[i] == fields[1..][i - 1] && after[i] == rest[i - 1]; }
      }
    }
  }

  lemma PartIsWithheld(v: Json, p: Part, rules: Rules, marker: string)
    requires p in PARTS
    ensures PartWithheld(p, v, WithheldPart(v, p, rules, marker), rules, marker)
  {
    match p {
      case Content => ContentIsWithheld(v, rules, marker);
      case ToolCalls => CallsAreWithheld(v, rules, marker);
      case Reasoning => AnyIsWithheld(v, marker);
      case Thinking => ThinkingAreWithheld(v, rules, marker);
    }
  }

  // ---------------------------------------------------------------- the records

  lemma {:induction false} SetPartsHas(x: seq<Field>, parts: seq<Part>, f: (Part, Json) -> Json, key: string)
    ensures Has(SetParts(x, parts, f), key) <==> Has(x, key)
    decreases |parts|
  {
    if parts != [] {
      var g := (v: Json) => f(parts[0], v);
      SetGet(x, PartKey(parts[0]), g, key);
      SetPartsHas(SetIfHas(x, PartKey(parts[0]), g), parts[1..], f, key);
    }
  }

  /** Every part that is there is set by the rule; a part that is missing is not added. */
  lemma SetPartsDone(x: seq<Field>, parts: seq<Part>, f: (Part, Json) -> Json, rule: Rule)
    requires Distinct(parts)
    requires forall p, v :: p in parts ==> rule(p, v, f(p, v))
    requires forall p :: p in parts ==> rule(p, JNull, JNull)
    ensures PartsDone(x, parts, SetParts(x, parts, f), rule)
  {
    var r := SetParts(x, parts, f);
    forall k ensures Has(r, k) <==> Has(x, k) { SetPartsHas(x, parts, f, k); }
    forall k | forall p :: p in parts ==> PartKey(p) != k ensures Get(r, k) == Get(x, k) {
      NoPartHas(parts, k);
      SetPartsGet(x, parts, f, k);
    }
    forall p | p in parts ensures rule(p, Get(x, PartKey(p)), Get(r, PartKey(p))) {
      SetPartsGet(x, parts, f, PartKey(p));
      if !Has(x, PartKey(p)) {
        MissingIsNull(x, PartKey(p));
        MissingIsNull(r, PartKey(p));
      }
    }
  }

  lemma {:induction false} NoPartHas(parts: seq<Part>, k: string)
    requires forall p :: p in parts ==> PartKey(p) != k
    ensures k !in Keys(parts)
  {
    if parts != [] {
      assert parts[0] in parts;
      NoPartHas(parts[1..], k);
    }
  }

  /** A withheld message: a marker in the place of each text the scrub would have asked about. */
  lemma WithheldMessageIs(m: seq<Field>, rules: Rules, marker: string)
    ensures MessageWithheld(m, WithheldMessage(m, rules, marker), rules, marker)
  {
    var f := (p: Part, v: Json) => WithheldPart(v, p, rules, marker);
    var rule := WithheldRule(rules, marker);
    forall p, v | p in PARTS ensures rule(p, v, f(p, v)) { PartIsWithheld(v, p, rules, marker); }
    SetPartsDone(m, PARTS, f, rule);
    FourPartsWithheld(m, WithheldMessage(m, rules, marker), rules, marker);
  }

  lemma FourPartsWithheld(m: seq<Field>, r: seq<Field>, rules: Rules, marker: string)
    requires PartsDone(m, PARTS, r, WithheldRule(rules, marker))
    ensures MessageWithheld(m, r, rules, marker)
  {
    assert Content in PARTS && ToolCalls in PARTS && Reasoning in PARTS && Thinking in PARTS;
    forall k | k !in {"content", "tool_calls", "reasoning_content", "thinking_blocks"} ensures Get(r, k) == Get(m, k) {
      assert forall p :: p in PARTS ==> PartKey(p) != k;
    }
  }

  lemma StageIsWithheld(v: Json, p: Part, rules: Rules, marker: string)
    requires p in STAGES
    ensures PartWithheld(p, v, WithheldStage(v, p, rules, marker), rules, marker)
  {
    match p {
      case AssistantMessage => RecordIsWithheld(v, rules, marker);
      case CompletedResults =>
        var f := (m: Json) => WithheldResult(m, rules, marker);
        var rel := RecordMarked(rules, marker);
        forall m: Json ensures rel(m, f(m)) { RecordIsWithheld(m, rules, marker); }
        EachOfIs(v, f, rel);
      case PendingCalls => CallsAreWithheld(v, rules, marker);
    }
  }

  lemma RecordIsWithheld(v: Json, rules: Rules, marker: string)
    ensures RecordWithheld(v, WithheldResult(v, rules, marker), rules, marker)
  {
    if v.JObject? { WithheldMessageIs(v.fields, rules, marker); }
  }

  /** A withheld checkpoint: the same in its assistant message, each completed result and each pending
      call. */
  lemma WithheldCheckpointIs(c: seq<Field>, rules: Rules, marker: string)
    ensures CheckpointWithheld(c, WithheldCheckpoint(c, rules, marker), rules, marker)
  {
    var f := (p: Part, v: Json) => WithheldStage(v, p, rules, marker);
    var rule := WithheldRule(rules, marker);
    forall p, v | p in STAGES ensures rule(p, v, f(p, v)) { StageIsWithheld(v, p, rules, marker); }
    SetPartsDone(c, STAGES, f, rule);
    ThreePartsWithheld(c, WithheldCheckpoint(c, rules, marker), rules, marker);
  }

  lemma ThreePartsWithheld(c: seq<Field>, r: seq<Field>, rules: Rules, marker: string)
    requires PartsDone(c, STAGES, r, WithheldRule(rules, marker))
    ensures CheckpointWithheld(c, r, rules, marker)
  {
    assert AssistantMessage in STAGES && CompletedResults in STAGES && PendingCalls in STAGES;
    forall k | k !in {"assistant_message", "completed_tool_results", "pending_tool_calls"} ensures Get(r, k) == Get(c, k) {
      assert forall p :: p in STAGES ==> PartKey(p) != k;
    }
  }
}
