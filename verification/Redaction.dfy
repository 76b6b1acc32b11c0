/** What a durable record keeps: the structure, with each text replaced by the scrubber's
    answer, or by a marker when no scrubber answered. */
module Redaction {
  import opened Transcript
  import opened Batching

  datatype Json =
    | JNull
    | JBool(flag: bool)
    | JNumber(literal: string)
    | JString(text: string)
    | JArray(items: seq<Json>)
    | JObject(fields: seq<Field>)

  datatype Field = Field(key: string, value: Json)

  const CREDENTIAL_ACCESS := "credential.access"
  const MARKER_KEY := "nanoinfra_scrubbed"

  /** The class of a tool, the bound on tool output, and how a value prints; the texts of the
      markers. */
  datatype Rules = Rules(
    capabilityOf: string -> Option<string>,
    bounded: bool,
    bound: string -> string,
    show: Json -> string,
    scrubbedCall: string,
    withheldCall: string,
    scrubbedBlock: string,
    withheldBlock: string,
    withheldArguments: string -> string)

  // ---------------------------------------------------------------- records

  predicate Has(fields: seq<Field>, key: string) {
    fields != [] && (fields[0].key == key || Has(fields[1..], key))
  }

  /** The value of a key, null when it is missing. */
  function Get(fields: seq<Field>, key: string): Json {
    if fields == [] then JNull
    else if fields[0].key == key then fields[0].value else Get(fields[1..], key)
  }

  function Put(fields: seq<Field>, key: string, value: Json): seq<Field> {
    if fields == [] then [Field(key, value)]
    else if fields[0].key == key then [Field(key, value)] + fields[1..]
    else [fields[0]] + Put(fields[1..], key, value)
  }

  function Remove(fields: seq<Field>, key: string): seq<Field> {
    if fields == [] then []
    else if fields[0].key == key then Remove(fields[1..], key)
    else [fields[0]] + Remove(fields[1..], key)
  }

  lemma {:induction false} PutGet(fields: seq<Field>, key: string, value: Json, other: string)
    ensures Get(Put(fields, key, value), other) == if other == key then value else Get(fields, other)
    ensures Has(Put(fields, key, value), other) <==> other == key || Has(fields, other)
  {
    if fields != [] && fields[0].key != key {
      PutGet(fields[1..], key, value, other);
      assert Put(fields, key, value)[1..] == Put(fields[1..], key, value);
    } else if fields == [] {
      assert Put(fields, key, value)[1..] == [];
    } else {
      assert Put(fields, key, value)[1..] == fields[1..];
    }
  }

  lemma {:induction false} RemoveGet(fields: seq<Field>, key: string, other: string)
    ensures Get(Remove(fields, key), other) == if other == key then JNull else Get(fields, other)
    ensures Has(Remove(fields, key), other) <==> other != key && Has(fields, other)
  {
    if fields != [] {
      RemoveGet(fields[1..], key, other);
      if fields[0].key != key {
        assert Remove(fields, key)[1..] == Remove(fields[1..], key);
      }
    }
  }

  // ---------------------------------------------------------------- any value

  function Ask(text: string, cap: Option<string>, scrub: Scrubber, n: nat): Walked<string> {
    Walked(scrub(n, Asked(text, cap)), [Asked(text, cap)])
  }

  function RedactAny(v: Json, scrub: Scrubber, n: nat): Walked<Json>
    decreases v
  {
    match v
    case JString(text) =>
      var w := Ask(text, None, scrub, n);
      Walked(JString(w.value), w.asked)
    case JArray(items) =>
      var w := RedactItems(items, scrub, n);
      Walked(JArray(w.value), w.asked)
    case JObject(fields) =>
      var w := RedactMapping(fields, scrub, n);
      Walked(JObject(w.value), w.asked)
    case _ => Walked(v, [])
  }

  function RedactItems(items: seq<Json>, scrub: Scrubber, n: nat): Walked<seq<Json>>
    decreases items
  {
    if items == [] then Walked([], [])
    else
      var first := RedactAny(items[0], scrub, n);
      var rest := RedactItems(items[1..], scrub, n + |first.asked|);
      Walked([first.value] + rest.value, first.asked + rest.asked)
  }

  function RedactMapping(fields: seq<Field>, scrub: Scrubber, n: nat): Walked<seq<Field>>
    decreases fields
  {
    if fields == [] then Walked([], [])
    else
      var first := RedactAny(fields[0].value, scrub, n);
      var rest := RedactMapping(fields[1..], scrub, n + |first.asked|);
      Walked([Field(fields[0].key, first.value)] + rest.value, first.asked + rest.asked)
  }

  // ---------------------------------------------------------------- a message

  /** How one item of a list is filled in, and how the list is. */
  type ItemWalk = (Json, Scrubber, nat) -> Walked<Json>

  function WalkItems(items: seq<Json>, walk: ItemWalk, scrub: Scrubber, n: nat): Walked<seq<Json>> {
    if items == [] then Walked([], [])
    else
      var first := walk(items[0], scrub, n);
      var rest := WalkItems(items[1..], walk, scrub, n + |first.asked|);
      Walked([first.value] + rest.value, first.asked + rest.asked)
  }

  function WalkArray(v: Json, walk: ItemWalk, scrub: Scrubber, n: nat): Walked<Json> {
    if v.JArray? then
      var w := WalkItems(v.items, walk, scrub, n);
      Walked(JArray(w.value), w.asked)
    else Walked(v, [])
  }

  function RedactText(text: string, cap: Option<string>, bounded: bool, rules: Rules,
                      scrub: Scrubber, n: nat): Walked<string>
  {
    var w := Ask(text, cap, scrub, n);
    Walked(if bounded then rules.bound(w.value) else w.value, w.asked)
  }

  function RedactBlock(block: Json, cap: Option<string>, bounded: bool, rules: Rules,
                       scrub: Scrubber, n: nat): Walked<Json>
  {
    if block.JObject? && Get(block.fields, "text").JString? then
      var w := RedactText(Get(block.fields, "text").text, cap, bounded, rules, scrub, n);
      Walked(JObject(Put(block.fields, "text", JString(w.value))), w.asked)
    else Walked(block, [])
  }

  function BlockWalk(cap: Option<string>, bounded: bool, rules: Rules): ItemWalk {
    (block: Json, scrub: Scrubber, n: nat) => RedactBlock(block, cap, bounded, rules, scrub, n)
  }

  function RedactContent(content: Json, cap: Option<string>, bounded: bool, rules: Rules,
                         scrub: Scrubber, n: nat): Walked<Json>
  {
    match content
    case JString(text) =>
      var w := RedactText(text, cap, bounded, rules, scrub, n);
      Walked(JString(w.value), w.asked)
    case JArray(_) => WalkArray(content, BlockWalk(cap, bounded, rules), scrub, n)
    case _ => Walked(content, [])
  }

  // Tool calls and their signatures.

  predicate SignedBy(fields: seq<Field>) {
    Get(fields, "signature") != JNull || Get(fields, "thought_signature") != JNull
  }

  function Unsigned(fields: seq<Field>): seq<Field> {
    Remove(Remove(fields, "signature"), "thought_signature")
  }

  function FunctionOf(call: seq<Field>): Json { Get(call, "function") }

  function UnsignedToolCall(call: seq<Field>, marker: string): seq<Field> {
    var outer := Unsigned(call);
    var fn := FunctionOf(outer);
    var inner := if fn.JObject? then Put(outer, "function", JObject(Unsigned(fn.fields))) else outer;
    if SignedBy(call) || (fn.JObject? && SignedBy(fn.fields))
    then Put(inner, MARKER_KEY, JString(marker))
    else inner
  }

  function Arguments(call: seq<Field>): Option<string> {
    var fn := FunctionOf(call);
    if fn.JObject? && Get(fn.fields, "arguments").JString? then Some(Get(fn.fields, "arguments").text) else None
  }

  function WithArguments(call: seq<Field>, arguments: string): seq<Field> {
    var fn := FunctionOf(call);
    if fn.JObject? then Put(call, "function", JObject(Put(fn.fields, "arguments", JString(arguments)))) else call
  }

  function RedactToolCall(call: seq<Field>, rules: Rules, scrub: Scrubber, n: nat): Walked<seq<Field>> {
    match Arguments(call)
    case None => Walked(call, [])
    case Some(arguments) =>
      var w := Ask(arguments, None, scrub, n);
      var copy := WithArguments(call, w.value);
      Walked(if w.value != arguments then UnsignedToolCall(copy, rules.scrubbedCall) else copy, w.asked)
  }

  function CallWalk(rules: Rules): ItemWalk {
    (call: Json, scrub: Scrubber, n: nat) =>
      if call.JObject? then
        var w := RedactToolCall(call.fields, rules, scrub, n);
        Walked(JObject(w.value), w.asked)
      else Walked(call, [])
  }

  function RedactToolCalls(calls: Json, rules: Rules, scrub: Scrubber, n: nat): Walked<Json> {
    WalkArray(calls, CallWalk(rules), scrub, n)
  }

  // Thinking blocks and their signature.

  predicate Literal(f: Field) {
    f.key == "type" || f.key == "signature" || f.key == MARKER_KEY || !f.value.JString? || f.value.text == ""
  }

  function ScrubThoughts(fields: seq<Field>, scrub: Scrubber, n: nat): Walked<seq<Field>> {
    if fields == [] then Walked([], [])
    else if Literal(fields[0]) then
      var rest := ScrubThoughts(fields[1..], scrub, n);
      Walked([fields[0]] + rest.value, rest.asked)
    else
      var first := Ask(fields[0].value.text, None, scrub, n);
      var rest := ScrubThoughts(fields[1..], scrub, n + 1);
      Walked([Field(fields[0].key, JString(first.value))] + rest.value, first.asked + rest.asked)
  }

  function UnsignedThinkingBlock(fields: seq<Field>, marker: string): seq<Field> {
    Put(Remove(fields, "signature"), MARKER_KEY, JString(marker))
  }

  function RedactThinkingBlock(block: Json, rules: Rules, scrub: Scrubber, n: nat): Walked<Json> {
    if block.JObject? then
      var w := ScrubThoughts(block.fields, scrub, n);
      Walked(JObject(if w.value == block.fields then w.value else UnsignedThinkingBlock(w.value, rules.scrubbedBlock)),
             w.asked)
    else Walked(block, [])
  }

  function ThinkingWalk(rules: Rules): ItemWalk {
    (block: Json, scrub: Scrubber, n: nat) => RedactThinkingBlock(block, rules, scrub, n)
  }

  function RedactThinkingBlocks(blocks: Json, rules: Rules, scrub: Scrubber, n: nat): Walked<Json> {
    WalkArray(blocks, ThinkingWalk(rules), scrub, n)
  }

  function RedactReasoning(value: Json, scrub: Scrubber, n: nat): Walked<Json> {
    if value.JString? && value.text != "" then
      var w := Ask(value.text, None, scrub, n);
      Walked(JString(w.value), w.asked)
    else Walked(value, [])
  }

  // The fields, one after the other.

  /** The fields of a message, and those of a checkpoint, that hold text. */
  datatype Part =
    | Content | ToolCalls | Reasoning | Thinking
    | AssistantMessage | CompletedResults | PendingCalls

  function PartKey(p: Part): string {
    match p
    case Content => "content"
    case ToolCalls => "tool_calls"
    case Reasoning => "reasoning_content"
    case Thinking => "thinking_blocks"
    case AssistantMessage => "assistant_message"
    case CompletedResults => "completed_tool_results"
    case PendingCalls => "pending_tool_calls"
  }

  lemma KeysDiffer(p: Part, q: Part)
    ensures PartKey(p) == PartKey(q) <==> p == q
    ensures PartKey(p) != "role" && PartKey(p) != "name"
  {
    assert |PartKey(Content)| == 7 && |PartKey(ToolCalls)| == 10;
    assert |PartKey(Reasoning)| == 17 && |PartKey(Thinking)| == 15;
    assert |PartKey(AssistantMessage)| == 17 && |PartKey(CompletedResults)| == 22 && |PartKey(PendingCalls)| == 18;
    assert PartKey(Reasoning)[0] == 'r' && PartKey(AssistantMessage)[0] == 'a';
    assert |"role"| == 4 && |"name"| == 4;
  }

  ghost predicate Distinct(parts: seq<Part>) {
    forall i, j :: 0 <= i < j < |parts| ==> parts[i] != parts[j]
  }

  predicate IsToolResult(m: seq<Field>) { Get(m, "role") == JString("tool") }

  function ClassOf(m: seq<Field>, rules: Rules): Option<string> {
    if IsToolResult(m) && Get(m, "name").JString? then rules.capabilityOf(Get(m, "name").text) else None
  }

  function RedactPartValue(m: seq<Field>, p: Part, rules: Rules, scrub: Scrubber, n: nat): Walked<Json> {
    var v := Get(m, PartKey(p));
    match p
    case Content => RedactContent(v, ClassOf(m, rules), rules.bounded && IsToolResult(m), rules, scrub, n)
    case ToolCalls => RedactToolCalls(v, rules, scrub, n)
    case Reasoning => RedactReasoning(v, scrub, n)
    case Thinking => RedactThinkingBlocks(v, rules, scrub, n)
    case _ => Walked(v, [])
  }

  function RedactPart(m: seq<Field>, p: Part, rules: Rules, scrub: Scrubber, n: nat): Walked<seq<Field>> {
    if Has(m, PartKey(p)) then
      var w := RedactPartValue(m, p, rules, scrub, n);
      Walked(Put(m, PartKey(p), w.value), w.asked)
    else Walked(m, [])
  }

  /** How one field of a message is filled in. */
  type Step = (seq<Field>, Part, Scrubber, nat) -> Walked<seq<Field>>

  function PartStep(rules: Rules): Step {
    (m: seq<Field>, p: Part, scrub: Scrubber, n: nat) => RedactPart(m, p, rules, scrub, n)
  }

  function RedactParts(m: seq<Field>, parts: seq<Part>, step: Step, scrub: Scrubber, n: nat): Walked<seq<Field>>
    decreases |parts|
  {
    if parts == [] then Walked(m, [])
    else
      var first := step(m, parts[0], scrub, n);
      var rest := RedactParts(first.value, parts[1..], step, scrub, n + |first.asked|);
      Walked(rest.value, first.asked + rest.asked)
  }

  const PARTS := [Content, ToolCalls, Reasoning, Thinking]

  /** A credential result drops whole; any other message keeps its structure. */
  function RedactMessage(m: seq<Field>, rules: Rules, scrub: Scrubber, n: nat): Walked<seq<Field>> {
    if ClassOf(m, rules) == Some(CREDENTIAL_ACCESS) then
      var content := Get(m, "content");
      var text := if content.JString? then content.text else rules.show(content);
      var w := Ask(text, Some(CREDENTIAL_ACCESS), scrub, n);
      Walked(Put(m, "content", JString(w.value)), w.asked)
    else RedactParts(m, PARTS, PartStep(rules), scrub, n)
  }

  function ResultWalk(rules: Rules): ItemWalk {
    (m: Json, scrub: Scrubber, n: nat) =>
      if m.JObject? then
        var w := RedactMessage(m.fields, rules, scrub, n);
        Walked(JObject(w.value), w.asked)
      else Walked(m, [])
  }

  // ---------------------------------------------------------------- a checkpoint

  function RedactStageValue(v: Json, p: Part, rules: Rules, scrub: Scrubber, n: nat): Walked<Json> {
    match p
    case AssistantMessage =>
      if v.JObject? then
        var w := RedactMessage(v.fields, rules, scrub, n);
        Walked(JObject(w.value), w.asked)
      else Walked(v, [])
    case CompletedResults => WalkArray(v, ResultWalk(rules), scrub, n)
    case PendingCalls => RedactToolCalls(v, rules, scrub, n)
    case _ => Walked(v, [])
  }

  function RedactStage(c: seq<Field>, p: Part, rules: Rules, scrub: Scrubber, n: nat): Walked<seq<Field>> {
    if Has(c, PartKey(p)) then
      var w := RedactStageValue(Get(c, PartKey(p)), p, rules, scrub, n);
      Walked(Put(c, PartKey(p), w.value), w.asked)
    else Walked(c, [])
  }

  function StageStep(rules: Rules): Step {
    (c: seq<Field>, p: Part, scrub: Scrubber, n: nat) => RedactStage(c, p, rules, scrub, n)
  }

  const STAGES := [AssistantMessage, CompletedResults, PendingCalls]

  /** The bound on tool output stays off in a checkpoint. */
  function RedactCheckpoint(c: seq<Field>, rules: Rules, scrub: Scrubber, n: nat): Walked<seq<Field>> {
    RedactParts(c, STAGES, StageStep(rules.(bounded := false)), scrub, n)
  }
}
