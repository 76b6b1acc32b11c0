/** What a scrubbed record is, read from its fields: which texts it asked about, in which order, and
    where each answer stands. */
module ScrubbedRecords {
  import opened Transcript
  import opened Batching
  import opened Redaction
  import opened RedactionBatches
  import opened Withholding

  /** The answers of a scrubber that is handed one text at a time. */
  type PerText = Asked -> string

  /** All keys but these have the value they had. */
  ghost predicate SameBut(x: seq<Field>, y: seq<Field>, keys: set<string>) {
    && (forall k {:trigger Get(y, k)} :: k !in keys ==> Get(y, k) == Get(x, k))
    && (forall k {:trigger Has(y, k)} :: k !in keys ==> (Has(y, k) <==> Has(x, k)))
  }

  // ---------------------------------------------------------------- what stands where

  ghost predicate TextScrubbed(text: string, cap: Option<string>, bounded: bool, rules: Rules, s: PerText, v: Json) {
    var answer := s(Asked(text, cap));
    v == JString(if bounded then rules.bound(answer) else answer)
  }

  ghost predicate BlockScrubbed(b: Json, c: Json, cap: Option<string>, bounded: bool, rules: Rules, s: PerText) {
    if b.JObject? && Get(b.fields, "text").JString? then
      && c.JObject? && SameBut(b.fields, c.fields, {"text"})
      && TextScrubbed(Get(b.fields, "text").text, cap, bounded, rules, s, Get(c.fields, "text"))
    else c == b
  }

  /** A list is filled in item by item; anything else stays. */
  ghost predicate EachScrubbed(v: Json, w: Json, rel: (Json, Json) -> bool) {
    if v.JArray? then
      w.JArray? && |w.items| == |v.items| && forall i :: 0 <= i < |v.items| ==> rel(v.items[i], w.items[i])
    else w == v
  }

  ghost function BlockRule(cap: Option<string>, bounded: bool, rules: Rules, s: PerText): (Json, Json) -> bool {
    (b: Json, c: Json) => BlockScrubbed(b, c, cap, bounded, rules, s)
  }

  ghost predicate ContentScrubbed(v: Json, w: Json, cap: Option<string>, bounded: bool, rules: Rules, s: PerText) {
    if v.JString? then TextScrubbed(v.text, cap, bounded, rules, s, w)
    else EachScrubbed(v, w, BlockRule(cap, bounded, rules, s))
  }

  predicate HasArguments(call: Json) {
    && call.JObject? && Get(call.fields, "function").JObject?
    && Get(Get(call.fields, "function").fields, "arguments").JString?
  }

  predicate Signs(fields: seq<Field>) {
    Get(fields, "signature") != JNull || Get(fields, "thought_signature") != JNull
  }

  /** The call with other arguments: no signature is left, inside or out, and the call says so if there
      was one. All else stays. */
  ghost predicate CallFilled(call: Json, r: Json, answer: string, mark: string)
    requires HasArguments(call)
  {
    var fn := Get(call.fields, "function").fields;
    && r.JObject? && Get(r.fields, "function").JObject?
    && (var fn' := Get(r.fields, "function").fields;
        && Get(fn', "arguments") == JString(answer) && !Signs(fn') && !Signs(r.fields)
        && SameBut(fn, fn', {"arguments", "signature", "thought_signature"})
        && SameBut(call.fields, r.fields, {"function", "signature", "thought_signature", "nanoinfra_scrubbed"})
        && Get(r.fields, "nanoinfra_scrubbed") ==
             if Signs(call.fields) || Signs(fn) then JString(mark) else Get(call.fields, "nanoinfra_scrubbed"))
  }

  /** A call has its arguments answered, and is another only if that changes them. */
  ghost predicate CallScrubbed(call: Json, r: Json, rules: Rules, s: PerText) {
    if !HasArguments(call) then r == call
    else
      var arguments := Get(Get(call.fields, "function").fields, "arguments").text;
      var answer := s(Asked(arguments, None));
      if answer == arguments then r == call else CallFilled(call, r, answer, rules.scrubbedCall)
  }

  ghost function CallRule(rules: Rules, s: PerText): (Json, Json) -> bool {
    (a: Json, b: Json) => CallScrubbed(a, b, rules, s)
  }

  predicate IsThought(f: Field) {
    && f.key != "type" && f.key != "signature" && f.key != "nanoinfra_scrubbed"
    && f.value.JString? && f.value.text != ""
  }

  ghost predicate ThoughtsScrubbed(fields: seq<Field>, after: seq<Field>, s: PerText) {
    |after| == |fields| && forall i :: 0 <= i < |fields| ==>
      && after[i].key == fields[i].key
      && after[i].value == if IsThought(fields[i]) then JString(s(Asked(fields[i].value.text, None))) else fields[i].value
  }

  /** A thinking block has its texts answered; if that changes one, it loses its signature and says
      so. */
  ghost predicate ThinkingScrubbed(b: Json, c: Json, rules: Rules, s: PerText) {
    if !b.JObject? then c == b
    else exists after :: ThoughtsScrubbed(b.fields, after, s) && ThinkingMarked(b, after, c, rules)
  }

  ghost predicate ThinkingMarked(b: Json, after: seq<Field>, c: Json, rules: Rules)
    requires b.JObject?
  {
    && (after == b.fields ==> c == b)
    && (after != b.fields ==> BlockMarked(after, c, rules.scrubbedBlock))
  }

  ghost predicate BlockMarked(after: seq<Field>, c: Json, mark: string) {
    && c.JObject? && SameBut(after, c.fields, {"signature", "nanoinfra_scrubbed"})
    && Get(c.fields, "signature") == JNull && Get(c.fields, "nanoinfra_scrubbed") == JString(mark)
  }

  ghost function ThinkingRule(rules: Rules, s: PerText): (Json, Json) -> bool {
    (a: Json, b: Json) => ThinkingScrubbed(a, b, rules, s)
  }

  ghost predicate ReasoningScrubbed(v: Json, w: Json, s: PerText) {
    if v.JString? && v.text != "" then w == JString(s(Asked(v.text, None))) else w == v
  }

  /** The class of the tool whose result a message is. */
  function ToolClass(m: seq<Field>, rules: Rules): Option<string> {
    if Get(m, "role") == JString("tool") && Get(m, "name").JString?
    then rules.capabilityOf(Get(m, "name").text) else None
  }

  predicate IsCredential(m: seq<Field>, rules: Rules) { ToolClass(m, rules) == Some("credential.access") }

  function ShownContent(m: seq<Field>, rules: Rules): string {
    if Get(m, "content").JString? then Get(m, "content").text else rules.show(Get(m, "content"))
  }

  /** Of a message that is no credential, the content, the calls, the reasoning and the thinking are
      scrubbed, each by its rule; and every other key stays. */
  ghost predicate TextsScrubbed(m: seq<Field>, r: seq<Field>, rules: Rules, s: PerText) {
    && (forall k {:trigger Has(r, k)} :: Has(r, k) <==> Has(m, k))
    && SameBut(m, r, {"content", "tool_calls", "reasoning_content", "thinking_blocks"})
    && ContentScrubbed(Get(m, "content"), Get(r, "content"), ToolClass(m, rules),
                       rules.bounded && Get(m, "role") == JString("tool"), rules, s)
    && EachScrubbed(Get(m, "tool_calls"), Get(r, "tool_calls"), CallRule(rules, s))
    && ReasoningScrubbed(Get(m, "reasoning_content"), Get(r, "reasoning_content"), s)
    && EachScrubbed(Get(m, "thinking_blocks"), Get(r, "thinking_blocks"), ThinkingRule(rules, s))
  }

  /** A credential result is one answer. */
  ghost predicate CredentialScrubbed(m: seq<Field>, r: seq<Field>, rules: Rules, s: PerText) {
    && Get(r, "content") == JString(s(Asked(ShownContent(m, rules), Some("credential.access"))))
    && SameBut(m, r, {"content"})
  }

  ghost predicate MessageScrubbed(m: seq<Field>, r: seq<Field>, rules: Rules, s: PerText) {
    if IsCredential(m, rules) then CredentialScrubbed(m, r, rules, s) else TextsScrubbed(m, r, rules, s)
  }

  ghost predicate RecordScrubbed(v: Json, w: Json, rules: Rules, s: PerText) {
    if v.JObject? then w.JObject? && MessageScrubbed(v.fields, w.fields, rules, s) else w == v
  }

  ghost function RecordRule(rules: Rules, s: PerText): (Json, Json) -> bool {
    (a: Json, b: Json) => RecordScrubbed(a, b, rules, s)
  }

  /** The assistant message, each completed result and each pending call of a checkpoint; tool output
      is not bounded here. */
  ghost predicate CheckpointScrubbed(c: seq<Field>, r: seq<Field>, rules: Rules, s: PerText) {
    var free := rules.(bounded := false);
    && (forall k {:trigger Has(r, k)} :: Has(r, k) <==> Has(c, k))
    && SameBut(c, r, {"assistant_message", "completed_tool_results", "pending_tool_calls"})
    && RecordScrubbed(Get(c, "assistant_message"), Get(r, "assistant_message"), free, s)
    && EachScrubbed(Get(c, "completed_tool_results"), Get(r, "completed_tool_results"),
                    RecordRule(free, s))
    && EachScrubbed(Get(c, "pending_tool_calls"), Get(r, "pending_tool_calls"),
                    CallRule(free, s))
  }

  // ---------------------------------------------------------------- what is asked

  function OfEach(items: seq<Json>, texts: Json -> seq<Asked>): seq<Asked> {
    if items == [] then [] else texts(items[0]) + OfEach(items[1..], texts)
  }

  function OfArray(v: Json, texts: Json -> seq<Asked>): seq<Asked> {
    if v.JArray? then OfEach(v.items, texts) else []
  }

  function BlockTexts(b: Json, cap: Option<string>): seq<Asked> {
    if b.JObject? && Get(b.fields, "text").JString? then [Asked(Get(b.fields, "text").text, cap)] else []
  }

  function BlockAsks(cap: Option<string>): Json -> seq<Asked> { (b: Json) => BlockTexts(b, cap) }

  function ContentTexts(v: Json, cap: Option<string>): seq<Asked> {
    if v.JString? then [Asked(v.text, cap)] else OfArray(v, BlockAsks(cap))
  }

  function CallTexts(call: Json): seq<Asked> {
    if HasArguments(call) then [Asked(Get(Get(call.fields, "function").fields, "arguments").text, None)] else []
  }

  function ThoughtTexts(fields: seq<Field>): seq<Asked> {
    if fields == [] then []
    else (if IsThought(fields[0]) then [Asked(fields[0].value.text, None)] else []) + ThoughtTexts(fields[1..])
  }

  function ThinkingTexts(b: Json): seq<Asked> { if b.JObject? then ThoughtTexts(b.fields) else [] }

  function ReasoningTexts(v: Json): seq<Asked> {
    if v.JString? && v.text != "" then [Asked(v.text, None)] else []
  }

  /** The texts of a message, each with the class it is asked with, in order. */
  function MessageTexts(m: seq<Field>, rules: Rules): seq<Asked> {
    if IsCredential(m, rules) then [Asked(ShownContent(m, rules), Some("credential.access"))]
    else
      ContentTexts(Get(m, "content"), ToolClass(m, rules))
      + OfArray(Get(m, "tool_calls"), CallTexts)
      + ReasoningTexts(Get(m, "reasoning_content"))
      + OfArray(Get(m, "thinking_blocks"), ThinkingTexts)
  }

  function RecordTexts(v: Json, rules: Rules): seq<Asked> {
    if v.JObject? then MessageTexts(v.fields, rules) else []
  }

  function RecordAsks(rules: Rules): Json -> seq<Asked> { (v: Json) => RecordTexts(v, rules) }

  function CheckpointTexts(c: seq<Field>, rules: Rules): seq<Asked> {
    RecordTexts(Get(c, "assistant_message"), rules)
    + OfArray(Get(c, "completed_tool_results"), RecordAsks(rules))
    + OfArray(Get(c, "pending_tool_calls"), CallTexts)
  }

  // ---------------------------------------------------------------- lists

  /** The walk over one item does this to it and asks this, wherever it stands. */
  ghost predicate WalkIs(walk: ItemWalk, scrub: Scrubber, rel: (Json, Json) -> bool, texts: Json -> seq<Asked>) {
    forall v: Json, n: nat {:trigger walk(v, scrub, n)} ::
      rel(v, walk(v, scrub, n).value) && walk(v, scrub, n).asked == texts(v)
  }

  lemma {:induction false} ItemsAre(items: seq<Json>, walk: ItemWalk, scrub: Scrubber, n: nat,
                                    rel: (Json, Json) -> bool, texts: Json -> seq<Asked>)
    requires WalkIs(walk, scrub, rel, texts)
    ensures var w := WalkItems(items, walk, scrub, n);
      && |w.value| == |items| && w.asked == OfEach(items, texts)
      && forall i :: 0 <= i < |items| ==> rel(items[i], w.value[i])
  {
    if items != [] {
      var first := walk(items[0], scrub, n);
      var rest := WalkItems(items[1..], walk, scrub, n + |first.asked|);
      ItemsAre(items[1..], walk, scrub, n + |first.asked|, rel, texts);
      var w := WalkItems(items, walk, scrub, n);
      assert w.value == [first.value] + rest.value;
      forall i | 0 <= i < |items| ensures rel(items[i], w.value[i]) {
        if i > 0 { assert items[i] == items[1..][i - 1] && w.value[i] == rest.value[i - 1]; }
      }
    }
  }

  lemma ArrayIs(v: Json, walk: ItemWalk, scrub: Scrubber, n: nat, rel: (Json, Json) -> bool, texts: Json -> seq<Asked>)
    requires WalkIs(walk, scrub, rel, texts)
    ensures EachScrubbed(v, WalkArray(v, walk, scrub, n).value, rel)
    ensures WalkArray(v, walk, scrub, n).asked == OfArray(v, texts)
  {
    if v.JArray? { ItemsAre(v.items, walk, scrub, n, rel, texts); }
  }

  // ---------------------------------------------------------------- the parts of a message

  lemma PutBut(fields: seq<Field>, key: string, value: Json)
    ensures Get(Put(fields, key, value), key) == value && Has(Put(fields, key, value), key)
    ensures SameBut(fields, Put(fields, key, value), {key})
  {
    forall k ensures Get(Put(fields, key, value), k) == if k == key then value else Get(fields, k)
             ensures Has(Put(fields, key, value), k) <==> k == key || Has(fields, k)
    {
      PutGet(fields, key, value, k);
    }
  }

  lemma RemoveBut(fields: seq<Field>, key: string)
    ensures Get(Remove(fields, key), key) == JNull && SameBut(fields, Remove(fields, key), {key})
  {
    forall k ensures Get(Remove(fields, key), k) == if k == key then JNull else Get(fields, k)
             ensures Has(Remove(fields, key), k) <==> k != key && Has(fields, k)
    {
      RemoveGet(fields, key, k);
    }
  }

  lemma SameButOn(x: seq<Field>, y: seq<Field>, z: seq<Field>, a: set<string>, b: set<string>)
    requires SameBut(x, y, a) && SameBut(y, z, b)
    ensures SameBut(x, z, a + b)
  {
  }

  lemma BlockIs(b: Json, cap: Option<string>, bounded: bool, rules: Rules, s: PerText, n: nat)
    ensures BlockScrubbed(b, RedactBlock(b, cap, bounded, rules, Each(s), n).value, cap, bounded, rules, s)
    ensures RedactBlock(b, cap, bounded, rules, Each(s), n).asked == BlockTexts(b, cap)
  {
    if b.JObject? && Get(b.fields, "text").JString? {
      var answer := s(Asked(Get(b.fields, "text").text, cap));
      PutBut(b.fields, "text", JString(if bounded then rules.bound(answer) else answer));
    }
  }

  lemma ContentIs(v: Json, cap: Option<string>, bounded: bool, rules: Rules, s: PerText, n: nat)
    ensures ContentScrubbed(v, RedactContent(v, cap, bounded, rules, Each(s), n).value, cap, bounded, rules, s)
    ensures RedactContent(v, cap, bounded, rules, Each(s), n).asked == ContentTexts(v, cap)
  {
    if v.JArray? {
      var walk := BlockWalk(cap, bounded, rules);
      var rel := BlockRule(cap, bounded, rules, s);
      var texts := BlockAsks(cap);
      forall b: Json, k: nat ensures rel(b, walk(b, Each(s), k).value) && walk(b, Each(s), k).asked == texts(b) {
        BlockIs(b, cap, bounded, rules, s, k);
      }
      ArrayIs(v, walk, Each(s), n, rel, texts);
    }
  }

  lemma UnsignedBut(fields: seq<Field>)
    ensures !Signs(Unsigned(fields)) && SameBut(fields, Unsigned(fields), {"signature", "thought_signature"})
  {
    var once := Remove(fields, "signature");
    SignatureKeys();
    RemoveBut(fields, "signature");
    RemoveBut(once, "thought_signature");
    SameButOn(fields, once, Unsigned(fields), {"signature"}, {"thought_signature"});
    assert {"signature"} + {"thought_signature"} == {"signature", "thought_signature"};
    assert Get(Unsigned(fields), "signature") == Get(once, "signature");
  }

  lemma UnsignedAt(call: seq<Field>, marker: string, k: string)
    requires Get(call, "function").JObject?
    requires k != "function" && k != "signature" && k != "thought_signature" && k != "nanoinfra_scrubbed"
    ensures var r := UnsignedToolCall(call, marker); Get(r, k) == Get(call, k) && (Has(r, k) <==> Has(call, k))
  {
    var once := Remove(call, "signature");
    var outer := Unsigned(call);
    SignatureKeys();
    RemoveGet(call, "signature", k);
    RemoveGet(once, "thought_signature", k);
    UnsignedGet(call, "function");
    var inner := Put(outer, "function", JObject(Unsigned(Get(call, "function").fields)));
    PutGet(outer, "function", JObject(Unsigned(Get(call, "function").fields)), k);
    PutGet(inner, MARKER_KEY, JString(marker), k);
  }

  lemma UnsignedFunction(call: seq<Field>, marker: string)
    requires Get(call, "function").JObject?
    ensures Get(UnsignedToolCall(call, marker), "function") == JObject(Unsigned(Get(call, "function").fields))
  {
    SignatureKeys();
    UnsignedGet(call, "function");
    var outer, plain := Unsigned(call), JObject(Unsigned(Get(call, "function").fields));
    InnerGet(outer, plain, "function");
    MarkedGet(Put(outer, "function", plain), marker, "function");
  }

  /** The unsigned call, for a call that has a function. */
  lemma UnsignedIs(call: seq<Field>, marker: string)
    requires Get(call, "function").JObject?
    ensures var r, fn := UnsignedToolCall(call, marker), Get(call, "function").fields;
      && Get(r, "function") == JObject(Unsigned(fn)) && !Signs(r)
      && SameBut(call, r, {"function", "signature", "thought_signature", "nanoinfra_scrubbed"})
      && Get(r, "nanoinfra_scrubbed") ==
           if Signs(call) || Signs(fn) then JString(marker) else Get(call, "nanoinfra_scrubbed")
  {
    var r := UnsignedToolCall(call, marker);
    UnsignedFunction(call, marker);
    UnsignedCall(call, marker, "id");
    forall k | k !in {"function", "signature", "thought_signature", "nanoinfra_scrubbed"}
      ensures Get(r, k) == Get(call, k) && (Has(r, k) <==> Has(call, k))
    {
      UnsignedAt(call, marker, k);
    }
  }

  lemma FilledFunction(fn: seq<Field>, answer: string)
    ensures var fn' := Unsigned(Put(fn, "arguments", JString(answer)));
      && Get(fn', "arguments") == JString(answer) && !Signs(fn')
      && SameBut(fn, fn', {"arguments", "signature", "thought_signature"})
    ensures Signs(Put(fn, "arguments", JString(answer))) <==> Signs(fn)
  {
    SignatureKeys();
    var filled := Put(fn, "arguments", JString(answer));
    PutBut(fn, "arguments", JString(answer));
    UnsignedBut(filled);
    SameButOn(fn, filled, Unsigned(filled), {"arguments"}, {"signature", "thought_signature"});
    assert {"arguments"} + {"signature", "thought_signature"} == {"arguments", "signature", "thought_signature"};
  }

  lemma CallIs(call: Json, rules: Rules, s: PerText, n: nat)
    ensures CallScrubbed(call, CallWalk(rules)(call, Each(s), n).value, rules, s)
    ensures CallWalk(rules)(call, Each(s), n).asked == CallTexts(call)
  {
    if HasArguments(call) {
      var fn := Get(call.fields, "function").fields;
      var answer := s(Asked(Get(fn, "arguments").text, None));
      assert Arguments(call.fields) == Some(Get(fn, "arguments").text);
      ArgumentsSet(call.fields, answer, "id");
      ChangedCallIs(call.fields, rules.scrubbedCall, answer);
      FilledFunction(fn, answer);
    }
  }

  lemma ChangedCallIs(call: seq<Field>, marker: string, answer: string)
    requires HasArguments(JObject(call))
    ensures var r, fn := UnsignedToolCall(WithArguments(call, answer), marker), Get(call, "function").fields;
      && Get(r, "function") == JObject(Unsigned(Put(fn, "arguments", JString(answer)))) && !Signs(r)
      && SameBut(call, r, {"function", "signature", "thought_signature", "nanoinfra_scrubbed"})
      && Get(r, "nanoinfra_scrubbed") ==
           if Signs(call) || Signs(fn) then JString(marker) else Get(call, "nanoinfra_scrubbed")
  {
    SignatureKeys();
    var fn := Get(call, "function").fields;
    var filled := JObject(Put(fn, "arguments", JString(answer)));
    var copy := WithArguments(call, answer);
    FilledFunction(fn, answer);
    PutGet(call, "function", filled, "function");
    PutGet(call, "function", filled, "signature");
    PutGet(call, "function", filled, "thought_signature");
    PutGet(call, "function", filled, MARKER_KEY);
    UnsignedIs(copy, marker);
    var r := UnsignedToolCall(copy, marker);
    forall k | k !in {"function", "signature", "thought_signature", "nanoinfra_scrubbed"}
      ensures Get(r, k) == Get(call, k) && (Has(r, k) <==> Has(call, k))
    {
      UnsignedAt(copy, marker, k);
      PutGet(call, "function", filled, k);
    }
  }

  lemma CallsAre(v: Json, rules: Rules, s: PerText, n: nat)
    ensures EachScrubbed(v, RedactToolCalls(v, rules, Each(s), n).value, CallRule(rules, s))
    ensures RedactToolCalls(v, rules, Each(s), n).asked == OfArray(v, CallTexts)
  {
    var rel := CallRule(rules, s);
    forall b: Json, k: nat
      ensures rel(b, CallWalk(rules)(b, Each(s), k).value) && CallWalk(rules)(b, Each(s), k).asked == CallTexts(b)
    {
      CallIs(b, rules, s, k);
    }
    ArrayIs(v, CallWalk(rules), Each(s), n, rel, CallTexts);
  }

  lemma {:induction false} ThoughtsAre(fields: seq<Field>, s: PerText, n: nat)
    ensures ThoughtsScrubbed(fields, ScrubThoughts(fields, Each(s), n).value, s)
    ensures ScrubThoughts(fields, Each(s), n).asked == ThoughtTexts(fields)
  {
    if fields != [] {
      var next := if Literal(fields[0]) then n else n + 1;
      ThoughtsAre(fields[1..], s, next);
      var rest := ScrubThoughts(fields[1..], Each(s), next).value;
      var all := ScrubThoughts(fields, Each(s), n).value;
      assert all[1..] == rest;
      forall i | 0 < i < |fields| ensures all[i] == rest[i - 1] && fields[i] == fields[1..][i - 1] {
      }
    }
  }

  lemma ThinkingIs(b: Json, rules: Rules, s: PerText, n: nat)
    ensures ThinkingScrubbed(b, RedactThinkingBlock(b, rules, Each(s), n).value, rules, s)
    ensures RedactThinkingBlock(b, rules, Each(s), n).asked == ThinkingTexts(b)
  {
    if b.JObject? {
      var after := ScrubThoughts(b.fields, Each(s), n).value;
      ThoughtsAre(b.fields, s, n);
      UnsignedBlockIs(after, rules.scrubbedBlock);
      assert ThinkingMarked(b, after, RedactThinkingBlock(b, rules, Each(s), n).value, rules);
    }
  }

  lemma UnsignedBlockIs(fields: seq<Field>, marker: string)
    ensures var r := UnsignedThinkingBlock(fields, marker);
      && SameBut(fields, r, {"signature", "nanoinfra_scrubbed"})
      && Get(r, "signature") == JNull && Get(r, "nanoinfra_scrubbed") == JString(marker)
  {
    var plain := Remove(fields, "signature");
    SignatureKeys();
    RemoveBut(fields, "signature");
    PutBut(plain, MARKER_KEY, JString(marker));
    SameButOn(fields, plain, UnsignedThinkingBlock(fields, marker), {"signature"}, {MARKER_KEY});
    assert {"signature"} + {MARKER_KEY} == {"signature", "nanoinfra_scrubbed"};
  }

  lemma ThinkingAre(v: Json, rules: Rules, s: PerText, n: nat)
    ensures EachScrubbed(v, RedactThinkingBlocks(v, rules, Each(s), n).value,
                         ThinkingRule(rules, s))
    ensures RedactThinkingBlocks(v, rules, Each(s), n).asked == OfArray(v, ThinkingTexts)
  {
    var rel := ThinkingRule(rules, s);
    forall b: Json, k: nat
      ensures rel(b, ThinkingWalk(rules)(b, Each(s), k).value)
      ensures ThinkingWalk(rules)(b, Each(s), k).asked == ThinkingTexts(b)
    {
      ThinkingIs(b, rules, s, k);
    }
    ArrayIs(v, ThinkingWalk(rules), Each(s), n, rel, ThinkingTexts);
  }

  // ---------------------------------------------------------------- the fields, one after the other

  /** What becomes of the value under the key of a part, in a message of this class. */
  ghost predicate PartScrubbed(p: Part, v: Json, w: Json, cap: Option<string>, bounded: bool, rules: Rules, s: PerText) {
    match p
    case Content => ContentScrubbed(v, w, cap, bounded, rules, s)
    case ToolCalls => EachScrubbed(v, w, CallRule(rules, s))
    case Reasoning => ReasoningScrubbed(v, w, s)
    case Thinking => EachScrubbed(v, w, ThinkingRule(rules, s))
    case AssistantMessage => RecordScrubbed(v, w, rules, s)
    case CompletedResults => EachScrubbed(v, w, RecordRule(rules, s))
    case PendingCalls => EachScrubbed(v, w, CallRule(rules, s))
  }

  function PartTexts(p: Part, v: Json, cap: Option<string>, rules: Rules): seq<Asked> {
    match p
    case Content => ContentTexts(v, cap)
    case ToolCalls => OfArray(v, CallTexts)
    case Reasoning => ReasoningTexts(v)
    case Thinking => OfArray(v, ThinkingTexts)
    case AssistantMessage => RecordTexts(v, rules)
    case CompletedResults => OfArray(v, RecordAsks(rules))
    case PendingCalls => OfArray(v, CallTexts)
  }

  /** What a part must become, and what is asked of it. */
  type Rule = (Part, Json, Json) -> bool
  type Asks = (Part, Json) -> seq<Asked>

  ghost function PartRule(cap: Option<string>, bounded: bool, rules: Rules, s: PerText): Rule {
    (p: Part, v: Json, w: Json) => PartScrubbed(p, v, w, cap, bounded, rules, s)
  }

  function PartAsks(cap: Option<string>, rules: Rules): Asks {
    (p: Part, v: Json) => PartTexts(p, v, cap, rules)
  }

  /** One part is filled in; the other keys keep what they hold. */
  ghost predicate StepDone(m: seq<Field>, p: Part, w: Walked<seq<Field>>, rule: Rule, asks: Asks) {
    && SameBut(m, w.value, {PartKey(p)}) && (Has(w.value, PartKey(p)) <==> Has(m, PartKey(p)))
    && rule(p, Get(m, PartKey(p)), Get(w.value, PartKey(p)))
    && w.asked == asks(p, Get(m, PartKey(p)))
  }

  lemma MissingIsNull(m: seq<Field>, key: string)
    requires !Has(m, key)
    ensures Get(m, key) == JNull
  {
    if Get(m, key) != JNull { GetHas(m, key); }
  }

  /** The value under the key of a part of a message. */
  lemma PartValueIs(m: seq<Field>, p: Part, rules: Rules, s: PerText, n: nat)
    requires p in PARTS
    ensures var v, w := Get(m, PartKey(p)), RedactPartValue(m, p, rules, Each(s), n);
      var cap, bounded := ToolClass(m, rules), rules.bounded && Get(m, "role") == JString("tool");
      PartScrubbed(p, v, w.value, cap, bounded, rules, s) && w.asked == PartTexts(p, v, cap, rules)
  {
    var v := Get(m, PartKey(p));
    match p {
      case Content => ContentIs(v, ClassOf(m, rules), rules.bounded && IsToolResult(m), rules, s, n);
      case ToolCalls => CallsAre(v, rules, s, n);
      case Reasoning =>
      case Thinking => ThinkingAre(v, rules, s, n);
    }
  }

  lemma NothingThere(p: Part, cap: Option<string>, bounded: bool, rules: Rules, s: PerText)
    ensures PartScrubbed(p, JNull, JNull, cap, bounded, rules, s) && PartTexts(p, JNull, cap, rules) == []
  {
  }

  lemma PartIs(m: seq<Field>, p: Part, rules: Rules, s: PerText, n: nat)
    requires p in PARTS
    ensures var cap, bounded := ToolClass(m, rules), rules.bounded && Get(m, "role") == JString("tool");
      StepDone(m, p, RedactPart(m, p, rules, Each(s), n), PartRule(cap, bounded, rules, s), PartAsks(cap, rules))
  {
    if Has(m, PartKey(p)) {
      PartValueIs(m, p, rules, s, n);
      PutBut(m, PartKey(p), RedactPartValue(m, p, rules, Each(s), n).value);
    } else {
      MissingIsNull(m, PartKey(p));
      NothingThere(p, ToolClass(m, rules), rules.bounded && Get(m, "role") == JString("tool"), rules, s);
    }
  }

  /** All of these parts are filled in. */
  ghost predicate PartsDone(m: seq<Field>, parts: seq<Part>, r: seq<Field>, rule: Rule) {
    && (forall k {:trigger Has(r, k)} :: Has(r, k) <==> Has(m, k))
    && (forall k {:trigger Get(r, k)} :: (forall p :: p in parts ==> PartKey(p) != k) ==> Get(r, k) == Get(m, k))
    && (forall p :: p in parts ==> rule(p, Get(m, PartKey(p)), Get(r, PartKey(p))))
  }

  function PartsTexts(m: seq<Field>, parts: seq<Part>, asks: Asks): seq<Asked> {
    if parts == [] then [] else asks(parts[0], Get(m, PartKey(parts[0]))) + PartsTexts(m, parts[1..], asks)
  }

  predicate SameSpeaker(x: seq<Field>, y: seq<Field>) {
    Get(x, "role") == Get(y, "role") && Get(x, "name") == Get(y, "name")
  }

  ghost predicate StepIs(step: Step, parts: seq<Part>, m: seq<Field>, scrub: Scrubber, rule: Rule, asks: Asks) {
    forall x: seq<Field>, p: Part, n: nat {:trigger StepDone(x, p, step(x, p, scrub, n), rule, asks)} ::
      p in parts && SameSpeaker(x, m) ==> StepDone(x, p, step(x, p, scrub, n), rule, asks)
  }

  lemma {:induction false} TextsStay(x: seq<Field>, y: seq<Field>, parts: seq<Part>, asks: Asks)
    requires forall p :: p in parts ==> Get(x, PartKey(p)) == Get(y, PartKey(p))
    ensures PartsTexts(x, parts, asks) == PartsTexts(y, parts, asks)
  {
    if parts != [] {
      assert parts[0] in parts;
      TextsStay(x, y, parts[1..], asks);
    }
  }

  lemma OneMorePart(m: seq<Field>, r: seq<Field>, p: Part, parts: seq<Part>, w: Walked<seq<Field>>, rule: Rule, asks: Asks)
    requires StepDone(m, p, w, rule, asks) && p !in parts && PartsDone(w.value, parts, r, rule)
    ensures PartsDone(m, [p] + parts, r, rule)
  {
    var all := [p] + parts;
    forall k | forall q :: q in all ==> PartKey(q) != k ensures Get(r, k) == Get(m, k) {
      OtherKey(m, r, p, parts, w.value, rule, k);
    }
    forall q | q in all ensures rule(q, Get(m, PartKey(q)), Get(r, PartKey(q))) {
      ThisPart(m, r, p, parts, w, rule, asks, q);
    }
    forall k ensures Has(r, k) <==> Has(m, k) {
      assert Has(w.value, k) <==> Has(m, k);
    }
  }

  lemma OtherKey(m: seq<Field>, r: seq<Field>, p: Part, parts: seq<Part>, mid: seq<Field>, rule: Rule, k: string)
    requires SameBut(m, mid, {PartKey(p)}) && PartsDone(mid, parts, r, rule)
    requires forall q :: q in [p] + parts ==> PartKey(q) != k
    ensures Get(r, k) == Get(m, k)
  {
    assert p in [p] + parts && forall q :: q in parts ==> q in [p] + parts;
    assert Get(mid, k) == Get(m, k);
  }

  lemma ThisPart(m: seq<Field>, r: seq<Field>, p: Part, parts: seq<Part>, w: Walked<seq<Field>>,
                 rule: Rule, asks: Asks, q: Part)
    requires StepDone(m, p, w, rule, asks) && p !in parts && PartsDone(w.value, parts, r, rule) && q in [p] + parts
    ensures rule(q, Get(m, PartKey(q)), Get(r, PartKey(q)))
  {
    if q == p { OnlyItsKey(p, parts); } else { KeysDiffer(q, p); }
  }

  lemma OnlyItsKey(p: Part, parts: seq<Part>)
    requires p !in parts
    ensures forall q :: q in parts ==> PartKey(q) != PartKey(p)
  {
    forall q | q in parts ensures PartKey(q) != PartKey(p) { KeysDiffer(q, p); }
  }

  lemma {:induction false} PartsAre(x: seq<Field>, parts: seq<Part>, step: Step, m: seq<Field>,
                                    scrub: Scrubber, n: nat, rule: Rule, asks: Asks)
    requires Distinct(parts) && SameSpeaker(x, m) && StepIs(step, parts, m, scrub, rule, asks)
    ensures PartsDone(x, parts, RedactParts(x, parts, step, scrub, n).value, rule)
    ensures RedactParts(x, parts, step, scrub, n).asked == PartsTexts(x, parts, asks)
    decreases |parts|
  {
    if parts == [] {
      NoParts(x, rule);
    } else {
      var p, rest := parts[0], parts[1..];
      var first := step(x, p, scrub, n);
      FirstPart(parts, step, m, scrub, rule, asks);
      FirstStep(x, p, rest, step, m, scrub, n, rule, asks);
      PartsAre(first.value, rest, step, m, scrub, n + |first.asked|, rule, asks);
      var after := RedactParts(first.value, rest, step, scrub, n + |first.asked|);
      PartsNext(x, p, rest, first, after, rule, asks);
      RedactFirst(x, parts, step, scrub, n, first, after);
    }
  }

  lemma RedactFirst(x: seq<Field>, parts: seq<Part>, step: Step, scrub: Scrubber, n: nat,
                    first: Walked<seq<Field>>, after: Walked<seq<Field>>)
    requires parts != [] && first == step(x, parts[0], scrub, n)
    requires after == RedactParts(first.value, parts[1..], step, scrub, n + |first.asked|)
    ensures RedactParts(x, parts, step, scrub, n) == Walked(after.value, first.asked + after.asked)
    ensures [parts[0]] + parts[1..] == parts
  {
  }

  lemma FirstPart(parts: seq<Part>, step: Step, m: seq<Field>, scrub: Scrubber, rule: Rule, asks: Asks)
    requires parts != [] && Distinct(parts) && StepIs(step, parts, m, scrub, rule, asks)
    ensures Distinct(parts[1..]) && parts[0] !in parts[1..] && parts[0] in parts
    ensures StepIs(step, parts[1..], m, scrub, rule, asks) && StepIs(step, [parts[0]], m, scrub, rule, asks)
  {
    var rest := parts[1..];
    forall x: seq<Field>, p: Part, n: nat | p in rest && SameSpeaker(x, m)
      ensures StepDone(x, p, step(x, p, scrub, n), rule, asks)
    {
      assert p in parts;
    }
  }

  lemma NoParts(x: seq<Field>, rule: Rule)
    ensures PartsDone(x, [], x, rule)
  {
  }

  lemma PartsNext(x: seq<Field>, p: Part, rest: seq<Part>, first: Walked<seq<Field>>, after: Walked<seq<Field>>,
                  rule: Rule, asks: Asks)
    requires StepDone(x, p, first, rule, asks) && p !in rest
    requires PartsDone(first.value, rest, after.value, rule) && after.asked == PartsTexts(first.value, rest, asks)
    requires PartsTexts(first.value, rest, asks) == PartsTexts(x, rest, asks)
    ensures PartsDone(x, [p] + rest, after.value, rule)
    ensures first.asked + after.asked == PartsTexts(x, [p] + rest, asks)
  {
    OneMorePart(x, after.value, p, rest, first, rule, asks);
    FirstTexts(x, p, rest, asks);
  }

  lemma FirstStep(x: seq<Field>, p: Part, rest: seq<Part>, step: Step, m: seq<Field>,
                  scrub: Scrubber, n: nat, rule: Rule, asks: Asks)
    requires p !in rest && SameSpeaker(x, m) && StepIs(step, [p], m, scrub, rule, asks)
    ensures var first := step(x, p, scrub, n);
      && StepDone(x, p, first, rule, asks) && SameSpeaker(first.value, m)
      && PartsTexts(first.value, rest, asks) == PartsTexts(x, rest, asks)
  {
    var first := step(x, p, scrub, n);
    assert p in [p];
    assert StepDone(x, p, first, rule, asks);
    KeysDiffer(p, p);
    RestStays(x, first.value, p, rest, asks);
  }

  lemma RestStays(x: seq<Field>, y: seq<Field>, p: Part, rest: seq<Part>, asks: Asks)
    requires SameBut(x, y, {PartKey(p)}) && p !in rest
    ensures PartsTexts(y, rest, asks) == PartsTexts(x, rest, asks)
  {
    forall q | q in rest ensures Get(y, PartKey(q)) == Get(x, PartKey(q)) { KeysDiffer(p, q); }
    TextsStay(y, x, rest, asks);
  }

  lemma FirstTexts(m: seq<Field>, p: Part, rest: seq<Part>, asks: Asks)
    ensures PartsTexts(m, [p] + rest, asks) == asks(p, Get(m, PartKey(p))) + PartsTexts(m, rest, asks)
  {
    assert ([p] + rest)[1..] == rest;
  }

  lemma FourTexts(m: seq<Field>, asks: Asks)
    ensures PartsTexts(m, PARTS, asks)
         == asks(Content, Get(m, "content")) + asks(ToolCalls, Get(m, "tool_calls"))
            + asks(Reasoning, Get(m, "reasoning_content")) + asks(Thinking, Get(m, "thinking_blocks"))
  {
    FirstTexts(m, Thinking, [], asks);
    FirstTexts(m, Reasoning, [Thinking], asks);
    FirstTexts(m, ToolCalls, [Reasoning, Thinking], asks);
    FirstTexts(m, Content, [ToolCalls, Reasoning, Thinking], asks);
    assert [Thinking] + [] == [Thinking] && [Reasoning] + [Thinking] == [Reasoning, Thinking];
    assert [ToolCalls] + [Reasoning, Thinking] == [ToolCalls, Reasoning, Thinking];
    assert [Content] + [ToolCalls, Reasoning, Thinking] == PARTS;
  }

  /** The record of a message: each of its texts is asked for, in order and with its class, and each
      answer stands where its text stood. */
  lemma MessageIs(m: seq<Field>, rules: Rules, s: PerText, n: nat)
    ensures MessageScrubbed(m, RedactMessage(m, rules, Each(s), n).value, rules, s)
    ensures RedactMessage(m, rules, Each(s), n).asked == MessageTexts(m, rules)
  {
    if IsCredential(m, rules) {
      PutBut(m, "content", JString(s(Asked(ShownContent(m, rules), Some("credential.access")))));
    } else {
      PlainMessageIs(m, rules, s, n);
    }
  }

  lemma PlainMessageIs(m: seq<Field>, rules: Rules, s: PerText, n: nat)
    requires !IsCredential(m, rules)
    ensures var w := RedactParts(m, PARTS, PartStep(rules), Each(s), n);
      MessageScrubbed(m, w.value, rules, s) && w.asked == MessageTexts(m, rules)
  {
    var cap, bounded := ToolClass(m, rules), rules.bounded && Get(m, "role") == JString("tool");
    var rule, asks := PartRule(cap, bounded, rules, s), PartAsks(cap, rules);
    MessageSteps(m, rules, s, rule, asks);
    PartsAre(m, PARTS, PartStep(rules), m, Each(s), n, rule, asks);
    AllParts(m, cap, rules);
    FourParts(m, RedactParts(m, PARTS, PartStep(rules), Each(s), n).value, rules, s);
  }

  lemma AllParts(m: seq<Field>, cap: Option<string>, rules: Rules)
    requires !IsCredential(m, rules) && cap == ToolClass(m, rules)
    ensures PartsTexts(m, PARTS, PartAsks(cap, rules)) == MessageTexts(m, rules)
  {
    var asks := PartAsks(cap, rules);
    assert asks(Content, Get(m, "content")) == ContentTexts(Get(m, "content"), cap);
    FourTexts(m, asks);
  }

  lemma MessageSteps(m: seq<Field>, rules: Rules, s: PerText, rule: Rule, asks: Asks)
    requires var cap, bounded := ToolClass(m, rules), rules.bounded && Get(m, "role") == JString("tool");
      rule == PartRule(cap, bounded, rules, s) && asks == PartAsks(cap, rules)
    ensures StepIs(PartStep(rules), PARTS, m, Each(s), rule, asks)
  {
    var step := PartStep(rules);
    forall x: seq<Field>, p: Part, k: nat | p in PARTS && SameSpeaker(x, m)
      ensures StepDone(x, p, step(x, p, Each(s), k), rule, asks)
    {
      PartIs(x, p, rules, s, k);
    }
  }

  lemma FourParts(m: seq<Field>, r: seq<Field>, rules: Rules, s: PerText)
    requires !IsCredential(m, rules)
    requires PartsDone(m, PARTS, r,
                       PartRule(ToolClass(m, rules), rules.bounded && Get(m, "role") == JString("tool"), rules, s))
    ensures MessageScrubbed(m, r, rules, s)
  {
    assert Content in PARTS && ToolCalls in PARTS && Reasoning in PARTS && Thinking in PARTS;
    forall k | k !in {"content", "tool_calls", "reasoning_content", "thinking_blocks"} ensures Get(r, k) == Get(m, k) {
      assert forall p :: p in PARTS ==> PartKey(p) != k;
    }
  }

  lemma RecordIs(v: Json, rules: Rules, s: PerText, n: nat)
    ensures RecordScrubbed(v, ResultWalk(rules)(v, Each(s), n).value, rules, s)
    ensures ResultWalk(rules)(v, Each(s), n).asked == RecordTexts(v, rules)
  {
    if v.JObject? { MessageIs(v.fields, rules, s, n); }
  }

  lemma RecordsAre(v: Json, rules: Rules, s: PerText, n: nat)
    ensures EachScrubbed(v, WalkArray(v, ResultWalk(rules), Each(s), n).value,
                         RecordRule(rules, s))
    ensures WalkArray(v, ResultWalk(rules), Each(s), n).asked == OfArray(v, RecordAsks(rules))
  {
    var rel := RecordRule(rules, s);
    var texts := RecordAsks(rules);
    forall b: Json, k: nat
      ensures rel(b, ResultWalk(rules)(b, Each(s), k).value) && ResultWalk(rules)(b, Each(s), k).asked == texts(b)
    {
      RecordIs(b, rules, s, k);
    }
    ArrayIs(v, ResultWalk(rules), Each(s), n, rel, texts);
  }

  lemma StageValueIs(v: Json, p: Part, rules: Rules, s: PerText, n: nat)
    requires p in STAGES
    ensures var w := RedactStageValue(v, p, rules, Each(s), n);
      PartScrubbed(p, v, w.value, None, false, rules, s) && w.asked == PartTexts(p, v, None, rules)
  {
    match p {
      case AssistantMessage => RecordIs(v, rules, s, n);
      case CompletedResults => RecordsAre(v, rules, s, n);
      case PendingCalls => CallsAre(v, rules, s, n);
    }
  }

  lemma StageIs(c: seq<Field>, p: Part, rules: Rules, s: PerText, n: nat)
    requires p in STAGES
    ensures StepDone(c, p, RedactStage(c, p, rules, Each(s), n), PartRule(None, false, rules, s), PartAsks(None, rules))
  {
    if Has(c, PartKey(p)) {
      StageValueIs(Get(c, PartKey(p)), p, rules, s, n);
      PutBut(c, PartKey(p), RedactStageValue(Get(c, PartKey(p)), p, rules, Each(s), n).value);
    } else {
      MissingIsNull(c, PartKey(p));
      NothingThere(p, None, false, rules, s);
    }
  }

  lemma ThreeTexts(c: seq<Field>, asks: Asks)
    ensures PartsTexts(c, STAGES, asks)
         == asks(AssistantMessage, Get(c, "assistant_message"))
            + asks(CompletedResults, Get(c, "completed_tool_results"))
            + asks(PendingCalls, Get(c, "pending_tool_calls"))
  {
    FirstTexts(c, PendingCalls, [], asks);
    FirstTexts(c, CompletedResults, [PendingCalls], asks);
    FirstTexts(c, AssistantMessage, [CompletedResults, PendingCalls], asks);
    assert [PendingCalls] + [] == [PendingCalls];
    assert [CompletedResults] + [PendingCalls] == [CompletedResults, PendingCalls];
    assert [AssistantMessage] + [CompletedResults, PendingCalls] == STAGES;
  }

  lemma ThreeParts(c: seq<Field>, r: seq<Field>, rules: Rules, s: PerText)
    requires PartsDone(c, STAGES, r, PartRule(None, false, rules.(bounded := false), s))
    ensures CheckpointScrubbed(c, r, rules, s)
  {
    assert AssistantMessage in STAGES && CompletedResults in STAGES && PendingCalls in STAGES;
    forall k | k !in {"assistant_message", "completed_tool_results", "pending_tool_calls"} ensures Get(r, k) == Get(c, k) {
      assert forall p :: p in STAGES ==> PartKey(p) != k;
    }
  }

  lemma StageSteps(c: seq<Field>, rules: Rules, s: PerText)
    ensures StepIs(StageStep(rules), STAGES, c, Each(s), PartRule(None, false, rules, s), PartAsks(None, rules))
  {
    var step := StageStep(rules);
    forall x: seq<Field>, p: Part, k: nat | p in STAGES && SameSpeaker(x, c)
      ensures StepDone(x, p, step(x, p, Each(s), k), PartRule(None, false, rules, s), PartAsks(None, rules))
    {
      StageIs(x, p, rules, s, k);
    }
  }

  /** The stored checkpoint, alike. */
  lemma CheckpointIs(c: seq<Field>, rules: Rules, s: PerText, n: nat)
    ensures CheckpointScrubbed(c, RedactCheckpoint(c, rules, Each(s), n).value, rules, s)
    ensures RedactCheckpoint(c, rules, Each(s), n).asked == CheckpointTexts(c, rules.(bounded := false))
  {
    var free := rules.(bounded := false);
    var rule, asks := PartRule(None, false, free, s), PartAsks(None, free);
    StageSteps(c, free, s);
    PartsAre(c, STAGES, StageStep(free), c, Each(s), n, rule, asks);
    AllStages(c, free);
    ThreeParts(c, RedactParts(c, STAGES, StageStep(free), Each(s), n).value, rules, s);
  }

  lemma StageAsks(a: Json, b: Json, d: Json, rules: Rules)
    ensures var asks := PartAsks(None, rules);
      && asks(AssistantMessage, a) == RecordTexts(a, rules)
      && asks(CompletedResults, b) == OfArray(b, RecordAsks(rules))
      && asks(PendingCalls, d) == OfArray(d, CallTexts)
  {
  }

  lemma AllStages(c: seq<Field>, rules: Rules)
    ensures PartsTexts(c, STAGES, PartAsks(None, rules)) == CheckpointTexts(c, rules)
  {
    var asks := PartAsks(None, rules);
    StageAsks(Get(c, "assistant_message"), Get(c, "completed_tool_results"), Get(c, "pending_tool_calls"), rules);
    ThreeTexts(c, asks);
  }

  // ---------------------------------------------------------------- any mapping

  /** Every string is the answer to itself; keys, lengths and all other values stay. */
  ghost predicate AnyScrubbed(v: Json, w: Json, s: PerText)
    decreases v
  {
    match v
    case JString(text) => w == JString(s(Asked(text, None)))
    case JArray(items) => w.JArray? && ItemsScrubbed(items, w.items, s)
    case JObject(fields) => w.JObject? && FieldsScrubbed(fields, w.fields, s)
    case _ => w == v
  }

  ghost predicate ItemsScrubbed(items: seq<Json>, after: seq<Json>, s: PerText)
    decreases items
  {
    |after| == |items| && forall i :: 0 <= i < |items| ==> AnyScrubbed(items[i], after[i], s)
  }

  ghost predicate FieldsScrubbed(fields: seq<Field>, after: seq<Field>, s: PerText)
    decreases fields
  {
    |after| == |fields| && forall i :: 0 <= i < |fields| ==>
      after[i].key == fields[i].key && AnyScrubbed(fields[i].value, after[i].value, s)
  }

  /** All strings, in order, none with a class. */
  function AllTexts(v: Json): seq<Asked>
    decreases v
  {
    match v
    case JString(text) => [Asked(text, None)]
    case JArray(items) => ItemTexts(items)
    case JObject(fields) => FieldTexts(fields)
    case _ => []
  }

  function ItemTexts(items: seq<Json>): seq<Asked>
    decreases items
  {
    if items == [] then [] else AllTexts(items[0]) + ItemTexts(items[1..])
  }

  function FieldTexts(fields: seq<Field>): seq<Asked>
    decreases fields
  {
    if fields == [] then [] else AllTexts(fields[0].value) + FieldTexts(fields[1..])
  }

  lemma {:induction false} AnyIs(v: Json, s: PerText, n: nat)
    ensures AnyScrubbed(v, RedactAny(v, Each(s), n).value, s) && RedactAny(v, Each(s), n).asked == AllTexts(v)
    decreases v
  {
    match v
    case JArray(items) => ItemsOfAny(items, s, n);
    case JObject(fields) => MappingIs(fields, s, n);
    case _ =>
  }

  lemma {:induction false} ItemsOfAny(items: seq<Json>, s: PerText, n: nat)
    ensures ItemsScrubbed(items, RedactItems(items, Each(s), n).value, s)
    ensures RedactItems(items, Each(s), n).asked == ItemTexts(items)
    decreases items
  {
    if items != [] {
      var first := RedactAny(items[0], Each(s), n);
      AnyIs(items[0], s, n);
      ItemsOfAny(items[1..], s, n + |first.asked|);
      var rest := RedactItems(items[1..], Each(s), n + |first.asked|).value;
      var after := RedactItems(items, Each(s), n).value;
      assert after == [first.value] + rest;
      forall i | 0 <= i < |items| ensures AnyScrubbed(items[i], after[i], s) {
        if i > 0 { assert items[i] == items[1..][i - 1] && after[i] == rest[i - 1]; }
      }
    }
  }

  /** The record of a mapping, with whatever is nested in it. */
  lemma {:induction false} MappingIs(fields: seq<Field>, s: PerText, n: nat)
    ensures FieldsScrubbed(fields, RedactMapping(fields, Each(s), n).value, s)
    ensures RedactMapping(fields, Each(s), n).asked == FieldTexts(fields)
    decreases fields
  {
    if fields != [] {
      var first := RedactAny(fields[0].value, Each(s), n);
      AnyIs(fields[0].value, s, n);
      MappingIs(fields[1..], s, n + |first.asked|);
      var rest := RedactMapping(fields[1..], Each(s), n + |first.asked|).value;
      var after := RedactMapping(fields, Each(s), n).value;
      assert after == [Field(fields[0].key, first.value)] + rest;
      forall i | 0 <= i < |fields| ensures after[i].key == fields[i].key && AnyScrubbed(fields[i].value, after[i].value, s) {
        if i > 0 { assert fields[i] == fields[1..][i - 1] && after[i] == rest[i - 1]; }
      }
    }
  }

  // ---------------------------------------------------------------- in one batch

  /** The batch over a message asks for the texts of the message, and fills in its scrubbed record. */
  lemma MessageInBatch(m: seq<Field>, rules: Rules, scrubMany: seq<Asked> -> seq<string>, s: PerText)
    requires Answers(scrubMany, s)
    ensures var run := MessageWalk(m, rules);
      run(Echo()).asked == MessageTexts(m, rules)
      && MessageScrubbed(m, run(Script(scrubMany(MessageTexts(m, rules)))).value, rules, s)
  {
    BatchIsDirect(m, rules, MessageWalk(m, rules), scrubMany, s);
    MessageIs(m, rules, s, 0);
  }

  lemma CheckpointInBatch(c: seq<Field>, rules: Rules, scrubMany: seq<Asked> -> seq<string>, s: PerText)
    requires Answers(scrubMany, s)
    ensures var run, texts := CheckpointWalk(c, rules), CheckpointTexts(c, rules.(bounded := false));
      run(Echo()).asked == texts && CheckpointScrubbed(c, run(Script(scrubMany(texts))).value, rules, s)
  {
    BatchIsDirect(c, rules, CheckpointWalk(c, rules), scrubMany, s);
    CheckpointIs(c, rules, s, 0);
  }

  lemma MappingInBatch(fields: seq<Field>, rules: Rules, scrubMany: seq<Asked> -> seq<string>, s: PerText)
    requires Answers(scrubMany, s)
    ensures var run := MappingWalk(fields);
      run(Echo()).asked == FieldTexts(fields)
      && FieldsScrubbed(fields, run(Script(scrubMany(FieldTexts(fields)))).value, s)
  {
    BatchIsDirect(fields, rules, MappingWalk(fields), scrubMany, s);
    MappingIs(fields, s, 0);
  }
}
