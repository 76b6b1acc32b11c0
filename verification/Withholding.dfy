/** What a record holds when nobody scrubbed it, and which signatures a record may keep. */
module Withholding {
  import opened Transcript
  import opened Batching
  import opened Redaction

  // ---------------------------------------------------------------- withheld records

  function WithheldAny(v: Json, marker: string): Json
    decreases v
  {
    match v
    case JString(text) => if text != "" then JString(marker) else v
    case JArray(items) => JArray(WithheldItems(items, marker))
    case JObject(fields) => JObject(WithheldMapping(fields, marker))
    case _ => v
  }

  function WithheldItems(items: seq<Json>, marker: string): seq<Json>
    decreases items
  {
    if items == [] then [] else [WithheldAny(items[0], marker)] + WithheldItems(items[1..], marker)
  }

  function WithheldMapping(fields: seq<Field>, marker: string): seq<Field>
    decreases fields
  {
    if fields == [] then []
    else [Field(fields[0].key, WithheldAny(fields[0].value, marker))] + WithheldMapping(fields[1..], marker)
  }

  function WithheldText(v: Json, marker: string): Json {
    if v.JString? && v.text != "" then JString(marker) else v
  }

  /** Every item of a list that is one; anything else stays. */
  function EachItem(items: seq<Json>, f: Json -> Json): (out: seq<Json>)
    ensures |out| == |items|
  {
    seq(|items|, i requires 0 <= i < |items| => f(items[i]))
  }

  function EachOf(v: Json, f: Json -> Json): Json {
    if v.JArray? then JArray(EachItem(v.items, f)) else v
  }

  function SetIfHas(fields: seq<Field>, key: string, f: Json -> Json): seq<Field> {
    if Has(fields, key) then Put(fields, key, f(Get(fields, key))) else fields
  }

  function WithheldBlock(block: Json, marker: string): Json {
    if block.JObject? then JObject(SetIfHas(block.fields, "text", (v: Json) => WithheldText(v, marker))) else block
  }

  function WithheldContent(content: Json, marker: string): Json {
    if content.JString? then WithheldText(content, marker)
    else EachOf(content, (b: Json) => WithheldBlock(b, marker))
  }

  function WithheldToolCall(call: Json, rules: Rules, marker: string): Json {
    if !call.JObject? then call
    else if Arguments(call.fields).None? then call
    else JObject(UnsignedToolCall(WithArguments(call.fields, rules.withheldArguments(marker)), rules.withheldCall))
  }

  function WithheldThoughts(fields: seq<Field>, marker: string): seq<Field> {
    if fields == [] then []
    else [if Literal(fields[0]) then fields[0] else Field(fields[0].key, JString(marker))]
         + WithheldThoughts(fields[1..], marker)
  }

  predicate AllLiteral(fields: seq<Field>) { fields == [] || (Literal(fields[0]) && AllLiteral(fields[1..])) }

  function WithheldThinkingBlock(block: Json, rules: Rules, marker: string): Json {
    if !block.JObject? || AllLiteral(block.fields) then block
    else JObject(UnsignedThinkingBlock(WithheldThoughts(block.fields, marker), rules.withheldBlock))
  }

  function WithheldPart(v: Json, p: Part, rules: Rules, marker: string): Json {
    match p
    case Content => WithheldContent(v, marker)
    case ToolCalls => EachOf(v, (c: Json) => WithheldToolCall(c, rules, marker))
    case Reasoning => WithheldAny(v, marker)
    case Thinking => EachOf(v, (b: Json) => WithheldThinkingBlock(b, rules, marker))
    case _ => v
  }

  /** Fill in the fields of these keys, one after the other. */
  function SetParts(m: seq<Field>, parts: seq<Part>, f: (Part, Json) -> Json): seq<Field>
    decreases |parts|
  {
    if parts == [] then m
    else SetParts(SetIfHas(m, PartKey(parts[0]), (v: Json) => f(parts[0], v)), parts[1..], f)
  }

  function WithheldMessage(m: seq<Field>, rules: Rules, marker: string): seq<Field> {
    SetParts(m, PARTS, (p: Part, v: Json) => WithheldPart(v, p, rules, marker))
  }

  function WithheldResult(m: Json, rules: Rules, marker: string): Json {
    if m.JObject? then JObject(WithheldMessage(m.fields, rules, marker)) else m
  }

  function WithheldStage(v: Json, p: Part, rules: Rules, marker: string): Json {
    match p
    case AssistantMessage => WithheldResult(v, rules, marker)
    case CompletedResults => EachOf(v, (m: Json) => WithheldResult(m, rules, marker))
    case PendingCalls => EachOf(v, (c: Json) => WithheldToolCall(c, rules, marker))
    case _ => v
  }

  function WithheldCheckpoint(c: seq<Field>, rules: Rules, marker: string): seq<Field> {
    SetParts(c, STAGES, (p: Part, v: Json) => WithheldStage(v, p, rules, marker))
  }

  // ---------------------------------------------------------------- what it depends on

  /** Equal but for the texts, and these empty in both or in neither. */
  predicate Similar(a: Json, b: Json)
    decreases a
  {
    match a
    case JString(s) => b.JString? && (s == "" <==> b.text == "")
    case JArray(items) => b.JArray? && SimilarItems(items, b.items)
    case JObject(fields) => b.JObject? && SimilarFields(fields, b.fields)
    case _ => a == b
  }

  predicate SimilarItems(a: seq<Json>, b: seq<Json>)
    decreases a
  {
    |a| == |b| && (a != [] ==> Similar(a[0], b[0]) && SimilarItems(a[1..], b[1..]))
  }

  predicate SimilarFields(a: seq<Field>, b: seq<Field>)
    decreases a
  {
    |a| == |b| && (a != [] ==> a[0].key == b[0].key && Similar(a[0].value, b[0].value) && SimilarFields(a[1..], b[1..]))
  }

  /** A withheld value tells exactly this much: two values are withheld alike exactly when they
      are similar. */
  lemma {:induction false} WithheldAlikeIff(a: Json, b: Json, marker: string)
    requires marker != ""
    ensures WithheldAny(a, marker) == WithheldAny(b, marker) <==> Similar(a, b)
    decreases a
  {
    match a
    case JArray(items) => if b.JArray? { WithheldItemsIff(items, b.items, marker); }
    case JObject(fields) => if b.JObject? { WithheldMappingIff(fields, b.fields, marker); }
    case _ =>
  }

  lemma {:induction false} WithheldItemsIff(a: seq<Json>, b: seq<Json>, marker: string)
    requires marker != ""
    ensures WithheldItems(a, marker) == WithheldItems(b, marker) <==> SimilarItems(a, b)
    decreases a
  {
    if a != [] && b != [] {
      WithheldAlikeIff(a[0], b[0], marker);
      WithheldItemsIff(a[1..], b[1..], marker);
      HeadsAndTails(WithheldAny(a[0], marker), WithheldItems(a[1..], marker),
                    WithheldAny(b[0], marker), WithheldItems(b[1..], marker));
    }
  }

  lemma {:induction false} WithheldMappingIff(a: seq<Field>, b: seq<Field>, marker: string)
    requires marker != ""
    ensures WithheldMapping(a, marker) == WithheldMapping(b, marker) <==> SimilarFields(a, b)
    decreases a
  {
    if a != [] && b != [] {
      WithheldAlikeIff(a[0].value, b[0].value, marker);
      WithheldMappingIff(a[1..], b[1..], marker);
      HeadsAndTails(Field(a[0].key, WithheldAny(a[0].value, marker)), WithheldMapping(a[1..], marker),
                    Field(b[0].key, WithheldAny(b[0].value, marker)), WithheldMapping(b[1..], marker));
    }
  }

  lemma HeadsAndTails<T>(x: T, xs: seq<T>, y: T, ys: seq<T>)
    ensures [x] + xs == [y] + ys <==> x == y && xs == ys
  {
    if [x] + xs == [y] + ys {
      assert ([x] + xs)[0] == x && ([x] + xs)[1..] == xs;
      assert ([y] + ys)[0] == y && ([y] + ys)[1..] == ys;
    }
  }

  // ---------------------------------------------------------------- signatures

  ghost predicate SignedCall(call: seq<Field>) {
    SignedBy(call) || (FunctionOf(call).JObject? && SignedBy(FunctionOf(call).fields))
  }

  lemma {:induction false} PutSame(fields: seq<Field>, key: string)
    requires Has(fields, key)
    ensures Put(fields, key, Get(fields, key)) == fields
  {
    if fields[0].key != key {
      PutSame(fields[1..], key);
      assert [fields[0]] + fields[1..] == fields;
    } else {
      assert fields[0] == Field(key, fields[0].value);
      assert [fields[0]] + fields[1..] == fields;
    }
  }

  lemma {:induction false} GetHas(fields: seq<Field>, key: string)
    requires Get(fields, key) != JNull
    ensures Has(fields, key)
  {
    if fields[0].key != key { GetHas(fields[1..], key); }
  }

  lemma SignatureKeys()
    ensures "signature" != "thought_signature" && "function" != "signature" && "function" != "thought_signature"
    ensures MARKER_KEY != "signature" && MARKER_KEY != "thought_signature" && MARKER_KEY != "function"
    ensures "arguments" != "signature" && "arguments" != "thought_signature"
  {
    assert |"signature"| == 9 && |"thought_signature"| == 17 && |"function"| == 8 && |MARKER_KEY| == 18;
    assert |"arguments"| == 9 && "arguments"[0] == 'a' && "signature"[0] == 's';
  }

  lemma UnsignedGet(fields: seq<Field>, key: string)
    ensures !SignedBy(Unsigned(fields))
    ensures key != "signature" && key != "thought_signature" ==> Get(Unsigned(fields), key) == Get(fields, key)
  {
    SignatureKeys();
    var once := Remove(fields, "signature");
    RemoveGet(fields, "signature", "signature");
    RemoveGet(once, "thought_signature", "signature");
    RemoveGet(once, "thought_signature", "thought_signature");
    RemoveGet(fields, "signature", key);
    RemoveGet(once, "thought_signature", key);
  }

  /** The call without any signature, inside or out, and with its other keys. It is marked
      exactly when it was signed. */
  lemma UnsignedCall(call: seq<Field>, marker: string, key: string)
    ensures var r := UnsignedToolCall(call, marker);
      && !SignedCall(r) && Arguments(r) == Arguments(call)
      && Get(r, MARKER_KEY) == (if SignedCall(call) then JString(marker) else Get(call, MARKER_KEY))
      && (key != "function" && key != "signature" && key != "thought_signature" && key != MARKER_KEY ==>
            Get(r, key) == Get(call, key))
  {
    SignatureKeys();
    var outer := Unsigned(call);
    var fn := FunctionOf(call);
    UnsignedGet(call, "function");
    UnsignedGet(call, MARKER_KEY);
    UnsignedGet(call, key);
    var inner := outer;
    if fn.JObject? {
      var plain := JObject(Unsigned(fn.fields));
      UnsignedGet(fn.fields, "arguments");
      inner := Put(outer, "function", plain);
      InnerGet(outer, plain, key);
    }
    if SignedCall(call) { MarkedGet(inner, marker, key); }
  }

  lemma InnerGet(outer: seq<Field>, fn: Json, key: string)
    ensures var r := Put(outer, "function", fn);
      && Get(r, "function") == fn && (SignedBy(r) <==> SignedBy(outer)) && Get(r, MARKER_KEY) == Get(outer, MARKER_KEY)
      && (key != "function" ==> Get(r, key) == Get(outer, key))
  {
    SignatureKeys();
    PutGet(outer, "function", fn, "function");
    PutGet(outer, "function", fn, "signature");
    PutGet(outer, "function", fn, "thought_signature");
    PutGet(outer, "function", fn, MARKER_KEY);
    PutGet(outer, "function", fn, key);
  }

  lemma MarkedGet(call: seq<Field>, marker: string, key: string)
    ensures var r := Put(call, MARKER_KEY, JString(marker));
      && Get(r, "function") == Get(call, "function") && (SignedBy(r) <==> SignedBy(call))
      && Get(r, MARKER_KEY) == JString(marker) && (key != MARKER_KEY ==> Get(r, key) == Get(call, key))
  {
    SignatureKeys();
    PutGet(call, MARKER_KEY, JString(marker), "function");
    PutGet(call, MARKER_KEY, JString(marker), "signature");
    PutGet(call, MARKER_KEY, JString(marker), "thought_signature");
    PutGet(call, MARKER_KEY, JString(marker), MARKER_KEY);
    PutGet(call, MARKER_KEY, JString(marker), key);
  }

  lemma ArgumentsSet(call: seq<Field>, arguments: string, key: string)
    requires Arguments(call).Some?
    ensures Arguments(WithArguments(call, arguments)) == Some(arguments)
    ensures arguments == Arguments(call).value ==> WithArguments(call, arguments) == call
    ensures key != "function" ==> Get(WithArguments(call, arguments), key) == Get(call, key)
  {
    var fn := FunctionOf(call).fields;
    PutGet(fn, "arguments", JString(arguments), "arguments");
    PutGet(call, "function", JObject(Put(fn, "arguments", JString(arguments))), "function");
    PutGet(call, "function", JObject(Put(fn, "arguments", JString(arguments))), key);
    if arguments == Arguments(call).value {
      GetHas(fn, "arguments");
      PutSame(fn, "arguments");
      GetHas(call, "function");
      PutSame(call, "function");
    }
  }

  /** A scrubbed call holds the scrubbed arguments and its own id; it is signed only if it is
      the call that was signed, unchanged. */
  lemma ScrubbedCallIsHonest(call: seq<Field>, rules: Rules, scrub: Scrubber, n: nat)
    ensures var r := RedactToolCall(call, rules, scrub, n).value;
      && (SignedCall(r) ==> r == call)
      && Get(r, "id") == Get(call, "id")
      && (Arguments(call).None? ==> r == call)
      && (Arguments(call).Some? ==>
            var answer := scrub(n, Asked(Arguments(call).value, None));
            && Arguments(r) == Some(answer)
            && (answer == Arguments(call).value ==> r == call))
  {
    if Arguments(call).Some? {
      var answer := scrub(n, Asked(Arguments(call).value, None));
      IdIsNoSignature();
      ArgumentsSet(call, answer, "id");
      UnsignedCall(WithArguments(call, answer), rules.scrubbedCall, "id");
    }
  }

  lemma IdIsNoSignature()
    ensures "id" != "function" && "id" != "signature" && "id" != "thought_signature" && "id" != MARKER_KEY
  {
    SignatureKeys();
    assert |"id"| == 2;
  }

  /** A withheld call with arguments is never signed, and keeps its id. */
  lemma WithheldCallIsHonest(call: seq<Field>, rules: Rules, marker: string)
    ensures var r := WithheldToolCall(JObject(call), rules, marker);
      && r.JObject? && Get(r.fields, "id") == Get(call, "id")
      && (Arguments(call).None? ==> r.fields == call)
      && (Arguments(call).Some? ==> !SignedCall(r.fields) && Arguments(r.fields) == Some(rules.withheldArguments(marker)))
  {
    if Arguments(call).Some? {
      IdIsNoSignature();
      ArgumentsSet(call, rules.withheldArguments(marker), "id");
      UnsignedCall(WithArguments(call, rules.withheldArguments(marker)), rules.withheldCall, "id");
    }
  }

  lemma BlockUnsigned(fields: seq<Field>, marker: string)
    ensures Get(UnsignedThinkingBlock(fields, marker), "signature") == JNull
    ensures Get(UnsignedThinkingBlock(fields, marker), MARKER_KEY) == JString(marker)
  {
    SignatureKeys();
    var plain := Remove(fields, "signature");
    RemoveGet(fields, "signature", "signature");
    PutGet(plain, MARKER_KEY, JString(marker), "signature");
    PutGet(plain, MARKER_KEY, JString(marker), MARKER_KEY);
  }

  /** A thinking block keeps its signature only if none of its text changed; a changed one says
      why it lost it. */
  lemma ScrubbedBlockIsHonest(fields: seq<Field>, rules: Rules, scrub: Scrubber, n: nat)
    ensures var r := RedactThinkingBlock(JObject(fields), rules, scrub, n).value;
      && r.JObject?
      && (Get(r.fields, "signature") != JNull ==> r.fields == fields)
      && (r.fields != fields ==> Get(r.fields, MARKER_KEY) == JString(rules.scrubbedBlock))
  {
    BlockUnsigned(ScrubThoughts(fields, scrub, n).value, rules.scrubbedBlock);
  }

  lemma WithheldBlockIsHonest(fields: seq<Field>, rules: Rules, marker: string)
    ensures var r := WithheldThinkingBlock(JObject(fields), rules, marker);
      && r.JObject?
      && (Get(r.fields, "signature") != JNull ==> r.fields == fields && AllLiteral(fields))
      && (!AllLiteral(fields) ==> Get(r.fields, MARKER_KEY) == JString(rules.withheldBlock))
  {
    BlockUnsigned(WithheldThoughts(fields, marker), rules.withheldBlock);
  }

  // ---------------------------------------------------------------- a whole message

  predicate Unique(fields: seq<Field>) {
    fields != [] ==> !Has(fields[1..], fields[0].key) && Unique(fields[1..])
  }

  /** The same keys, and the same values but under some keys. */
  predicate AlikeBut(x: seq<Field>, y: seq<Field>, keys: set<string>) {
    |x| == |y| && (x != [] ==>
      && x[0].key == y[0].key && (x[0].value == y[0].value || x[0].key in keys)
      && AlikeBut(x[1..], y[1..], keys))
  }

  lemma {:induction false} AlikeIsEqual(x: seq<Field>, y: seq<Field>)
    requires AlikeBut(x, y, {})
    ensures x == y
  {
    if x != [] {
      AlikeIsEqual(x[1..], y[1..]);
      assert x[0] == y[0] && x == [x[0]] + x[1..] && y == [y[0]] + y[1..];
    }
  }

  lemma {:induction false} AlikeHas(x: seq<Field>, y: seq<Field>, keys: set<string>, key: string)
    requires AlikeBut(x, y, keys)
    ensures Has(x, key) <==> Has(y, key)
    ensures key !in keys ==> Get(x, key) == Get(y, key)
    ensures !Has(x, key) ==> AlikeBut(x, y, keys - {key})
  {
    if x != [] { AlikeHas(x[1..], y[1..], keys, key); }
  }

  lemma {:induction false} PutAlike(x: seq<Field>, y: seq<Field>, keys: set<string>, key: string, v: Json)
    requires AlikeBut(x, y, keys) && Unique(x)
    ensures AlikeBut(Put(x, key, v), Put(y, key, v), keys - {key}) && Unique(Put(x, key, v))
  {
    if x == [] {
      assert Put(x, key, v)[1..] == [] && Put(y, key, v)[1..] == [];
    } else if x[0].key == key {
      AlikeHas(x[1..], y[1..], keys, key);
      assert Put(x, key, v)[1..] == x[1..] && Put(y, key, v)[1..] == y[1..];
    } else {
      PutAlike(x[1..], y[1..], keys, key, v);
      PutGet(x[1..], key, v, x[0].key);
      assert Put(x, key, v)[1..] == Put(x[1..], key, v) && Put(y, key, v)[1..] == Put(y[1..], key, v);
    }
  }

  lemma SetAlike(x: seq<Field>, y: seq<Field>, keys: set<string>, key: string, f: Json -> Json)
    requires AlikeBut(x, y, keys) && Unique(x) && f(Get(x, key)) == f(Get(y, key))
    ensures AlikeBut(SetIfHas(x, key, f), SetIfHas(y, key, f), keys - {key}) && Unique(SetIfHas(x, key, f))
  {
    AlikeHas(x, y, keys, key);
    if Has(x, key) { PutAlike(x, y, keys, key, f(Get(x, key))); }
  }

  // Two messages of the same shape: the texts may differ, and nothing else.

  predicate TextsAlike(a: Json, b: Json) {
    a == b || (a.JString? && b.JString? && a.text != "" && b.text != "")
  }

  predicate BlockAlike(a: Json, b: Json) {
    a == b || (a.JObject? && b.JObject? && Unique(a.fields) && AlikeBut(a.fields, b.fields, {"text"})
               && TextsAlike(Get(a.fields, "text"), Get(b.fields, "text")))
  }

  predicate CallAlike(a: Json, b: Json) {
    a == b || (a.JObject? && b.JObject? && Unique(a.fields) && AlikeBut(a.fields, b.fields, {"function"})
               && Arguments(a.fields).Some? && Arguments(b.fields).Some?
               && Unique(FunctionOf(a.fields).fields)
               && AlikeBut(FunctionOf(a.fields).fields, FunctionOf(b.fields).fields, {"arguments"}))
  }

  predicate ThoughtsAlike(x: seq<Field>, y: seq<Field>) {
    |x| == |y| && (x != [] ==>
      && x[0].key == y[0].key && (x[0] == y[0] || (!Literal(x[0]) && !Literal(y[0])))
      && ThoughtsAlike(x[1..], y[1..]))
  }

  predicate ThinkingAlike(a: Json, b: Json) {
    a == b || (a.JObject? && b.JObject? && ThoughtsAlike(a.fields, b.fields))
  }

  predicate ArraysAlike(a: Json, b: Json, alike: (Json, Json) -> bool) {
    a == b || (a.JArray? && b.JArray? && |a.items| == |b.items|
               && forall i :: 0 <= i < |a.items| ==> alike(a.items[i], b.items[i]))
  }

  predicate PartAlike(p: Part, a: Json, b: Json) {
    match p
    case Content => TextsAlike(a, b) || ArraysAlike(a, b, BlockAlike)
    case ToolCalls => ArraysAlike(a, b, CallAlike)
    case Reasoning => Similar(a, b)
    case Thinking => ArraysAlike(a, b, ThinkingAlike)
    case _ => a == b
  }

  lemma BlockWithheldAlike(a: Json, b: Json, marker: string)
    requires BlockAlike(a, b)
    ensures WithheldBlock(a, marker) == WithheldBlock(b, marker)
  {
    if a != b {
      var f := (v: Json) => WithheldText(v, marker);
      SetAlike(a.fields, b.fields, {"text"}, "text", f);
      assert {"text"} - {"text"} == {};
      AlikeIsEqual(SetIfHas(a.fields, "text", f), SetIfHas(b.fields, "text", f));
    }
  }

  lemma CallWithheldAlike(a: Json, b: Json, rules: Rules, marker: string)
    requires CallAlike(a, b)
    ensures WithheldToolCall(a, rules, marker) == WithheldToolCall(b, rules, marker)
  {
    if a != b {
      var arguments := rules.withheldArguments(marker);
      var f, g := FunctionOf(a.fields).fields, FunctionOf(b.fields).fields;
      PutAlike(f, g, {"arguments"}, "arguments", JString(arguments));
      assert {"arguments"} - {"arguments"} == {} == {"function"} - {"function"};
      AlikeIsEqual(Put(f, "arguments", JString(arguments)), Put(g, "arguments", JString(arguments)));
      var fn := JObject(Put(f, "arguments", JString(arguments)));
      PutAlike(a.fields, b.fields, {"function"}, "function", fn);
      AlikeIsEqual(Put(a.fields, "function", fn), Put(b.fields, "function", fn));
      assert WithArguments(a.fields, arguments) == WithArguments(b.fields, arguments);
    }
  }

  lemma {:induction false} ThoughtsWithheldAlike(x: seq<Field>, y: seq<Field>, marker: string)
    requires ThoughtsAlike(x, y)
    ensures WithheldThoughts(x, marker) == WithheldThoughts(y, marker)
    ensures AllLiteral(x) <==> AllLiteral(y)
    ensures AllLiteral(x) ==> x == y
  {
    if x != [] {
      ThoughtsWithheldAlike(x[1..], y[1..], marker);
      if AllLiteral(x) { assert x == [x[0]] + x[1..] && y == [y[0]] + y[1..]; }
    }
  }

  lemma ThinkingWithheldAlike(a: Json, b: Json, rules: Rules, marker: string)
    requires ThinkingAlike(a, b)
    ensures WithheldThinkingBlock(a, rules, marker) == WithheldThinkingBlock(b, rules, marker)
  {
    if a != b { ThoughtsWithheldAlike(a.fields, b.fields, marker); }
  }

  lemma EachAlike(a: Json, b: Json, alike: (Json, Json) -> bool, f: Json -> Json)
    requires ArraysAlike(a, b, alike)
    requires forall x: Json, y: Json {:trigger alike(x, y)} :: alike(x, y) ==> f(x) == f(y)
    ensures EachOf(a, f) == EachOf(b, f)
  {
    if a != b {
      forall i | 0 <= i < |a.items| ensures f(a.items[i]) == f(b.items[i]) {
        assert alike(a.items[i], b.items[i]);
      }
      assert EachItem(a.items, f) == EachItem(b.items, f);
    }
  }

  lemma ContentWithheldAlike(a: Json, b: Json, marker: string)
    requires TextsAlike(a, b) || ArraysAlike(a, b, BlockAlike)
    ensures WithheldContent(a, marker) == WithheldContent(b, marker)
  {
    if !TextsAlike(a, b) {
      var f := (v: Json) => WithheldBlock(v, marker);
      forall x: Json, y: Json | BlockAlike(x, y) ensures f(x) == f(y) { BlockWithheldAlike(x, y, marker); }
      EachAlike(a, b, BlockAlike, f);
    }
  }

  lemma CallsWithheldAlike(a: Json, b: Json, rules: Rules, marker: string)
    requires ArraysAlike(a, b, CallAlike)
    ensures WithheldPart(a, ToolCalls, rules, marker) == WithheldPart(b, ToolCalls, rules, marker)
  {
    var f := (v: Json) => WithheldToolCall(v, rules, marker);
    forall x: Json, y: Json | CallAlike(x, y) ensures f(x) == f(y) { CallWithheldAlike(x, y, rules, marker); }
    EachAlike(a, b, CallAlike, f);
    assert WithheldPart(a, ToolCalls, rules, marker) == EachOf(a, f);
  }

  lemma BlocksWithheldAlike(a: Json, b: Json, rules: Rules, marker: string)
    requires ArraysAlike(a, b, ThinkingAlike)
    ensures WithheldPart(a, Thinking, rules, marker) == WithheldPart(b, Thinking, rules, marker)
  {
    var f := (v: Json) => WithheldThinkingBlock(v, rules, marker);
    forall x: Json, y: Json | ThinkingAlike(x, y) ensures f(x) == f(y) { ThinkingWithheldAlike(x, y, rules, marker); }
    EachAlike(a, b, ThinkingAlike, f);
    assert WithheldPart(a, Thinking, rules, marker) == EachOf(a, f);
  }

  lemma PartWithheldAlike(p: Part, a: Json, b: Json, rules: Rules, marker: string)
    requires PartAlike(p, a, b) && marker != ""
    ensures WithheldPart(a, p, rules, marker) == WithheldPart(b, p, rules, marker)
  {
    match p
    case Content => ContentWithheldAlike(a, b, marker);
    case ToolCalls => CallsWithheldAlike(a, b, rules, marker);
    case Reasoning => WithheldAlikeIff(a, b, marker);
    case Thinking => BlocksWithheldAlike(a, b, rules, marker);
    case _ =>
  }

  function Keys(parts: seq<Part>): set<string> {
    if parts == [] then {} else {PartKey(parts[0])} + Keys(parts[1..])
  }

  lemma {:induction false} KeyOfPart(parts: seq<Part>, p: Part)
    ensures PartKey(p) in Keys(parts) <==> p in parts
  {
    if parts != [] {
      KeysDiffer(p, parts[0]);
      KeyOfPart(parts[1..], p);
    }
  }

  lemma {:induction false} SetPartsAlike(x: seq<Field>, y: seq<Field>, parts: seq<Part>, f: (Part, Json) -> Json)
    requires Unique(x) && AlikeBut(x, y, Keys(parts)) && Distinct(parts)
    requires forall p :: p in parts ==> f(p, Get(x, PartKey(p))) == f(p, Get(y, PartKey(p)))
    ensures SetParts(x, parts, f) == SetParts(y, parts, f)
    decreases |parts|
  {
    if parts == [] {
      AlikeIsEqual(x, y);
    } else {
      var key := PartKey(parts[0]);
      var g := (v: Json) => f(parts[0], v);
      SetAlike(x, y, Keys(parts), key, g);
      KeyOfPart(parts[1..], parts[0]);
      assert Keys(parts) - {key} == Keys(parts[1..]);
      var u, v := SetIfHas(x, key, g), SetIfHas(y, key, g);
      forall p | p in parts[1..] ensures f(p, Get(u, PartKey(p))) == f(p, Get(v, PartKey(p))) {
        KeysDiffer(p, parts[0]);
        SetGet(x, key, g, PartKey(p));
        SetGet(y, key, g, PartKey(p));
      }
      SetPartsAlike(u, v, parts[1..], f);
    }
  }

  lemma SetGet(x: seq<Field>, key: string, f: Json -> Json, other: string)
    ensures Get(SetIfHas(x, key, f), other) == if other == key && Has(x, key) then f(Get(x, key)) else Get(x, other)
    ensures Has(SetIfHas(x, key, f), other) <==> Has(x, other)
  {
    if Has(x, key) { PutGet(x, key, f(Get(x, key)), other); }
  }

  /** A withheld message does not depend on its texts: messages of the same shape are withheld
      alike. */
  lemma WithheldIgnoresTexts(x: seq<Field>, y: seq<Field>, rules: Rules, marker: string)
    requires marker != "" && Unique(x) && AlikeBut(x, y, Keys(PARTS))
    requires forall p :: p in PARTS ==> PartAlike(p, Get(x, PartKey(p)), Get(y, PartKey(p)))
    ensures WithheldMessage(x, rules, marker) == WithheldMessage(y, rules, marker)
  {
    var f := (p: Part, v: Json) => WithheldPart(v, p, rules, marker);
    forall p | p in PARTS ensures f(p, Get(x, PartKey(p))) == f(p, Get(y, PartKey(p))) {
      PartWithheldAlike(p, Get(x, PartKey(p)), Get(y, PartKey(p)), rules, marker);
    }
    SetPartsAlike(x, y, PARTS, f);
  }

  lemma {:induction false} SetPartsGet(x: seq<Field>, parts: seq<Part>, f: (Part, Json) -> Json, key: string)
    requires Distinct(parts)
    ensures key !in Keys(parts) ==> Get(SetParts(x, parts, f), key) == Get(x, key)
    ensures forall p :: p in parts && PartKey(p) == key && Has(x, key) ==>
      Get(SetParts(x, parts, f), key) == f(p, Get(x, key))
    decreases |parts|
  {
    if parts != [] {
      var g := (v: Json) => f(parts[0], v);
      SetGet(x, PartKey(parts[0]), g, key);
      KeyOfPart(parts[1..], parts[0]);
      SetPartsGet(SetIfHas(x, PartKey(parts[0]), g), parts[1..], f, key);
      forall p | p in parts && PartKey(p) == key && Has(x, key)
        ensures Get(SetParts(x, parts, f), key) == f(p, Get(x, key))
      {
        KeysDiffer(p, parts[0]);
      }
    }
  }

  lemma IdentityKeys()
    ensures Keys(PARTS) !! {"role", "name", "tool_call_id"}
  {
    forall p: Part ensures PartKey(p) !in {"role", "name", "tool_call_id"} {
      KeysDiffer(p, p);
      assert |"tool_call_id"| == 12;
    }
    assert Keys(PARTS) == {PartKey(Content), PartKey(ToolCalls), PartKey(Reasoning), PartKey(Thinking)};
  }

  /** The calls of a withheld record: as many, each with its id. */
  ghost predicate CallsKept(before: Json, after: Json) {
    before.JArray? ==> (
      && after.JArray? && |after.items| == |before.items|
      && forall i :: 0 <= i < |before.items| && before.items[i].JObject? ==>
           after.items[i].JObject? && Get(after.items[i].fields, "id") == Get(before.items[i].fields, "id"))
  }

  lemma WithheldCallsKept(calls: Json, rules: Rules, marker: string)
    ensures CallsKept(calls, EachOf(calls, (c: Json) => WithheldToolCall(c, rules, marker)))
  {
    if calls.JArray? {
      forall i | 0 <= i < |calls.items| && calls.items[i].JObject?
        ensures var after := WithheldToolCall(calls.items[i], rules, marker);
          after.JObject? && Get(after.fields, "id") == Get(calls.items[i].fields, "id")
      {
        WithheldCallIsHonest(calls.items[i].fields, rules, marker);
      }
    }
  }

  /** The role, the name, the id a result answers, and the id of every call survive. */
  lemma WithheldKeepsIdentity(m: seq<Field>, rules: Rules, marker: string, key: string)
    ensures var after := WithheldMessage(m, rules, marker);
      && (key in {"role", "name", "tool_call_id"} ==> Get(after, key) == Get(m, key))
      && CallsKept(Get(m, "tool_calls"), Get(after, "tool_calls"))
  {
    var f := (p: Part, v: Json) => WithheldPart(v, p, rules, marker);
    IdentityKeys();
    SetPartsGet(m, PARTS, f, key);
    var calls := Get(m, "tool_calls");
    if calls.JArray? {
      GetHas(m, "tool_calls");
      SetPartsGet(m, PARTS, f, PartKey(ToolCalls));
      assert ToolCalls in PARTS;
      WithheldCallsKept(calls, rules, marker);
    }
  }

  /** What the restore path reads of a withheld checkpoint: the ids of the pending calls, and
      which call each completed result answers. */
  lemma WithheldCheckpointKeepsIds(c: seq<Field>, rules: Rules, marker: string, i: nat)
    ensures var after := WithheldCheckpoint(c, rules, marker);
      && CallsKept(Get(c, "pending_tool_calls"), Get(after, "pending_tool_calls"))
      && ResultKept(Get(c, "completed_tool_results"), Get(after, "completed_tool_results"), i)
  {
    var f := (p: Part, v: Json) => WithheldStage(v, p, rules, marker);
    assert PendingCalls in STAGES && CompletedResults in STAGES;
    var calls, results := Get(c, "pending_tool_calls"), Get(c, "completed_tool_results");
    if calls.JArray? {
      GetHas(c, "pending_tool_calls");
      SetPartsGet(c, STAGES, f, PartKey(PendingCalls));
      WithheldCallsKept(calls, rules, marker);
    }
    if results.JArray? {
      GetHas(c, "completed_tool_results");
      SetPartsGet(c, STAGES, f, PartKey(CompletedResults));
      if i < |results.items| && results.items[i].JObject? {
        WithheldKeepsIdentity(results.items[i].fields, rules, marker, "tool_call_id");
      }
    }
  }

  ghost predicate ResultKept(before: Json, after: Json, i: nat) {
    before.JArray? ==> (
      && after.JArray? && |after.items| == |before.items|
      && (i < |before.items| && before.items[i].JObject? ==>
            after.items[i].JObject?
            && Get(after.items[i].fields, "tool_call_id") == Get(before.items[i].fields, "tool_call_id")))
  }
}
