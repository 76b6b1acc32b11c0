/** The record walks are pure and ask the same texts whatever they are answered, so one batch
    fills in exactly what asking text by text would. */
module RedactionBatches {
  import opened Transcript
  import opened Batching
  import opened Redaction

  /** The same walk under two scrubbers: the same questions, and the same value when these are
      answered alike. */
  ghost predicate SameWalk<T>(x: Walked<T>, a: Scrubber, m: nat, y: Walked<T>, b: Scrubber, n: nat) {
    x.asked == y.asked && (Agree(a, m, b, n, x.asked) ==> x.value == y.value)
  }

  lemma AgreeSplit(a: Scrubber, m: nat, b: Scrubber, n: nat, p: seq<Asked>, q: seq<Asked>)
    ensures Agree(a, m, b, n, p + q) <==> Agree(a, m, b, n, p) && Agree(a, m + |p|, b, n + |p|, q)
  {
    if Agree(a, m, b, n, p + q) {
      forall k | 0 <= k < |p| ensures a(m + k, p[k]) == b(n + k, p[k]) {
        assert (p + q)[k] == p[k];
      }
      forall k | 0 <= k < |q| ensures a(m + |p| + k, q[k]) == b(n + |p| + k, q[k]) {
        assert (p + q)[|p| + k] == q[k];
      }
    }
    if Agree(a, m, b, n, p) && Agree(a, m + |p|, b, n + |p|, q) {
      forall k | 0 <= k < |p + q| ensures a(m + k, (p + q)[k]) == b(n + k, (p + q)[k]) {
        if k >= |p| { assert (p + q)[k] == q[k - |p|]; }
      }
    }
  }

  lemma AskSame(text: string, cap: Option<string>, a: Scrubber, m: nat, b: Scrubber, n: nat)
    ensures SameWalk(Ask(text, cap, a, m), a, m, Ask(text, cap, b, n), b, n)
  {
    var q := Asked(text, cap);
    if Agree(a, m, b, n, [q]) { assert a(m + 0, [q][0]) == b(n + 0, [q][0]); }
  }

  lemma {:induction false} AnySame(v: Json, a: Scrubber, m: nat, b: Scrubber, n: nat)
    ensures SameWalk(RedactAny(v, a, m), a, m, RedactAny(v, b, n), b, n)
    decreases v
  {
    match v
    case JString(text) => AskSame(text, None, a, m, b, n);
    case JArray(items) => ItemsSame(items, a, m, b, n);
    case JObject(fields) => MappingSame(fields, a, m, b, n);
    case _ =>
  }

  lemma {:induction false} ItemsSame(items: seq<Json>, a: Scrubber, m: nat, b: Scrubber, n: nat)
    ensures SameWalk(RedactItems(items, a, m), a, m, RedactItems(items, b, n), b, n)
    decreases items
  {
    if items != [] {
      var p := RedactAny(items[0], a, m).asked;
      AnySame(items[0], a, m, b, n);
      ItemsSame(items[1..], a, m + |p|, b, n + |p|);
      AgreeSplit(a, m, b, n, p, RedactItems(items[1..], a, m + |p|).asked);
    }
  }

  lemma {:induction false} MappingSame(fields: seq<Field>, a: Scrubber, m: nat, b: Scrubber, n: nat)
    ensures SameWalk(RedactMapping(fields, a, m), a, m, RedactMapping(fields, b, n), b, n)
    decreases fields
  {
    if fields != [] {
      var p := RedactAny(fields[0].value, a, m).asked;
      AnySame(fields[0].value, a, m, b, n);
      MappingSame(fields[1..], a, m + |p|, b, n + |p|);
      AgreeSplit(a, m, b, n, p, RedactMapping(fields[1..], a, m + |p|).asked);
    }
  }

  lemma BlockSame(block: Json, cap: Option<string>, bounded: bool, rules: Rules,
                  a: Scrubber, m: nat, b: Scrubber, n: nat)
    ensures SameWalk(RedactBlock(block, cap, bounded, rules, a, m), a, m, RedactBlock(block, cap, bounded, rules, b, n), b, n)
  {
    if block.JObject? && Get(block.fields, "text").JString? {
      AskSame(Get(block.fields, "text").text, cap, a, m, b, n);
    }
  }

  ghost predicate ItemSame(walk: ItemWalk) {
    forall v: Json, a: Scrubber, m: nat, b: Scrubber, n: nat
      {:trigger SameWalk(walk(v, a, m), a, m, walk(v, b, n), b, n)} ::
      SameWalk(walk(v, a, m), a, m, walk(v, b, n), b, n)
  }

  lemma Combine(u: Walked<Json>, us: Walked<seq<Json>>, v: Walked<Json>, vs: Walked<seq<Json>>,
                a: Scrubber, m: nat, b: Scrubber, n: nat)
    requires SameWalk(u, a, m, v, b, n) && SameWalk(us, a, m + |u.asked|, vs, b, n + |u.asked|)
    ensures SameWalk(Walked([u.value] + us.value, u.asked + us.asked), a, m,
                     Walked([v.value] + vs.value, v.asked + vs.asked), b, n)
  {
    AgreeSplit(a, m, b, n, u.asked, us.asked);
  }

  lemma {:induction false} WalkSame(items: seq<Json>, walk: ItemWalk, a: Scrubber, m: nat, b: Scrubber, n: nat)
    requires ItemSame(walk)
    ensures SameWalk(WalkItems(items, walk, a, m), a, m, WalkItems(items, walk, b, n), b, n)
  {
    if items != [] {
      var u, v := walk(items[0], a, m), walk(items[0], b, n);
      assert SameWalk(u, a, m, v, b, n);
      WalkSame(items[1..], walk, a, m + |u.asked|, b, n + |u.asked|);
      Combine(u, WalkItems(items[1..], walk, a, m + |u.asked|),
              v, WalkItems(items[1..], walk, b, n + |u.asked|), a, m, b, n);
    }
  }

  lemma ArraySame(v: Json, walk: ItemWalk, a: Scrubber, m: nat, b: Scrubber, n: nat)
    requires ItemSame(walk)
    ensures SameWalk(WalkArray(v, walk, a, m), a, m, WalkArray(v, walk, b, n), b, n)
  {
    if v.JArray? { WalkSame(v.items, walk, a, m, b, n); }
  }

  lemma ContentSame(content: Json, cap: Option<string>, bounded: bool, rules: Rules,
                    a: Scrubber, m: nat, b: Scrubber, n: nat)
    ensures SameWalk(RedactContent(content, cap, bounded, rules, a, m), a, m,
                     RedactContent(content, cap, bounded, rules, b, n), b, n)
  {
    match content
    case JString(text) => AskSame(text, cap, a, m, b, n);
    case JArray(_) =>
      var walk := BlockWalk(cap, bounded, rules);
      forall v: Json, a: Scrubber, m: nat, b: Scrubber, n: nat ensures SameWalk(walk(v, a, m), a, m, walk(v, b, n), b, n) {
        BlockSame(v, cap, bounded, rules, a, m, b, n);
      }
      ArraySame(content, walk, a, m, b, n);
    case _ =>
  }

  lemma ToolCallSame(call: seq<Field>, rules: Rules, a: Scrubber, m: nat, b: Scrubber, n: nat)
    ensures SameWalk(RedactToolCall(call, rules, a, m), a, m, RedactToolCall(call, rules, b, n), b, n)
  {
    if Arguments(call).Some? { AskSame(Arguments(call).value, None, a, m, b, n); }
  }

  lemma ToolCallsSame(calls: Json, rules: Rules, a: Scrubber, m: nat, b: Scrubber, n: nat)
    ensures SameWalk(RedactToolCalls(calls, rules, a, m), a, m, RedactToolCalls(calls, rules, b, n), b, n)
  {
    var walk := CallWalk(rules);
    forall v: Json, a: Scrubber, m: nat, b: Scrubber, n: nat ensures SameWalk(walk(v, a, m), a, m, walk(v, b, n), b, n) {
      if v.JObject? { ToolCallSame(v.fields, rules, a, m, b, n); }
    }
    ArraySame(calls, walk, a, m, b, n);
  }

  lemma {:induction false} ThoughtsSame(fields: seq<Field>, a: Scrubber, m: nat, b: Scrubber, n: nat)
    ensures SameWalk(ScrubThoughts(fields, a, m), a, m, ScrubThoughts(fields, b, n), b, n)
  {
    if fields != [] {
      if Literal(fields[0]) {
        ThoughtsSame(fields[1..], a, m, b, n);
      } else {
        var p := Ask(fields[0].value.text, None, a, m).asked;
        AskSame(fields[0].value.text, None, a, m, b, n);
        ThoughtsSame(fields[1..], a, m + 1, b, n + 1);
        AgreeSplit(a, m, b, n, p, ScrubThoughts(fields[1..], a, m + 1).asked);
      }
    }
  }

  lemma ThinkingBlockSame(block: Json, rules: Rules, a: Scrubber, m: nat, b: Scrubber, n: nat)
    ensures SameWalk(RedactThinkingBlock(block, rules, a, m), a, m, RedactThinkingBlock(block, rules, b, n), b, n)
  {
    if block.JObject? { ThoughtsSame(block.fields, a, m, b, n); }
  }

  lemma ThinkingSame(blocks: Json, rules: Rules, a: Scrubber, m: nat, b: Scrubber, n: nat)
    ensures SameWalk(RedactThinkingBlocks(blocks, rules, a, m), a, m, RedactThinkingBlocks(blocks, rules, b, n), b, n)
  {
    var walk := ThinkingWalk(rules);
    forall v: Json, a: Scrubber, m: nat, b: Scrubber, n: nat ensures SameWalk(walk(v, a, m), a, m, walk(v, b, n), b, n) {
      ThinkingBlockSame(v, rules, a, m, b, n);
    }
    ArraySame(blocks, walk, a, m, b, n);
  }

  lemma PartSame(r: seq<Field>, p: Part, rules: Rules, a: Scrubber, m: nat, b: Scrubber, n: nat)
    ensures SameWalk(RedactPart(r, p, rules, a, m), a, m, RedactPart(r, p, rules, b, n), b, n)
  {
    var v := Get(r, PartKey(p));
    match p
    case Content => ContentSame(v, ClassOf(r, rules), rules.bounded && IsToolResult(r), rules, a, m, b, n);
    case ToolCalls => ToolCallsSame(v, rules, a, m, b, n);
    case Reasoning => if v.JString? && v.text != "" { AskSame(v.text, None, a, m, b, n); }
    case Thinking => ThinkingSame(v, rules, a, m, b, n);
    case _ =>
  }

  // ---------------------------------------------------------------- the fields of a message

  /** The two messages have the same role and name, and the same value under these keys. */
  ghost predicate Alike(x: seq<Field>, y: seq<Field>, parts: seq<Part>) {
    && Get(x, "role") == Get(y, "role") && Get(x, "name") == Get(y, "name")
    && forall p :: p in parts ==> Get(x, PartKey(p)) == Get(y, PartKey(p)) && (Has(x, PartKey(p)) <==> Has(y, PartKey(p)))
  }

  /** Filling in one field leaves what the other fields are read from. */
  lemma AlikeAfterPut(x: seq<Field>, y: seq<Field>, p: Part, v: Json, w: Json, parts: seq<Part>)
    requires Alike(x, y, [p] + parts) && p !in parts
    ensures Alike(Put(x, PartKey(p), v), Put(y, PartKey(p), w), parts)
  {
    var key := PartKey(p);
    KeysDiffer(p, p);
    PutGet(x, key, v, "role");
    PutGet(y, key, w, "role");
    PutGet(x, key, v, "name");
    PutGet(y, key, w, "name");
    forall q | q in parts
      ensures Get(Put(x, key, v), PartKey(q)) == Get(Put(y, key, w), PartKey(q))
      ensures Has(Put(x, key, v), PartKey(q)) <==> Has(Put(y, key, w), PartKey(q))
    {
      assert q in [p] + parts;
      KeysDiffer(p, q);
      PutGet(x, key, v, PartKey(q));
      PutGet(y, key, w, PartKey(q));
    }
  }

  lemma PartAsksAlike(x: seq<Field>, y: seq<Field>, p: Part, parts: seq<Part>, rules: Rules,
                      a: Scrubber, m: nat, b: Scrubber, n: nat)
    requires Alike(x, y, [p] + parts) && p !in parts
    ensures RedactPart(x, p, rules, a, m).asked == RedactPart(y, p, rules, b, n).asked
    ensures Alike(RedactPart(x, p, rules, a, m).value, RedactPart(y, p, rules, b, n).value, parts)
  {
    assert p in [p] + parts;
    assert forall q :: q in parts ==> q in [p] + parts;
    PartSame(y, p, rules, a, m, b, n);
    assert RedactPartValue(x, p, rules, a, m) == RedactPartValue(y, p, rules, a, m);
    AlikeAfterPut(x, y, p, RedactPartValue(x, p, rules, a, m).value, RedactPartValue(y, p, rules, b, n).value, parts);
  }

  ghost predicate StepSame(step: Step) {
    forall r: seq<Field>, p: Part, a: Scrubber, m: nat, b: Scrubber, n: nat
      {:trigger SameWalk(step(r, p, a, m), a, m, step(r, p, b, n), b, n)} ::
      SameWalk(step(r, p, a, m), a, m, step(r, p, b, n), b, n)
  }

  ghost predicate AsksAlike(step: Step, x: seq<Field>, y: seq<Field>, p: Part, parts: seq<Part>,
                            a: Scrubber, m: nat, b: Scrubber, n: nat) {
    && step(x, p, a, m).asked == step(y, p, b, n).asked
    && Alike(step(x, p, a, m).value, step(y, p, b, n).value, parts)
  }

  /** What a step asks, and what it leaves for other fields, depends on its own field only. */
  ghost predicate StepApart(step: Step) {
    forall x: seq<Field>, y: seq<Field>, p: Part, parts: seq<Part>, a: Scrubber, m: nat, b: Scrubber, n: nat ::
      Alike(x, y, [p] + parts) && p !in parts ==> AsksAlike(step, x, y, p, parts, a, m, b, n)
  }

  lemma PartStepOk(rules: Rules)
    ensures StepSame(PartStep(rules)) && StepApart(PartStep(rules))
  {
    var step := PartStep(rules);
    forall r: seq<Field>, p: Part, a: Scrubber, m: nat, b: Scrubber, n: nat
      ensures SameWalk(step(r, p, a, m), a, m, step(r, p, b, n), b, n)
    {
      PartSame(r, p, rules, a, m, b, n);
    }
    forall x: seq<Field>, y: seq<Field>, p: Part, parts: seq<Part>, a: Scrubber, m: nat, b: Scrubber, n: nat
      | Alike(x, y, [p] + parts) && p !in parts
      ensures AsksAlike(step, x, y, p, parts, a, m, b, n)
    {
      PartAsksAlike(x, y, p, parts, rules, a, m, b, n);
    }
  }

  lemma {:induction false} PartsAskAlike(x: seq<Field>, y: seq<Field>, parts: seq<Part>, step: Step,
                                         a: Scrubber, m: nat, b: Scrubber, n: nat)
    requires StepApart(step) && Alike(x, y, parts) && Distinct(parts)
    ensures RedactParts(x, parts, step, a, m).asked == RedactParts(y, parts, step, b, n).asked
    decreases |parts|
  {
    if parts != [] {
      assert [parts[0]] + parts[1..] == parts;
      assert AsksAlike(step, x, y, parts[0], parts[1..], a, m, b, n);
      var u, v := step(x, parts[0], a, m), step(y, parts[0], b, n);
      PartsAskAlike(u.value, v.value, parts[1..], step, a, m + |u.asked|, b, n + |v.asked|);
    }
  }

  lemma {:induction false} PartsSame(r: seq<Field>, parts: seq<Part>, step: Step, a: Scrubber, m: nat, b: Scrubber, n: nat)
    requires StepSame(step) && StepApart(step) && Distinct(parts)
    ensures SameWalk(RedactParts(r, parts, step, a, m), a, m, RedactParts(r, parts, step, b, n), b, n)
    decreases |parts|
  {
    PartsAskAlike(r, r, parts, step, a, m, b, n);
    if parts != [] {
      var u, v := step(r, parts[0], a, m), step(r, parts[0], b, n);
      assert SameWalk(u, a, m, v, b, n);
      var rest := RedactParts(u.value, parts[1..], step, a, m + |u.asked|).asked;
      AgreeSplit(a, m, b, n, u.asked, rest);
      if Agree(a, m, b, n, u.asked + rest) {
        PartsSame(u.value, parts[1..], step, a, m + |u.asked|, b, n + |u.asked|);
      }
    }
  }

  lemma MessageSame(r: seq<Field>, rules: Rules, a: Scrubber, m: nat, b: Scrubber, n: nat)
    ensures SameWalk(RedactMessage(r, rules, a, m), a, m, RedactMessage(r, rules, b, n), b, n)
  {
    if ClassOf(r, rules) == Some(CREDENTIAL_ACCESS) {
      var content := Get(r, "content");
      AskSame(if content.JString? then content.text else rules.show(content), Some(CREDENTIAL_ACCESS), a, m, b, n);
    } else {
      PartStepOk(rules);
      PartsSame(r, PARTS, PartStep(rules), a, m, b, n);
    }
  }

  // ---------------------------------------------------------------- a checkpoint

  lemma ResultsSame(results: Json, rules: Rules, a: Scrubber, m: nat, b: Scrubber, n: nat)
    ensures SameWalk(WalkArray(results, ResultWalk(rules), a, m), a, m, WalkArray(results, ResultWalk(rules), b, n), b, n)
  {
    var walk := ResultWalk(rules);
    forall v: Json, a: Scrubber, m: nat, b: Scrubber, n: nat ensures SameWalk(walk(v, a, m), a, m, walk(v, b, n), b, n) {
      if v.JObject? { MessageSame(v.fields, rules, a, m, b, n); }
    }
    ArraySame(results, walk, a, m, b, n);
  }

  lemma StageSame(c: seq<Field>, p: Part, rules: Rules, a: Scrubber, m: nat, b: Scrubber, n: nat)
    ensures SameWalk(RedactStage(c, p, rules, a, m), a, m, RedactStage(c, p, rules, b, n), b, n)
  {
    var v := Get(c, PartKey(p));
    match p
    case AssistantMessage => if v.JObject? { MessageSame(v.fields, rules, a, m, b, n); }
    case CompletedResults => ResultsSame(v, rules, a, m, b, n);
    case PendingCalls => ToolCallsSame(v, rules, a, m, b, n);
    case _ =>
  }

  lemma StageAsksAlike(x: seq<Field>, y: seq<Field>, p: Part, parts: seq<Part>, rules: Rules,
                       a: Scrubber, m: nat, b: Scrubber, n: nat)
    requires Alike(x, y, [p] + parts) && p !in parts
    ensures RedactStage(x, p, rules, a, m).asked == RedactStage(y, p, rules, b, n).asked
    ensures Alike(RedactStage(x, p, rules, a, m).value, RedactStage(y, p, rules, b, n).value, parts)
  {
    assert p in [p] + parts;
    assert forall q :: q in parts ==> q in [p] + parts;
    StageSame(y, p, rules, a, m, b, n);
    var v := Get(y, PartKey(p));
    AlikeAfterPut(x, y, p, RedactStageValue(v, p, rules, a, m).value, RedactStageValue(v, p, rules, b, n).value, parts);
  }

  lemma StageStepOk(rules: Rules)
    ensures StepSame(StageStep(rules)) && StepApart(StageStep(rules))
  {
    var step := StageStep(rules);
    forall r: seq<Field>, p: Part, a: Scrubber, m: nat, b: Scrubber, n: nat
      ensures SameWalk(step(r, p, a, m), a, m, step(r, p, b, n), b, n)
    {
      StageSame(r, p, rules, a, m, b, n);
    }
    forall x: seq<Field>, y: seq<Field>, p: Part, parts: seq<Part>, a: Scrubber, m: nat, b: Scrubber, n: nat
      | Alike(x, y, [p] + parts) && p !in parts
      ensures AsksAlike(step, x, y, p, parts, a, m, b, n)
    {
      StageAsksAlike(x, y, p, parts, rules, a, m, b, n);
    }
  }

  lemma CheckpointSame(c: seq<Field>, rules: Rules, a: Scrubber, m: nat, b: Scrubber, n: nat)
    ensures SameWalk(RedactCheckpoint(c, rules, a, m), a, m, RedactCheckpoint(c, rules, b, n), b, n)
  {
    StageStepOk(rules.(bounded := false));
    PartsSame(c, STAGES, StageStep(rules.(bounded := false)), a, m, b, n);
  }

  // ---------------------------------------------------------------- the walks in one batch

  function MappingWalk(fields: seq<Field>): Scrubber -> Walked<seq<Field>> {
    (scrub: Scrubber) => RedactMapping(fields, scrub, 0)
  }

  function MessageWalk(m: seq<Field>, rules: Rules): Scrubber -> Walked<seq<Field>> {
    (scrub: Scrubber) => RedactMessage(m, rules, scrub, 0)
  }

  function CheckpointWalk(c: seq<Field>, rules: Rules): Scrubber -> Walked<seq<Field>> {
    (scrub: Scrubber) => RedactCheckpoint(c, rules, scrub, 0)
  }

  ghost predicate WalksAlike<T(!new)>(run: Scrubber -> Walked<T>) {
    forall a: Scrubber, b: Scrubber :: SameWalk(run(a), a, 0, run(b), b, 0)
  }

  lemma WalksArePure<T(!new)>(run: Scrubber -> Walked<T>)
    requires WalksAlike(run)
    ensures Pure(run) && Oblivious(run)
  {
    forall a: Scrubber, b: Scrubber ensures run(a).asked == run(b).asked {
      assert SameWalk(run(a), a, 0, run(b), b, 0);
    }
    forall a: Scrubber, b: Scrubber | Agree(a, 0, b, 0, run(a).asked) ensures run(a) == run(b) {
      assert SameWalk(run(a), a, 0, run(b), b, 0);
    }
  }

  lemma RecordWalks(fields: seq<Field>, rules: Rules)
    ensures WalksAlike(MappingWalk(fields)) && WalksAlike(MessageWalk(fields, rules))
    ensures WalksAlike(CheckpointWalk(fields, rules))
  {
    forall a: Scrubber, b: Scrubber ensures SameWalk(MappingWalk(fields)(a), a, 0, MappingWalk(fields)(b), b, 0) {
      MappingSame(fields, a, 0, b, 0);
    }
    forall a: Scrubber, b: Scrubber
      ensures SameWalk(MessageWalk(fields, rules)(a), a, 0, MessageWalk(fields, rules)(b), b, 0)
    {
      MessageSame(fields, rules, a, 0, b, 0);
    }
    forall a: Scrubber, b: Scrubber
      ensures SameWalk(CheckpointWalk(fields, rules)(a), a, 0, CheckpointWalk(fields, rules)(b), b, 0)
    {
      CheckpointSame(fields, rules, a, 0, b, 0);
    }
  }

  /** One batch over a mapping, a message or a checkpoint: the second pass asks what the first
      collected, so nothing is raised, and the record is the one the per-text scrub makes. */
  lemma BatchIsDirect(fields: seq<Field>, rules: Rules, run: Scrubber -> Walked<seq<Field>>,
                      scrubMany: seq<Asked> -> seq<string>, scrub: Asked -> string)
    requires run in {MappingWalk(fields), MessageWalk(fields, rules), CheckpointWalk(fields, rules)}
    requires Answers(scrubMany, scrub)
    ensures var asked := run(Echo()).asked;
      && |scrubMany(asked)| == |asked|
      && run(Script(scrubMany(asked))).asked == asked == run(Each(scrub)).asked
      && run(Script(scrubMany(asked))).value == run(Each(scrub)).value
  {
    RecordWalks(fields, rules);
    WalksArePure(run);
    FilledIsDirect(run, scrubMany, scrub);
  }
}
