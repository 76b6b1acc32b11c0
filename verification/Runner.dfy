/** The loop that runs one agent turn: request the model, run its tools, fold in what the
    user wrote meanwhile, and stop.

    The provider, the hooks and the users are arbitrary functions of how often they were asked,
    and the tools of the iteration, the position and the call, so every statement here holds for
    each of their behaviours. */
module Runner {
  import opened Transcript
  import opened SessionStore
  import opened TurnRecovery

  const MAX_EMPTY_RETRIES := 2
  const MAX_LENGTH_RECOVERIES := 3
  const MAX_INJECTIONS_PER_TURN := 3
  const MAX_INJECTION_CYCLES := 5

  datatype Finish = Stop | ToolCalls | FunctionCall | Length | Error | Refusal | ContentFilter | OtherFinish

  datatype ToolCall = ToolCall(id: string, name: RawName)
  {
    predicate HasValidName() { name.Name? && name.text != "" }
    function ToOpenAI(): RawCall { Call(id, Some(name), NoName) }
  }

  datatype Response = Response(content: string, calls: seq<ToolCall>, finish: Finish)
  {
    predicate ShouldExecuteTools() {
      calls != [] && finish in {ToolCalls, FunctionCall, Stop}
    }
  }

  /** What a call gave, and the text of the error if it must stop the turn. */
  datatype ToolOutcome = ToolOutcome(content: Content, error: Option<string>)

  datatype StopReason = Completed | ToolError | ModelError | EmptyFinal | MaxIterations

  datatype Env = Env(
    respond: nat -> Response,              // the answer to the n-th request
    finalize: (nat, string) -> string,     // the hook's text for the n-th answer
    tool: (nat, nat, ToolCall) -> ToolOutcome, // the call at this position of the n-th iteration
    concurrencySafe: ToolCall -> bool,
    waiting: nat -> seq<Message>,          // what the n-th drain finds
    goalActive: nat -> bool,
    goalMessage: Content,
    mergeable: (Message, Message) -> bool, // neither is hidden, and the left allows a merge
    merged: (Message, Message) -> Content,
    recovery: string -> Content,           // the user message that asks to continue
    fallback: string)

  datatype Spec = Spec(maxIterations: nat, finalizeOnMax: bool, concurrentTools: bool)

  // ---------------------------------------------------------------- what a turn may append

  /** Each assistant message with tool calls is followed directly by one result per call,
      in call order, and there is no other result. */
  ghost predicate InCallOrder(ms: seq<Message>)
    decreases |ms|
  {
    if ms == [] then true
    else match ms[0].role
      case Tool => false
      case Assistant => ResultsInOrder(ms[0].calls, Run(ms[1..])) && InCallOrder(AfterRun(ms[1..]))
      case _ => InCallOrder(ms[1..])
  }

  ghost predicate ResultsInOrder(calls: seq<RawCall>, run: seq<Message>) {
    && |run| == |calls|
    && forall i :: 0 <= i < |calls| ==> calls[i].Call? && run[i].toolCallId == calls[i].id
  }

  lemma InOrderSegment(m: Message, run: seq<Message>, rest: seq<Message>)
    requires m.role == Assistant && AllTools(run) && NoToolFirst(rest)
    ensures InCallOrder([m] + run + rest) <==> ResultsInOrder(m.calls, run) && InCallOrder(rest)
  {
    Segment(m, run, rest);
  }

  lemma {:induction false} InOrderAppend(a: seq<Message>, b: seq<Message>)
    requires InCallOrder(a) && InCallOrder(b)
    ensures InCallOrder(a + b)
    decreases |a|
  {
    if a == [] {
      assert a + b == b;
    } else {
      Cut(a);
      var m, run, rest := a[0], Run(a[1..]), AfterRun(a[1..]);
      if m.role == Assistant {
        InOrderSegment(m, run, rest);
        InOrderAppend(rest, b);
        assert a + b == [m] + run + (rest + b);
        InOrderSegment(m, run, rest + b);
      } else {
        InOrderAppend(a[1..], b);
        assert (a + b)[1..] == a[1..] + b;
      }
    }
  }

  lemma InOrderOne(m: Message)
    requires m.role != Tool && (m.role == Assistant ==> m.calls == [])
    ensures InCallOrder([m])
  {
    assert [m][1..] == [] && Run([m][1..]) == [];
  }

  lemma InOrderTurn(m: Message, run: seq<Message>)
    requires m.role == Assistant && AllTools(run) && ResultsInOrder(m.calls, run)
    ensures InCallOrder([m] + run)
  {
    assert [m] + run + [] == [m] + run;
    InOrderSegment(m, run, []);
  }

  lemma PrefixOfThree<T>(front: seq<T>, rest: seq<T>, q: nat)
    requires q <= |rest|
    ensures (front + rest)[..|front| + q] == front + rest[..q]
  {
  }

  lemma AfterTheRun(m: Message, run: seq<Message>, rest: seq<Message>, p: nat)
    requires AllTools(run) && 0 < p < 1 + |run| + |rest| && ([m] + run + rest)[p].role != Tool
    ensures p >= 1 + |run| && rest[p - 1 - |run|] == ([m] + run + rest)[p]
  {
    assert forall j :: 0 <= j < |run| ==> ([m] + run + rest)[j + 1] == run[j];
  }

  lemma InOrderTake(m: Message, run: seq<Message>, rest: seq<Message>, q: nat)
    requires m.role == Assistant && AllTools(run) && NoToolFirst(rest) && q <= |rest|
    requires ResultsInOrder(m.calls, run) && InCallOrder(rest[..q])
    ensures InCallOrder(([m] + run + rest)[..1 + |run| + q])
  {
    InOrderSegment(m, run, rest[..q]);
    PrefixOfThree([m] + run, rest, q);
  }

  lemma InOrderUpTo(m: Message, run: seq<Message>, rest: seq<Message>, p: nat)
    requires m.role == Assistant && AllTools(run) && NoToolFirst(rest) && ResultsInOrder(m.calls, run)
    requires 0 < p < 1 + |run| + |rest| && ([m] + run + rest)[p].role != Tool
    ensures 1 + |run| <= p && rest[p - 1 - |run|].role != Tool
    ensures InCallOrder(rest[..p - 1 - |run|]) ==> InCallOrder(([m] + run + rest)[..p])
  {
    AfterTheRun(m, run, rest, p);
    if InCallOrder(rest[..p - 1 - |run|]) {
      InOrderTake(m, run, rest, p - 1 - |run|);
      assert 1 + |run| + (p - 1 - |run|) == p;
    }
  }

  lemma InOrderPlain(m: Message, rest: seq<Message>)
    requires m.role != Tool && m.role != Assistant
    ensures InCallOrder([m] + rest) <==> InCallOrder(rest)
  {
    assert ([m] + rest)[1..] == rest;
  }

  lemma HeadAndRest<T>(s: seq<T>, p: nat)
    requires 0 < p < |s|
    ensures s == [s[0]] + s[1..] && s[..p] == [s[0]] + s[1..][..p - 1] && s[1..][p - 1] == s[p]
  {
  }

  lemma {:induction false} InOrderPrefix(ms: seq<Message>, p: nat)
    requires InCallOrder(ms) && p < |ms| && ms[p].role != Tool
    ensures InCallOrder(ms[..p])
    decreases |ms|
  {
    if p > 0 {
      Cut(ms);
      HeadAndRest(ms, p);
      var m, run, rest := ms[0], Run(ms[1..]), AfterRun(ms[1..]);
      if m.role == Assistant {
        InOrderSegment(m, run, rest);
        InOrderUpTo(m, run, rest, p);
        InOrderPrefix(rest, p - 1 - |run|);
      } else {
        InOrderPlain(m, ms[1..]);
        InOrderPrefix(ms[1..], p - 1);
        InOrderPlain(m, ms[1..][..p - 1]);
      }
    }
  }

  /** What the runner appends is complete, so saving it keeps a session well paired. */
  lemma {:induction false} InOrderIsComplete(ms: seq<Message>)
    requires InCallOrder(ms)
    ensures Complete(ms)
    decreases |ms|
  {
    if ms != [] {
      Cut(ms);
      var m, run, rest := ms[0], Run(ms[1..]), AfterRun(ms[1..]);
      if m.role == Assistant {
        InOrderSegment(m, run, rest);
        CompleteSegment(m, run, rest);
        InOrderIsComplete(rest);
        forall x | x in IdSet(m) ensures x in Answered(run) {
          DeclaredIff(m.calls, x);
          AnsweredIff(run, x);
        }
      } else {
        InOrderIsComplete(ms[1..]);
      }
    }
  }

  // ---------------------------------------------------------------- running the tools

  function Flatten<T>(batches: seq<seq<T>>): seq<T> {
    if batches == [] then [] else Flatten(batches[..|batches| - 1]) + batches[|batches| - 1]
  }

  lemma FlattenOne<T>(batches: seq<seq<T>>, batch: seq<T>)
    ensures Flatten(batches + [batch]) == Flatten(batches) + batch
  {
    assert (batches + [batch])[..|batches|] == batches;
  }

  function Singles(calls: seq<ToolCall>): (batches: seq<seq<ToolCall>>)
    ensures |batches| == |calls| && forall b :: b in batches ==> |b| == 1
  {
    seq(|calls|, i requires 0 <= i < |calls| => [calls[i]])
  }

  lemma {:induction false} SinglesFlatten(calls: seq<ToolCall>)
    ensures Flatten(Singles(calls)) == calls
  {
    if calls != [] {
      var n := |calls| - 1;
      SinglesFlatten(calls[..n]);
      assert Singles(calls) == Singles(calls[..n]) + [[calls[n]]];
      FlattenOne(Singles(calls[..n]), [calls[n]]);
      assert calls[..n] + [calls[n]] == calls;
    }
  }

  /** No batch is empty, and only concurrency-safe calls share one. */
  ghost predicate GoodBatches(env: Env, concurrent: bool, batches: seq<seq<ToolCall>>) {
    forall b :: b in batches ==> |b| > 0 && (|b| > 1 ==> concurrent && AllSafe(env, b))
  }

  ghost predicate AllSafe(env: Env, calls: seq<ToolCall>) {
    forall c :: c in calls ==> env.concurrencySafe(c)
  }

  lemma OneMoreBatch(env: Env, batches: seq<seq<ToolCall>>, batch: seq<ToolCall>)
    requires GoodBatches(env, true, batches) && |batch| > 0 && (|batch| == 1 || AllSafe(env, batch))
    ensures GoodBatches(env, true, batches + [batch]) && Flatten(batches + [batch]) == Flatten(batches) + batch
  {
    FlattenOne(batches, batch);
  }

  /** The batches are the calls in order. */
  method PartitionToolBatches(env: Env, concurrent: bool, calls: seq<ToolCall>)
    returns (batches: seq<seq<ToolCall>>)
    ensures Flatten(batches) == calls && GoodBatches(env, concurrent, batches)
  {
    if !concurrent {
      SinglesFlatten(calls);
      return Singles(calls);
    }
    batches := [];
    var current: seq<ToolCall> := [];
    for i := 0 to |calls|
      invariant Flatten(batches) + current == calls[..i]
      invariant AllSafe(env, current) && GoodBatches(env, true, batches)
    {
      assert calls[..i + 1] == calls[..i] + [calls[i]];
      if env.concurrencySafe(calls[i]) {
        Regroup(Flatten(batches), current, [calls[i]]);
        current := current + [calls[i]];
      } else {
        batches := AddBatch(env, batches, current);
        batches := AddBatch(env, batches, [calls[i]]);
        current := [];
      }
    }
    assert calls[..|calls|] == calls;
    batches := AddBatch(env, batches, current);
  }

  method AddBatch(env: Env, batches: seq<seq<ToolCall>>, batch: seq<ToolCall>) returns (more: seq<seq<ToolCall>>)
    requires GoodBatches(env, true, batches) && (|batch| <= 1 || AllSafe(env, batch))
    ensures GoodBatches(env, true, more) && Flatten(more) == Flatten(batches) + batch
  {
    if batch == [] { return batches; }
    OneMoreBatch(env, batches, batch);
    more := batches + [batch];
  }

  /** What the calls give that stand from this position on. */
  function Outcomes(env: Env, iteration: nat, from: nat, calls: seq<ToolCall>): (out: seq<ToolOutcome>)
    ensures |out| == |calls|
  {
    seq(|calls|, i requires 0 <= i < |calls| => env.tool(iteration, from + i, calls[i]))
  }

  lemma OutcomesAppend(env: Env, iteration: nat, a: seq<ToolCall>, b: seq<ToolCall>)
    ensures Outcomes(env, iteration, 0, a + b)
         == Outcomes(env, iteration, 0, a) + Outcomes(env, iteration, |a|, b)
  {
  }

  function FirstError(results: seq<ToolOutcome>): Option<string> {
    if results == [] then None
    else
      var before := FirstError(results[..|results| - 1]);
      if before.Some? then before else results[|results| - 1].error
  }

  /** It is the error of the earliest call that failed; none exactly if no call failed. */
  lemma {:induction false} FirstErrorIs(results: seq<ToolOutcome>)
    ensures FirstError(results).None? <==> forall i :: 0 <= i < |results| ==> results[i].error.None?
    ensures FirstError(results).Some? ==> exists i ::
      0 <= i < |results| && results[i].error == FirstError(results) && forall k :: 0 <= k < i ==> results[k].error.None?
  {
    if results != [] {
      var n := |results| - 1;
      FirstErrorIs(results[..n]);
      if FirstError(results[..n]).Some? {
        var i :| 0 <= i < n && results[..n][i].error == FirstError(results[..n]) &&
          forall k :: 0 <= k < i ==> results[..n][k].error.None?;
        assert results[i].error == FirstError(results) && forall k :: 0 <= k < i ==> results[k] == results[..n][k];
      } else {
        assert forall k :: 0 <= k < n ==> results[k] == results[..n][k];
      }
    }
  }

  /** However the calls are batched, the results come back in call order. */
  method ExecuteTools(env: Env, spec: Spec, iteration: nat, calls: seq<ToolCall>)
    returns (results: seq<ToolOutcome>, fatal: Option<string>)
    ensures results == Outcomes(env, iteration, 0, calls)
    ensures fatal == FirstError(results)
  {
    var batches := PartitionToolBatches(env, spec.concurrentTools, calls);
    results := [];
    for b := 0 to |batches|
      invariant results == Outcomes(env, iteration, 0, Flatten(batches[..b]))
    {
      assert batches[..b + 1] == batches[..b] + [batches[b]];
      FlattenOne(batches[..b], batches[b]);
      OutcomesAppend(env, iteration, Flatten(batches[..b]), batches[b]);
      results := results + Outcomes(env, iteration, |results|, batches[b]);
    }
    assert batches[..|batches|] == batches;
    fatal := None;
    for i := 0 to |results|
      invariant fatal == FirstError(results[..i])
    {
      assert results[..i + 1][..i] == results[..i];
      if fatal.None? { fatal := results[i].error; }
    }
    assert results[..|results|] == results;
  }

  // ---------------------------------------------------------------- the turn in place

  function AssistantMessage(content: string, calls: seq<ToolCall>): Message {
    Message(Assistant, Text(content), seq(|calls|, i requires 0 <= i < |calls| => calls[i].ToOpenAI()),
            "", None, "", 0)
  }

  /** An assistant message without tool calls. */
  function Reply(content: string): Message {
    Message(Assistant, Text(content), [], "", None, "", 0)
  }

  function ToolMessage(call: ToolCall, content: Content): Message {
    Message(Tool, content, [], call.id, match call.name { case Name(t) => Some(t) case _ => None }, "", 0)
  }

  function UserMessage(content: Content): Message {
    Message(User, content, [], "", None, "", 0)
  }

  /** One result message per call, in call order. */
  function Replies(env: Env, iteration: nat, calls: seq<ToolCall>): seq<Message> {
    seq(|calls|, i requires 0 <= i < |calls| =>
      ToolMessage(calls[i], env.tool(iteration, i, calls[i]).content))
  }

  predicate HasInjectionContent(c: Content) {
    match c
    case Null => false
    case Text(t) => !Blank(t)
    case Blocks(bs) => bs != []
  }

  function Injections(items: seq<Message>): (out: seq<Message>)
    ensures forall m :: m in out ==> m.role == User && HasInjectionContent(m.content)
  {
    if items == [] then []
    else (if items[0].role == User && HasInjectionContent(items[0].content)
          then [UserMessage(items[0].content)] else []) + Injections(items[1..])
  }

  lemma InOrderGrows(from: nat, before: seq<Message>, a: seq<Message>, b: seq<Message>)
    requires from <= |before| && InCallOrder(before[from..]) && InCallOrder(a + b)
    ensures InCallOrder((before + a + b)[from..])
  {
    InOrderAppend(before[from..], a + b);
    assert (before + a + b)[from..] == before[from..] + (a + b);
  }

  /** An executed response: its message, its results, and the two checkpoints about it. */
  lemma TurnResults(assistant: Message, calls: seq<ToolCall>, completed: seq<Message>)
    requires assistant.role == Assistant && |completed| == |calls| == |assistant.calls|
    requires forall i :: 0 <= i < |calls| ==>
      && assistant.calls[i] == calls[i].ToOpenAI()
      && completed[i] == ToolMessage(calls[i], completed[i].content)
    ensures InCallOrder([assistant] + completed)
    ensures Emitted(Checkpoint(Some(assistant), [], assistant.calls))
    ensures Emitted(Checkpoint(Some(assistant), completed, []))
  {
    InOrderTurn(assistant, completed);
  }

  lemma ReplyAlone(m: Message)
    requires m.role == Assistant && m.calls == []
    ensures InCallOrder([m]) && Emitted(Checkpoint(Some(m), [], []))
  {
    InOrderOne(m);
  }

  /** The initial messages stay, save that the last of them may be rewritten in place: by a
      merge of a user message, or by a final text over an assistant message. */
  ghost predicate KeepsInitial(initial: seq<Message>, messages: seq<Message>) {
    && |initial| <= |messages|
    && (forall i :: 0 <= i < |initial| - 1 ==> messages[i] == initial[i])
    && (initial != [] ==>
        var m := messages[|initial| - 1];
        m == initial[|initial| - 1] || m.role == User || (m.role == Assistant && m.calls == []))
  }

  ghost predicate AllEmitted(cps: seq<Checkpoint>) {
    forall i :: 0 <= i < |cps| ==> Emitted(cps[i])
  }

  lemma RepliesAre(env: Env, iteration: nat, calls: seq<ToolCall>)
    ensures var replies := Replies(env, iteration, calls);
      |replies| == |calls| && forall i :: 0 <= i < |calls| ==> replies[i] == ToolMessage(calls[i], replies[i].content)
  {
    var replies := Replies(env, iteration, calls);
    forall i | 0 <= i < |calls| ensures replies[i] == ToolMessage(calls[i], replies[i].content) {
      assert replies[i] == ToolMessage(calls[i], env.tool(iteration, i, calls[i]).content);
    }
  }

  lemma InitialStays(initial: seq<Message>, before: seq<Message>, a: seq<Message>, b: seq<Message>)
    requires KeepsInitial(initial, before)
    ensures KeepsInitial(initial, before + a + b)
  {
    assert forall i :: 0 <= i < |before| ==> (before + a + b)[i] == before[i];
  }

  lemma EmittedMore(cps: seq<Checkpoint>, cp: Checkpoint)
    requires AllEmitted(cps) && Emitted(cp)
    ensures AllEmitted(cps + [cp])
  {
  }

  // Calls that cannot be executed.

  function Valids(calls: seq<ToolCall>): (valid: seq<ToolCall>)
    ensures forall c :: c in valid ==> c.HasValidName()
    ensures |valid| <= |calls|
  {
    if calls == [] then []
    else if calls[0].HasValidName() then [calls[0]] + Valids(calls[1..])
    else Valids(calls[1..])
  }

  /** The response without the calls that have no usable name; a stop if none is left. */
  function Sanitized(r: Response): (s: Response)
    ensures forall c :: c in s.calls ==> c.HasValidName()
  {
    var valid := Valids(r.calls);
    if r.calls != [] && valid == [] then r.(calls := [], finish := Stop) else r.(calls := valid)
  }

  /** The model asked for tools, and named none that can be called. */
  predicate Garbled(r: Response) {
    r.calls != [] && Valids(r.calls) == [] && (r.finish.ToolCalls? || r.finish.FunctionCall?)
  }

  lemma {:induction false} AllAreValid(calls: seq<ToolCall>)
    requires |Valids(calls)| == |calls|
    ensures Valids(calls) == calls
  {
    if calls != [] {
      if calls[0].HasValidName() { AllAreValid(calls[1..]); }
    }
  }

  function OptionalOne(m: Option<Message>): seq<Message> { if m.Some? then [m.value] else [] }

  // What an injection does to the list.

  predicate MergesInto(env: Env, messages: seq<Message>, injection: Message) {
    messages != [] && messages[|messages| - 1].role == User && env.mergeable(messages[|messages| - 1], injection)
  }

  function AddInjection(env: Env, messages: seq<Message>, injection: Message): seq<Message> {
    if MergesInto(env, messages, injection) then
      var last := messages[|messages| - 1];
      messages[|messages| - 1 := last.(content := env.merged(last, injection))]
    else messages + [injection]
  }

  function Injected(env: Env, messages: seq<Message>, injections: seq<Message>): seq<Message>
    decreases |injections|
  {
    if injections == [] then messages
    else Injected(env, AddInjection(env, messages, injections[0]), injections[1..])
  }

  /** Injections reach only the last message: all before it stay, and where nothing merges they
      are appended as they are. */
  lemma {:induction false} InjectedKeepsTheRest(env: Env, messages: seq<Message>, injections: seq<Message>)
    ensures |messages| <= |Injected(env, messages, injections)|
    ensures forall i :: 0 <= i < |messages| - 1 ==> Injected(env, messages, injections)[i] == messages[i]
    ensures (forall a, b :: !env.mergeable(a, b)) ==> Injected(env, messages, injections) == messages + injections
    decreases |injections|
  {
    if injections != [] {
      var next := AddInjection(env, messages, injections[0]);
      InjectedKeepsTheRest(env, next, injections[1..]);
      Regroup(messages, [injections[0]], injections[1..]);
      assert [injections[0]] + injections[1..] == injections;
    } else {
      assert messages + injections == messages;
    }
  }

  // How a turn's list ends.

  predicate EndsInReply(ms: seq<Message>) {
    ms != [] && ms[|ms| - 1].role == Assistant && ms[|ms| - 1].calls == []
  }

  /** A closing reply takes the place of the last one, unless that says the same. */
  function Closing(ms: seq<Message>, content: string): seq<Message> {
    if content == "" then ms
    else if !EndsInReply(ms) then ms + [Reply(content)]
    else if ms[|ms| - 1].content == Text(content) then ms
    else ms[|ms| - 1 := Reply(content)]
  }

  function Closed(ms: seq<Message>, failed: bool, clean: string): seq<Message> {
    if failed then (if EndsInReply(ms) then ms else ms + [Reply(ERROR_PLACEHOLDER)])
    else if Blank(clean) then Closing(ms, EMPTY_FINAL)
    else ms + [Reply(clean)]
  }

  /** What is said before a turn goes on: an answer that did not fail and is not blank. */
  function Said(response: Response, clean: string): Option<Message> {
    if response.finish != Error && !Blank(clean) then Some(Reply(clean)) else None
  }

  // One turn as a state, and what each part of an iteration makes of it.

  datatype TurnState = TurnState(
    messages: seq<Message>,
    checkpoints: seq<Checkpoint>,
    requests: nat,
    drains: nat,
    injectionCycles: nat,
    lengthParts: nat,
    emptyRetries: nat)

  /** What the next drain takes: at most three messages, and none after five drains that took
      any. */
  function WaitingIn(env: Env, s: TurnState): (ms: seq<Message>)
    ensures forall m :: m in ms ==> m.role == User
    ensures s.injectionCycles >= 5 ==> ms == []
    ensures s.injectionCycles < 5 ==> ms <= Injections(env.waiting(s.drains)) && |ms| <= 3
    ensures s.injectionCycles < 5 && |ms| < 3 ==> ms == Injections(env.waiting(s.drains))
  {
    if s.injectionCycles >= MAX_INJECTION_CYCLES then []
    else
      var ms := Injections(env.waiting(s.drains));
      if |ms| > MAX_INJECTIONS_PER_TURN then ms[..MAX_INJECTIONS_PER_TURN] else ms
  }

  function NextDrainIn(s: TurnState): nat {
    if s.injectionCycles < MAX_INJECTION_CYCLES then s.drains + 1 else s.drains
  }

  /** That, or with nothing waiting the goal message where it is allowed. */
  function TakenIn(env: Env, s: TurnState, withAssistant: bool, allowGoal: bool): (ms: seq<Message>)
    ensures forall m :: m in ms ==> m.role == User
  {
    if WaitingIn(env, s) == [] && allowGoal && withAssistant && env.goalActive(NextDrainIn(s))
    then [UserMessage(env.goalMessage)]
    else WaitingIn(env, s)
  }

  function AfterDrain(env: Env, s: TurnState, said: Option<Message>, checkpointed: bool, allowGoal: bool): TurnState {
    var taken := TakenIn(env, s, said.Some?, allowGoal);
    var t := s.(drains := NextDrainIn(s),
                injectionCycles := s.injectionCycles + if WaitingIn(env, s) != [] then 1 else 0);
    if taken == [] then t
    else t.(messages := Injected(env, s.messages + OptionalOne(said), taken),
            checkpoints := s.checkpoints + if said.Some? && checkpointed then [Checkpoint(said, [], [])] else [])
  }

  /** A drain takes from what is waiting, after what is said; it says nothing where nothing is taken. */
  lemma DrainIs(env: Env, s: TurnState, said: Option<Message>, checkpointed: bool, allowGoal: bool)
    ensures var t := AfterDrain(env, s, said, checkpointed, allowGoal);
      var taken := TakenIn(env, s, said.Some?, allowGoal);
      && t.requests == s.requests && t.lengthParts == s.lengthParts && t.emptyRetries == s.emptyRetries
      && t.drains == s.drains + (if s.injectionCycles < 5 then 1 else 0)
      && t.injectionCycles == s.injectionCycles + (if WaitingIn(env, s) != [] then 1 else 0)
      && (taken == [] ==> t.messages == s.messages && t.checkpoints == s.checkpoints)
      && (said.None? ==> t.messages == Injected(env, s.messages, taken) && t.checkpoints == s.checkpoints)
      && (said.Some? && taken != [] ==>
            && t.messages == Injected(env, s.messages + [said.value], taken)
            && t.checkpoints == s.checkpoints + if checkpointed then [Checkpoint(said, [], [])] else [])
  {
    assert s.messages + OptionalOne(None) == s.messages;
  }

  /** Stop for this reason, unless a user wrote. */
  function AfterStop(env: Env, s: TurnState, reason: StopReason): (TurnState, Option<StopReason>) {
    var t := AfterDrain(env, s, None, false, false);
    if TakenIn(env, s, false, false) != [] then (t.(lengthParts := 0), None) else (t, Some(reason))
  }

  function AfterTools(env: Env, iteration: nat, r: Response, s: TurnState): (TurnState, Option<StopReason>) {
    var assistant := AssistantMessage(r.content, r.calls);
    var results := Replies(env, iteration, r.calls);
    var listed := s.(messages := s.messages + [assistant] + results,
                     checkpoints := s.checkpoints + [Checkpoint(Some(assistant), [], assistant.calls)]);
    match FirstError(Outcomes(env, iteration, 0, r.calls))
    case Some(text) =>
      AfterStop(env, listed.(messages := Closing(listed.messages, "Error: " + text)), ToolError)
    case None =>
      var done := listed.(checkpoints := listed.checkpoints + [Checkpoint(Some(assistant), results, [])],
                          emptyRetries := 0, lengthParts := 0);
      (AfterDrain(env, done, None, false, false), None)
  }

  function AfterEnd(env: Env, failed: bool, clean: string, s: TurnState): (TurnState, Option<StopReason>) {
    var t := s.(messages := Closed(s.messages, failed, clean));
    if failed then AfterStop(env, t, ModelError)
    else if Blank(clean) then AfterStop(env, t, EmptyFinal)
    else (t.(checkpoints := t.checkpoints + [Checkpoint(Some(Reply(clean)), [], [])]), Some(Completed))
  }

  function AfterAnswer(env: Env, r: Response, clean: string, s: TurnState): (TurnState, Option<StopReason>) {
    if r.finish == Length && s.lengthParts < MAX_LENGTH_RECOVERIES then
      (s.(messages := s.messages + [Reply(clean)] + [UserMessage(env.recovery(clean))],
          lengthParts := s.lengthParts + 1), None)
    else AfterSaid(env, r, clean, s)
  }

  function AfterSaid(env: Env, r: Response, clean: string, s: TurnState): (TurnState, Option<StopReason>) {
    var said, goal := Said(r, clean), r.finish !in {Refusal, ContentFilter};
    var t := AfterDrain(env, s, said, true, goal);
    if TakenIn(env, s, said.Some?, goal) != [] then (t.(lengthParts := 0), None)
    else AfterEnd(env, r.finish == Error, clean, t)
  }

  predicate MayBeBlank(r: Response) { r.finish in {Error, Length, Refusal, ContentFilter} }

  datatype Reading = Reading(response: Response, clean: string, again: bool, state: TurnState)

  function ReadIn(env: Env, r: Response, s: TurnState): Reading {
    var clean := env.finalize(s.requests, r.content);
    if MayBeBlank(r) || !Blank(clean) then Reading(r, clean, false, s)
    else if s.emptyRetries + 1 < MAX_EMPTY_RETRIES
    then Reading(r, clean, true, s.(emptyRetries := s.emptyRetries + 1))
    else
      var second := env.respond(s.requests);
      Reading(second, env.finalize(s.requests + 1, second.content), false,
              s.(requests := s.requests + 1, emptyRetries := s.emptyRetries + 1))
  }

  function AfterText(env: Env, r: Response, s: TurnState): (TurnState, Option<StopReason>) {
    var read := ReadIn(env, r, s);
    if read.again then (read.state, None) else AfterAnswer(env, read.response, read.clean, read.state)
  }

  /** Which of four an answer becomes, and the whole list after it: a request for the rest of it, a
      turn that goes on with what users wrote, or an end; and an end that failed or was blank can
      still be revived by what users wrote. */
  ghost predicate Becomes(env: Env, r: Response, clean: string, s: TurnState, t: TurnState, done: Option<StopReason>) {
    var said := if r.finish != Error && !Blank(clean) then Some(Reply(clean)) else None;
    var taken := TakenIn(env, s, said.Some?, r.finish !in {Refusal, ContentFilter});
    var failed := r.finish == Error;
    if r.finish == Length && s.lengthParts < 3 then
      && done.None? && t.messages == s.messages + [Reply(clean), UserMessage(env.recovery(clean))]
      && t.lengthParts == s.lengthParts + 1 && t.checkpoints == s.checkpoints
    else if taken != [] then
      && done.None? && t.lengthParts == 0
      && t.messages == Injected(env, if said.Some? then s.messages + [said.value] else s.messages, taken)
      && t.checkpoints == s.checkpoints + if said.Some? then [Checkpoint(said, [], [])] else []
    else if !failed && !Blank(clean) then
      && done == Some(Completed) && t.messages == s.messages + [Reply(clean)] && t.lengthParts == s.lengthParts
      && t.checkpoints == s.checkpoints + [Checkpoint(Some(Reply(clean)), [], [])]
    else
      var late := WaitingIn(env, s.(drains := NextDrainIn(s)));
      && t.messages == Injected(env, Closed(s.messages, failed, clean), late) && t.checkpoints == s.checkpoints
      && (if late == [] then done == Some(if failed then ModelError else EmptyFinal) && t.lengthParts == s.lengthParts
          else done.None? && t.lengthParts == 0)
  }

  lemma AnswerBecomes(env: Env, r: Response, clean: string, s: TurnState)
    ensures var (t, done) := AfterAnswer(env, r, clean, s);
      Becomes(env, r, clean, s, t, done) && t.requests == s.requests && t.emptyRetries == s.emptyRetries
  {
    assert s.messages + [Reply(clean)] + [UserMessage(env.recovery(clean))]
        == s.messages + [Reply(clean), UserMessage(env.recovery(clean))];
    var said, goal := Said(r, clean), r.finish !in {Refusal, ContentFilter};
    DrainIs(env, s, said, true, goal);
    var t := AfterDrain(env, s, said, true, goal);
    DrainIs(env, t.(messages := Closed(t.messages, r.finish == Error, clean)), None, false, false);
  }

  /** The text of an answer without tools: a blank one is asked for again the first time, and replaced
      by a last request after that; an error, a cut, a refusal and a filtered answer may be blank. */
  lemma TextBecomes(env: Env, r: Response, s: TurnState)
    ensures var (t, done) := AfterText(env, r, s);
      var clean := env.finalize(s.requests, r.content);
      if Blank(clean) && r.finish != Error && r.finish != Length && r.finish != Refusal && r.finish != ContentFilter then
        if s.emptyRetries == 0 then t == s.(emptyRetries := 1) && done.None?
        else
          var second := env.respond(s.requests);
          && t.requests == s.requests + 1 && t.emptyRetries == s.emptyRetries + 1
          && Becomes(env, second, env.finalize(s.requests + 1, second.content),
                     s.(requests := s.requests + 1, emptyRetries := s.emptyRetries + 1), t, done)
      else Becomes(env, r, clean, s, t, done) && t.requests == s.requests && t.emptyRetries == s.emptyRetries
  {
    var read := ReadIn(env, r, s);
    AnswerBecomes(env, read.response, read.clean, read.state);
  }

  /** How many requests one iteration begins with, and the answer it goes by. */
  function Asked(env: Env, n: nat): nat {
    if !Garbled(env.respond(n)) then 1 else if !Garbled(env.respond(n + 1)) then 2 else 3
  }

  function AnswerTo(env: Env, n: nat): Response {
    var last := env.respond(n + Asked(env, n) - 1);
    if Asked(env, n) < 3 then Sanitized(last) else last
  }

  function AfterIteration(env: Env, iteration: nat, s: TurnState): (TurnState, Option<StopReason>) {
    AfterRequest(env, iteration, AnswerTo(env, s.requests), s.(requests := s.requests + Asked(env, s.requests)))
  }

  function AfterRequest(env: Env, iteration: nat, r: Response, s: TurnState): (TurnState, Option<StopReason>) {
    if r.ShouldExecuteTools() then AfterTools(env, iteration, r, s) else AfterText(env, r, s)
  }

  /** The closing text when the iterations run out: a last answer, if one was asked for and can be
      used, else the fallback. */
  function LastText(env: Env, spec: Spec, n: nat): string {
    var r := env.respond(n);
    if spec.finalizeOnMax && r.finish != Error && r.calls == [] && !Blank(env.finalize(n + 1, r.content))
    then env.finalize(n + 1, r.content)
    else env.fallback
  }

  function AfterLast(env: Env, spec: Spec, s: TurnState): TurnState {
    var t := AfterDrain(env, s, None, false, false);
    t.(requests := t.requests + if spec.finalizeOnMax then 1 else 0,
       messages := Closing(t.messages, LastText(env, spec, t.requests)))
  }

  lemma LastIs(env: Env, spec: Spec, s: TurnState, t: TurnState)
    requires t == AfterDrain(env, s, None, false, false)
    ensures AfterLast(env, spec, s) == t.(requests := t.requests + if spec.finalizeOnMax then 1 else 0,
                                          messages := Closing(t.messages, LastText(env, spec, t.requests)))
  {
  }

  lemma IterationIs(env: Env, iteration: nat, s: TurnState, t: TurnState)
    requires t == s.(requests := s.requests + Asked(env, s.requests))
    ensures AfterIteration(env, iteration, s) == AfterRequest(env, iteration, AnswerTo(env, s.requests), t)
  {
  }

  lemma FatalIs(env: Env, iteration: nat, r: Response, s: TurnState, t: TurnState)
    requires FirstError(Outcomes(env, iteration, 0, r.calls)).Some?
    requires var assistant := AssistantMessage(r.content, r.calls);
      t == s.(messages := s.messages + [assistant] + Replies(env, iteration, r.calls),
              checkpoints := s.checkpoints + [Checkpoint(Some(assistant), [], assistant.calls)])
    ensures var text := "Error: " + FirstError(Outcomes(env, iteration, 0, r.calls)).value;
      AfterTools(env, iteration, r, s) == AfterStop(env, t.(messages := Closing(t.messages, text)), ToolError)
  {
  }

  lemma ToolsAre(env: Env, iteration: nat, r: Response, s: TurnState, t: TurnState)
    requires FirstError(Outcomes(env, iteration, 0, r.calls)).None?
    requires var assistant := AssistantMessage(r.content, r.calls);
      var results := Replies(env, iteration, r.calls);
      t == s.(messages := s.messages + [assistant] + results,
              checkpoints := s.checkpoints + [Checkpoint(Some(assistant), [], assistant.calls)]
                             + [Checkpoint(Some(assistant), results, [])],
              emptyRetries := 0, lengthParts := 0)
    ensures AfterTools(env, iteration, r, s) == (AfterDrain(env, t, None, false, false), None)
  {
  }

  const EMPTY_FINAL := "I completed the tool steps but couldn't produce a final answer. " +
    "Please try again or narrow the task."
  const ERROR_PLACEHOLDER := "[Assistant reply unavailable due to model error.]"

  class Turn {
    const env: Env
    const spec: Spec
    const initial: seq<Message>
    var messages: seq<Message>
    var checkpoints: seq<Checkpoint>
    var requests: nat
    var drains: nat
    var injectionCycles: nat
    var lengthParts: nat
    var emptyRetries: nat

    function State(): TurnState
      reads this
    {
      TurnState(messages, checkpoints, requests, drains, injectionCycles, lengthParts, emptyRetries)
    }

    /** The messages the turn added. */
    function Added(): seq<Message>
      reads this
    {
      if |messages| >= |initial| then messages[|initial|..] else []
    }

    ghost predicate Valid()
      reads this
    {
      && KeepsInitial(initial, messages)
      && InCallOrder(Added())
      && AllEmitted(checkpoints)
      && injectionCycles <= MAX_INJECTION_CYCLES
      && lengthParts <= MAX_LENGTH_RECOVERIES
    }

    /** The list ends with an assistant message that asks for nothing. */
    ghost predicate EndsWithReply()
      reads this
    {
      EndsInReply(messages)
    }

    /** The last checkpoint is the final message of the turn. */
    ghost predicate FinalCheckpoint()
      reads this
    {
      messages != [] && checkpoints != []
      && checkpoints[|checkpoints| - 1] == Checkpoint(Some(messages[|messages| - 1]), [], [])
    }

    constructor (env: Env, spec: Spec, initial: seq<Message>)
      ensures Valid() && messages == initial && this.env == env && this.spec == spec && this.initial == initial
      ensures requests == 0 && checkpoints == []
    {
      this.env, this.spec, this.initial := env, spec, initial;
      messages, checkpoints := initial, [];
      requests, drains, injectionCycles, lengthParts, emptyRetries := 0, 0, 0, 0, 0;
    }

    /** Append messages that are in call order on their own. */
    method Append(ms: seq<Message>)
      requires Valid() && InCallOrder(ms)
      modifies this`messages
      ensures Valid() && messages == old(messages) + ms
    {
      InOrderAppend(Added(), ms);
      messages := messages + ms;
      assert messages[|initial|..] == old(Added()) + ms;
    }

    /** Rewrite the last message, which carries no tool calls and is no result. */
    method ReplaceLast(m: Message)
      requires Valid() && messages != []
      requires messages[|messages| - 1].role != Tool
      requires m.role == User || (m.role == Assistant && m.calls == [])
      modifies this`messages
      ensures Valid() && messages == old(messages)[|old(messages)| - 1 := m]
    {
      var last := |messages| - 1;
      if |messages| > |initial| {
        var n := last - |initial|;
        assert messages[last] == Added()[n];
        InOrderPrefix(Added(), n);
        InOrderOne(m);
        InOrderAppend(Added()[..n], [m]);
        assert messages[last := m][|initial|..] == Added()[..n] + [m];
      } else {
        assert Added() == [] && messages[last := m][|initial|..] == [];
      }
      messages := messages[last := m];
    }

    method AppendFinalMessage(content: string)
      requires Valid()
      modifies this`messages
      ensures Valid()
      ensures messages == Closing(old(messages), content)
      ensures content != "" ==> EndsWithReply() && messages[|messages| - 1].content == Text(content)
      ensures forall i :: 0 <= i < |messages| - 1 ==> i < |old(messages)| && messages[i] == old(messages)[i]
    {
      if content == "" { return; }
      if messages != [] {
        var last := messages[|messages| - 1];
        if last.role == Assistant && last.calls == [] {
          if last.content != Text(content) {
            ReplaceLast(Reply(content));
          }
          return;
        }
      }
      InOrderOne(Reply(content));
      Append([Reply(content)]);
    }

    method AppendModelErrorPlaceholder()
      requires Valid()
      modifies this`messages
      ensures Valid() && EndsWithReply() && messages == Closed(old(messages), true, "")
    {
      if messages != [] && messages[|messages| - 1].role == Assistant && messages[|messages| - 1].calls == [] {
        return;
      }
      InOrderOne(Reply(ERROR_PLACEHOLDER));
      Append([Reply(ERROR_PLACEHOLDER)]);
    }

    method AppendInjected(injections: seq<Message>)
      requires Valid() && forall m :: m in injections ==> m.role == User
      modifies this`messages
      ensures Valid() && messages == Injected(env, old(messages), injections)
    {
      assert injections[0..] == injections;
      for i := 0 to |injections|
        invariant Valid() && Injected(env, messages, injections[i..]) == Injected(env, old(messages), injections)
      {
        var injection := injections[i];
        assert injections[i..][1..] == injections[i + 1..];
        if MergesInto(env, messages, injection) {
          var last := messages[|messages| - 1];
          ReplaceLast(last.(content := env.merged(last, injection)));
        } else {
          InOrderOne(injection);
          Append([injection]);
        }
      }
    }

    method Emit(cp: Checkpoint)
      requires Valid() && Emitted(cp)
      modifies this`checkpoints
      ensures Valid() && checkpoints == old(checkpoints) + [cp]
    {
      checkpoints := checkpoints + [cp];
    }

    /** What the next drain takes. */
    function Waiting(): (ms: seq<Message>)
      reads this
      ensures forall m :: m in ms ==> m.role == User
    {
      WaitingIn(env, State())
    }

    function NextDrain(): nat
      reads this
    {
      NextDrainIn(State())
    }

    function Taken(withAssistant: bool, allowGoal: bool): (ms: seq<Message>)
      reads this
      ensures forall m :: m in ms ==> m.role == User
    {
      TakenIn(env, State(), withAssistant, allowGoal)
    }

    /** What users wrote meanwhile, as far as this turn still takes it. */
    method DrainInjections() returns (injections: seq<Message>)
      requires Valid()
      modifies this`drains, this`injectionCycles
      ensures Valid()
      ensures injections == old(Waiting()) && drains == old(NextDrain())
      ensures injectionCycles == old(injectionCycles) + if injections != [] then 1 else 0
    {
      if injectionCycles >= MAX_INJECTION_CYCLES { return []; }
      injections := Injections(env.waiting(drains));
      drains := drains + 1;
      if |injections| > MAX_INJECTIONS_PER_TURN { injections := injections[..MAX_INJECTIONS_PER_TURN]; }
      if injections != [] { injectionCycles := injectionCycles + 1; }
    }

    /** That, or the goal message. */
    method TakeInjections(withAssistant: bool, allowGoal: bool) returns (injections: seq<Message>)
      requires Valid()
      modifies this`drains, this`injectionCycles
      ensures Valid()
      ensures injections == old(Taken(withAssistant, allowGoal)) && drains == old(NextDrain())
      ensures injectionCycles == old(injectionCycles) + if old(Waiting()) != [] then 1 else 0
    {
      injections := DrainInjections();
      if injections == [] && allowGoal && withAssistant && env.goalActive(drains) {
        injections := [UserMessage(env.goalMessage)];
      }
    }

    /** Drain what users wrote meanwhile; true when the loop must go on, and then the assistant
        message stands before what was taken. */
    method TryDrainInjections(assistant: Option<Message>, checkpointed: bool, allowGoal: bool)
      returns (shouldContinue: bool)
      requires Valid()
      requires assistant.Some? ==> assistant.value.role == Assistant && assistant.value.calls == []
      modifies this`messages, this`checkpoints, this`drains, this`injectionCycles
      ensures Valid()
      ensures shouldContinue == (old(Taken(assistant.Some?, allowGoal)) != [])
      ensures State() == AfterDrain(env, old(State()), assistant, checkpointed, allowGoal)
    {
      var injections := TakeInjections(assistant.Some?, allowGoal);
      if injections == [] { return false; }
      GoOnWith(assistant, checkpointed, injections);
      shouldContinue := true;
    }

    method GoOnWith(assistant: Option<Message>, checkpointed: bool, injections: seq<Message>)
      requires Valid() && forall m :: m in injections ==> m.role == User
      requires assistant.Some? ==> assistant.value.role == Assistant && assistant.value.calls == []
      modifies this`messages, this`checkpoints
      ensures Valid() && messages == Injected(env, old(messages) + OptionalOne(assistant), injections)
      ensures checkpoints == old(checkpoints)
                             + if assistant.Some? && checkpointed then [Checkpoint(assistant, [], [])] else []
    {
      Say(assistant, checkpointed);
      AppendInjected(injections);
    }

    /** The assistant message of an answer that does not end the turn. */
    method Say(assistant: Option<Message>, checkpointed: bool)
      requires Valid()
      requires assistant.Some? ==> assistant.value.role == Assistant && assistant.value.calls == []
      modifies this`messages, this`checkpoints
      ensures Valid() && messages == old(messages) + OptionalOne(assistant)
      ensures checkpoints == old(checkpoints)
                             + if assistant.Some? && checkpointed then [Checkpoint(assistant, [], [])] else []
    {
      if assistant.Some? {
        InOrderOne(assistant.value);
        Append([assistant.value]);
        if checkpointed {
          Emit(Checkpoint(assistant, [], []));
        }
      }
    }

    /** Ask once, and drop the calls that cannot be executed. */
    method Ask() returns (response: Response, retry: bool)
      modifies this`requests
      ensures requests == old(requests) + 1
      ensures response == Sanitized(env.respond(old(requests))) && retry == Garbled(env.respond(old(requests)))
    {
      response := env.respond(requests);
      requests := requests + 1;
      retry := false;
      var valid := Valids(response.calls);
      if |valid| != |response.calls| {
        if valid == [] {
          retry := response.finish in {ToolCalls, FunctionCall};
          response := response.(finish := Stop);
        }
        response := response.(calls := valid);
      } else {
        AllAreValid(response.calls);
      }
    }

    /** At most three requests: the first, one retry over calls that all had to be dropped, and
        one without tools. */
    method RequestModel() returns (response: Response)
      modifies this`requests
      ensures old(requests) < requests <= old(requests) + 3
      ensures requests < old(requests) + 3 ==> response == Sanitized(env.respond(requests - 1))
      ensures requests == old(requests) + 3 ==> response == env.respond(requests - 1)
      ensures requests == old(requests) + 1 <==> !Garbled(env.respond(old(requests)))
      ensures requests == old(requests) + 3 <==>
        Garbled(env.respond(old(requests))) && Garbled(env.respond(old(requests) + 1))
      ensures requests == old(requests) + Asked(env, old(requests)) && response == AnswerTo(env, old(requests))
    {
      var retry;
      response, retry := Ask();
      if retry {
        response, retry := Ask();
        if retry {
          response := env.respond(requests);
          requests := requests + 1;
        }
      }
    }

    method AppendResults(calls: seq<ToolCall>, results: seq<ToolOutcome>) returns (completed: seq<Message>)
      requires |results| == |calls|
      modifies this`messages
      ensures messages == old(messages) + completed
      ensures |completed| == |calls|
      ensures forall i :: 0 <= i < |calls| ==> completed[i] == ToolMessage(calls[i], results[i].content)
    {
      completed := [];
      for i := 0 to |calls|
        invariant |completed| == i
        invariant forall k :: 0 <= k < i ==> completed[k] == ToolMessage(calls[k], results[k].content)
        invariant messages == old(messages) + completed
      {
        var message := ToolMessage(calls[i], results[i].content);
        messages := messages + [message];
        completed := completed + [message];
      }
    }

    method CallTools(iteration: nat, calls: seq<ToolCall>) returns (completed: seq<Message>, fatal: Option<string>)
      modifies this`messages
      ensures completed == Replies(env, iteration, calls) && messages == old(messages) + completed
      ensures fatal == FirstError(Outcomes(env, iteration, 0, calls))
    {
      var results;
      results, fatal := ExecuteTools(env, spec, iteration, calls);
      completed := AppendResults(calls, results);
    }

    /** Run the tools of one response. The list holds an unanswered call until the results
        are in; the first checkpoint is what a restart reads in the meantime. */
    method RunTools(iteration: nat, response: Response) returns (fatal: Option<string>)
      requires Valid() && response.calls != []
      modifies this`messages, this`checkpoints
      ensures Valid()
      ensures var assistant := AssistantMessage(response.content, response.calls);
        var results := Replies(env, iteration, response.calls);
        && messages == old(messages) + [assistant] + results
        && checkpoints == old(checkpoints) + [Checkpoint(Some(assistant), [], assistant.calls)]
             + (if fatal.Some? then [] else [Checkpoint(Some(assistant), results, [])])
      ensures fatal == FirstError(Outcomes(env, iteration, 0, response.calls))
    {
      var calls := response.calls;
      var assistant := AssistantMessage(response.content, calls);
      messages := messages + [assistant];
      checkpoints := checkpoints + [Checkpoint(Some(assistant), [], assistant.calls)];
      var completed;
      completed, fatal := CallTools(iteration, calls);
      RepliesAre(env, iteration, calls);
      TurnResults(assistant, calls, completed);
      InOrderGrows(|initial|, old(messages), [assistant], completed);
      InitialStays(initial, old(messages), [assistant], completed);
      EmittedMore(old(checkpoints), Checkpoint(Some(assistant), [], assistant.calls));
      if fatal.None? {
        EmittedMore(checkpoints, Checkpoint(Some(assistant), completed, []));
        checkpoints := checkpoints + [Checkpoint(Some(assistant), completed, [])];
      }
    }

    /** Stop for this reason, unless a user wrote in the meantime. */
    method StopUnlessInjected(reason: StopReason) returns (done: Option<StopReason>)
      requires Valid()
      modifies this`messages, this`checkpoints, this`drains, this`injectionCycles, this`lengthParts
      ensures Valid()
      ensures done == if old(Taken(false, false)) == [] then Some(reason) else None
      ensures done.Some? ==> messages == old(messages)
      ensures (State(), done) == AfterStop(env, old(State()), reason)
    {
      var more := TryDrainInjections(None, false, false);
      if more {
        lengthParts := 0;
        return None;
      }
      done := Some(reason);
    }

    /** The text of an answer. A blank one asks for another round the first time, and for a
        finalization request after that. */
    method ReadAnswer(answer: Response) returns (response: Response, clean: string, again: bool)
      modifies this`emptyRetries, this`requests
      ensures Reading(response, clean, again, State()) == ReadIn(env, answer, old(State()))
    {
      response, again := answer, false;
      clean := env.finalize(requests, response.content);
      if response.finish !in {Error, Length, Refusal, ContentFilter} && Blank(clean) {
        emptyRetries := emptyRetries + 1;
        if emptyRetries < MAX_EMPTY_RETRIES {
          again := true;
          return;
        }
        response := env.respond(requests);
        requests := requests + 1;
        clean := env.finalize(requests, response.content);
      }
    }

    /** A truncated answer: keep the part, and ask to continue. */
    method AppendPart(clean: string)
      requires Valid() && lengthParts < MAX_LENGTH_RECOVERIES
      modifies this`messages, this`lengthParts
      ensures Valid() && lengthParts == old(lengthParts) + 1
      ensures messages == old(messages) + [Reply(clean)] + [UserMessage(env.recovery(clean))]
    {
      lengthParts := lengthParts + 1;
      InOrderOne(Reply(clean));
      Append([Reply(clean)]);
      InOrderOne(UserMessage(env.recovery(clean)));
      Append([UserMessage(env.recovery(clean))]);
    }

    method AppendAnswer(clean: string)
      requires Valid()
      modifies this`messages, this`checkpoints
      ensures Valid() && EndsWithReply() && FinalCheckpoint()
      ensures messages == old(messages) + [Reply(clean)]
      ensures checkpoints == old(checkpoints) + [Checkpoint(Some(Reply(clean)), [], [])]
    {
      var answer := Reply(clean);
      ReplyAlone(answer);
      Append([answer]);
      checkpoints := checkpoints + [Checkpoint(Some(answer), [], [])];
    }

    method CloseFailed() returns (done: Option<StopReason>)
      requires Valid()
      modifies this`messages, this`checkpoints, this`drains, this`injectionCycles, this`lengthParts
      ensures Valid() && (done.Some? ==> EndsWithReply())
      ensures (State(), done) == AfterEnd(env, true, "", old(State()))
    {
      AppendModelErrorPlaceholder();
      done := StopUnlessInjected(ModelError);
    }

    method CloseEmpty(clean: string) returns (done: Option<StopReason>)
      requires Valid() && Blank(clean)
      modifies this`messages, this`checkpoints, this`drains, this`injectionCycles, this`lengthParts
      ensures Valid() && (done.Some? ==> EndsWithReply())
      ensures (State(), done) == AfterEnd(env, false, clean, old(State()))
    {
      AppendFinalMessage(EMPTY_FINAL);
      done := StopUnlessInjected(EmptyFinal);
    }

    /** Nobody wrote meanwhile: record how the turn ends. */
    method CloseTurn(failed: bool, clean: string) returns (done: Option<StopReason>)
      requires Valid()
      modifies this`messages, this`checkpoints, this`drains, this`injectionCycles, this`lengthParts
      ensures Valid() && (done.Some? ==> EndsWithReply()) && (done == Some(Completed) ==> FinalCheckpoint())
      ensures (State(), done) == AfterEnd(env, failed, clean, old(State()))
    {
      if failed {
        done := CloseFailed();
      } else if Blank(clean) {
        done := CloseEmpty(clean);
      } else {
        AppendAnswer(clean);
        done := Some(Completed);
      }
    }

    /** An answer whose text was read: it was cut off, or users wrote meanwhile, or it ends the
        turn. */
    method TakeAnswer(response: Response, clean: string) returns (done: Option<StopReason>)
      requires Valid()
      modifies this`messages, this`checkpoints, this`drains, this`injectionCycles, this`lengthParts
      ensures Valid() && (done.Some? ==> EndsWithReply()) && (done == Some(Completed) ==> FinalCheckpoint())
      ensures (State(), done) == AfterAnswer(env, response, clean, old(State()))
    {
      if response.finish == Length && lengthParts < MAX_LENGTH_RECOVERIES {
        AppendPart(clean);
        return None;
      }
      done := SayAnswer(response, clean);
    }

    method SayAnswer(response: Response, clean: string) returns (done: Option<StopReason>)
      requires Valid()
      modifies this`messages, this`checkpoints, this`drains, this`injectionCycles, this`lengthParts
      ensures Valid() && (done.Some? ==> EndsWithReply()) && (done == Some(Completed) ==> FinalCheckpoint())
      ensures (State(), done) == AfterSaid(env, response, clean, old(State()))
    {
      var assistant := if response.finish != Error && !Blank(clean)
        then Some(Reply(clean)) else None;
      var more := TryDrainInjections(assistant, true, response.finish !in {Refusal, ContentFilter});
      if more {
        lengthParts := 0;
        return None;
      }
      done := CloseTurn(response.finish == Error, clean);
    }

    /** One iteration that ran no tools, from the answer on. */
    method Conclude(answer: Response) returns (done: Option<StopReason>)
      requires Valid()
      modifies this`messages, this`checkpoints, this`drains, this`injectionCycles,
               this`lengthParts, this`emptyRetries, this`requests
      ensures Valid() && (done.Some? ==> EndsWithReply()) && (done == Some(Completed) ==> FinalCheckpoint())
      ensures (State(), done) == AfterText(env, answer, old(State()))
      ensures requests <= old(requests) + 1
    {
      var response, clean, again := ReadAnswer(answer);
      if again { return None; }
      done := TakeAnswer(response, clean);
    }

    method StopOnError(text: string) returns (done: Option<StopReason>)
      requires Valid()
      modifies this`messages, this`checkpoints, this`drains, this`injectionCycles, this`lengthParts
      ensures Valid()
      ensures done.Some? ==> done == Some(ToolError) && EndsWithReply()
      ensures var s := old(State());
        (State(), done) == AfterStop(env, s.(messages := Closing(s.messages, "Error: " + text)), ToolError)
    {
      AppendFinalMessage("Error: " + text);
      done := StopUnlessInjected(ToolError);
    }

    /** The tools of a response; a fatal error stops the turn, anything else goes on. */
    method ToolTurn(iteration: nat, response: Response) returns (done: Option<StopReason>)
      requires Valid() && response.calls != []
      modifies this`messages, this`checkpoints, this`drains, this`injectionCycles, this`lengthParts, this`emptyRetries
      ensures Valid()
      ensures done.Some? ==> done == Some(ToolError) && EndsWithReply()
      ensures (State(), done) == AfterTools(env, iteration, response, old(State()))
    {
      ghost var s := State();
      var fatal := RunTools(iteration, response);
      if fatal.Some? {
        assert checkpoints + [] == checkpoints;
        FatalIs(env, iteration, response, s, State());
        done := StopOnError(fatal.value);
        return;
      }
      emptyRetries, lengthParts := 0, 0;
      ToolsAre(env, iteration, response, s, State());
      var _ := TryDrainInjections(None, false, false);
      done := None;
    }

    /** One iteration: a request, then its tools or its conclusion. */
    method Iterate(iteration: nat) returns (done: Option<StopReason>)
      requires Valid()
      modifies this`messages, this`checkpoints, this`drains, this`injectionCycles,
               this`lengthParts, this`emptyRetries, this`requests
      ensures Valid()
      ensures requests <= old(requests) + 4
      ensures done.Some? ==> done.value != MaxIterations && EndsWithReply()
      ensures done == Some(Completed) ==> FinalCheckpoint()
      ensures (State(), done) == AfterIteration(env, iteration, old(State()))
    {
      ghost var s := State();
      var response := RequestModel();
      IterationIs(env, iteration, s, State());
      done := Proceed(iteration, response);
    }

    /** The tools of an answer that asks for some; else its text. */
    method Proceed(iteration: nat, response: Response) returns (done: Option<StopReason>)
      requires Valid()
      modifies this`messages, this`checkpoints, this`drains, this`injectionCycles,
               this`lengthParts, this`emptyRetries, this`requests
      ensures Valid() && requests <= old(requests) + 1
      ensures done.Some? ==> done.value != MaxIterations && EndsWithReply()
      ensures done == Some(Completed) ==> FinalCheckpoint()
      ensures (State(), done) == AfterRequest(env, iteration, response, old(State()))
    {
      if !response.ShouldExecuteTools() {
        done := Conclude(response);
      } else {
        done := ToolTurn(iteration, response);
      }
    }

    /** The whole turn. It ends for every behaviour of its surroundings: one iteration follows the
        other until one ends the turn, or they run out. */
    method RunCore() returns (stop: StopReason, ghost states: seq<TurnState>)
      requires Valid() && requests == 0
      modifies this`messages, this`checkpoints, this`drains, this`injectionCycles,
               this`lengthParts, this`emptyRetries, this`requests
      ensures Valid()
      ensures requests <= 4 * spec.maxIterations + 1
      ensures stop != MaxIterations ==> requests <= 4 * spec.maxIterations && EndsWithReply()
      ensures env.fallback != "" ==> EndsWithReply()
      ensures stop == Completed ==> FinalCheckpoint()
      ensures Iterations(env, old(State()), states) && |states| <= spec.maxIterations + 1
      ensures stop != MaxIterations ==> |states| <= spec.maxIterations
      ensures stop != MaxIterations ==> AfterIteration(env, |states| - 1, states[|states| - 1]) == (State(), Some(stop))
      ensures stop == MaxIterations ==> |states| == spec.maxIterations + 1
      ensures stop == MaxIterations ==> State() == AfterLast(env, spec, states[|states| - 1])
    {
      states := [State()];
      for iteration := 0 to spec.maxIterations
        invariant Valid() && requests <= 4 * iteration
        invariant |states| == iteration + 1 && states[iteration] == State() && Iterations(env, old(State()), states)
      {
        var done := Iterate(iteration);
        if done.Some? { return done.value, states; }
        states := states + [State()];
      }
      stop := MaxIterations;
      CloseOut();
    }

    /** Out of iterations. */
    method CloseOut()
      requires Valid()
      modifies this`messages, this`checkpoints, this`drains, this`injectionCycles, this`requests
      ensures Valid() && (env.fallback != "" ==> EndsWithReply())
      ensures State() == AfterLast(env, spec, old(State()))
    {
      ghost var s := State();
      var _ := TryDrainInjections(None, false, false);
      LastIs(env, spec, s, State());
      SayLast();
    }

    /** The closing text. */
    method SayLast()
      requires Valid()
      modifies this`messages, this`requests
      ensures Valid() && (env.fallback != "" ==> EndsWithReply())
      ensures requests == old(requests) + if spec.finalizeOnMax then 1 else 0
      ensures messages == Closing(old(messages), LastText(env, spec, old(requests)))
    {
      var terminal := None;
      if spec.finalizeOnMax { terminal := TryFinalize(); }
      AppendFinalMessage(if terminal.Some? then terminal.value else env.fallback);
    }

    /** One request without tools, for a last answer. */
    method TryFinalize() returns (terminal: Option<string>)
      modifies this`requests
      ensures requests == old(requests) + 1
      ensures spec.finalizeOnMax ==>
        LastText(env, spec, old(requests)) == if terminal.Some? then terminal.value else env.fallback
      ensures terminal.Some? ==> terminal.value != ""
    {
      var response := env.respond(requests);
      requests := requests + 1;
      if response.finish == Error || response.calls != [] { return None; }
      var clean := env.finalize(requests, response.content);
      terminal := if Blank(clean) then None else Some(clean);
    }
  }

  /** The states at the start of each iteration, none of which but the last ended the turn. */
  ghost predicate Iterations(env: Env, start: TurnState, states: seq<TurnState>) {
    && states != [] && states[0] == start
    && forall i :: 0 <= i < |states| - 1 ==> AfterIteration(env, i, states[i]) == (states[i + 1], None)
  }

  // ---------------------------------------------------------------- what an iteration does, on its own terms

  /** The assistant message of a response: its text, and its calls in order. */
  ghost predicate IsRequest(r: Response, m: Message) {
    && m.role == Assistant && m.content == Text(r.content) && m.toolCallId == "" && |m.calls| == |r.calls|
    && forall i :: 0 <= i < |r.calls| ==> m.calls[i] == Call(r.calls[i].id, Some(r.calls[i].name), NoName)
  }

  /** The result message of one call: what the tool gave for it. */
  ghost predicate IsResult(content: Content, call: ToolCall, m: Message) {
    && m.role == Tool && m.calls == [] && m.toolCallId == call.id && m.content == content
    && (call.name.Name? ==> m.name == Some(call.name.text))
  }

  ghost predicate AreResults(env: Env, iteration: nat, calls: seq<ToolCall>, ms: seq<Message>) {
    && |ms| == |calls|
    && forall i :: 0 <= i < |calls| ==> IsResult(env.tool(iteration, i, calls[i]).content, calls[i], ms[i])
  }

  /** The earliest call that fails, if one does, fails with this error. */
  ghost predicate FailsWith(env: Env, iteration: nat, calls: seq<ToolCall>, error: Option<string>) {
    if error.None? then forall i :: 0 <= i < |calls| ==> env.tool(iteration, i, calls[i]).error.None?
    else exists i :: 0 <= i < |calls| && FailsFirst(env, iteration, calls, i) &&
           env.tool(iteration, i, calls[i]).error == error
  }

  ghost predicate FailsFirst(env: Env, iteration: nat, calls: seq<ToolCall>, i: nat)
    requires i < |calls|
  {
    forall k :: 0 <= k < i ==> env.tool(iteration, k, calls[k]).error.None?
  }

  /** The response joins the list, with a result per call, and what users wrote after it. If no call
      failed both checkpoints are written, the counters start anew and the turn goes on; else the
      error closes the list, and the turn stops unless somebody wrote. */
  ghost predicate RanTools(
    env: Env, r: Response, s: TurnState, t: TurnState, done: Option<StopReason>,
    asked: Message, results: seq<Message>, error: Option<string>)
  {
    var listed := s.messages + [asked] + results;
    var pending := Checkpoint(Some(asked), [], asked.calls);
    var waiting := WaitingIn(env, s);
    match error
    case None =>
      && done.None? && t.emptyRetries == 0 && t.lengthParts == 0
      && t.messages == Injected(env, listed, waiting)
      && t.checkpoints == s.checkpoints + [pending] + [Checkpoint(Some(asked), results, [])]
    case Some(text) =>
      && t.messages == Injected(env, listed + [Reply("Error: " + text)], waiting)
      && t.checkpoints == s.checkpoints + [pending] && t.emptyRetries == s.emptyRetries
      && done == (if waiting == [] then Some(ToolError) else None)
  }

  lemma RepliesAreResults(env: Env, iteration: nat, r: Response)
    ensures IsRequest(r, AssistantMessage(r.content, r.calls))
    ensures AreResults(env, iteration, r.calls, Replies(env, iteration, r.calls))
  {
    var results := Replies(env, iteration, r.calls);
    forall i | 0 <= i < |r.calls| ensures IsResult(env.tool(iteration, i, r.calls[i]).content, r.calls[i], results[i]) {
      assert results[i] == ToolMessage(r.calls[i], env.tool(iteration, i, r.calls[i]).content);
    }
  }

  lemma FirstFails(env: Env, iteration: nat, calls: seq<ToolCall>)
    ensures FailsWith(env, iteration, calls, FirstError(Outcomes(env, iteration, 0, calls)))
  {
    var outcomes := Outcomes(env, iteration, 0, calls);
    FirstErrorIs(outcomes);
    assert forall i :: 0 <= i < |calls| ==> outcomes[i] == env.tool(iteration, i, calls[i]);
    if FirstError(outcomes).Some? {
      var i :| 0 <= i < |outcomes| && outcomes[i].error == FirstError(outcomes) &&
        forall k :: 0 <= k < i ==> outcomes[k].error.None?;
      assert FailsFirst(env, iteration, calls, i) && env.tool(iteration, i, calls[i]).error == FirstError(outcomes);
    }
  }

  lemma ToolsRun(env: Env, iteration: nat, r: Response, s: TurnState)
    requires r.calls != []
    ensures var (t, done) := AfterTools(env, iteration, r, s);
      RanTools(env, r, s, t, done, AssistantMessage(r.content, r.calls), Replies(env, iteration, r.calls),
               FirstError(Outcomes(env, iteration, 0, r.calls)))
  {
    var asked, results := AssistantMessage(r.content, r.calls), Replies(env, iteration, r.calls);
    var listed := s.messages + [asked] + results;
    var cps := s.checkpoints + [Checkpoint(Some(asked), [], asked.calls)];
    match FirstError(Outcomes(env, iteration, 0, r.calls)) {
      case None =>
        var t := s.(messages := listed, checkpoints := cps + [Checkpoint(Some(asked), results, [])],
                    emptyRetries := 0, lengthParts := 0);
        ToolsAre(env, iteration, r, s, t);
        DrainIs(env, t, None, false, false);
      case Some(text) =>
        var t := s.(messages := listed, checkpoints := cps);
        FatalIs(env, iteration, r, s, t);
        ResultsClose(listed, s.messages + [asked], results, "Error: " + text);
        DrainIs(env, t.(messages := Closing(listed, "Error: " + text)), None, false, false);
    }
  }

  lemma ResultsClose(listed: seq<Message>, front: seq<Message>, results: seq<Message>, text: string)
    requires listed == front + results && results != [] && results[|results| - 1].role == Tool && text != ""
    ensures Closing(listed, text) == listed + [Reply(text)]
  {
    assert listed[|listed| - 1] == results[|results| - 1];
  }

  /** An answer that names calls, and did not end in a way that voids them, has its tools run. */
  lemma ToolsAreRun(env: Env, iteration: nat, s: TurnState)
    requires AnswerTo(env, s.requests).calls != []
    requires AnswerTo(env, s.requests).finish in {ToolCalls, FunctionCall, Stop}
    ensures var r := AnswerTo(env, s.requests);
      var (t, done) := AfterIteration(env, iteration, s);
      exists asked, results, error ::
        IsRequest(r, asked) && AreResults(env, iteration, r.calls, results) &&
        FailsWith(env, iteration, r.calls, error) && RanTools(env, r, s, t, done, asked, results, error)
  {
    var r := AnswerTo(env, s.requests);
    var u := s.(requests := s.requests + Asked(env, s.requests));
    IterationIs(env, iteration, s, u);
    RepliesAreResults(env, iteration, r);
    FirstFails(env, iteration, r.calls);
    ToolsRun(env, iteration, r, u);
    var (t, done) := AfterIteration(env, iteration, s);
    assert RanTools(env, r, s, t, done, AssistantMessage(r.content, r.calls), Replies(env, iteration, r.calls),
                    FirstError(Outcomes(env, iteration, 0, r.calls)));
  }

  /** Any other answer is taken as text. */
  lemma TextIsTaken(env: Env, iteration: nat, s: TurnState)
    requires var r := AnswerTo(env, s.requests); r.calls == [] || r.finish !in {ToolCalls, FunctionCall, Stop}
    ensures AfterIteration(env, iteration, s)
         == AfterText(env, AnswerTo(env, s.requests), s.(requests := s.requests + Asked(env, s.requests)))
  {
    IterationIs(env, iteration, s, s.(requests := s.requests + Asked(env, s.requests)));
  }

  predicate Usable(c: ToolCall) { c.name.Name? && c.name.text != "" }

  /** Of the calls of a response those with a usable name are left, in order. */
  lemma {:induction false} ValidsAre(calls: seq<ToolCall>, c: ToolCall)
    ensures Valids([]) == []
    ensures Valids(calls + [c]) == Valids(calls) + if Usable(c) then [c] else []
  {
    if calls == [] {
      assert [] + [c] == [c] && [c][1..] == [];
    } else {
      assert (calls + [c])[1..] == calls[1..] + [c];
      ValidsAre(calls[1..], c);
    }
  }

  /** Which answer an iteration goes by: the first, without its unusable calls, unless it was to call
      tools and named none that can be called; then a second alike; then a third as it is. */
  lemma AnswerIs(env: Env, n: nat)
    ensures var first, second := env.respond(n), env.respond(n + 1);
      AnswerTo(env, n) ==
        if !Unusable(first) then Cleaned(first) else if !Unusable(second) then Cleaned(second) else env.respond(n + 2)
  {
  }

  predicate Unusable(r: Response) {
    r.calls != [] && Valids(r.calls) == [] && (r.finish == ToolCalls || r.finish == FunctionCall)
  }

  /** Text and finish stay; where no call is left it is as if the model had stopped. */
  function Cleaned(r: Response): Response {
    Response(r.content, Valids(r.calls), if r.calls != [] && Valids(r.calls) == [] then Stop else r.finish)
  }

  /** What is injected: the messages of users that say something, with what they say. */
  lemma {:induction false} InjectionsAre(items: seq<Message>, m: Message)
    ensures Injections([]) == []
    ensures var said := (m.content.Blocks? && m.content.blocks != []) || (m.content.Text? && !Blank(m.content.text));
      Injections(items + [m]) ==
        Injections(items) + if m.role == User && said then [Message(User, m.content, [], "", None, "", 0)] else []
  {
    if items == [] {
      assert [] + [m] == [m] && [m][1..] == [];
    } else {
      assert (items + [m])[1..] == items[1..] + [m];
      InjectionsAre(items[1..], m);
    }
  }

  /** One more injection merges with a last user message where the two may be merged, and is appended
      else. */
  lemma {:induction false} InjectedOne(env: Env, ms: seq<Message>, injections: seq<Message>, m: Message)
    ensures Injected(env, ms, []) == ms
    ensures var before := Injected(env, ms, injections);
      var after := Injected(env, ms, injections + [m]);
      if before != [] && before[|before| - 1].role == User && env.mergeable(before[|before| - 1], m)
      then var last := before[|before| - 1];
        after == before[..|before| - 1] + [last.(content := env.merged(last, m))]
      else after == before + [m]
    decreases |injections|
  {
    if injections == [] {
      assert [] + [m] == [m] && [m][1..] == [];
    } else {
      assert (injections + [m])[1..] == injections[1..] + [m];
      InjectedOne(env, AddInjection(env, ms, injections[0]), injections[1..], m);
    }
  }

  predicate IsReply(m: Message) { m.role == Assistant && m.calls == [] }

  /** A closing text is the last thing said: in the place of a last reply, or after the list. */
  lemma ClosingIs(ms: seq<Message>, content: string)
    ensures content == "" ==> Closing(ms, content) == ms
    ensures content != "" ==>
      var out := Closing(ms, content);
      var front := if ms != [] && IsReply(ms[|ms| - 1]) then ms[..|ms| - 1] else ms;
      |out| == |front| + 1 && out[..|front|] == front && IsReply(out[|front|]) && out[|front|].content == Text(content)
  {
  }

  /** An ending that failed leaves a last reply as it is, and says else that there is none. */
  lemma ClosedIs(ms: seq<Message>, clean: string)
    ensures ms != [] && IsReply(ms[|ms| - 1]) ==> Closed(ms, true, clean) == ms
    ensures ms == [] || !IsReply(ms[|ms| - 1]) ==>
      Closed(ms, true, clean) == ms + [Reply("[Assistant reply unavailable due to model error.]")]
    ensures Blank(clean) ==> Closed(ms, false, clean) == Closing(ms, EMPTY_FINAL)
    ensures !Blank(clean) ==> Closed(ms, false, clean) == ms + [Reply(clean)]
  {
  }

  // ---------------------------------------------------------------- the turn and the session

  /** Whatever the provider, the tools and the users did, saving what a turn added keeps a
      well-paired session well paired. */
  lemma SavedTurnKeepsPaired(turn: Turn, bounds: Bounds, s: SessionState)
    requires turn.Valid() && WellPaired(s.messages)
    ensures WellPaired(SaveTurn(bounds, s, turn.Added()).messages)
  {
    InOrderIsComplete(turn.Added());
    SaveKeepsPaired(bounds, s, turn.Added());
  }
}
