/** The whole preparation of the model's copy: what becomes of any history, message by message. */
module Preparation {
  import opened Transcript
  import opened Governance
  import opened Pairing
  import Windows

  // ---------------------------------------------------------------- the whole preparation

  /** The first repair round, on values. */
  function FirstRound(ms: seq<Message>): seq<Message> {
    Backfill(Drop(WithoutMalformed(WithoutPlaceholders(ms)), {}))
  }

  lemma FirstRoundKeeps(ms: seq<Message>)
    ensures Complete(FirstRound(ms)) && CallsNamed(FirstRound(ms))
    ensures Systems(FirstRound(ms)) == Systems(ms)
  {
    var stripped := WithoutMalformed(WithoutPlaceholders(ms));
    MalformedNamed(WithoutPlaceholders(ms));
    DropKeepsTheRest(stripped, {});
    NamedSubsequence(Drop(stripped, {}), stripped);
    BackfillNamed(Drop(stripped, {}));
    BackfillCompletes(Drop(stripped, {}));
    StripKeepsSystems(ms);
    StripKeepsSystems(WithoutPlaceholders(ms));
    RepairKeepsSystems(stripped);
    RepairKeepsSystems(Drop(stripped, {}));
  }

  /** fitted is what the budget, compaction and snip passes made of first. */
  ghost predicate Fitted(first: seq<Message>, shaped: seq<Message>, fitted: seq<Message>, start: nat) {
    && OnlyResultContent(first, shaped)
    && (fitted == shaped
        || (start <= |NonSystems(shaped)|
            && fitted == Systems(shaped) + NonSystems(shaped)[start..]))
  }

  /** Whatever the estimators answered, the second drop alone pairs the list, and the
      second backfill inserts nothing. */
  lemma SecondRoundPairs(ms: seq<Message>, shaped: seq<Message>, fitted: seq<Message>, start: nat)
    requires Fitted(FirstRound(ms), shaped, fitted, start)
    ensures WellPaired(Drop(fitted, {}))
    ensures Backfill(Drop(fitted, {})) == Drop(fitted, {})
    ensures CallsNamed(Drop(fitted, {}))
    ensures Systems(Drop(fitted, {})) == Systems(ms)
  {
    FirstRoundKeeps(ms);
    ContentComplete(FirstRound(ms), shaped);
    ContentNamed(FirstRound(ms), shaped);
    ContentKeepsSystems(FirstRound(ms), shaped);
    if fitted != shaped {
      SnipComplete(shaped, start);
      SnipKeepsSystems(shaped, start);
      SnipNamed(shaped, start);
    }
    DropPairsComplete(fitted);
    PairedIffFixpoint(Drop(fitted, {}));
    DropKeepsTheRest(fitted, {});
    NamedSubsequence(Drop(fitted, {}), fitted);
    RepairKeepsSystems(fitted);
  }

  lemma SnipNamed(ms: seq<Message>, start: nat)
    requires start <= |NonSystems(ms)| && CallsNamed(ms)
    ensures CallsNamed(Systems(ms) + NonSystems(ms)[start..])
  {
    SystemsAreSystems(ms);
    NonSystemsNamed(ms);
  }

  lemma {:induction false} NonSystemsNamed(ms: seq<Message>)
    requires CallsNamed(ms)
    ensures CallsNamed(NonSystems(ms))
  {
    if ms != [] {
      assert forall i :: 0 <= i < |ms[1..]| ==> ms[1..][i] == ms[i + 1];
      NonSystemsNamed(ms[1..]);
    }
  }

  ghost predicate NoPlaceholder(ms: seq<Message>) {
    forall i :: 0 <= i < |ms| ==> !IsBarePlaceholder(ms[i])
  }

  lemma FirstRoundOf(ms: seq<Message>, stripped: seq<Message>)
    requires WithoutPlaceholders(ms) == ms && WithoutMalformed(ms) == stripped
    ensures FirstRound(ms) == Backfill(Drop(stripped, {}))
  {
  }

  /** A healthy history goes through the first round untouched. */
  lemma FirstRoundIdentity(ms: seq<Message>)
    requires WellPaired(ms) && CallsNamed(ms) && NoPlaceholder(ms)
    ensures FirstRound(ms) == ms
  {
    NothingToStrip(ms);
    FirstRoundOf(ms, ms);
    PairedIsFixed(ms);
    BackfillIdentityIff(ms);
  }

  lemma {:induction false} NothingToStrip(ms: seq<Message>)
    requires CallsNamed(ms) && NoPlaceholder(ms)
    ensures WithoutPlaceholders(ms) == ms && WithoutMalformed(ms) == ms
  {
    if ms != [] {
      assert Named(ms[0]);
      if ms[0].role == Assistant { AllValid(ms[0].calls); }
      assert forall i :: 0 <= i < |ms[1..]| ==> ms[1..][i] == ms[i + 1];
      NothingToStrip(ms[1..]);
    }
  }

  lemma {:induction false} AllValid(calls: seq<RawCall>)
    requires forall c :: c in calls ==> NameIsValid(c)
    ensures ValidCalls(calls) == calls
  {
    if calls != [] { AllValid(calls[1..]); }
  }

  method RunFirstRound(messages: seq<MessageDict>) returns (r: seq<MessageDict>)
    ensures Values(r) == FirstRound(Values(messages))
    ensures unchanged(messages) && GivenOrNew(messages, r)
  {
    r := StripPlaceholders(messages);
    r := StripMalformed(r);
    r := DropOrphans(r);
    r := BackfillMissing(r);
  }

  method RunSecondRound(messages: seq<MessageDict>) returns (r: seq<MessageDict>)
    ensures Values(r) == Backfill(Drop(Values(messages), {}))
    ensures unchanged(messages) && GivenOrNew(messages, r)
  {
    r := DropOrphans(messages);
    r := BackfillMissing(r);
  }

  // ---------------------------------------------------------------- what was compacted stays so

  /** It is shown as the notice of a result. */
  ghost predicate IsNotice(config: Config, m: Message) {
    exists o: Message :: m == o.(content := config.notice(o))
  }

  /** Every recorded result is shown as its notice. */
  ghost predicate Noticed(config: Config, ids: set<string>, ms: seq<Message>) {
    forall m :: m in ms && m.role == Tool && m.toolCallId != "" && m.toolCallId in ids ==> IsNotice(config, m)
  }

  lemma CompactedNoticed(
    config: Config, base: seq<Message>, out: seq<Message>, ids: set<string>, ids': set<string>,
    cs: seq<nat>, k: nat)
    requires Compacted(config, base, out, ids, ids', cs, k)
    requires exists vs :: base == Recorded(config.notice, vs, ids)
    ensures Noticed(config, ids, out)
  {
    var vs: seq<Message> :| base == Recorded(config.notice, vs, ids);
    forall m | m in out && m.role == Tool && m.toolCallId != "" && m.toolCallId in ids ensures IsNotice(config, m) {
      var i :| 0 <= i < |out| && out[i] == m;
      assert base[i] == vs[i].(content := config.notice(vs[i]));
    }
  }

  lemma {:induction false} PartsAreIn(ms: seq<Message>)
    ensures forall m :: m in Systems(ms) || m in NonSystems(ms) ==> m in ms
  {
    if ms != [] { PartsAreIn(ms[1..]); }
  }

  lemma SnipNoticed(config: Config, ids: set<string>, ms: seq<Message>, start: nat)
    requires Noticed(config, ids, ms) && start <= |NonSystems(ms)|
    ensures Noticed(config, ids, Systems(ms) + NonSystems(ms)[start..])
  {
    PartsAreIn(ms);
    var kept := Systems(ms) + NonSystems(ms)[start..];
    forall m | m in kept && m.role == Tool && m.toolCallId != "" && m.toolCallId in ids ensures IsNotice(config, m) {
      assert m in Systems(ms) || m in NonSystems(ms);
      assert m in ms;
    }
  }

  lemma {:induction false} SubsequenceIsIn(a: seq<Message>, b: seq<Message>)
    requires Subsequence(a, b)
    ensures forall m :: m in a ==> m in b
    decreases |b|
  {
    if a != [] {
      if a[0] == b[0] && Subsequence(a[1..], b[1..]) {
        SubsequenceIsIn(a[1..], b[1..]);
        assert a == [a[0]] + a[1..];
      } else {
        SubsequenceIsIn(a, b[1..]);
      }
      assert b == [b[0]] + b[1..];
    }
  }

  lemma DropNoticed(config: Config, ids: set<string>, ms: seq<Message>)
    requires Noticed(config, ids, ms)
    ensures Noticed(config, ids, Drop(ms, {}))
  {
    DropKeepsTheRest(ms, {});
    SubsequenceIsIn(Drop(ms, {}), ms);
  }

  // ---------------------------------------------------------------- what the history is cleaned of

  /** Without bare placeholders, malformed calls, and what is empty without these. */
  function Cleaned(ms: seq<Message>): seq<Message> { WithoutMalformed(WithoutPlaceholders(ms)) }

  predicate UsableCall(c: RawCall) {
    c.Call? && match c.fn
               case Some(Name(t)) => t != ""
               case Some(_) => false
               case None => c.topName.Name? && c.topName.text != ""
  }

  lemma {:induction false} ValidCallsOne(calls: seq<RawCall>, c: RawCall)
    ensures ValidCalls([]) == []
    ensures ValidCalls(calls + [c]) == ValidCalls(calls) + if UsableCall(c) then [c] else []
  {
    if calls == [] {
      assert [] + [c] == [c] && [c][1..] == [];
    } else {
      assert (calls + [c])[1..] == calls[1..] + [c];
      ValidCallsOne(calls[1..], c);
    }
  }

  /** Nothing but the placeholder, and white space around it. */
  ghost predicate Bare(m: Message) {
    && m.role == Assistant && m.calls == [] && m.content.Text?
    && exists a, b :: Blank(a) && Blank(b) && m.content.text == a + "[Previous assistant message omitted.]" + b
  }

  /** What one message becomes: a user's message, or any that is no assistant's, stays; an assistant's
      loses the calls that name no tool, and goes if it was bare or if nothing is left of it. */
  ghost predicate Cleans(m: Message, out: seq<Message>) {
    if m.role != Assistant then out == [m]
    else if Bare(m) then out == []
    else
      var calls := ValidCalls(m.calls);
      if calls == [] && m.calls != [] && (m.content == Null || m.content == Text("") || m.content == Blocks([]))
      then out == []
      else out == [m.(calls := calls)]
  }

  lemma {:induction false} LeftOfStrip(s: string) returns (a: string)
    ensures s == a + StripLeft(s) && Blank(a)
    ensures StripLeft(s) != "" ==> !IsSpace(StripLeft(s)[0])
  {
    if s != "" && IsSpace(s[0]) {
      var rest := LeftOfStrip(s[1..]);
      a := [s[0]] + rest;
      assert s == [s[0]] + s[1..];
    } else {
      a := "";
    }
  }

  lemma {:induction false} RightOfStrip(s: string) returns (b: string)
    ensures s == StripRight(s) + b && Blank(b)
  {
    if s != "" && IsSpace(s[|s| - 1]) {
      var rest := RightOfStrip(s[..|s| - 1]);
      b := rest + [s[|s| - 1]];
      assert s == s[..|s| - 1] + [s[|s| - 1]];
    } else {
      b := "";
      assert s + "" == s;
    }
  }

  lemma {:induction false} StripLeftOf(a: string, s: string)
    requires Blank(a) && s != "" && !IsSpace(s[0])
    ensures StripLeft(a + s) == s
  {
    if a == "" {
      assert a + s == s;
    } else {
      assert (a + s)[1..] == a[1..] + s;
      StripLeftOf(a[1..], s);
    }
  }

  lemma {:induction false} StripRightOf(s: string, b: string)
    requires Blank(b) && s != "" && !IsSpace(s[|s| - 1])
    ensures StripRight(s + b) == s
  {
    if b == "" {
      assert s + b == s;
    } else {
      assert (s + b)[..|s + b| - 1] == s + b[..|b| - 1];
      StripRightOf(s, b[..|b| - 1]);
    }
  }

  lemma StrippedIs(t: string)
    requires StripRight(StripLeft(t)) == PLACEHOLDER
    ensures exists a, b :: Blank(a) && Blank(b) && t == a + PLACEHOLDER + b
  {
    var a := LeftOfStrip(t);
    var b := RightOfStrip(StripLeft(t));
    Regroup(a, PLACEHOLDER, b);
  }

  lemma SurroundedIs(a: string, b: string)
    requires Blank(a) && Blank(b)
    ensures StripRight(StripLeft(a + PLACEHOLDER + b)) == PLACEHOLDER
  {
    Regroup(a, PLACEHOLDER, b);
    assert PLACEHOLDER[0] == '[' && PLACEHOLDER[|PLACEHOLDER| - 1] == ']';
    StripLeftOf(a, PLACEHOLDER + b);
    StripRightOf(PLACEHOLDER, b);
  }

  lemma BareIff(m: Message)
    ensures Bare(m) <==> IsBarePlaceholder(m)
  {
    if IsBarePlaceholder(m) { StrippedIs(m.content.text); }
    if Bare(m) {
      var a, b :| Blank(a) && Blank(b) && m.content.text == a + PLACEHOLDER + b;
      SurroundedIs(a, b);
    }
  }

  lemma {:induction false} MalformedSplit(a: seq<Message>, b: seq<Message>)
    ensures WithoutMalformed(a + b) == WithoutMalformed(a) + WithoutMalformed(b)
  {
    if a == [] {
      assert a + b == b;
    } else {
      assert (a + b)[1..] == a[1..] + b;
      MalformedSplit(a[1..], b);
      Regroup(Repaired(a[0]), WithoutMalformed(a[1..]), WithoutMalformed(b));
    }
  }

  /** Message after message. */
  lemma CleanedOne(ms: seq<Message>, m: Message) returns (out: seq<Message>)
    ensures Cleaned([]) == [] && Cleaned(ms + [m]) == Cleaned(ms) + out && Cleans(m, out)
  {
    BareIff(m);
    WithoutPlaceholdersStep(ms, m);
    if IsBarePlaceholder(m) {
      out := [];
      assert WithoutPlaceholders(ms) + [] == WithoutPlaceholders(ms) && Cleaned(ms) + [] == Cleaned(ms);
    } else {
      out := Repaired(m);
      MalformedSplit(WithoutPlaceholders(ms), [m]);
      assert [m][1..] == [] && Repaired(m) + [] == Repaired(m);
      if m.role == Assistant && m.calls == [] { assert m.(calls := ValidCalls(m.calls)) == m; }
    }
  }

  // ---------------------------------------------------------------- what the copy is

  /** The result as the bound leaves it, and its notice. */
  function BoundedResult(config: Config, i: nat, m: Message): Message { m.(content := config.normalize(i, m)) }

  function AsNotice(config: Config, m: Message): Message { m.(content := config.notice(m)) }

  /** What a message of the history is shown as: itself; for a result, what the bound leaves of it,
      or with a budget the notice of that. */
  ghost predicate Shown(config: Config, m: Message, w: Message) {
    if m.role != Tool then w == m
    else exists i: nat ::
      w == BoundedResult(config, i, m) || (config.InputBudget() > 0 && w == AsNotice(config, BoundedResult(config, i, m)))
  }

  ghost function ShownRule(config: Config): (Message, Message) -> bool {
    (m: Message, w: Message) => Shown(config, m, w)
  }

  /** What the passes decided: the list with its contents shaped, the candidates that were compacted,
      and where the tail that fits, its opening and the cut are. */
  datatype Plan = Plan(shaped: seq<Message>, cs: seq<nat>, n: nat, k: nat, u: nat, start: nat)

  ghost predicate Shaping(config: Config, first: seq<Message>, plan: Plan, ids: set<string>, ids': set<string>) {
    var bounded := Budgeted(config, first);
    if config.InputBudget() == 0 then plan.shaped == bounded && ids' == ids
    else
      var base := Recorded(config.notice, bounded, ids);
      && Compacted(config, base, plan.shaped, ids, ids', plan.cs, plan.n)
      && (config.estimate(base) <= config.InputBudget() ==> plan.n == 0)
      && (config.estimate(base) > config.InputBudget() ==>
            AreCandidates(config, base, ids, |base|, plan.cs) && Settled(config, plan.shaped, plan.cs, plan.n))
  }

  ghost predicate Over(config: Config, shaped: seq<Message>) {
    config.InputBudget() > 0 && config.estimate(shaped) > config.InputBudget() && NonSystems(shaped) != []
  }

  /** The cut that the budget dictates. */
  ghost predicate CutFits(config: Config, plan: Plan) {
    var ns := NonSystems(plan.shaped);
    TailWithin(config, ns, Remaining(config, plan.shaped), plan.k) && TailStart(ns, plan.k, plan.u, plan.start)
  }

  ghost predicate Prepared(config: Config, ids: set<string>, ids': set<string>, ms: seq<Message>,
                           plan: Plan, r: seq<Message>)
  {
    && Shaping(config, FirstRound(ms), plan, ids, ids')
    && (!Over(config, plan.shaped) ==> r == Drop(plan.shaped, {}))
    && (Over(config, plan.shaped) ==>
          CutFits(config, plan) && r == Drop(Systems(plan.shaped) + NonSystems(plan.shaped)[plan.start..], {}))
  }

  /** The whole copy is the cleaned history, paired, as it is shown; and r is all of it, or its system
      messages and a tail of the others. */
  ghost predicate CopyOf(config: Config, ms: seq<Message>, whole: seq<Message>, from: nat, r: seq<Message>) {
    && Related(Paired(Cleaned(ms)), whole, ShownRule(config))
    && from <= |NonSystems(whole)|
    && (from > 0 ==> r == Systems(whole) + NonSystems(whole)[from..])
    && (from == 0 ==> r == whole || r == Systems(whole) + NonSystems(whole))
  }

  lemma ShownAt(config: Config, first: seq<Message>, plan: Plan, ids: set<string>, ids': set<string>, i: nat)
    requires Shaping(config, first, plan, ids, ids') && i < |first|
    ensures |plan.shaped| == |first| && Shown(config, first[i], plan.shaped[i])
  {
    var bounded := Budgeted(config, first);
    var m := first[i];
    assert bounded[i] == if m.role == Tool then BoundedResult(config, i, m) else m;
    if config.InputBudget() > 0 && i in plan.cs[..plan.n] {
      var base := Recorded(config.notice, bounded, ids);
      var j :| 0 <= j < plan.n && plan.cs[..plan.n][j] == i;
      assert IsCandidate(config, base, ids, plan.cs[j]);
    }
  }

  lemma ShapedIsShown(config: Config, first: seq<Message>, plan: Plan, ids: set<string>, ids': set<string>)
    requires Shaping(config, first, plan, ids, ids')
    ensures Related(first, plan.shaped, ShownRule(config)) && OnlyResultContent(first, plan.shaped)
  {
    if config.InputBudget() == 0 || first == [] { assert |plan.shaped| == |first|; }
    forall i | 0 <= i < |first| ensures |plan.shaped| == |first| && Shown(config, first[i], plan.shaped[i]) {
      ShownAt(config, first, plan, ids, ids', i);
    }
  }

  lemma ShownKeepsShape(config: Config)
    ensures KeepsShape(ShownRule(config))
  {
  }

  /** The first half: nothing cut off yet. */
  lemma WholeIsPaired(config: Config, ms: seq<Message>, plan: Plan, ids: set<string>, ids': set<string>)
    requires Shaping(config, FirstRound(ms), plan, ids, ids')
    ensures Related(Paired(Cleaned(ms)), Drop(plan.shaped, {}), ShownRule(config))
  {
    ShapedIsShown(config, FirstRound(ms), plan, ids, ids');
    ShownKeepsShape(config);
    DropRelated(FirstRound(ms), plan.shaped, {}, ShownRule(config));
    TwoRoundsPair(Cleaned(ms), {});
  }

  /** Results have ids. */
  ghost predicate ResultsNamed(ms: seq<Message>) {
    forall i :: 0 <= i < |ms| && ms[i].role == Tool ==> ms[i].toolCallId != ""
  }

  lemma {:induction false} DropNamesResults(ms: seq<Message>, open: set<string>)
    ensures ResultsNamed(Drop(ms, open))
  {
    if ms != [] {
      var m := ms[0];
      var next := if m.role == Assistant then IdSet(m)
                  else if m.role == Tool && !Orphan(m, open) then open - {m.toolCallId} else open;
      DropNamesResults(ms[1..], next);
      if !Orphan(m, open) { assert Drop(ms, open) == [m] + Drop(ms[1..], next); }
    }
  }

  lemma {:induction false} MissingNamed(pairs: seq<(string, string)>, answered: set<string>)
    requires forall p :: p in pairs ==> p.0 != ""
    ensures ResultsNamed(Missing(pairs, answered))
  {
    if pairs != [] {
      assert pairs[0] in pairs;
      MissingNamed(pairs[1..], answered);
      if pairs[0].0 !in answered {
        assert Missing(pairs, answered) == [Synthetic(pairs[0].0, pairs[0].1)] + Missing(pairs[1..], answered);
      }
    }
  }

  lemma NamedJoin(a: seq<Message>, b: seq<Message>)
    ensures ResultsNamed(a + b) <==> ResultsNamed(a) && ResultsNamed(b)
  {
    assert forall i :: 0 <= i < |a| ==> (a + b)[i] == a[i];
    assert forall i :: 0 <= i < |b| ==> (a + b)[|a| + i] == b[i];
  }

  lemma {:induction false} BackfillNamesResults(ms: seq<Message>)
    requires ResultsNamed(ms)
    ensures ResultsNamed(Backfill(ms))
    decreases |ms|
  {
    if ms != [] {
      Cut(ms);
      var m, run, rest := ms[0], Run(ms[1..]), AfterRun(ms[1..]);
      if m.role == Assistant {
        var added := Missing(Declared(m), Answered(run));
        NamedJoin([m] + run, rest);
        NamedJoin([m], run);
        BackfillNamesResults(rest);
        BackfillSegment(m, run, rest);
        MissingNamed(Declared(m), Answered(run));
        NamedJoin(run, added);
        NamedJoin([m], run + added);
        NamedJoin([m] + (run + added), Backfill(rest));
      } else {
        NamedJoin([m], ms[1..]);
        BackfillNamesResults(ms[1..]);
        NamedJoin([m], Backfill(ms[1..]));
      }
    }
  }

  lemma {:induction false} NonSystemsNamedToo(ms: seq<Message>)
    requires ResultsNamed(ms)
    ensures ResultsNamed(NonSystems(ms))
  {
    if ms != [] {
      NamedJoin([ms[0]], ms[1..]);
      assert [ms[0]] + ms[1..] == ms;
      NonSystemsNamedToo(ms[1..]);
      NamedJoin([ms[0]], NonSystems(ms[1..]));
    }
  }

  /** A legal cut is not in front of a result. */
  lemma CutBeforeNoResult(ns: seq<Message>, k: nat, u: nat, start: nat)
    requires TailStart(ns, k, u, start) && ResultsNamed(ns)
    ensures start <= |ns| && NoToolFirst(ns[start..])
  {
    if start < |ns| && ns[start].role == Tool { ResultIsStray(ns[u..], start - u); }
  }

  lemma ResultIsStray(ms: seq<Message>, at: nat)
    requires at < |ms| && ms[at].role == Tool && ms[at].toolCallId != ""
    ensures !Windows.LegalFrom(ms, at)
  {
    assert Windows.Stray(ms, at, at);
  }

  lemma {:induction false} NonSystemsOfDrop(ms: seq<Message>, open: set<string>)
    ensures NonSystems(Drop(ms, open)) == Drop(NonSystems(ms), open)
  {
    if ms != [] {
      var m := ms[0];
      var next := if m.role == Assistant then IdSet(m)
                  else if m.role == Tool && !Orphan(m, open) then open - {m.toolCallId} else open;
      NonSystemsOfDrop(ms[1..], next);
      if Orphan(m, open) {
        assert NonSystems(ms) == [m] + NonSystems(ms[1..]);
        assert ([m] + NonSystems(ms[1..]))[1..] == NonSystems(ms[1..]);
      } else {
        assert Drop(ms, open) == [m] + Drop(ms[1..], next);
        assert ([m] + Drop(ms[1..], next))[1..] == Drop(ms[1..], next);
        if m.role == System {
          assert NonSystems(ms) == NonSystems(ms[1..]);
          assert NonSystems(Drop(ms, open)) == NonSystems(Drop(ms[1..], next));
        } else {
          assert NonSystems(ms) == [m] + NonSystems(ms[1..]);
          assert ([m] + NonSystems(ms[1..]))[1..] == NonSystems(ms[1..]);
        }
      }
    }
  }

  lemma {:induction false} DropAfterSystems(systems: seq<Message>, rest: seq<Message>)
    requires forall i :: 0 <= i < |systems| ==> systems[i].role == System
    ensures Drop(systems + rest, {}) == systems + Drop(rest, {})
  {
    if systems == [] {
      assert systems + rest == rest;
    } else {
      assert (systems + rest)[1..] == systems[1..] + rest;
      DropAfterSystems(systems[1..], rest);
    }
  }

  /** A cut through the shaped list is a cut through the whole copy. */
  lemma CutIs(shaped: seq<Message>, k: nat, u: nat, start: nat) returns (from: nat)
    requires Complete(shaped) && ResultsNamed(shaped) && TailStart(NonSystems(shaped), k, u, start)
    ensures var whole, ns := Drop(shaped, {}), NonSystems(shaped);
      && from <= |NonSystems(whole)|
      && Drop(Systems(shaped) + ns[start..], {}) == Systems(whole) + NonSystems(whole)[from..]
  {
    var whole, ns := Drop(shaped, {}), NonSystems(shaped);
    NonSystemsNamedToo(shaped);
    CutBeforeNoResult(ns, k, u, start);
    CompleteWithoutSystems(shaped);
    DropBehind(ns, start);
    NonSystemsOfDrop(shaped, {});
    RepairKeepsSystems(shaped);
    SystemsAreSystems(shaped);
    DropAfterSystems(Systems(shaped), ns[start..]);
    from := |Drop(ns[..start], {})|;
    assert NonSystems(whole)[from..] == Drop(ns[start..], {});
  }

  lemma ShapedIsSound(config: Config, ms: seq<Message>, plan: Plan, ids: set<string>, ids': set<string>)
    requires Shaping(config, FirstRound(ms), plan, ids, ids')
    ensures Complete(plan.shaped) && ResultsNamed(plan.shaped)
  {
    var first := FirstRound(ms);
    ShapedIsShown(config, first, plan, ids, ids');
    FirstRoundKeeps(ms);
    ContentComplete(first, plan.shaped);
    DropNamesResults(Cleaned(ms), {});
    BackfillNamesResults(Drop(Cleaned(ms), {}));
    assert forall i :: 0 <= i < |first| ==> plan.shaped[i].toolCallId == first[i].toolCallId;
  }

  /** The main theorem about any history: its copy. */
  lemma PreparedIsCopy(config: Config, ids: set<string>, ids': set<string>, ms: seq<Message>, plan: Plan, r: seq<Message>)
    returns (from: nat)
    requires Prepared(config, ids, ids', ms, plan, r)
    ensures CopyOf(config, ms, Drop(plan.shaped, {}), from, r)
    ensures !Over(config, plan.shaped) ==> from == 0 && r == Drop(plan.shaped, {})
  {
    WholeIsPaired(config, ms, plan, ids, ids');
    ShapedIsSound(config, ms, plan, ids, ids');
    from := 0;
    if Over(config, plan.shaped) {
      from := CutIs(plan.shaped, plan.k, plan.u, plan.start);
      var ns := NonSystems(Drop(plan.shaped, {}));
      assert ns[0..] == ns;
    }
  }

  // ---------------------------------------------------------------- the conversation in it

  /** The messages of some kind, in order. */
  function Only(ms: seq<Message>, kind: Message -> bool): seq<Message> {
    if ms == [] then [] else (if kind(ms[0]) then [ms[0]] else []) + Only(ms[1..], kind)
  }

  lemma {:induction false} OnlySplit(a: seq<Message>, b: seq<Message>, kind: Message -> bool)
    ensures Only(a + b, kind) == Only(a, kind) + Only(b, kind)
  {
    if a == [] {
      assert a + b == b;
    } else {
      assert (a + b)[1..] == a[1..] + b;
      OnlySplit(a[1..], b, kind);
      Regroup(if kind(a[0]) then [a[0]] else [], Only(a[1..], kind), Only(b, kind));
    }
  }

  /** A kind of message that is no result. */
  ghost predicate NoResult(kind: Message -> bool) { forall m :: kind(m) ==> m.role != Tool }

  lemma {:induction false} NoneInRun(run: seq<Message>, kind: Message -> bool)
    requires AllTools(run) && NoResult(kind)
    ensures Only(run, kind) == []
  {
    if run != [] { NoneInRun(run[1..], kind); }
  }

  lemma OnlyOfTurn(m: Message, run: seq<Message>, rest: seq<Message>, kind: Message -> bool)
    requires AllTools(run) && NoResult(kind)
    ensures Only([m] + run + rest, kind) == Only([m], kind) + Only(rest, kind)
  {
    OnlySplit([m] + run, rest, kind);
    OnlySplit([m], run, kind);
    NoneInRun(run, kind);
    assert Only([m], kind) + [] == Only([m], kind);
  }

  lemma {:induction false} FillsAreResults(pairs: seq<(string, string)>, ids: set<string>)
    ensures AllTools(Fills(pairs, ids))
  {
    if pairs != [] { FillsAreResults(pairs[1..], if pairs[0].0 in ids then ids - {pairs[0].0} else ids); }
  }

  lemma {:induction false} AnswersAreResults(run: seq<Message>, ids: set<string>)
    requires AllTools(run)
    ensures AllTools(Answers(run, ids))
  {
    if run != [] { AnswersAreResults(run[1..], if run[0].toolCallId in ids then ids - {run[0].toolCallId} else ids); }
  }

  /** Pairing touches results only. */
  lemma {:induction false} OnlyOfPaired(ms: seq<Message>, kind: Message -> bool)
    requires NoResult(kind)
    ensures Only(Paired(ms), kind) == Only(ms, kind)
    decreases |ms|
  {
    if ms != [] {
      Cut(ms);
      var m, run, rest := ms[0], Run(ms[1..]), AfterRun(ms[1..]);
      if m.role == Assistant {
        OnlyOfPaired(rest, kind);
        var results := Answers(run, IdSet(m)) + Fills(Declared(m), IdSet(m) - Answered(run));
        AnswersAreResults(run, IdSet(m));
        FillsAreResults(Declared(m), IdSet(m) - Answered(run));
        OnlyOfTurn(m, results, Paired(rest), kind);
        OnlyOfTurn(m, run, rest, kind);
      } else {
        OnlyOfPaired(ms[1..], kind);
        if m.role != Tool { OnlySplit([m], Paired(ms[1..]), kind); }
        OnlySplit([m], ms[1..], kind);
      }
    }
  }

  lemma {:induction false} OnlyOfShown(config: Config, a: seq<Message>, b: seq<Message>, kind: Message -> bool)
    requires Related(a, b, ShownRule(config)) && NoResult(kind)
    ensures Only(a, kind) == Only(b, kind)
  {
    if a != [] {
      RelatedRest(a, b, ShownRule(config));
      OnlyOfShown(config, a[1..], b[1..], kind);
    }
  }

  lemma {:induction false} OnlyOfParts(ms: seq<Message>, kind: Message -> bool)
    requires forall m :: kind(m) ==> m.role != System
    ensures Only(NonSystems(ms), kind) == Only(ms, kind) && Only(Systems(ms), kind) == []
  {
    if ms != [] {
      OnlyOfParts(ms[1..], kind);
      assert [ms[0]] + ms[1..] == ms;
      OnlySplit([ms[0]], ms[1..], kind);
      if ms[0].role == System {
        assert NonSystems(ms) == NonSystems(ms[1..]) && Systems(ms) == [ms[0]] + Systems(ms[1..]);
        OnlySplit([ms[0]], Systems(ms[1..]), kind);
      } else {
        assert NonSystems(ms) == [ms[0]] + NonSystems(ms[1..]) && Systems(ms) == Systems(ms[1..]);
        OnlySplit([ms[0]], NonSystems(ms[1..]), kind);
      }
    }
  }

  /** a is the end of b. */
  ghost predicate EndOf(a: seq<Message>, b: seq<Message>) { |a| <= |b| && b[|b| - |a|..] == a }

  /** What users, and assistants, said stays, from some position on, in order; all of it where nothing
      was cut off. */
  lemma CopyContinues(config: Config, ms: seq<Message>, whole: seq<Message>, from: nat, r: seq<Message>,
                      kind: Message -> bool)
    requires CopyOf(config, ms, whole, from, r) && NoResult(kind) && forall m :: kind(m) ==> m.role != System
    ensures EndOf(Only(r, kind), Only(Cleaned(ms), kind))
    ensures from == 0 ==> Only(r, kind) == Only(Cleaned(ms), kind)
  {
    OnlyOfPaired(Cleaned(ms), kind);
    OnlyOfShown(config, Paired(Cleaned(ms)), whole, kind);
    OnlyOfParts(whole, kind);
    var ns := NonSystems(whole);
    assert ns == ns[..from] + ns[from..] && ns[0..] == ns;
    OnlySplit(ns[..from], ns[from..], kind);
    OnlySplit(Systems(whole), ns[from..], kind);
    assert [] + Only(ns[from..], kind) == Only(ns[from..], kind);
  }

  /** Cleaning leaves alone whatever is no assistant's. */
  lemma {:induction false} OnlyOfCleaned(ms: seq<Message>, kind: Message -> bool)
    requires forall m :: kind(m) ==> m.role != Assistant
    ensures Only(Cleaned(ms), kind) == Only(ms, kind)
    decreases |ms|
  {
    if ms != [] {
      var n := |ms| - 1;
      OnlyOfCleaned(ms[..n], kind);
      assert ms == ms[..n] + [ms[n]];
      var out := CleanedOne(ms[..n], ms[n]);
      OnlySplit(Cleaned(ms[..n]), out, kind);
      OnlySplit(ms[..n], [ms[n]], kind);
    }
  }

  function FromUsers(): Message -> bool { (m: Message) => m.role == User || m.role == OtherRole }

  function FromBoth(): Message -> bool { (m: Message) => m.role != Tool && m.role != System }

  /** The users' messages are those of the history, and the whole conversation is that of the cleaned
      history; from some position on, in order. */
  ghost predicate Continues(ms: seq<Message>, r: seq<Message>, all: bool) {
    && EndOf(Only(r, FromUsers()), Only(ms, FromUsers())) && EndOf(Only(r, FromBoth()), Only(Cleaned(ms), FromBoth()))
    && (all ==> Only(r, FromUsers()) == Only(ms, FromUsers()) && Only(r, FromBoth()) == Only(Cleaned(ms), FromBoth()))
  }

  lemma CopyKeepsConversation(config: Config, ms: seq<Message>, whole: seq<Message>, from: nat, r: seq<Message>)
    requires CopyOf(config, ms, whole, from, r)
    ensures Continues(ms, r, from == 0)
  {
    CopyContinues(config, ms, whole, from, r, FromUsers());
    CopyContinues(config, ms, whole, from, r, FromBoth());
    OnlyOfCleaned(ms, FromUsers());
  }

  // ---------------------------------------------------------------- what needs no repair

  /** Nothing to repair, to shorten, to compact or to cut. */
  ghost predicate Sound(config: Config, ids: set<string>, ms: seq<Message>) {
    && WellPaired(ms) && CallsNamed(ms) && NoPlaceholder(ms)
    && (forall i :: 0 <= i < |ms| && ms[i].role == Tool ==> config.normalize(i, ms[i]) == ms[i].content)
    && (config.InputBudget() == 0 ||
        (config.estimate(ms) <= config.InputBudget() && forall i :: 0 <= i < |ms| ==> !IsRecorded(ms[i], ids)))
  }

  lemma SoundStays(config: Config, ids: set<string>, ids': set<string>, ms: seq<Message>, plan: Plan, r: seq<Message>)
    requires Prepared(config, ids, ids', ms, plan, r) && Sound(config, ids, ms)
    ensures r == ms
  {
    FirstRoundIdentity(ms);
    assert Budgeted(config, ms) == ms;
    if config.InputBudget() > 0 {
      assert Recorded(config.notice, ms, ids) == ms;
      assert plan.shaped == ms;
    }
    PairedIsFixed(ms);
  }

  /** The bound on each result, then the notices. */
  method ShapeResults(config: Config, messages: seq<MessageDict>, compacted: CompactedIds)
    returns (r: seq<MessageDict>, ghost plan: Plan)
    modifies compacted
    ensures plan.shaped == Values(r) && Shaping(config, Values(messages), plan, old(compacted.ids), compacted.ids)
    ensures old(compacted.ids) <= compacted.ids
    ensures config.InputBudget() > 0 ==> Noticed(config, old(compacted.ids), Values(r))
    ensures unchanged(messages) && GivenOrNew(messages, r)
  {
    ghost var cs, n;
    r := ApplyToolResultBudget(config, messages);
    ghost var base, ids := Recorded(config.notice, Values(r), compacted.ids), compacted.ids;
    r, cs, n := CompactInflightOverflow(config, r, compacted);
    plan := Plan(Values(r), cs, n, 0, 0, 0);
    if config.InputBudget() > 0 { CompactedNoticed(config, base, Values(r), ids, compacted.ids, cs, n); }
  }

  method Fit(config: Config, messages: seq<MessageDict>, compacted: CompactedIds)
    returns (r: seq<MessageDict>, ghost plan: Plan)
    modifies compacted
    ensures old(compacted.ids) <= compacted.ids
    ensures Shaping(config, Values(messages), plan, old(compacted.ids), compacted.ids)
    ensures FittedTo(config, plan, Values(r))
    ensures config.InputBudget() > 0 ==> Noticed(config, old(compacted.ids), plan.shaped)
    ensures unchanged(messages) && GivenOrNew(messages, r)
  {
    r, plan := ShapeResults(config, messages, compacted);
    ghost var k, u, start;
    r, k, u, start := SnipHistory(config, r);
    plan := plan.(k := k, u := u, start := start);
  }

  /** The model's copy of any history is the cleaned history with every call paired, each result as it
      is bounded or noticed, cut to the budget; a sound history is its own copy. It is well paired,
      names every call, keeps every system message, shows what was compacted before as its notice, and
      was made without a write to a message of the history. */
  method PrepareForModel(config: Config, messages: seq<MessageDict>, compacted: CompactedIds)
    returns (r: seq<MessageDict>, ghost plan: Plan, ghost from: nat)
    modifies compacted
    ensures Prepared(config, old(compacted.ids), compacted.ids, Values(messages), plan, Values(r))
    ensures CopyOf(config, Values(messages), Drop(plan.shaped, {}), from, Values(r))
    ensures Continues(Values(messages), Values(r), from == 0)
    ensures !Over(config, plan.shaped) ==> from == 0 && Values(r) == Drop(plan.shaped, {})
    ensures Sound(config, old(compacted.ids), Values(messages)) ==> Values(r) == Values(messages)
    ensures WellPaired(Values(r)) && CallsNamed(Values(r)) && Systems(Values(r)) == Systems(Values(messages))
    ensures old(compacted.ids) <= compacted.ids
    ensures config.InputBudget() > 0 ==> Noticed(config, old(compacted.ids), Values(r))
    ensures unchanged(messages) && GivenOrNew(messages, r)
  {
    r, plan := RunPasses(config, messages, compacted);
    from := CopyFacts(config, old(compacted.ids), compacted.ids, Values(messages), plan, Values(r));
  }

  method RunPasses(config: Config, messages: seq<MessageDict>, compacted: CompactedIds)
    returns (r: seq<MessageDict>, ghost plan: Plan)
    modifies compacted
    ensures Prepared(config, old(compacted.ids), compacted.ids, Values(messages), plan, Values(r))
    ensures WellPaired(Values(r)) && CallsNamed(Values(r)) && Systems(Values(r)) == Systems(Values(messages))
    ensures old(compacted.ids) <= compacted.ids
    ensures config.InputBudget() > 0 ==> Noticed(config, old(compacted.ids), Values(r))
    ensures unchanged(messages) && GivenOrNew(messages, r)
  {
    ghost var ms, ids := Values(messages), compacted.ids;
    r := RunFirstRound(messages);
    r, plan := Fit(config, r, compacted);
    ghost var fitted := Values(r);
    SecondRoundOf(config, ids, compacted.ids, ms, plan, fitted);
    if config.InputBudget() > 0 { FittedNoticed(config, ids, plan, fitted); }
    r := RunSecondRound(r);
  }

  lemma CopyFacts(config: Config, ids: set<string>, ids': set<string>, ms: seq<Message>, plan: Plan, r: seq<Message>)
    returns (from: nat)
    requires Prepared(config, ids, ids', ms, plan, r)
    ensures CopyOf(config, ms, Drop(plan.shaped, {}), from, r) && Continues(ms, r, from == 0)
    ensures !Over(config, plan.shaped) ==> from == 0 && r == Drop(plan.shaped, {})
    ensures Sound(config, ids, ms) ==> r == ms
  {
    from := PreparedIsCopy(config, ids, ids', ms, plan, r);
    CopyKeepsConversation(config, ms, Drop(plan.shaped, {}), from, r);
    if Sound(config, ids, ms) { SoundStays(config, ids, ids', ms, plan, r); }
  }

  /** The shaped list, cut where it is over the budget. */
  ghost predicate FittedTo(config: Config, plan: Plan, fitted: seq<Message>) {
    && (!Over(config, plan.shaped) ==> fitted == plan.shaped)
    && (Over(config, plan.shaped) ==>
          CutFits(config, plan) && fitted == Systems(plan.shaped) + NonSystems(plan.shaped)[plan.start..])
  }

  lemma SecondRoundOf(config: Config, ids: set<string>, ids': set<string>, ms: seq<Message>,
                      plan: Plan, fitted: seq<Message>)
    requires Shaping(config, FirstRound(ms), plan, ids, ids') && FittedTo(config, plan, fitted)
    ensures WellPaired(Drop(fitted, {})) && Backfill(Drop(fitted, {})) == Drop(fitted, {})
    ensures CallsNamed(Drop(fitted, {})) && Systems(Drop(fitted, {})) == Systems(ms)
    ensures Prepared(config, ids, ids', ms, plan, Drop(fitted, {}))
  {
    ShapedIsShown(config, FirstRound(ms), plan, ids, ids');
    SecondRoundPairs(ms, plan.shaped, fitted, plan.start);
  }

  lemma FittedNoticed(config: Config, ids: set<string>, plan: Plan, fitted: seq<Message>)
    requires Noticed(config, ids, plan.shaped) && FittedTo(config, plan, fitted)
    ensures Noticed(config, ids, Drop(fitted, {}))
  {
    if Over(config, plan.shaped) { SnipNoticed(config, ids, plan.shaped, plan.start); }
    DropNoticed(config, ids, fitted);
  }
}
