/** Preparing the model's copy of a conversation.

    Messages are heap objects here, because what the module promises is about aliasing: a
    pass may hand back the messages it was given, or fresh copies, and never writes to a
    message that existed before the call. No pass has a modifies clause, so Dafny checks
    that promise for every write in this file. */
module Governance {
  import opened Transcript
  import Windows

  // ---------------------------------------------------------------- message objects

  class MessageDict {
    var value: Message

    constructor (v: Message)
      ensures value == v
    {
      value := v;
    }
  }

  /** The ids of results already replaced by a compaction notice, shared between calls. */
  class CompactedIds {
    var ids: set<string>

    constructor ()
      ensures ids == {}
    {
      ids := {};
    }
  }

  function Values(ms: seq<MessageDict>): (vs: seq<Message>)
    reads ms
    ensures |vs| == |ms|
    ensures forall i :: 0 <= i < |ms| ==> vs[i] == ms[i].value
  {
    seq(|ms|, i requires 0 <= i < |ms| reads ms => ms[i].value)
  }

  lemma ValuesAppend(a: seq<MessageDict>, b: seq<MessageDict>)
    ensures Values(a + b) == Values(a) + Values(b)
  {
  }

  lemma ValuesAdd(a: seq<MessageDict>, m: MessageDict)
    ensures Values(a + [m]) == Values(a) + [m.value]
  {
  }

  twostate predicate GivenOrNew(given: seq<MessageDict>, new out: seq<MessageDict>) {
    forall i :: 0 <= i < |out| ==> out[i] in given || fresh(out[i])
  }

  predicate Distinct(ms: seq<MessageDict>) {
    forall i, j :: 0 <= i < j < |ms| ==> ms[i] != ms[j]
  }

  method CopyAll(messages: seq<MessageDict>) returns (copies: seq<MessageDict>)
    ensures Values(copies) == Values(messages)
    ensures fresh(copies) && Distinct(copies)
  {
    copies := [];
    for i := 0 to |messages|
      invariant |copies| == i
      invariant fresh(copies) && Distinct(copies)
      invariant forall k :: 0 <= k < i ==> copies[k].value == messages[k].value
    {
      var copy := new MessageDict(messages[i].value);
      copies := copies + [copy];
    }
  }

  // ---------------------------------------------------------------- stripping

  const PLACEHOLDER := "[Previous assistant message omitted.]"

  function StripLeft(s: string): string {
    if s != "" && IsSpace(s[0]) then StripLeft(s[1..]) else s
  }

  function StripRight(s: string): string {
    if s != "" && IsSpace(s[|s| - 1]) then StripRight(s[..|s| - 1]) else s
  }

  predicate IsBarePlaceholder(m: Message) {
    m.role == Assistant && m.content.Text? && StripRight(StripLeft(m.content.text)) == PLACEHOLDER
    && m.calls == []
  }

  function WithoutPlaceholders(ms: seq<Message>): seq<Message> {
    if ms == [] then []
    else (if IsBarePlaceholder(ms[0]) then [] else [ms[0]]) + WithoutPlaceholders(ms[1..])
  }

  predicate NameIsValid(c: RawCall) {
    c.Call? &&
    var name := match c.fn { case Some(n) => n case None => c.topName };
    name.Name? && name.text != ""
  }

  function ValidCalls(calls: seq<RawCall>): (kept: seq<RawCall>)
    ensures |kept| <= |calls|
    ensures forall c :: c in kept ==> NameIsValid(c)
    ensures |kept| == |calls| ==> kept == calls
  {
    if calls == [] then []
    else (if NameIsValid(calls[0]) then [calls[0]] else []) + ValidCalls(calls[1..])
  }

  /** What becomes of one message: itself, a repaired copy, or nothing. */
  function Repaired(m: Message): seq<Message> {
    if m.role != Assistant then [m]
    else
      var kept := ValidCalls(m.calls);
      if kept == [] && m.calls != [] && !m.content.Truthy() then []
      else [m.(calls := kept)]
  }

  function WithoutMalformed(ms: seq<Message>): seq<Message> {
    if ms == [] then [] else Repaired(ms[0]) + WithoutMalformed(ms[1..])
  }

  lemma {:induction false} WithoutPlaceholdersStep(ms: seq<Message>, m: Message)
    ensures WithoutPlaceholders(ms + [m])
         == WithoutPlaceholders(ms) + (if IsBarePlaceholder(m) then [] else [m])
  {
    if ms != [] {
      assert (ms + [m])[1..] == ms[1..] + [m];
      WithoutPlaceholdersStep(ms[1..], m);
    }
  }

  lemma {:induction false} WithoutMalformedStep(ms: seq<Message>, m: Message)
    ensures WithoutMalformed(ms + [m]) == WithoutMalformed(ms) + Repaired(m)
  {
    if ms != [] {
      assert (ms + [m])[1..] == ms[1..] + [m];
      WithoutMalformedStep(ms[1..], m);
    }
  }

  lemma TakeOneMore<T>(s: seq<T>, i: nat)
    requires i < |s|
    ensures s[..i + 1] == s[..i] + [s[i]]
  {
  }

  method StripPlaceholders(messages: seq<MessageDict>) returns (r: seq<MessageDict>)
    ensures Values(r) == WithoutPlaceholders(Values(messages))
    ensures unchanged(messages) && GivenOrNew(messages, r)
  {
    r := messages;
    var changed := false;
    ghost var vs := Values(messages);
    for idx := 0 to |messages|
      invariant forall i :: 0 <= i < |r| ==> r[i] in messages
      invariant changed ==> Values(r) == WithoutPlaceholders(vs[..idx])
      invariant !changed ==> r == messages && WithoutPlaceholders(vs[..idx]) == vs[..idx]
    {
      var msg := messages[idx];
      TakeOneMore(vs, idx);
      WithoutPlaceholdersStep(vs[..idx], msg.value);
      if IsBarePlaceholder(msg.value) {
        if !changed {
          changed, r := true, messages[..idx];
          assert Values(r) == vs[..idx];
        }
      } else if changed {
        ValuesAdd(r, msg);
        r := r + [msg];
      }
    }
    assert vs[..|messages|] == vs;
  }

  /** A new object for what is left of a malformed message, if anything is. */
  method AppendRepaired(r: seq<MessageDict>, value: Message, kept: seq<RawCall>) returns (s: seq<MessageDict>)
    requires value.role == Assistant && kept == ValidCalls(value.calls) && |kept| != |value.calls|
    ensures Values(s) == Values(r) + Repaired(value)
    ensures |s| >= |r| && forall i :: 0 <= i < |s| ==> if i < |r| then s[i] == r[i] else fresh(s[i])
  {
    s := r;
    if kept != [] || value.content.Truthy() {
      var repaired := new MessageDict(value.(calls := kept));
      ValuesAppend(r, [repaired]);
      s := r + [repaired];
    }
  }

  /** The first malformed message copies the list before it. */
  method RepairAt(messages: seq<MessageDict>, r: seq<MessageDict>, changed: bool, idx: nat, kept: seq<RawCall>)
    returns (s: seq<MessageDict>)
    requires idx < |messages| && messages[idx].value.role == Assistant
    requires kept == ValidCalls(messages[idx].value.calls) && |kept| != |messages[idx].value.calls|
    ensures Values(s) == (if changed then Values(r) else Values(messages)[..idx]) + Repaired(messages[idx].value)
    ensures changed ==> |s| >= |r| && forall i :: 0 <= i < |s| ==> if i < |r| then s[i] == r[i] else fresh(s[i])
    ensures !changed ==> fresh(s)
  {
    if changed {
      s := AppendRepaired(r, messages[idx].value, kept);
    } else {
      s := CopyAll(messages[..idx]);
      assert Values(messages[..idx]) == Values(messages)[..idx];
      s := AppendRepaired(s, messages[idx].value, kept);
    }
  }

  lemma MalformedUpTo(vs: seq<Message>, i: nat)
    requires i < |vs|
    ensures vs[..i + 1] == vs[..i] + [vs[i]]
    ensures WithoutMalformed(vs[..i + 1]) == WithoutMalformed(vs[..i]) + Repaired(vs[i])
  {
    TakeOneMore(vs, i);
    WithoutMalformedStep(vs[..i], vs[i]);
  }

  lemma NothingMalformed(m: Message)
    requires m.role == Assistant ==> m.calls == [] || |ValidCalls(m.calls)| == |m.calls|
    ensures Repaired(m) == [m]
  {
  }

  method StripMalformed(messages: seq<MessageDict>) returns (r: seq<MessageDict>)
    ensures Values(r) == WithoutMalformed(Values(messages))
    ensures unchanged(messages) && GivenOrNew(messages, r)
  {
    r := messages;
    var changed := false;
    ghost var vs := Values(messages);
    ghost var out: seq<Message> := [];
    for idx := 0 to |messages|
      invariant GivenOrNew(messages, r)
      invariant out == WithoutMalformed(vs[..idx])
      invariant if changed then Values(r) == out else r == messages && out == vs[..idx]
    {
      var msg := messages[idx];
      MalformedUpTo(vs, idx);
      out := out + Repaired(msg.value);
      var kept := if msg.value.role == Assistant then ValidCalls(msg.value.calls) else [];
      if msg.value.role != Assistant || msg.value.calls == [] || |kept| == |msg.value.calls| {
        NothingMalformed(msg.value);
        if changed {
          ValuesAdd(r, msg);
          r := r + [msg];
        }
      } else {
        r := RepairAt(messages, r, changed, idx, kept);
        changed := true;
      }
    }
    assert vs[..|messages|] == vs;
  }

  // ---------------------------------------------------------------- dropping orphans

  lemma DropOne(ms: seq<Message>, m: Message)
    ensures var open := OpenAfter(ms, {});
      && Drop(ms + [m], {}) == Drop(ms, {}) + (if Orphan(m, open) then [] else [m])
      && OpenAfter(ms + [m], {}) ==
         if m.role == Assistant then IdSet(m)
         else if m.role == Tool && !Orphan(m, open) then open - {m.toolCallId}
         else open
  {
    DropStep(ms, m, {});
    assert [m][1..] == [];
    var open := OpenAfter(ms, {});
    if m.role == Tool && Orphan(m, open) { assert open - {m.toolCallId} == open; }
  }

  method DropOrphans(messages: seq<MessageDict>) returns (r: seq<MessageDict>)
    ensures Values(r) == Drop(Values(messages), {})
    ensures unchanged(messages) && GivenOrNew(messages, r)
  {
    r := messages;
    var changed := false;
    var open: set<string> := {};
    ghost var vs := Values(messages);
    for idx := 0 to |messages|
      invariant GivenOrNew(messages, r)
      invariant open == OpenAfter(vs[..idx], {})
      invariant changed ==> Values(r) == Drop(vs[..idx], {})
      invariant !changed ==> r == messages && Drop(vs[..idx], {}) == vs[..idx]
    {
      var msg := messages[idx];
      TakeOneMore(vs, idx);
      DropOne(vs[..idx], msg.value);
      var keep := true;
      if msg.value.role == Assistant {
        open := IdSet(msg.value);
      }
      if msg.value.role == Tool {
        var tid := msg.value.toolCallId;
        keep := tid != "" && tid in open;
        if keep {
          open := open - {tid};
        } else if !changed {
          changed := true;
          r := CopyAll(messages[..idx]);
          assert Values(messages[..idx]) == vs[..idx];
        }
      }
      if keep && changed {
        var copy := new MessageDict(msg.value);
        ValuesAppend(r, [copy]);
        r := r + [copy];
      }
    }
    assert vs[..|messages|] == vs;
  }

  // ---------------------------------------------------------------- backfilling

  /** One missing result: where it belongs in the original list, its id and tool name. */
  datatype Gap = Gap(at: nat, id: string, name: string)

  function GapsAt(at: nat, pairs: seq<(string, string)>, answered: set<string>): seq<Gap> {
    if pairs == [] then []
    else if pairs[0].0 in answered then GapsAt(at, pairs[1..], answered)
    else [Gap(at, pairs[0].0, pairs[0].1)] + GapsAt(at, pairs[1..], answered)
  }

  /** Where results are missing, as positions in the original list; ms starts at base. */
  function Gaps(ms: seq<Message>, base: nat): seq<Gap>
    decreases |ms|
  {
    if ms == [] then []
    else if ms[0].role == Assistant then
      var run := Run(ms[1..]);
      var end := base + 1 + |run|;
      GapsAt(end, Declared(ms[0]), Answered(run)) + Gaps(AfterRun(ms[1..]), end)
    else Gaps(ms[1..], base + 1)
  }

  predicate Ordered(gaps: seq<Gap>, from: nat, to: nat) {
    gaps == [] || (from <= gaps[0].at <= to && Ordered(gaps[1..], gaps[0].at, to))
  }

  /** ms, starting at position base, with one synthetic result at each gap. */
  ghost function Weave(ms: seq<Message>, gaps: seq<Gap>, base: nat): seq<Message>
    decreases |gaps|
  {
    if gaps == [] || !(base <= gaps[0].at <= base + |ms|) then ms
    else
      var n := gaps[0].at - base;
      ms[..n] + [Synthetic(gaps[0].id, gaps[0].name)] + Weave(ms[n..], gaps[1..], gaps[0].at)
  }

  lemma {:induction false} OrderedFrom(gaps: seq<Gap>, from: nat, later: nat, to: nat)
    requires Ordered(gaps, later, to) && from <= later
    ensures Ordered(gaps, from, to)
  {
  }

  lemma {:induction false} GapsAtThen(
    at: nat, pairs: seq<(string, string)>, answered: set<string>, more: seq<Gap>, to: nat)
    requires at <= to && Ordered(more, at, to)
    ensures Ordered(GapsAt(at, pairs, answered) + more, at, to)
  {
    if pairs == [] {
      assert GapsAt(at, pairs, answered) + more == more;
    } else {
      GapsAtThen(at, pairs[1..], answered, more, to);
      GapsAtStep(at, pairs, answered, more);
    }
  }

  lemma GapsAtStep(at: nat, pairs: seq<(string, string)>, answered: set<string>, more: seq<Gap>)
    requires pairs != []
    ensures
      var here := GapsAt(at, pairs, answered) + more;
      var rest := GapsAt(at, pairs[1..], answered) + more;
      if pairs[0].0 in answered then here == rest
      else here != [] && here[0] == Gap(at, pairs[0].0, pairs[0].1) && here[1..] == rest
  {
    if pairs[0].0 !in answered {
      Regroup([Gap(at, pairs[0].0, pairs[0].1)], GapsAt(at, pairs[1..], answered), more);
    }
  }

  lemma GapsAfterRun(ms: seq<Message>, base: nat, end: nat, run: seq<Message>, more: seq<Gap>)
    requires ms != [] && base <= end <= base + |ms| && Ordered(more, end, base + |ms|)
    ensures Ordered(GapsAt(end, Declared(ms[0]), Answered(run)) + more, base, base + |ms|)
  {
    var here := GapsAt(end, Declared(ms[0]), Answered(run)) + more;
    GapsAtThen(end, Declared(ms[0]), Answered(run), more, base + |ms|);
    OrderedFrom(here, base, end, base + |ms|);
  }

  lemma {:induction false} GapsOrdered(ms: seq<Message>, base: nat)
    ensures Ordered(Gaps(ms, base), base, base + |ms|)
    decreases |ms|
  {
    if ms != [] {
      if ms[0].role == Assistant {
        var run, rest := Run(ms[1..]), AfterRun(ms[1..]);
        var end := base + 1 + |run|;
        var more := Gaps(rest, end);
        GapsOrdered(rest, end);
        GapsAfterRun(ms, base, end, run, more);
      } else {
        GapsOrdered(ms[1..], base + 1);
        OrderedFrom(Gaps(ms[1..], base + 1), base, base + 1, base + |ms|);
      }
    }
  }

  lemma {:induction false} WeaveSkips(front: seq<Message>, ms: seq<Message>, gaps: seq<Gap>, base: nat)
    requires Ordered(gaps, base + |front|, base + |front| + |ms|)
    ensures Weave(front + ms, gaps, base) == front + Weave(ms, gaps, base + |front|)
  {
    if gaps != [] {
      var n := gaps[0].at - base;
      var k := n - |front|;
      TakeDropAppend(front, ms, k);
      var s := [Synthetic(gaps[0].id, gaps[0].name)];
      var w := Weave(ms[k..], gaps[1..], gaps[0].at);
      Regroup(front, ms[..k], s);
      Regroup(front, ms[..k] + s, w);
    }
  }

  lemma TakeDropAppend<T>(front: seq<T>, s: seq<T>, k: nat)
    requires k <= |s|
    ensures (front + s)[..|front| + k] == front + s[..k]
    ensures (front + s)[|front| + k..] == s[k..]
  {
  }

  lemma WeaveHere(ms: seq<Message>, gaps: seq<Gap>, base: nat)
    requires gaps != [] && gaps[0].at == base
    ensures Weave(ms, gaps, base)
         == [Synthetic(gaps[0].id, gaps[0].name)] + Weave(ms, gaps[1..], base)
  {
    assert ms[0..] == ms && ms[..0] == [];
  }

  lemma {:induction false} WeaveFills(
    at: nat, pairs: seq<(string, string)>, answered: set<string>, ms: seq<Message>, more: seq<Gap>)
    requires Ordered(more, at, at + |ms|)
    ensures Weave(ms, GapsAt(at, pairs, answered) + more, at)
         == Missing(pairs, answered) + Weave(ms, more, at)
  {
    GapsAtThen(at, pairs, answered, more, at + |ms|);
    if pairs == [] {
      assert GapsAt(at, pairs, answered) + more == more;
    } else {
      WeaveFills(at, pairs[1..], answered, ms, more);
      GapsAtStep(at, pairs, answered, more);
      var here := GapsAt(at, pairs, answered) + more;
      var missing := Missing(pairs[1..], answered);
      if pairs[0].0 in answered {
        assert Missing(pairs, answered) == missing;
      } else {
        WeaveHere(ms, here, at);
        assert Missing(pairs, answered) == [Synthetic(pairs[0].0, pairs[0].1)] + missing;
      }
    }
  }

  /** The gaps of one segment are those of its own calls, then those of the rest. */
  lemma GapsSegment(m: Message, run: seq<Message>, rest: seq<Message>, base: nat)
    requires m.role == Assistant && AllTools(run) && NoToolFirst(rest)
    ensures
      var end := base + 1 + |run|;
      Gaps([m] + run + rest, base)
      == GapsAt(end, Declared(m), Answered(run)) + Gaps(rest, end)
  {
    Segment(m, run, rest);
  }

  /** Weaving the gaps of a segment puts the synthetic results after its run. */
  lemma WeaveSegment(
    front: seq<Message>, rest: seq<Message>, pairs: seq<(string, string)>, answered: set<string>,
    more: seq<Gap>, base: nat, end: nat)
    requires end == base + |front| && Ordered(more, end, end + |rest|)
    ensures Weave(front + rest, GapsAt(end, pairs, answered) + more, base)
         == front + (Missing(pairs, answered) + Weave(rest, more, end))
  {
    GapsAtThen(end, pairs, answered, more, end + |rest|);
    WeaveFills(end, pairs, answered, rest, more);
    WeaveSkips(front, rest, GapsAt(end, pairs, answered) + more, base);
  }

  /** Filling the gaps gives what the recursive rule gives. */
  lemma {:induction false} WeaveIsBackfill(ms: seq<Message>, base: nat)
    ensures Weave(ms, Gaps(ms, base), base) == Backfill(ms)
    decreases |ms|, 1
  {
    if ms != [] {
      Cut(ms);
      var m, run, rest := ms[0], Run(ms[1..]), AfterRun(ms[1..]);
      if m.role == Assistant {
        WeaveAssistant(m, run, rest, base);
      } else {
        WeaveIsBackfill(ms[1..], base + 1);
        GapsOrdered(ms[1..], base + 1);
        WeaveSkips([m], ms[1..], Gaps(ms, base), base);
      }
    }
  }

  lemma {:induction false} WeaveAssistant(m: Message, run: seq<Message>, rest: seq<Message>, base: nat)
    requires m.role == Assistant && AllTools(run) && NoToolFirst(rest)
    ensures
      var ms := [m] + run + rest;
      Weave(ms, Gaps(ms, base), base) == Backfill(ms)
    decreases |rest| + 1, 0
  {
    var end := base + 1 + |run|;
    var front, more := [m] + run, Gaps(rest, end);
    var pairs, answered := Declared(m), Answered(run);
    GapsOrdered(rest, end);
    WeaveIsBackfill(rest, end);
    WeaveSegment(front, rest, pairs, answered, more, base, end);
    GapsSegment(m, run, rest, base);
    BackfillSegment(m, run, rest);
    Reassociate([m], run, Missing(pairs, answered), Backfill(rest));
  }

  lemma Reassociate<T>(a: seq<T>, b: seq<T>, c: seq<T>, d: seq<T>)
    ensures a + b + (c + d) == a + (b + c) + d
  {
  }

  /** The run of results at index, read as the loop reads it. */
  method ReadRun(vs: seq<Message>, index: nat) returns (answered: set<string>, runEnd: nat)
    requires index <= |vs|
    ensures index <= runEnd <= |vs|
    ensures Run(vs[index..]) == vs[index..runEnd] && AfterRun(vs[index..]) == vs[runEnd..]
    ensures answered == Answered(vs[index..runEnd])
  {
    answered, runEnd := {}, index;
    while runEnd < |vs| && vs[runEnd].role == Tool
      invariant index <= runEnd <= |vs|
      invariant AllTools(vs[index..runEnd])
      invariant answered == Answered(vs[index..runEnd])
    {
      var id := vs[runEnd].toolCallId;
      AnsweredAppend(vs[index..runEnd], [vs[runEnd]]);
      assert vs[index..runEnd + 1] == vs[index..runEnd] + [vs[runEnd]];
      assert Answered([vs[runEnd]]) == if id == "" then {} else {id};
      if id != "" {
        answered := answered + {id};
      }
      runEnd := runEnd + 1;
    }
    assert vs[index..] == vs[index..runEnd] + vs[runEnd..];
    RunOfAppend(vs[index..runEnd], vs[runEnd..]);
  }

  method CollectGaps(vs: seq<Message>) returns (missing: seq<Gap>)
    ensures missing == Gaps(vs, 0)
  {
    missing := [];
    var index := 0;
    while index < |vs|
      invariant 0 <= index <= |vs|
      invariant missing + Gaps(vs[index..], index) == Gaps(vs, 0)
    {
      var msg := vs[index];
      assert vs[index..][1..] == vs[index + 1..];
      index := index + 1;
      if msg.role == Assistant {
        var answered, runEnd := ReadRun(vs, index);
        missing := missing + GapsAt(runEnd, Declared(msg), answered);
        index := runEnd;
      }
    }
    assert vs[|vs|..] == [];
  }

  /** cur is the list after offset insertions: everything before last is final. */
  ghost predicate Inserting(
    vs: seq<Message>, cur: seq<Message>, done: seq<Message>, last: nat, gaps: seq<Gap>, offset: nat)
  {
    && offset <= |gaps| && last <= |vs|
    && |done| == last + offset
    && cur == done + vs[last..]
    && Ordered(gaps[offset..], last, |vs|)
    && done + Weave(vs[last..], gaps[offset..], last) == Backfill(vs)
  }

  lemma InsertStep(
    vs: seq<Message>, cur: seq<Message>, done: seq<Message>, last: nat, gaps: seq<Gap>, offset: nat)
    returns (done': seq<Message>)
    requires offset < |gaps| && Inserting(vs, cur, done, last, gaps, offset)
    ensures
      var p := gaps[offset].at + offset;
      && p <= |cur|
      && Inserting(
          vs, cur[..p] + [Synthetic(gaps[offset].id, gaps[offset].name)] + cur[p..],
          done', gaps[offset].at, gaps, offset + 1)
  {
    var g := gaps[offset];
    var s := [Synthetic(g.id, g.name)];
    var n, tail := g.at - last, vs[last..];
    done' := done + tail[..n] + s;
    assert gaps[offset..][1..] == gaps[offset + 1..];
    assert tail[n..] == vs[g.at..];
    TakeDropAppend(done, tail, n);
    var rest := Weave(vs[g.at..], gaps[offset + 1..], g.at);
    Regroup(done, tail[..n] + s, rest);
    Regroup(done, tail[..n], s);
  }

  /** list.insert: the new object at p, the rest after it. */
  function Inserted(r: seq<MessageDict>, p: nat, added: MessageDict): (s: seq<MessageDict>)
    requires p <= |r|
    reads r, added
    ensures Values(s) == Values(r)[..p] + [added.value] + Values(r)[p..]
    ensures forall i :: 0 <= i < |s| ==> s[i] in r || s[i] == added
  {
    var s := r[..p] + [added] + r[p..];
    assert Values(s) == Values(r)[..p] + [added.value] + Values(r)[p..];
    s
  }

  /** The list after inserting at all gaps from this offset on, one after the other, where each
      insertion moves the later places by one. */
  ghost function InsertFrom(cur: seq<Message>, gaps: seq<Gap>, offset: nat): seq<Message>
    requires offset <= |gaps|
    decreases |gaps| - offset
  {
    if offset == |gaps| || gaps[offset].at + offset > |cur| then cur
    else
      var p := gaps[offset].at + offset;
      InsertFrom(cur[..p] + [Synthetic(gaps[offset].id, gaps[offset].name)] + cur[p..], gaps, offset + 1)
  }

  lemma {:induction false} InsertFromIs(
    vs: seq<Message>, cur: seq<Message>, done: seq<Message>, last: nat, gaps: seq<Gap>, offset: nat)
    requires Inserting(vs, cur, done, last, gaps, offset)
    ensures InsertFrom(cur, gaps, offset) == Backfill(vs)
    decreases |gaps| - offset
  {
    if offset == |gaps| {
      assert gaps[offset..] == [];
    } else {
      var p := gaps[offset].at + offset;
      var done' := InsertStep(vs, cur, done, last, gaps, offset);
      InsertFromIs(vs, cur[..p] + [Synthetic(gaps[offset].id, gaps[offset].name)] + cur[p..],
                   done', gaps[offset].at, gaps, offset + 1);
    }
  }

  lemma {:induction false} OrderedWithin(gaps: seq<Gap>, from: nat, to: nat)
    requires Ordered(gaps, from, to)
    ensures forall i :: 0 <= i < |gaps| ==> gaps[i].at <= to
  {
    if gaps != [] { OrderedWithin(gaps[1..], gaps[0].at, to); }
  }

  /** Inserting with a running offset is the recursive rule: after the run of each assistant
      message, one synthetic result per unanswered call. */
  lemma RunningOffsetIsBackfill(vs: seq<Message>)
    ensures InsertFrom(vs, Gaps(vs, 0), 0) == Backfill(vs)
    ensures forall i :: 0 <= i < |Gaps(vs, 0)| ==> Gaps(vs, 0)[i].at <= |vs|
  {
    var gaps := Gaps(vs, 0);
    WeaveIsBackfill(vs, 0);
    GapsOrdered(vs, 0);
    OrderedWithin(gaps, 0, |vs|);
    assert vs[0..] == vs && gaps[0..] == gaps;
    InsertFromIs(vs, vs, [], 0, gaps, 0);
  }

  /** list.insert of a new object. */
  method InsertNew(r: seq<MessageDict>, p: nat, value: Message) returns (s: seq<MessageDict>)
    requires p <= |r|
    ensures Values(s) == Values(r)[..p] + [value] + Values(r)[p..]
    ensures forall i :: 0 <= i < |s| ==> s[i] in r || fresh(s[i])
  {
    var added := new MessageDict(value);
    s := Inserted(r, p, added);
  }

  method BackfillMissing(messages: seq<MessageDict>) returns (r: seq<MessageDict>)
    ensures Values(r) == Backfill(Values(messages))
    ensures unchanged(messages) && GivenOrNew(messages, r)
  {
    ghost var vs := Values(messages);
    var missing := CollectGaps(Values(messages));
    RunningOffsetIsBackfill(vs);
    r := messages;
    for offset := 0 to |missing|
      invariant GivenOrNew(messages, r)
      invariant |r| == |vs| + offset && InsertFrom(Values(r), missing, offset) == Backfill(vs)
    {
      var gap := missing[offset];
      r := InsertNew(r, gap.at + offset, Synthetic(gap.id, gap.name));
    }
  }

  // ---------------------------------------------------------------- changing contents only

  const COMPACTABLE_TOOLS: set<string> :=
    {"read_file", "exec", "grep", "find_files", "web_search", "web_fetch", "list_dir", "list_exec_sessions"}
  const MICROCOMPACT_MIN_CHARS := 500
  const SNIP_SAFETY_BUFFER := 1024

  /** What the passes read from their surroundings. 0 stands for an absent limit. The
      token estimators, the size bound on one result and the notice are arbitrary. */
  datatype Config = Config(
    contextWindow: int,
    blockLimit: int,
    maxOutput: int,
    inflightStart: nat,
    estimate: seq<Message> -> int,
    tokensOf: Message -> int,
    normalize: (nat, Message) -> Content,
    notice: Message -> Content)
  {
    function InputBudget(): (b: int)
      ensures b >= 0
    {
      if contextWindow == 0 then 0
      else
        var budget := if blockLimit != 0 then blockLimit
                      else contextWindow - maxOutput - SNIP_SAFETY_BUFFER;
        if budget > 0 then budget else 0
    }

    /** 85% of the budget, rounded down. */
    function Target(): (t: int)
      ensures t <= InputBudget()
    {
      InputBudget() * 85 / 100
    }
  }

  /** b is a with the contents of some results replaced. */
  ghost predicate OnlyResultContent(a: seq<Message>, b: seq<Message>) {
    && |a| == |b|
    && forall i :: 0 <= i < |a| ==>
         b[i] == a[i] || (a[i].role == Tool && b[i] == a[i].(content := b[i].content))
  }

  function Budgeted(config: Config, ms: seq<Message>): seq<Message> {
    seq(|ms|, i requires 0 <= i < |ms| =>
      if ms[i].role == Tool then ms[i].(content := config.normalize(i, ms[i])) else ms[i])
  }

  /** Objects that no caller holds: writing to them changes no given message. */
  twostate predicate Owned(new ms: seq<MessageDict>) {
    fresh(ms) && Distinct(ms)
  }

  method ApplyToolResultBudget(config: Config, messages: seq<MessageDict>) returns (r: seq<MessageDict>)
    ensures Values(r) == Budgeted(config, Values(messages))
    ensures unchanged(messages) && (r == messages || Owned(r))
  {
    r := messages;
    var copied := false;
    ghost var vs := Values(messages);
    for idx := 0 to |messages|
      invariant |r| == |messages|
      invariant if copied then Owned(r) else r == messages
      invariant forall i :: 0 <= i < idx ==> r[i].value == Budgeted(config, vs)[i]
      invariant forall i :: idx <= i < |messages| ==> r[i].value == vs[i]
    {
      var msg := messages[idx].value;
      if msg.role == Tool {
        var normalized := config.normalize(idx, msg);
        if normalized != msg.content {
          if !copied {
            copied := true;
            r := CopyAll(messages);
            assert forall i :: 0 <= i < |r| ==> r[i].value == Values(r)[i] == vs[i];
          }
          r[idx].value := r[idx].value.(content := normalized);
        }
      }
    }
  }

  predicate IsRecorded(m: Message, ids: set<string>) {
    m.role == Tool && m.toolCallId != "" && m.toolCallId in ids
  }

  function Recorded(notice: Message -> Content, ms: seq<Message>, ids: set<string>): seq<Message> {
    seq(|ms|, i requires 0 <= i < |ms| =>
      if IsRecorded(ms[i], ids) then ms[i].(content := notice(ms[i])) else ms[i])
  }

  method ApplyRecordedCompactions(config: Config, messages: seq<MessageDict>, compacted: CompactedIds)
    returns (r: seq<MessageDict>)
    ensures Values(r) == Recorded(config.notice, Values(messages), compacted.ids)
    ensures unchanged(messages) && (r == messages || Owned(r))
  {
    r := messages;
    ghost var vs := Values(messages);
    if compacted.ids == {} {
      assert Recorded(config.notice, vs, {}) == vs;
      return;
    }
    var copied := false;
    for idx := 0 to |messages|
      invariant |r| == |messages|
      invariant if copied then Owned(r) else r == messages
      invariant forall i :: 0 <= i < idx ==> r[i].value == Recorded(config.notice, vs, compacted.ids)[i]
      invariant forall i :: idx <= i < |messages| ==> r[i].value == vs[i]
    {
      var msg := messages[idx].value;
      if IsRecorded(msg, compacted.ids) && msg.content != config.notice(msg) {
        if !copied {
          copied := true;
          r := CopyAll(messages);
          assert forall i :: 0 <= i < |r| ==> r[i].value == Values(r)[i] == vs[i];
        }
        r[idx].value := r[idx].value.(content := config.notice(msg));
      }
    }
  }

  predicate IsCandidate(config: Config, ms: seq<Message>, ids: set<string>, i: nat)
    requires i < |ms|
  {
    && config.inflightStart <= i
    && ms[i].role == Tool && ms[i].name.Some? && ms[i].name.value in COMPACTABLE_TOOLS
    && ms[i].toolCallId != "" && ms[i].toolCallId !in ids
    && ms[i].content.Text? && |ms[i].content.text| >= MICROCOMPACT_MIN_CHARS
  }

  ghost predicate AreCandidates(config: Config, ms: seq<Message>, ids: set<string>, upTo: nat, cs: seq<nat>)
    requires upTo <= |ms|
  {
    && (forall k :: 0 <= k < |cs| ==> cs[k] < upTo && IsCandidate(config, ms, ids, cs[k]))
    && (forall j, k :: 0 <= j < k < |cs| ==> cs[j] < cs[k])
    && (forall i :: 0 <= i < upTo && IsCandidate(config, ms, ids, i) ==> i in cs)
  }

  /** The in-flight results that may be compacted, oldest first. */
  method InflightCandidates(config: Config, ms: seq<Message>, ids: set<string>) returns (cs: seq<nat>)
    ensures AreCandidates(config, ms, ids, |ms|, cs)
  {
    cs := [];
    for i := 0 to |ms|
      invariant AreCandidates(config, ms, ids, i, cs)
    {
      if IsCandidate(config, ms, ids, i) {
        cs := cs + [i];
      }
    }
  }

  /** The ids of the results at the positions cs. */
  function IdsAt(ms: seq<Message>, cs: seq<nat>): set<string>
    requires forall k :: 0 <= k < |cs| ==> cs[k] < |ms|
  {
    set k | 0 <= k < |cs| :: ms[cs[k]].toolCallId
  }

  /** What compaction did to base: the ids of the first k candidates are recorded, and
      what changed is one of them, now shown as its notice. */
  ghost predicate Compacted(
    config: Config, base: seq<Message>, out: seq<Message>, ids: set<string>, ids': set<string>,
    cs: seq<nat>, k: nat)
  {
    && (forall j :: 0 <= j < |cs| ==> cs[j] < |base|) && k <= |cs|
    && |out| == |base|
    && ids' == ids + IdsAt(base, cs[..k])
    && forall i :: 0 <= i < |base| ==>
         out[i] == base[i] || (i in cs[..k] && out[i] == base[i].(content := config.notice(base[i])))
  }

  lemma IdsAtStep(ms: seq<Message>, cs: seq<nat>, k: nat)
    requires k < |cs| && forall j :: 0 <= j < |cs| ==> cs[j] < |ms|
    ensures IdsAt(ms, cs[..k + 1]) == IdsAt(ms, cs[..k]) + {ms[cs[k]].toolCallId}
  {
    var a, b := IdsAt(ms, cs[..k + 1]), IdsAt(ms, cs[..k]) + {ms[cs[k]].toolCallId};
    forall x | x in a ensures x in b {
      var j :| 0 <= j < k + 1 && ms[cs[..k + 1][j]].toolCallId == x;
      if j < k { assert cs[..k][j] == cs[j]; }
    }
    forall x | x in b ensures x in a {
      if x == ms[cs[k]].toolCallId {
        assert cs[..k + 1][k] == cs[k];
      } else {
        var j :| 0 <= j < k && ms[cs[..k][j]].toolCallId == x;
        assert cs[..k + 1][j] == cs[..k][j];
      }
    }
  }

  /** One more candidate: its id is recorded already, or it is now shown as its notice. */
  lemma CompactedStep(
    config: Config, base: seq<Message>, out: seq<Message>, ids: set<string>, ids': set<string>,
    cs: seq<nat>, k: nat)
    requires k < |cs| && Compacted(config, base, out, ids, ids', cs, k) && cs[k] !in cs[..k]
    ensures cs[k] < |out| && out[cs[k]] == base[cs[k]]
    ensures out[cs[k]].toolCallId in ids' ==> Compacted(config, base, out, ids, ids', cs, k + 1)
    ensures
      var m := out[cs[k]];
      var out' := out[cs[k] := m.(content := config.notice(m))];
      Compacted(config, base, out', ids, ids' + {m.toolCallId}, cs, k + 1)
  {
    IdsAtStep(base, cs, k);
    assert cs[..k + 1] == cs[..k] + [cs[k]];
  }

  /** Why the loop over the candidates stopped after k of them. */
  ghost predicate Settled(config: Config, out: seq<Message>, cs: seq<nat>, k: nat) {
    || config.estimate(out) <= config.Target()
    || (config.estimate(out) <= config.InputBudget() && k == |cs| - 1)
    || k == |cs|
  }

  /** Nothing is assumed of the estimator, so each clause names what the estimate was. */
  method CompactInflightOverflow(config: Config, messages: seq<MessageDict>, compacted: CompactedIds)
    returns (r: seq<MessageDict>, ghost cs: seq<nat>, ghost k: nat)
    modifies compacted
    ensures unchanged(messages) && (r == messages || Owned(r))
    ensures config.InputBudget() == 0 ==> r == messages && compacted.ids == old(compacted.ids)
    ensures config.InputBudget() > 0 ==>
      var base := Recorded(config.notice, Values(messages), old(compacted.ids));
      && Compacted(config, base, Values(r), old(compacted.ids), compacted.ids, cs, k)
      && (config.estimate(base) <= config.InputBudget() ==> k == 0)
      && (config.estimate(base) > config.InputBudget() ==>
          AreCandidates(config, base, old(compacted.ids), |base|, cs) && Settled(config, Values(r), cs, k))
  {
    cs, k := [], 0;
    r := messages;
    if config.InputBudget() <= 0 { return; }
    r := ApplyRecordedCompactions(config, messages, compacted);
    if config.estimate(Values(r)) <= config.InputBudget() { return; }
    var candidates := InflightCandidates(config, Values(r), compacted.ids);
    cs := candidates;
    r, k := CompactCandidates(config, messages, r, compacted, candidates);
  }

  method CompactCandidates(
    config: Config, messages: seq<MessageDict>, updated: seq<MessageDict>, compacted: CompactedIds,
    cs: seq<nat>)
    returns (r: seq<MessageDict>, k: nat)
    requires updated == messages || Distinct(updated)
    requires forall j :: 0 <= j < |cs| ==> cs[j] < |updated|
    requires forall i, j :: 0 <= i < j < |cs| ==> cs[i] < cs[j]
    requires config.estimate(Values(updated)) > config.InputBudget()
    modifies compacted, (if updated == messages then {} else set m | m in updated)
    ensures r == updated || (updated == messages && Owned(r))
    ensures Compacted(
      config, old(Values(updated)), Values(r), old(compacted.ids), compacted.ids, cs, k)
    ensures Settled(config, Values(r), cs, k)
  {
    ghost var base, ids0 := Values(updated), compacted.ids;
    r, k := updated, 0;
    var estimate := config.estimate(Values(r));
    while k < |cs|
      invariant 0 <= k <= |cs|
      invariant r == updated || (updated == messages && Owned(r))
      invariant Compacted(config, base, Values(r), ids0, compacted.ids, cs, k)
      invariant estimate == config.estimate(Values(r))
    {
      if k == |cs| - 1 && estimate <= config.InputBudget() { break; }
      var idx := cs[k];
      CompactedStep(config, base, Values(r), ids0, compacted.ids, cs, k);
      k := k + 1;
      if r[idx].value.toolCallId !in compacted.ids {
        r := CompactOne(config, messages, r, idx, compacted);
        estimate := config.estimate(Values(r));
        if estimate <= config.Target() { break; }
      }
    }
  }

  /** Record one id and show its result as a notice, copying the list first when it is
      still the caller's. */
  method CompactOne(
    config: Config, messages: seq<MessageDict>, updated: seq<MessageDict>, idx: nat,
    compacted: CompactedIds)
    returns (r: seq<MessageDict>)
    requires idx < |updated| && (updated == messages || Distinct(updated))
    modifies compacted, (if updated == messages then {} else {updated[idx]})
    ensures r == updated || (updated == messages && Owned(r))
    ensures r == messages ==> updated != messages
    ensures compacted.ids == old(compacted.ids) + {old(updated[idx].value.toolCallId)}
    ensures var m := old(updated[idx].value);
      Values(r) == old(Values(updated))[idx := m.(content := config.notice(m))]
  {
    r := updated;
    compacted.ids := compacted.ids + {updated[idx].value.toolCallId};
    if updated == messages {
      r := CopyAll(messages);
      assert r[idx].value == Values(r)[idx];
    }
    CompactResultAt(config, r, idx);
  }

  method CompactResultAt(config: Config, ms: seq<MessageDict>, idx: nat)
    requires idx < |ms| && Distinct(ms)
    modifies ms[idx]
    ensures Values(ms) == old(Values(ms))[idx := old(ms[idx].value).(content := config.notice(old(ms[idx].value)))]
  {
    ms[idx].value := ms[idx].value.(content := config.notice(ms[idx].value));
  }

  // ---------------------------------------------------------------- snipping history

  function Systems(ms: seq<Message>): seq<Message> {
    if ms == [] then []
    else (if ms[0].role == System then [ms[0]] else []) + Systems(ms[1..])
  }

  function NonSystems(ms: seq<Message>): (ns: seq<Message>)
    ensures forall i :: 0 <= i < |ns| ==> ns[i].role != System
  {
    if ms == [] then []
    else (if ms[0].role == System then [] else [ms[0]]) + NonSystems(ms[1..])
  }

  function TokenSum(config: Config, ms: seq<Message>): int {
    if ms == [] then 0 else config.tokensOf(ms[0]) + TokenSum(config, ms[1..])
  }

  ghost predicate HasUser(ms: seq<Message>) {
    exists i :: 0 <= i < |ms| && ms[i].role == User
  }

  /** Where the kept tail starts: it is the longest that fits, and never empty. */
  ghost predicate TailWithin(config: Config, ms: seq<Message>, budget: int, k: nat) {
    && (ms != [] ==> k < |ms|) && k <= |ms|
    && FitFrom(config, ms, budget, k)
    && (k > 0 ==> TokenSum(config, ms[k - 1..]) > budget)
  }

  /** Every longer part of the tail fits, save for the last message alone. */
  ghost predicate FitFrom(config: Config, ms: seq<Message>, budget: int, k: nat) {
    forall j :: k <= j < |ms| - 1 ==> TokenSum(config, ms[j..]) <= budget
  }

  lemma OneMoreFits(config: Config, ms: seq<Message>, budget: int, k: nat)
    requires 0 < k <= |ms| && FitFrom(config, ms, budget, k)
    requires k < |ms| ==> TokenSum(config, ms[k - 1..]) <= budget
    ensures FitFrom(config, ms, budget, k - 1)
  {
  }

  lemma TokenSumFrom(config: Config, ms: seq<Message>, k: nat)
    requires 0 < k <= |ms|
    ensures TokenSum(config, ms[k - 1..]) == config.tokensOf(ms[k - 1]) + TokenSum(config, ms[k..])
  {
    assert ms[k - 1..][1..] == ms[k..];
  }

  method KeepRecent(config: Config, ms: seq<Message>, budget: int) returns (k: nat)
    ensures TailWithin(config, ms, budget, k)
  {
    k := |ms|;
    var keptTokens := 0;
    while k > 0
      invariant 0 <= k <= |ms|
      invariant ms[|ms|..] == [] && keptTokens == TokenSum(config, ms[k..])
      invariant FitFrom(config, ms, budget, k)
    {
      var tokens := config.tokensOf(ms[k - 1]);
      TokenSumFrom(config, ms, k);
      if k < |ms| && keptTokens + tokens > budget { break; }
      OneMoreFits(config, ms, budget, k);
      k := k - 1;
      keptTokens := keptTokens + tokens;
    }
  }

  /** The first (or last) user message, or none. */
  method UserTail(ms: seq<Message>, last: bool) returns (at: Option<nat>)
    ensures at.None? <==> !HasUser(ms)
    ensures at.Some? ==> at.value < |ms| && ms[at.value].role == User
    ensures at.Some? ==> forall i :: 0 <= i < |ms| && ms[i].role == User ==>
      if last then i <= at.value else at.value <= i
  {
    if last {
      for i := |ms| downto 0
        invariant forall j :: i <= j < |ms| ==> ms[j].role != User
      {
        if ms[i].role == User { return Some(i); }
      }
    } else {
      for i := 0 to |ms|
        invariant forall j :: 0 <= j < i ==> ms[j].role != User
      {
        if ms[i].role == User { return Some(i); }
      }
    }
    at := None;
  }

  /** start is the first position from u on that leaves no stray result. */
  ghost predicate LegalAfter(ns: seq<Message>, u: nat, start: nat) {
    u <= start <= |ns| && Windows.EarliestLegal(ns[u..], start - u)
  }

  /** The tail that fits starts at k. What is kept starts, before its stray results are trimmed, at
      the first user message from there on, else at the latest before, else at k itself. */
  ghost predicate TailStart(ns: seq<Message>, k: nat, u: nat, start: nat) {
    && LegalAfter(ns, u, start)
    && if Windows.HoldsUser(ns, k) then Windows.FirstUser(ns, k, u)
       else if Windows.HoldsUser(ns, 0) then Windows.LatestUser(ns, u)
       else u == k
  }

  lemma UserFrom(ns: seq<Message>, k: nat, at: Option<nat>)
    requires k < |ns| && (at.None? <==> !HasUser(ns[k..]))
    requires at.Some? ==> at.value < |ns| - k && ns[k..][at.value].role == User
    requires at.Some? ==> forall i :: 0 <= i < |ns| - k && ns[k..][i].role == User ==> at.value <= i
    ensures at.None? ==> !Windows.HoldsUser(ns, k)
    ensures at.Some? ==> Windows.HoldsUser(ns, k) && Windows.FirstUser(ns, k, k + at.value)
  {
    assert forall i :: k <= i < |ns| ==> ns[i] == ns[k..][i - k];
  }

  method LegalHistoryTail(ns: seq<Message>, k: nat) returns (start: nat, ghost u: nat)
    requires k < |ns|
    ensures TailStart(ns, k, u, start)
  {
    var from := k;
    var user := UserTail(ns[k..], false);
    UserFrom(ns, k, user);
    if user.Some? {
      from := k + user.value;
    } else {
      user := UserTail(ns, true);
      if user.Some? { from := user.value; }
    }
    var legal := Windows.FindLegalMessageStart(ns[from..]);
    start, u := from + legal, from;
  }

  /** What the system messages leave of the budget. */
  function Remaining(config: Config, ms: seq<Message>): (b: int)
    ensures b >= 0
  {
    var sum, fixed := TokenSum(config, Systems(ms)), config.estimate(Systems(ms));
    var remaining := config.InputBudget() - if sum > fixed then sum else fixed;
    if remaining > 0 then remaining else 0
  }

  /** A snipped list: every system message, then a tail of the others, found from the longest that
      fits. */
  ghost predicate Snipped(config: Config, before: seq<Message>, after: seq<Message>, k: nat, u: nat, start: nat) {
    var ns := NonSystems(before);
    && TailWithin(config, ns, Remaining(config, before), k) && TailStart(ns, k, u, start)
    && after == Systems(before) + ns[start..]
  }

  method FreshCopies(vs: seq<Message>) returns (r: seq<MessageDict>)
    ensures fresh(r) && Values(r) == vs
  {
    r := [];
    for i := 0 to |vs|
      invariant |r| == i && fresh(r)
      invariant forall j :: 0 <= j < i ==> r[j].value == vs[j]
    {
      var copy := new MessageDict(vs[i]);
      r := r + [copy];
    }
  }

  method SnipHistory(config: Config, messages: seq<MessageDict>)
    returns (r: seq<MessageDict>, ghost k: nat, ghost u: nat, ghost start: nat)
    ensures var vs := Values(messages);
      if config.InputBudget() == 0 || config.estimate(vs) <= config.InputBudget() || NonSystems(vs) == []
      then r == messages
      else fresh(r) && Snipped(config, vs, Values(r), k, u, start)
  {
    r, k, u, start := messages, 0, 0, 0;
    var vs := Values(messages);
    var budget := config.InputBudget();
    if messages == [] || budget <= 0 || config.estimate(vs) <= budget { return; }
    if NonSystems(vs) == [] { return; }
    var from;
    from, k, u := SnipPoint(config, vs);
    start := from;
    r := FreshCopies(Systems(vs) + NonSystems(vs)[from..]);
  }

  /** Where the kept tail starts. */
  method SnipPoint(config: Config, vs: seq<Message>) returns (start: nat, ghost k: nat, ghost u: nat)
    requires NonSystems(vs) != []
    ensures TailWithin(config, NonSystems(vs), Remaining(config, vs), k) && TailStart(NonSystems(vs), k, u, start)
  {
    var systems, ns := Systems(vs), NonSystems(vs);
    var systemTokens, fixed := TokenSum(config, systems), config.estimate(systems);
    var remaining := config.InputBudget() - if systemTokens > fixed then systemTokens else fixed;
    var longest := KeepRecent(config, ns, if remaining > 0 then remaining else 0);
    start, u := LegalHistoryTail(ns, longest);
    k := longest;
  }

  // ---------------------------------------------------------------- what the passes keep

  /** Every call an assistant message sends has a usable name. */
  ghost predicate CallsNamed(ms: seq<Message>) {
    forall i :: 0 <= i < |ms| ==> Named(ms[i])
  }

  ghost predicate Named(m: Message) {
    m.role == Assistant ==> forall c :: c in m.calls ==> NameIsValid(c)
  }

  lemma {:induction false} MalformedNamed(ms: seq<Message>)
    ensures CallsNamed(WithoutMalformed(ms))
  {
    if ms != [] {
      MalformedNamed(ms[1..]);
    }
  }

  lemma {:induction false} NamedSubsequence(a: seq<Message>, b: seq<Message>)
    requires Subsequence(a, b) && CallsNamed(b)
    ensures CallsNamed(a)
    decreases |b|
  {
    if a != [] {
      assert forall i :: 0 <= i < |b[1..]| ==> b[1..][i] == b[i + 1];
      if a[0] == b[0] && Subsequence(a[1..], b[1..]) {
        NamedSubsequence(a[1..], b[1..]);
        assert forall i :: 1 <= i < |a| ==> a[i] == a[1..][i - 1];
      } else {
        NamedSubsequence(a, b[1..]);
      }
    }
  }

  lemma BackfillNamed(ms: seq<Message>)
    requires CallsNamed(ms)
    ensures CallsNamed(Backfill(ms))
  {
    BackfillElements(ms);
  }

  /** A backfilled list holds the given messages and synthetic results, nothing else. */
  lemma {:induction false} BackfillElements(ms: seq<Message>)
    ensures forall m :: m in Backfill(ms) ==> m in ms || m.role == Tool
    decreases |ms|
  {
    if ms != [] {
      Cut(ms);
      var m, run, rest := ms[0], Run(ms[1..]), AfterRun(ms[1..]);
      if m.role == Assistant {
        BackfillElements(rest);
        BackfillSegment(m, run, rest);
      } else {
        BackfillElements(ms[1..]);
      }
    }
  }

  lemma ContentNamed(a: seq<Message>, b: seq<Message>)
    requires OnlyResultContent(a, b) && CallsNamed(a)
    ensures CallsNamed(b)
  {
  }

  lemma {:induction false} ContentComplete(a: seq<Message>, b: seq<Message>)
    requires OnlyResultContent(a, b)
    ensures Complete(a) == Complete(b)
  {
    if a != [] {
      assert OnlyResultContent(a[1..], b[1..]);
      ContentComplete(a[1..], b[1..]);
      ContentRun(a[1..], b[1..]);
    }
  }

  lemma {:induction false} ContentRun(a: seq<Message>, b: seq<Message>)
    requires OnlyResultContent(a, b)
    ensures Answered(Run(a)) == Answered(Run(b))
  {
    if a != [] && a[0].role == Tool {
      assert OnlyResultContent(a[1..], b[1..]);
      ContentRun(a[1..], b[1..]);
      assert Run(a)[1..] == Run(a[1..]) && Run(b)[1..] == Run(b[1..]);
    }
  }

  lemma {:induction false} CompleteSuffix(ms: seq<Message>, k: nat)
    requires k <= |ms| && Complete(ms)
    ensures Complete(ms[k..])
  {
    if k > 0 {
      CompleteSuffix(ms[1..], k - 1);
      assert ms[k..] == ms[1..][k - 1..];
    } else {
      assert ms[0..] == ms;
    }
  }

  lemma {:induction false} RunWithoutSystems(ms: seq<Message>)
    ensures Answered(Run(ms)) <= Answered(Run(NonSystems(ms)))
  {
    if ms != [] && ms[0].role == Tool {
      RunWithoutSystems(ms[1..]);
      var ns := NonSystems(ms);
      assert ns[1..] == NonSystems(ms[1..]);
      assert Run(ms)[1..] == Run(ms[1..]) && Run(ns)[1..] == Run(ns[1..]);
    }
  }

  lemma {:induction false} CompleteWithoutSystems(ms: seq<Message>)
    requires Complete(ms)
    ensures Complete(NonSystems(ms))
  {
    if ms != [] {
      CompleteWithoutSystems(ms[1..]);
      RunWithoutSystems(ms[1..]);
      if ms[0].role == System {
        assert NonSystems(ms) == NonSystems(ms[1..]);
      } else {
        assert NonSystems(ms) == [ms[0]] + NonSystems(ms[1..]);
      }
    }
  }

  lemma {:induction false} CompleteAfterSystems(systems: seq<Message>, ms: seq<Message>)
    requires forall i :: 0 <= i < |systems| ==> systems[i].role == System
    ensures Complete(systems + ms) == Complete(ms)
  {
    if systems == [] {
      assert systems + ms == ms;
    } else {
      assert (systems + ms)[1..] == systems[1..] + ms;
      CompleteAfterSystems(systems[1..], ms);
    }
  }

  lemma {:induction false} SystemsAreSystems(ms: seq<Message>)
    ensures forall i :: 0 <= i < |Systems(ms)| ==> Systems(ms)[i].role == System
  {
    if ms != [] { SystemsAreSystems(ms[1..]); }
  }

  /** Any tail will do: the pairing never depends on where the snip starts. */
  lemma SnipComplete(ms: seq<Message>, start: nat)
    requires start <= |NonSystems(ms)| && Complete(ms)
    ensures Complete(Systems(ms) + NonSystems(ms)[start..])
  {
    CompleteWithoutSystems(ms);
    CompleteSuffix(NonSystems(ms), start);
    SystemsAreSystems(ms);
    CompleteAfterSystems(Systems(ms), NonSystems(ms)[start..]);
  }

  lemma {:induction false} SystemsAppend(a: seq<Message>, b: seq<Message>)
    ensures Systems(a + b) == Systems(a) + Systems(b)
  {
    if a == [] {
      assert a + b == b;
    } else {
      assert (a + b)[1..] == a[1..] + b;
      SystemsAppend(a[1..], b);
      Regroup(if a[0].role == System then [a[0]] else [], Systems(a[1..]), Systems(b));
    }
  }

  lemma {:induction false} NoSystems(ms: seq<Message>)
    requires forall i :: 0 <= i < |ms| ==> ms[i].role != System
    ensures Systems(ms) == []
  {
    if ms != [] { NoSystems(ms[1..]); }
  }

  lemma {:induction false} AllSystems(ms: seq<Message>)
    requires forall i :: 0 <= i < |ms| ==> ms[i].role == System
    ensures Systems(ms) == ms
  {
    if ms != [] { AllSystems(ms[1..]); }
  }

  lemma SnipKeepsSystems(ms: seq<Message>, start: nat)
    requires start <= |NonSystems(ms)|
    ensures Systems(Systems(ms) + NonSystems(ms)[start..]) == Systems(ms)
  {
    SystemsAreSystems(ms);
    AllSystems(Systems(ms));
    NoSystems(NonSystems(ms)[start..]);
    SystemsAppend(Systems(ms), NonSystems(ms)[start..]);
  }

  lemma {:induction false} SystemsAreSpoken(ms: seq<Message>)
    ensures Systems(Spoken(ms)) == Systems(ms)
  {
    if ms != [] {
      SystemsAreSpoken(ms[1..]);
      SystemsAppend(if ms[0].role == Tool then [] else [ms[0]], Spoken(ms[1..]));
    }
  }

  lemma RepairKeepsSystems(ms: seq<Message>)
    ensures Systems(Drop(ms, {})) == Systems(ms) && Systems(Backfill(ms)) == Systems(ms)
  {
    DropKeepsTheRest(ms, {});
    BackfillSpeaksTheSame(ms);
    SystemsAreSpoken(ms);
    SystemsAreSpoken(Drop(ms, {}));
    SystemsAreSpoken(Backfill(ms));
  }

  lemma {:induction false} StripKeepsSystems(ms: seq<Message>)
    ensures Systems(WithoutPlaceholders(ms)) == Systems(ms)
    ensures Systems(WithoutMalformed(ms)) == Systems(ms)
  {
    if ms != [] {
      StripKeepsSystems(ms[1..]);
      SystemsAppend(if IsBarePlaceholder(ms[0]) then [] else [ms[0]], WithoutPlaceholders(ms[1..]));
      SystemsAppend(Repaired(ms[0]), WithoutMalformed(ms[1..]));
    }
  }

  lemma {:induction false} ContentKeepsSystems(a: seq<Message>, b: seq<Message>)
    requires OnlyResultContent(a, b)
    ensures Systems(a) == Systems(b)
  {
    if a != [] {
      assert OnlyResultContent(a[1..], b[1..]);
      ContentKeepsSystems(a[1..], b[1..]);
    }
  }
}
