/** What saving and restoring keep, over every run of turns, crashes and cancellations. */
module TurnRecovery {
  import opened Transcript
  import opened SessionStore

  // ---------------------------------------------------------------- restoring adds the least

  /** Two records are one message: the time they bear does not count. */
  ghost predicate SameRecord(a: Message, b: Message) {
    && a.role == b.role && a.content == b.content && a.calls == b.calls && a.toolCallId == b.toolCallId
    && a.name == b.name && a.reasoning == b.reasoning
  }

  ghost predicate EndsWith(ms: seq<Message>, tail: seq<Message>) {
    |tail| <= |ms| && forall i :: 0 <= i < |tail| ==> SameRecord(ms[|ms| - |tail| + i], tail[i])
  }

  lemma EndsWithKeys(ms: seq<Message>, tail: seq<Message>)
    ensures EndsWith(ms, tail) <==> |tail| <= |ms| && Keys(ms)[|ms| - |tail|..] == Keys(tail)
  {
    if |tail| <= |ms| {
      var keys := Keys(ms)[|ms| - |tail|..];
      forall i | 0 <= i < |tail| ensures keys[i] == Keys(tail)[i] <==> SameRecord(ms[|ms| - |tail| + i], tail[i]) {
        assert keys[i] == Key(ms[|ms| - |tail| + i]);
      }
    }
  }

  lemma JoinOverlap<T>(a: seq<T>, b: seq<T>, k: nat)
    requires k <= |a| && k <= |b| && a[|a| - k..] == b[..k]
    ensures (a + b[k..])[|a| - k..] == b
  {
    assert (a + b[k..])[|a| - k..] == a[|a| - k..] + b[k..];
    assert b == b[..k] + b[k..];
  }

  lemma OverlapOfShorter<T>(a: seq<T>, b: seq<T>, c: seq<T>)
    requires a <= c && |b| <= |c| && c[|c| - |b|..] == b && |c| <= |a| + |b|
    ensures var size := |a| + |b| - |c|;
      size <= |a| && size <= |b| && a[|a| - size..] == b[..size]
  {
    var size := |a| + |b| - |c|;
    assert b[..size] == c[|c| - |b|..][..size] == c[|a| - size..|a|];
    assert c[..|a|] == a;
  }

  lemma KeysPrefix(a: seq<Message>, b: seq<Message>)
    requires a <= b
    ensures Keys(a) <= Keys(b)
  {
  }

  lemma KeysExtended(existing: seq<Message>, restored: seq<Message>, k: nat)
    requires k <= |restored|
    ensures Keys(existing + restored[k..]) == Keys(existing) + Keys(restored)[k..]
  {
  }

  lemma RestoreEndsWith(existing: seq<Message>, restored: seq<Message>)
    ensures EndsWith(Extended(existing, restored), restored)
  {
    var k := Overlap(existing, restored, Min(|existing|, |restored|));
    KeysExtended(existing, restored, k);
    JoinOverlap(Keys(existing), Keys(restored), k);
    EndsWithKeys(Extended(existing, restored), restored);
  }

  /** A restored session is the shortest extension of itself that ends with the restored
      messages. */
  lemma RestoreIsShortest(existing: seq<Message>, restored: seq<Message>)
    ensures existing <= Extended(existing, restored)
    ensures EndsWith(Extended(existing, restored), restored)
    ensures forall other :: existing <= other && EndsWith(other, restored) ==>
      |Extended(existing, restored)| <= |other|
  {
    RestoreEndsWith(existing, restored);
    forall other | existing <= other && EndsWith(other, restored)
      ensures |Extended(existing, restored)| <= |other|
    {
      if |other| <= |existing| + |restored| {
        KeysPrefix(existing, other);
        EndsWithKeys(other, restored);
        OverlapOfShorter(Keys(existing), Keys(restored), Keys(other));
        assert Overlaps(existing, restored, |existing| + |restored| - |other|);
      }
    }
  }

  /** Restoring the same checkpoint again, after a save that did not clear it, adds nothing. */
  lemma ReplayAddsNothing(existing: seq<Message>, restored: seq<Message>)
    requires EndsWith(existing, restored)
    ensures Extended(existing, restored) == existing
  {
    RestoreIsShortest(existing, restored);
    assert existing <= existing;
  }

  // ---------------------------------------------------------------- pairing, piecewise

  lemma PairedAppendRun(m: Message, run: seq<Message>, rest: seq<Message>, b: seq<Message>)
    requires m.role == Assistant && AllTools(run) && AnswersExactly(IdSet(m), run)
    requires WellPaired(rest + b) && NoToolFirst(rest) && NoToolFirst(b)
    ensures WellPaired([m] + run + rest + b)
  {
    Regroup([m] + run, rest, b);
    PairedSegment(m, run, rest + b);
  }

  lemma {:induction false} PairedAppend(a: seq<Message>, b: seq<Message>)
    requires WellPaired(a) && WellPaired(b)
    ensures WellPaired(a + b)
    decreases |a|
  {
    if a == [] {
      assert a + b == b;
    } else {
      Cut(a);
      var m, run, rest := a[0], Run(a[1..]), AfterRun(a[1..]);
      if m.role == Assistant {
        PairedSegment(m, run, rest);
        PairedAppend(rest, b);
        PairedAppendRun(m, run, rest, b);
      } else {
        PairedAppend(a[1..], b);
        assert (a + b)[1..] == a[1..] + b;
      }
    }
  }

  lemma SkipPairedTurn(m: Message, run: seq<Message>, rest: seq<Message>, p: nat) returns (q: nat)
    requires m.role == Assistant && AllTools(run) && NoToolFirst(rest) && WellPaired([m] + run + rest)
    requires 0 < p <= 1 + |run| + |rest| && NoToolFirst(([m] + run + rest)[p..])
    ensures q <= |rest| && WellPaired(rest) && rest[q..] == ([m] + run + rest)[p..]
  {
    PairedSegment(m, run, rest);
    TurnSlices(m, run, rest, p);
    q := p - 1 - |run|;
  }

  lemma {:induction false} PairedSuffix(ms: seq<Message>, p: nat)
    requires WellPaired(ms) && p <= |ms| && NoToolFirst(ms[p..])
    ensures WellPaired(ms[p..])
    decreases |ms|
  {
    if p == 0 {
      assert ms[0..] == ms;
    } else {
      if ms[0].role == Assistant {
        Cut(ms);
        var rest := AfterRun(ms[1..]);
        var q := SkipPairedTurn(ms[0], Run(ms[1..]), rest, p);
        PairedSuffix(rest, q);
      } else {
        assert ms[p..] == ms[1..][p - 1..];
        PairedSuffix(ms[1..], p - 1);
      }
    }
  }

  /** A well-paired session waits for no result. */
  lemma {:induction false} PairedIsClosed(ms: seq<Message>)
    requires WellPaired(ms)
    ensures OpenAfter(ms, {}) == {}
    decreases |ms|
  {
    if ms != [] {
      Cut(ms);
      var m, run, rest := ms[0], Run(ms[1..]), AfterRun(ms[1..]);
      if m.role == Assistant {
        PairedSegment(m, run, rest);
        TurnCloses(m, run, rest);
        PairedIsClosed(rest);
      } else {
        PairedIsClosed(ms[1..]);
      }
    }
  }

  /** Pairing reads roles, declared calls and result ids, and nothing else. */
  ghost predicate SameShape(a: seq<Message>, b: seq<Message>) {
    && |a| == |b|
    && forall i :: 0 <= i < |a| ==>
         a[i].role == b[i].role && a[i].calls == b[i].calls && a[i].toolCallId == b[i].toolCallId
  }

  lemma {:induction false} ShapeRun(a: seq<Message>, b: seq<Message>)
    requires SameShape(a, b)
    ensures RunLength(a) == RunLength(b) && Answered(a) == Answered(b)
  {
    if a != [] {
      assert SameShape(a[1..], b[1..]);
      ShapeRun(a[1..], b[1..]);
    }
  }

  lemma {:induction false} ShapePaired(a: seq<Message>, b: seq<Message>)
    requires SameShape(a, b) && WellPaired(a)
    ensures WellPaired(b)
    decreases |a|
  {
    if a != [] {
      if a[0].role == Assistant {
        ShapeRun(a[1..], b[1..]);
        var n := RunLength(a[1..]);
        ShapeRun(a[1..][..n], b[1..][..n]);
        ShapeAnswers(IdSet(a[0]), a[1..][..n], b[1..][..n]);
        ShapePaired(a[1..][n..], b[1..][n..]);
      } else {
        ShapePaired(a[1..], b[1..]);
      }
    }
  }

  lemma ShapeAnswers(ids: set<string>, a: seq<Message>, b: seq<Message>)
    requires SameShape(a, b) && AnswersExactly(ids, a)
    ensures AnswersExactly(ids, b)
  {
    ShapeRun(a, b);
    forall m | m in b ensures m.toolCallId in ids {
      var i :| 0 <= i < |b| && b[i] == m;
      assert a[i] in a;
    }
  }

  // ---------------------------------------------------------------- saving

  lemma {:induction false} SkimRun(ms: seq<Message>)
    ensures Answered(Run(ms)) <= Answered(Run(Skim(ms)))
  {
    if ms != [] && ms[0].role == Tool {
      SkimRun(ms[1..]);
      var sk := Skim(ms);
      assert sk[1..] == Skim(ms[1..]);
      assert Run(ms)[1..] == Run(ms[1..]) && Run(sk)[1..] == Run(sk[1..]);
    }
  }

  lemma {:induction false} SkimComplete(ms: seq<Message>)
    requires Complete(ms)
    ensures Complete(Skim(ms))
  {
    if ms != [] {
      SkimComplete(ms[1..]);
      SkimRun(ms[1..]);
      if Empty(ms[0]) {
        assert Skim(ms) == Skim(ms[1..]);
      } else {
        assert Skim(ms) == [ms[0]] + Skim(ms[1..]);
      }
    }
  }

  /** Saving a turn in which every call has its result keeps a well-paired session well
      paired, whatever else the turn holds. */
  lemma SaveKeepsPaired(bounds: Bounds, s: SessionState, added: seq<Message>)
    requires WellPaired(s.messages) && Complete(added)
    ensures WellPaired(SaveTurn(bounds, s, added).messages)
  {
    PairedIsClosed(s.messages);
    SkimComplete(added);
    var kept := Drop(Skim(added), {});
    DropPairsComplete(Skim(added));
    ShapePaired(kept, Entries(bounds, kept));
    PairedAppend(s.messages, Entries(bounds, kept));
  }

  /** The ids of all results, in order. */
  function ResultIds(ms: seq<Message>): seq<string> {
    if ms == [] then []
    else (if ms[0].role == Tool then [ms[0].toolCallId] else []) + ResultIds(ms[1..])
  }

  lemma {:induction false} SkimPaired(ms: seq<Message>)
    requires WellPaired(ms)
    ensures WellPaired(Skim(ms))
    decreases |ms|
  {
    if ms != [] {
      Cut(ms);
      var m, run, rest := ms[0], Run(ms[1..]), AfterRun(ms[1..]);
      if m.role == Assistant {
        PairedSegment(m, run, rest);
        SkimPaired(rest);
        SkimSegment(m, run, rest);
        SkimHead(rest);
        if Empty(m) {
          NoCallsNoRun(m, run);
          assert Skim(ms) == Skim(rest);
        } else {
          PairedSegment(m, run, Skim(rest));
        }
      } else {
        SkimPaired(ms[1..]);
        if Empty(m) {
          assert Skim(ms) == Skim(ms[1..]);
        } else {
          assert Skim(ms)[1..] == Skim(ms[1..]);
        }
      }
    }
  }

  lemma NoCallsNoRun(m: Message, run: seq<Message>)
    requires m.calls == [] && AnswersExactly(IdSet(m), run)
    ensures run == []
  {
    assert forall i :: 0 <= i < |run| ==> run[i] in run;
  }

  lemma {:induction false} SkimTools(run: seq<Message>, rest: seq<Message>)
    requires AllTools(run)
    ensures Skim(run + rest) == run + Skim(rest)
  {
    if run == [] {
      assert run + rest == rest;
    } else {
      assert (run + rest)[1..] == run[1..] + rest;
      SkimTools(run[1..], rest);
    }
  }

  lemma SkimSegment(m: Message, run: seq<Message>, rest: seq<Message>)
    requires AllTools(run)
    ensures Skim([m] + run + rest) == (if Empty(m) then [] else [m]) + run + Skim(rest)
  {
    assert ([m] + run + rest)[1..] == run + rest;
    SkimTools(run, rest);
  }

  lemma {:induction false} SkimHead(ms: seq<Message>)
    requires NoToolFirst(ms) && WellPaired(ms)
    ensures NoToolFirst(Skim(ms))
    decreases |ms|
  {
    if ms != [] && Empty(ms[0]) {
      Cut(ms);
      if ms[0].role == Assistant {
        NoCallsNoRun(ms[0], Run(ms[1..]));
      }
      SkimHead(ms[1..]);
      assert Skim(ms) == Skim(ms[1..]);
    }
  }

  lemma {:induction false} ResultsOfSkim(ms: seq<Message>)
    ensures ResultIds(Skim(ms)) == ResultIds(ms)
  {
    if ms != [] {
      ResultsOfSkim(ms[1..]);
      if Empty(ms[0]) {
        assert Skim(ms) == Skim(ms[1..]);
      } else {
        assert Skim(ms)[1..] == Skim(ms[1..]);
      }
    }
  }

  lemma {:induction false} ResultsOfShape(a: seq<Message>, b: seq<Message>)
    requires SameShape(a, b)
    ensures ResultIds(a) == ResultIds(b)
  {
    if a != [] { ResultsOfShape(a[1..], b[1..]); }
  }

  /** A well-paired turn loses no result when it is saved. */
  lemma SaveKeepsResults(bounds: Bounds, s: SessionState, added: seq<Message>)
    requires WellPaired(s.messages) && WellPaired(added)
    ensures SaveTurn(bounds, s, added).messages == s.messages + Entries(bounds, Skim(added))
    ensures ResultIds(Entries(bounds, Skim(added))) == ResultIds(added)
  {
    PairedIsClosed(s.messages);
    SkimPaired(added);
    PairedIffFixpoint(Skim(added));
    ResultsOfSkim(added);
    ResultsOfShape(Skim(added), Entries(bounds, Skim(added)));
  }

  // ---------------------------------------------------------------- checkpoints

  /** What the runner writes: its assistant message, with every call still pending, or
      with one result for each call in call order. */
  ghost predicate Emitted(cp: Checkpoint) {
    && cp.assistant.Some? && cp.assistant.value.role == Assistant
    && var calls := cp.assistant.value.calls;
       && (forall i :: 0 <= i < |calls| ==> calls[i].Call?)
       && (|| (cp.completed == [] && cp.pending == calls)
           || (cp.pending == [] && |cp.completed| == |calls|
               && forall i :: 0 <= i < |calls| ==>
                    cp.completed[i].role == Tool && cp.completed[i].toolCallId == calls[i].id))
  }

  ghost predicate DistinctCallIds(calls: seq<RawCall>) {
    && (forall i :: 0 <= i < |calls| ==> calls[i].Call? && calls[i].id != "")
    && (forall i, j :: 0 <= i < j < |calls| && calls[i].Call? && calls[j].Call? ==> calls[i].id != calls[j].id)
  }

  lemma {:induction false} InterruptedShape(pending: seq<RawCall>)
    requires forall i :: 0 <= i < |pending| ==> pending[i].Call?
    ensures |Interrupted(pending)| == |pending|
    ensures forall i :: 0 <= i < |pending| ==>
      Interrupted(pending)[i].role == Tool && Interrupted(pending)[i].toolCallId == pending[i].id
  {
    if pending != [] { InterruptedShape(pending[1..]); }
  }

  /** The restored messages are the assistant message and one result per call. */
  lemma RestoredShape(bounds: Bounds, cp: Checkpoint) returns (run: seq<Message>)
    requires Emitted(cp)
    ensures Restored(bounds, cp) == [cp.assistant.value] + run
    ensures |run| == |cp.assistant.value.calls| && AllTools(run)
    ensures forall i :: 0 <= i < |run| ==> run[i].toolCallId == cp.assistant.value.calls[i].id
  {
    var a := cp.assistant.value;
    var done, waiting := Results(bounds, cp.completed), Interrupted(cp.pending);
    assert Restored(bounds, cp) == [a] + (done + waiting);
    if cp.pending == [] {
      run := done;
      assert done + waiting == run;
    } else {
      run := waiting;
      InterruptedShape(cp.pending);
      assert done + waiting == run;
    }
  }

  lemma {:induction false} AnsweredIff(run: seq<Message>, x: string)
    ensures x in Answered(run) <==> x != "" && exists i :: 0 <= i < |run| && run[i].toolCallId == x
  {
    if run != [] {
      AnsweredIff(run[1..], x);
      assert forall i :: 0 <= i < |run[1..]| ==> run[1..][i] == run[i + 1];
      if i :| 0 <= i < |run| && run[i].toolCallId == x && i > 0 {
        assert run[1..][i - 1].toolCallId == x;
      }
    }
  }

  /** A restored turn is well paired exactly when its call ids are distinct and not empty. */
  lemma RestoredPairedIff(bounds: Bounds, cp: Checkpoint)
    requires Emitted(cp)
    ensures WellPaired(Restored(bounds, cp)) <==> DistinctCallIds(cp.assistant.value.calls)
  {
    var a := cp.assistant.value;
    var run := RestoredShape(bounds, cp);
    assert [a] + run + [] == [a] + run;
    PairedSegment(a, run, []);
    AnswersEachIff(a, run);
  }

  /** One result for each call answers the calls exactly when their ids are distinct and not empty. */
  lemma AnswersEachIff(a: Message, run: seq<Message>)
    requires |run| == |a.calls|
    requires forall i :: 0 <= i < |run| ==> a.calls[i].Call? && run[i].toolCallId == a.calls[i].id
    ensures AnswersExactly(IdSet(a), run) <==> DistinctCallIds(a.calls)
  {
    forall x ensures x in IdSet(a) ==> x in Answered(run) {
      DeclaredIff(a.calls, x);
      AnsweredIff(run, x);
      if x in IdSet(a) {
        var i :| 0 <= i < |a.calls| && a.calls[i].Call? && a.calls[i].id == x;
        assert run[i].toolCallId == x;
      }
    }
    forall i | 0 <= i < |run| ensures run[i].toolCallId in IdSet(a) <==> a.calls[i].id != "" {
      DeclaredIff(a.calls, a.calls[i].id);
    }
    assert forall i :: 0 <= i < |run| ==> run[i] in run;
  }

  ghost predicate ResultStored(bounds: Bounds, content: Content, kept: Content) {
    match content
    case Null => kept == Null
    case Text(t) => kept.Text? && Shortened(bounds.maxChars, t, kept.text)
    case Blocks(bs) => kept.Blocks? && BlocksStored(bounds, true, bs, kept.blocks)
  }

  /** What stands for a call that has no result yet. */
  ghost predicate StandsFor(call: RawCall, m: Message)
    requires call.Call?
  {
    && m.role == Tool && m.toolCallId == call.id && m.calls == [] && m.reasoning == ""
    && m.content == Text("Error: Task interrupted before this tool finished.")
    && m.name == match call.fn
         case Some(Name(t)) => if t == "" then Some("tool") else Some(t)
         case Some(NotAString(t)) => Some(t)
         case _ => Some("tool")
  }

  /** One more pending call: one more such message, unless it is no call at all. */
  lemma {:induction false} InterruptedOne(pending: seq<RawCall>, c: RawCall)
    ensures var before, after := Interrupted(pending), Interrupted(pending + [c]);
      if c.Call? then |after| == |before| + 1 && after[..|before|] == before && StandsFor(c, after[|before|])
      else after == before
  {
    if pending == [] {
      assert [] + [c] == [c] && [c][1..] == [];
    } else {
      InterruptedOne(pending[1..], c);
      assert (pending + [c])[1..] == pending[1..] + [c];
      if pending[0].Call? {
        var head := Interrupted(pending)[0];
        assert Interrupted(pending) == [head] + Interrupted(pending[1..]);
        assert Interrupted(pending + [c]) == [head] + Interrupted(pending[1..] + [c]);
      }
    }
  }

  lemma ResultIsStored(bounds: Bounds, m: Message)
    ensures bounds.Result(m).(content := m.content) == m
    ensures ResultStored(bounds, m.content, bounds.Result(m).content)
  {
    if m.content.Blocks? {
      assert BlocksStored(bounds, true, m.content.blocks, bounds.Blocks(m.content.blocks, true));
    }
  }

  lemma Thirds<T>(a: seq<T>, b: seq<T>, c: seq<T>)
    ensures (a + b + c)[|a|..|a| + |b|] == b && (a + b + c)[|a| + |b|..] == c
  {
  }

  /** What a checkpoint is restored as: its assistant message as it was, each completed result with
      its text shortened and its blocks stored, and then a message for each pending call. */
  lemma RestoredAre(bounds: Bounds, cp: Checkpoint)
    ensures var r := Restored(bounds, cp);
      var head := if cp.assistant.Some? then 1 else 0;
      && |r| >= head + |cp.completed|
      && (cp.assistant.Some? ==> r[0] == cp.assistant.value)
      && ResultsStored(bounds, cp.completed, r[head..head + |cp.completed|])
      && r[head + |cp.completed|..] == Interrupted(cp.pending)
  {
    var front := if cp.assistant.Some? then [cp.assistant.value] else [];
    var results := Results(bounds, cp.completed);
    assert Restored(bounds, cp) == front + results + Interrupted(cp.pending);
    Thirds(front, results, Interrupted(cp.pending));
    forall i | 0 <= i < |results| ensures ResultKept(bounds, cp.completed[i], results[i]) {
      ResultIsStored(bounds, cp.completed[i]);
    }
  }

  ghost predicate ResultKept(bounds: Bounds, m: Message, kept: Message) {
    kept.(content := m.content) == m && ResultStored(bounds, m.content, kept.content)
  }

  ghost predicate ResultsStored(bounds: Bounds, ms: seq<Message>, kept: seq<Message>) {
    |kept| == |ms| && forall i :: 0 <= i < |ms| ==> ResultKept(bounds, ms[i], kept[i])
  }

  lemma OverlapKeys(existing: seq<Message>, restored: seq<Message>, k: nat, i: nat)
    requires Overlaps(existing, restored, k) && i < k
    ensures Key(existing[|existing| - k..][i]) == Key(restored[i])
  {
    assert Keys(existing)[|existing| - k..][i] == Keys(restored)[..k][i];
  }

  /** The end of the session that the overlap is about: a message and results with the keys of
      the restored ones. */
  lemma OverlapTail(existing: seq<Message>, a: Message, run: seq<Message>, k: nat)
    returns (m: Message, results: seq<Message>)
    requires WellPaired(existing) && a.role == Assistant && AllTools(run)
    requires 0 < k < 1 + |run| && Overlaps(existing, [a] + run, k)
    ensures WellPaired([m] + results) && Key(m) == Key(a) && |results| == k - 1 && AllTools(results)
    ensures forall i :: 0 <= i < k - 1 ==> Key(results[i]) == Key(run[i])
  {
    var tail := existing[|existing| - k..];
    OverlapKeys(existing, [a] + run, k, 0);
    PairedSuffix(existing, |existing| - k);
    m, results := tail[0], tail[1..];
    forall i | 0 <= i < k - 1 ensures Key(results[i]) == Key(run[i]) {
      OverlapKeys(existing, [a] + run, k, i + 1);
      assert ([a] + run)[i + 1] == run[i];
    }
    assert [m] + results == tail;
  }

  /** If a well-paired session ended with the turn's message and its first k - 1 results,
      one of those would already answer what the next result answers. */
  lemma OverlapAnswersAll(existing: seq<Message>, a: Message, run: seq<Message>, k: nat)
    requires WellPaired(existing)
    requires a.role == Assistant && AllTools(run)
    requires 0 < k < 1 + |run| && run[k - 1].toolCallId in IdSet(a)
    requires Overlaps(existing, [a] + run, k)
    ensures exists i :: 0 <= i < k - 1 && run[i].toolCallId == run[k - 1].toolCallId
  {
    var m, results := OverlapTail(existing, a, run, k);
    assert [m] + results + [] == [m] + results;
    PairedSegment(m, results, []);
    var id := run[k - 1].toolCallId;
    AnsweredIff(results, id);
    var i :| 0 <= i < |results| && results[i].toolCallId == id;
    assert Key(results[i]) == Key(run[i]);
  }

  /** A well-paired session overlaps a restored turn wholly or not at all. */
  lemma OverlapIsWhole(existing: seq<Message>, a: Message, run: seq<Message>, k: nat)
    requires WellPaired(existing)
    requires a.role == Assistant && AllTools(run) && AnswersExactly(IdSet(a), run)
    requires Overlaps(existing, [a] + run, k)
    ensures k == 0 || k == 1 + |run|
  {
    if 0 < k < 1 + |run| {
      assert run[k - 1] in run;
      OverlapAnswersAll(existing, a, run, k);
    }
  }

  /** Restoring a turn whose call ids are distinct keeps the session well paired. */
  lemma RestoreKeepsPaired(bounds: Bounds, existing: seq<Message>, cp: Checkpoint)
    requires WellPaired(existing)
    requires Emitted(cp) && DistinctCallIds(cp.assistant.value.calls)
    ensures WellPaired(Extended(existing, Restored(bounds, cp)))
  {
    var a := cp.assistant.value;
    var run := RestoredShape(bounds, cp);
    var restored := [a] + run;
    RestoredPairedIff(bounds, cp);
    assert restored + [] == restored;
    PairedSegment(a, run, []);
    var k := Overlap(existing, restored, Min(|existing|, |restored|));
    if k > 0 { OverlapIsWhole(existing, a, run, k); }
    if k == 0 {
      assert restored[0..] == restored;
      PairedAppend(existing, restored);
    } else {
      assert existing + restored[k..] == existing;
    }
  }

  /** The end of a restored session has the shape of the restored turn. */
  lemma RestoredTail(existing: seq<Message>, restored: seq<Message>) returns (p: nat)
    ensures var ms := Extended(existing, restored);
      p + |restored| == |ms| && SameShape(ms[p..], restored)
  {
    var ms := Extended(existing, restored);
    RestoreEndsWith(existing, restored);
    p := |ms| - |restored|;
    forall i | 0 <= i < |restored| ensures Key(ms[p..][i]) == Key(restored[i]) {
      assert SameRecord(ms[p + i], restored[i]);
    }
  }

  /** A restored turn leaves a well-paired session well paired exactly when its call ids are
      distinct and not empty. */
  lemma RestoreKeepsPairedIff(bounds: Bounds, existing: seq<Message>, cp: Checkpoint)
    requires WellPaired(existing) && Emitted(cp)
    ensures WellPaired(Extended(existing, Restored(bounds, cp))) <==> DistinctCallIds(cp.assistant.value.calls)
  {
    var ms, restored := Extended(existing, Restored(bounds, cp)), Restored(bounds, cp);
    if DistinctCallIds(cp.assistant.value.calls) {
      RestoreKeepsPaired(bounds, existing, cp);
    } else if WellPaired(ms) {
      var p := RestoredTail(existing, restored);
      var run := RestoredShape(bounds, cp);
      assert ms[p..][0].role == Assistant;
      PairedSuffix(ms, p);
      ShapePaired(ms[p..], restored);
      RestoredPairedIff(bounds, cp);
    }
  }

  lemma RestoredLast(bounds: Bounds, cp: Checkpoint)
    requires Emitted(cp)
    ensures var restored := Restored(bounds, cp);
      restored != [] && restored[|restored| - 1].role != User
  {
    var run := RestoredShape(bounds, cp);
    if run != [] {
      assert ([cp.assistant.value] + run)[|run|] == run[|run| - 1];
    }
  }

  lemma LastKey(ms: seq<Message>, tail: seq<Message>)
    requires tail != [] && EndsWith(ms, tail)
    ensures ms[|ms| - 1].role == tail[|tail| - 1].role
  {
    assert SameRecord(ms[|ms| - |tail| + (|tail| - 1)], tail[|tail| - 1]);
  }

  /** ...and a restored turn never ends with a user message. */
  lemma RestoredEndsClosed(bounds: Bounds, existing: seq<Message>, cp: Checkpoint)
    requires Emitted(cp)
    ensures var ms := Extended(existing, Restored(bounds, cp));
      ms != [] && ms[|ms| - 1].role != User
  {
    var restored := Restored(bounds, cp);
    RestoredLast(bounds, cp);
    RestoreEndsWith(existing, restored);
    LastKey(Extended(existing, restored), restored);
  }

  // ---------------------------------------------------------------- every run of turns

  /** The session in memory, its stored copy, and for each whether it holds an early user
      message whose turn has not ended. */
  datatype World = World(mem: SessionState, disk: SessionState, unanswered: bool, diskUnanswered: bool)

  datatype Action =
    | BeginTurn                        // restore what the last turn left, store it
    | PersistUser(user: Message)       // the early user message and its marker
    | PersistFollowup(text: Message)   // a subagent's answer, as an assistant record
    | Emit(cp: Checkpoint)             // a checkpoint of the running turn
    | Append(added: seq<Message>)      // _save_turn, in memory only
    | Finish                           // both markers cleared, and the session stored
    | Fail                             // the turn raised: memory stays as it is
    | Cancel                           // the turn was cancelled: the checkpoint is restored
    | Crash                            // the process ended: memory is read back from disk

  ghost predicate Enabled(action: Action) {
    match action
    case PersistUser(user) => user.role == User
    case PersistFollowup(text) => text.role == Assistant && text.calls == []
    case Emit(cp) => Emitted(cp)
    case Append(added) => Complete(added)
    case _ => true
  }

  function Store(w: World): World {
    w.(disk := w.mem, diskUnanswered := w.unanswered)
  }

  function Begin(bounds: Bounds, w: World): World {
    var w1 := if w.mem.checkpoint.Some?
      then Store(w.(mem := RestoreCheckpoint(bounds, w.mem), unanswered := false)) else w;
    if w1.mem.pendingUser
    then Store(w1.(mem := RestorePendingUser(w1.mem), unanswered := false)) else w1
  }

  function Step(bounds: Bounds, w: World, action: Action): World {
    match action
    case BeginTurn => Begin(bounds, w)
    case PersistUser(user) =>
      Store(w.(mem := w.mem.(messages := w.mem.messages + [user], pendingUser := true), unanswered := true))
    case PersistFollowup(text) => Store(w.(mem := w.mem.(messages := w.mem.messages + [text])))
    case Emit(cp) => Store(w.(mem := w.mem.(checkpoint := Some(cp))))
    case Append(added) => w.(mem := SaveTurn(bounds, w.mem, added))
    case Finish => Store(w.(mem := w.mem.(checkpoint := None, pendingUser := false), unanswered := false))
    case Fail => w
    case Cancel =>
      if w.mem.checkpoint.Some?
      then Store(w.(mem := RestoreCheckpoint(bounds, w.mem), unanswered := false)) else w
    case Crash => w.(mem := w.disk, unanswered := w.diskUnanswered)
  }

  function After(bounds: Bounds, w: World, actions: seq<Action>): World {
    if actions == [] then w
    else Step(bounds, After(bounds, w, actions[..|actions| - 1]), actions[|actions| - 1])
  }

  /** The markers say what is under way. */
  ghost predicate SessionMarked(s: SessionState, unanswered: bool) {
    (s.checkpoint.Some? ==> Emitted(s.checkpoint.value)) && (unanswered ==> s.pendingUser)
  }

  ghost predicate Marked(w: World) {
    SessionMarked(w.mem, w.unanswered) && SessionMarked(w.disk, w.diskUnanswered)
  }

  ghost predicate Paired(w: World) { WellPaired(w.mem.messages) && WellPaired(w.disk.messages) }

  /** The checkpoint that the step restores, if it restores one, repeats no call id and has no
      empty one. */
  ghost predicate RestoresDistinct(w: World, action: Action)
    requires Marked(w)
  {
    (action.BeginTurn? || action.Cancel?) && w.mem.checkpoint.Some? ==>
      DistinctCallIds(w.mem.checkpoint.value.assistant.value.calls)
  }

  ghost predicate Fresh(w: World) {
    w == World(SessionState([], None, false), SessionState([], None, false), false, false)
  }

  lemma AppendOne(s: SessionState, m: Message)
    requires WellPaired(s.messages) && (m.role == User || (m.role == Assistant && m.calls == []))
    ensures WellPaired(s.messages + [m])
  {
    assert [m][1..] == [] && Run([m][1..]) == [];
    assert WellPaired([m]);
    PairedAppend(s.messages, [m]);
  }

  lemma StepKeepsMarked(bounds: Bounds, w: World, action: Action)
    requires Marked(w) && Enabled(action)
    ensures Marked(Step(bounds, w, action))
  {
  }

  lemma {:induction false} RunKeepsMarked(bounds: Bounds, w: World, actions: seq<Action>)
    requires Fresh(w) && forall i :: 0 <= i < |actions| ==> Enabled(actions[i])
    ensures Marked(After(bounds, w, actions))
  {
    if actions != [] {
      var last := |actions| - 1;
      RunKeepsMarked(bounds, w, actions[..last]);
      StepKeepsMarked(bounds, After(bounds, w, actions[..last]), actions[last]);
    }
  }

  /** What the next turn begins on. */
  ghost predicate Recovered(bounds: Bounds, w: World) {
    var s := Begin(bounds, w).mem;
    && s.checkpoint.None? && !s.pendingUser && !Begin(bounds, w).unanswered
    && (w.unanswered || w.mem.checkpoint.Some? ==>
        s.messages != [] ==> s.messages[|s.messages| - 1].role != User)
  }

  lemma BeginRecovers(bounds: Bounds, w: World)
    requires Marked(w)
    ensures Recovered(bounds, w)
  {
    if w.mem.checkpoint.Some? {
      var cp := w.mem.checkpoint.value;
      RestoredEndsClosed(bounds, w.mem.messages, cp);
      assert Begin(bounds, w).mem == SessionState(Extended(w.mem.messages, Restored(bounds, cp)), None, false);
    }
  }

  /** After any run, wherever turns failed, were cancelled or crashed, and whatever ids the model
      gave its calls, the next turn begins with both markers cleared, and what an interrupted turn
      left no longer ends with its user message. */
  lemma EveryTurnRecovers(bounds: Bounds, w0: World, actions: seq<Action>)
    requires Fresh(w0) && forall i :: 0 <= i < |actions| ==> Enabled(actions[i])
    ensures Recovered(bounds, After(bounds, w0, actions))
  {
    RunKeepsMarked(bounds, w0, actions);
    BeginRecovers(bounds, After(bounds, w0, actions));
  }

  // ---------------------------------------------------------------- which runs stay paired

  lemma BeginPairedIff(bounds: Bounds, w: World)
    requires Marked(w) && Paired(w)
    ensures Paired(Begin(bounds, w)) <==> RestoresDistinct(w, BeginTurn)
  {
    if w.mem.checkpoint.Some? {
      var cp := w.mem.checkpoint.value;
      RestoreKeepsPairedIff(bounds, w.mem.messages, cp);
      assert Begin(bounds, w).mem == SessionState(Extended(w.mem.messages, Restored(bounds, cp)), None, false);
    } else if w.mem.pendingUser {
      AppendOne(w.mem, ErrorReply());
    }
  }

  /** The exact condition, for every step from every paired state. */
  lemma StepPairedIff(bounds: Bounds, w: World, action: Action)
    requires Marked(w) && Paired(w) && Enabled(action)
    ensures Paired(Step(bounds, w, action)) <==> RestoresDistinct(w, action)
  {
    match action
    case BeginTurn => BeginPairedIff(bounds, w);
    case PersistUser(user) => AppendOne(w.mem, user);
    case PersistFollowup(text) => AppendOne(w.mem, text);
    case Append(added) => SaveKeepsPaired(bounds, w.mem, added);
    case Cancel =>
      if w.mem.checkpoint.Some? { RestoreKeepsPairedIff(bounds, w.mem.messages, w.mem.checkpoint.value); }
    case _ =>
  }

  ghost predicate PairedThroughout(bounds: Bounds, w: World, actions: seq<Action>) {
    forall n :: 0 <= n <= |actions| ==> Paired(After(bounds, w, actions[..n]))
  }

  ghost predicate DistinctThroughout(bounds: Bounds, w: World, actions: seq<Action>) {
    forall n :: 0 <= n < |actions| ==> DistinctAt(bounds, w, actions, n)
  }

  /** What the action number n restores. */
  ghost predicate DistinctAt(bounds: Bounds, w: World, actions: seq<Action>, n: nat)
    requires n < |actions|
  {
    Marked(After(bounds, w, actions[..n])) && RestoresDistinct(After(bounds, w, actions[..n]), actions[n])
  }

  lemma StepAt(bounds: Bounds, w: World, actions: seq<Action>, n: nat)
    requires n < |actions|
    ensures After(bounds, w, actions[..n + 1]) == Step(bounds, After(bounds, w, actions[..n]), actions[n])
  {
    assert actions[..n + 1][..n] == actions[..n];
  }

  /** The session stays well paired throughout a run exactly when every checkpoint the run restores
      has distinct and non-empty call ids. */
  lemma PairedThroughoutIff(bounds: Bounds, w: World, actions: seq<Action>)
    requires Fresh(w) && forall i :: 0 <= i < |actions| ==> Enabled(actions[i])
    ensures PairedThroughout(bounds, w, actions) <==> DistinctThroughout(bounds, w, actions)
  {
    if PairedThroughout(bounds, w, actions) {
      forall n | 0 <= n < |actions| ensures DistinctAt(bounds, w, actions, n) {
        RunKeepsMarked(bounds, w, actions[..n]);
        StepAt(bounds, w, actions, n);
        assert Paired(After(bounds, w, actions[..n])) && Paired(After(bounds, w, actions[..n + 1]));
        StepPairedIff(bounds, After(bounds, w, actions[..n]), actions[n]);
      }
    }
    if DistinctThroughout(bounds, w, actions) {
      forall n | 0 <= n <= |actions| ensures Paired(After(bounds, w, actions[..n])) {
        PairedUpTo(bounds, w, actions, n);
      }
    }
  }

  lemma {:induction false} PairedUpTo(bounds: Bounds, w: World, actions: seq<Action>, n: nat)
    requires Fresh(w) && n <= |actions| && DistinctThroughout(bounds, w, actions)
    requires forall i :: 0 <= i < |actions| ==> Enabled(actions[i])
    ensures Paired(After(bounds, w, actions[..n]))
  {
    if n > 0 {
      var i := n - 1;
      PairedUpTo(bounds, w, actions, i);
      assert DistinctAt(bounds, w, actions, i);
      StepAt(bounds, w, actions, i);
      StepPairedIff(bounds, After(bounds, w, actions[..i]), actions[i]);
    }
  }

  /** A turn that crashed after its checkpoint was written. */
  function Crashed(user: Message, cp: Checkpoint): seq<Action> { [PersistUser(user), Emit(cp), Crash, BeginTurn] }

  /** It is restored well paired exactly when its call ids are distinct and not empty. */
  lemma CrashPairedIff(bounds: Bounds, w: World, user: Message, cp: Checkpoint)
    requires Fresh(w) && user.role == User && Emitted(cp)
    ensures WellPaired(After(bounds, w, Crashed(user, cp)).mem.messages)
       <==> DistinctCallIds(cp.assistant.value.calls)
  {
    var run := Crashed(user, cp);
    AfterCrash(bounds, w, user, cp);
    assert run[..4] == run;
    StepAt(bounds, w, run, 3);
    AppendOne(w.mem, user);
    BeginPairedIff(bounds, After(bounds, w, run[..3]));
  }

  lemma AfterCrash(bounds: Bounds, w: World, user: Message, cp: Checkpoint)
    requires Fresh(w) && user.role == User
    ensures var s := SessionState([] + [user], Some(cp), true);
      After(bounds, w, Crashed(user, cp)[..3]) == World(s, s, true, true)
  {
    var run := Crashed(user, cp);
    StepAt(bounds, w, run, 0);
    StepAt(bounds, w, run, 1);
    StepAt(bounds, w, run, 2);
  }

  const TWICE := Call("id", Some(Name("tool")), NoName)

  const DOUBLED := Checkpoint(Some(Message(Assistant, Null, [TWICE, TWICE], "", None, "", 0)), [], [TWICE, TWICE])

  /** A response that gives two calls one id, and a crash: the session is not well paired. */
  lemma ADoubledIdUnpairs(bounds: Bounds, w: World, user: Message)
    requires Fresh(w) && user.role == User
    ensures !WellPaired(After(bounds, w, Crashed(user, DOUBLED)).mem.messages)
  {
    CrashPairedIff(bounds, w, user, DOUBLED);
    var calls := DOUBLED.assistant.value.calls;
    assert calls[0].id == calls[1].id;
  }

  /** Saving keeps one result per id of a turn, where restoring keeps one per call. */
  lemma RepeatedIdsAreSavedOnce(bounds: Bounds, s: SessionState, a: Message, t: Message)
    requires WellPaired(s.messages) && a.role == Assistant && t.role == Tool
    requires t.toolCallId != "" && IdSet(a) == {t.toolCallId} && a.calls != []
    ensures SaveTurn(bounds, s, [a, t, t]).messages == s.messages + [a, Entry(bounds, t)]
  {
    PairedIsClosed(s.messages);
    SavedStep(bounds, [], a, {});
    SavedStep(bounds, [a], t, {});
    SavedStep(bounds, [a, t], t, {});
    OpenOne(a, {});
    OpenOne(t, IdSet(a));
    assert [] + [a] == [a] && [a] + [t] == [a, t] && [a, t] + [t] == [a, t, t];
  }
}
