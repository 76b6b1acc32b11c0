/** What two rounds of dropping and backfilling amount to: one pass that keeps, after each assistant
    message, the first result of each of its calls from the run directly after it, fills in the
    missing ones, and keeps no other result. */
module Pairing {
  import opened Transcript

  /** Of a run, the first result for each of these ids, in order. */
  function Answers(run: seq<Message>, ids: set<string>): seq<Message> {
    if run == [] then []
    else if run[0].toolCallId in ids then [run[0]] + Answers(run[1..], ids - {run[0].toolCallId})
    else Answers(run[1..], ids)
  }

  /** A synthetic result for each of these ids, in the order they were declared. */
  function Fills(pairs: seq<(string, string)>, ids: set<string>): seq<Message> {
    if pairs == [] then []
    else if pairs[0].0 in ids then [Synthetic(pairs[0].0, pairs[0].1)] + Fills(pairs[1..], ids - {pairs[0].0})
    else Fills(pairs[1..], ids)
  }

  function Paired(ms: seq<Message>): seq<Message>
    decreases |ms|
  {
    if ms == [] then []
    else
      var m, run, rest := ms[0], Run(ms[1..]), AfterRun(ms[1..]);
      match m.role
      case Tool => Paired(ms[1..])
      case Assistant =>
        [m] + (Answers(run, IdSet(m)) + Fills(Declared(m), IdSet(m) - Answered(run))) + Paired(rest)
      case _ => [m] + Paired(ms[1..])
  }

  // ---------------------------------------------------------------- the parts, one by one

  /** One more result of a run is kept exactly when it answers one of the ids as the first. */
  lemma {:induction false} AnswersOne(run: seq<Message>, t: Message, ids: set<string>)
    requires "" !in ids
    ensures Answers([], ids) == []
    ensures Answers(run + [t], ids) ==
      Answers(run, ids) + if t.toolCallId in ids && t.toolCallId !in Answered(run) then [t] else []
  {
    if run == [] {
      assert [] + [t] == [t] && [t][1..] == [];
    } else {
      assert (run + [t])[1..] == run[1..] + [t];
      var left := if run[0].toolCallId in ids then ids - {run[0].toolCallId} else ids;
      AnswersOne(run[1..], t, left);
      assert Answered(run) == (if run[0].toolCallId == "" then {} else {run[0].toolCallId}) + Answered(run[1..]);
    }
  }

  /** One more declared call has a synthetic result exactly when its id is one of these and was not
      declared before; the result carries its id and name. */
  lemma {:induction false} FillsOne(pairs: seq<(string, string)>, p: (string, string), ids: set<string>)
    ensures Fills([], ids) == []
    ensures Fills(pairs + [p], ids) == Fills(pairs, ids) +
      if p.0 in ids && p.0 !in IdsOf(pairs)
      then [Message(Tool, Text("[Tool result unavailable — call was interrupted or lost]"), [], p.0, Some(p.1), "", 0)]
      else []
  {
    if pairs == [] {
      assert [] + [p] == [p] && [p][1..] == [];
    } else {
      assert (pairs + [p])[1..] == pairs[1..] + [p];
      FillsOne(pairs[1..], p, if pairs[0].0 in ids then ids - {pairs[0].0} else ids);
    }
  }

  // ---------------------------------------------------------------- two rounds are one pass

  lemma {:induction false} DropOfRun(run: seq<Message>, ids: set<string>)
    requires AllTools(run) && "" !in ids
    ensures Drop(run, ids) == Answers(run, ids) && AllTools(Answers(run, ids))
    ensures Answered(Answers(run, ids)) == ids * Answered(run)
  {
    if run != [] {
      var id := run[0].toolCallId;
      DropOfRun(run[1..], if id in ids then ids - {id} else ids);
      if id in ids {
        assert Answers(run, ids)[1..] == Answers(run[1..], ids - {id});
        assert ids * Answered(run) == {id} + (ids - {id}) * Answered(run[1..]);
      } else {
        assert ids * Answered(run) == ids * Answered(run[1..]);
      }
    }
  }

  lemma {:induction false} AnswersAgain(run: seq<Message>, ids: set<string>)
    requires AllTools(run) && "" !in ids
    ensures Answers(Answers(run, ids), ids) == Answers(run, ids)
  {
    if run != [] {
      var id := run[0].toolCallId;
      AnswersAgain(run[1..], if id in ids then ids - {id} else ids);
      if id in ids { assert Answers(run, ids)[1..] == Answers(run[1..], ids - {id}); }
    }
  }

  /** What is missing does not depend on results for other ids. */
  lemma {:induction false} MissingAgree(pairs: seq<(string, string)>, a: set<string>, b: set<string>)
    requires forall p :: p in pairs ==> (p.0 in a <==> p.0 in b)
    ensures Missing(pairs, a) == Missing(pairs, b)
  {
    if pairs != [] {
      assert pairs[0] in pairs;
      MissingAgree(pairs[1..], a, b);
    }
  }

  lemma {:induction false} InIdsOf(pairs: seq<(string, string)>, p: (string, string))
    requires p in pairs
    ensures p.0 in IdsOf(pairs)
  {
    if p != pairs[0] { InIdsOf(pairs[1..], p); }
  }

  lemma {:induction false} FillsOfMissing(pairs: seq<(string, string)>, answered: set<string>, ids: set<string>)
    requires ids * answered == {}
    ensures Answers(Missing(pairs, answered), ids) == Fills(pairs, ids)
  {
    if pairs != [] {
      var p := pairs[0];
      var more := Missing(pairs[1..], answered);
      if p.0 in answered {
        assert p.0 !in ids by { assert p.0 in ids ==> p.0 in ids * answered; }
        FillsOfMissing(pairs[1..], answered, ids);
      } else {
        assert Missing(pairs, answered)[1..] == more;
        FillsOfMissing(pairs[1..], answered, if p.0 in ids then ids - {p.0} else ids);
      }
    }
  }

  lemma {:induction false} AnswersSplit(a: seq<Message>, b: seq<Message>, ids: set<string>)
    requires "" !in ids
    ensures Answers(a + b, ids) == Answers(a, ids) + Answers(b, ids - Answered(a))
  {
    if a == [] {
      assert a + b == b && ids - Answered(a) == ids;
    } else {
      assert (a + b)[1..] == a[1..] + b;
      var id := a[0].toolCallId;
      AnswersSplit(a[1..], b, if id in ids then ids - {id} else ids);
      assert ids - Answered(a) == (if id in ids then ids - {id} else ids) - Answered(a[1..]);
    }
  }

  lemma {:induction false} MissingRun(pairs: seq<(string, string)>, answered: set<string>)
    ensures AllTools(Missing(pairs, answered)) && Answered(Missing(pairs, answered)) <= IdsOf(pairs)
  {
    if pairs != [] {
      MissingRun(pairs[1..], answered);
      if pairs[0].0 !in answered { assert Missing(pairs, answered)[1..] == Missing(pairs[1..], answered); }
    }
  }

  /** One segment through both rounds. */
  lemma SegmentPairs(m: Message, run: seq<Message>)
    requires m.role == Assistant && AllTools(run)
    ensures var ids, kept := IdSet(m), Drop(run, IdSet(m));
      var added := Missing(Declared(m), Answered(kept));
      && AllTools(kept) && AllTools(kept + added) && ids <= Answered(kept + added)
      && Drop(kept + added, ids) == Answers(run, ids) + Fills(Declared(m), ids - Answered(run))
  {
    var ids := IdSet(m);
    NoEmptyId(Declared(m));
    DropOfRun(run, ids);
    var kept := Answers(run, ids);
    var added := Missing(Declared(m), Answered(kept));
    MissingRun(Declared(m), Answered(kept));
    MissingAnswers(Declared(m), Answered(kept));
    AnsweredAppend(kept, added);
    DropOfRun(kept + added, ids);
    AnswersSplit(kept, added, ids);
    AnswersAgain(run, ids);
    assert ids - Answered(kept) == ids - Answered(run);
    forall p | p in Declared(m) ensures p.0 in ids { InIdsOf(Declared(m), p); }
    FillsOfMissing(Declared(m), Answered(kept), ids - Answered(kept));
  }

  /** The main step: whatever was open before, dropping, backfilling and dropping again leaves what
      the one pass leaves. */
  lemma {:induction false} TwoRoundsPair(ms: seq<Message>, open: set<string>)
    ensures Drop(Backfill(Drop(ms, open)), {}) == Paired(ms)
    decreases |ms|
  {
    if ms != [] {
      Cut(ms);
      var m, run, rest := ms[0], Run(ms[1..]), AfterRun(ms[1..]);
      match m.role {
        case Tool => StrayPairs(ms, open);
        case Assistant =>
          TwoRoundsPair(rest, IdSet(m) - Answered(run));
          TurnPairs(m, run, rest, open);
          Segment(m, run, rest);
        case _ =>
          TwoRoundsPair(ms[1..], open);
          OtherPairs(m, Drop(ms[1..], open));
      }
    }
  }

  lemma StrayPairs(ms: seq<Message>, open: set<string>)
    requires ms != [] && ms[0].role == Tool
    ensures Drop(Backfill(Drop(ms, open)), {}) == Paired(ms[1..])
    decreases |ms|, 0
  {
    var m := ms[0];
    if Orphan(m, open) {
      TwoRoundsPair(ms[1..], open);
    } else {
      TwoRoundsPair(ms[1..], open - {m.toolCallId});
      var d := Drop(ms[1..], open - {m.toolCallId});
      assert ([m] + d)[1..] == d && Backfill([m] + d) == [m] + Backfill(d);
      assert ([m] + Backfill(d))[1..] == Backfill(d);
    }
  }

  lemma OtherPairs(m: Message, d: seq<Message>)
    requires m.role != Tool && m.role != Assistant
    ensures Drop(Backfill([m] + d), {}) == [m] + Drop(Backfill(d), {})
  {
    assert ([m] + d)[1..] == d && Backfill([m] + d) == [m] + Backfill(d);
    assert ([m] + Backfill(d))[1..] == Backfill(d);
  }

  lemma TurnPairs(m: Message, run: seq<Message>, rest: seq<Message>, open: set<string>)
    requires m.role == Assistant && AllTools(run) && NoToolFirst(rest)
    requires Drop(Backfill(Drop(rest, IdSet(m) - Answered(run))), {}) == Paired(rest)
    ensures Drop(Backfill(Drop([m] + run + rest, open)), {})
         == [m] + (Answers(run, IdSet(m)) + Fills(Declared(m), IdSet(m) - Answered(run))) + Paired(rest)
  {
    var ids := IdSet(m);
    DropSegment(m, run, rest, open);
    var kept, d := Drop(run, ids), Drop(rest, ids - Answered(run));
    SegmentPairs(m, run);
    HeadsAgree(rest, ids - Answered(run));
    BackfillSegment(m, kept, d);
    var added := Missing(Declared(m), Answered(kept));
    HeadsAgree(d, {});
    DropSegment(m, kept + added, Backfill(d), {});
    assert ids - Answered(kept + added) == {};
  }

  // ---------------------------------------------------------------- message by message

  /** The lists agree message by message. */
  ghost predicate Related(a: seq<Message>, b: seq<Message>, rel: (Message, Message) -> bool) {
    |a| == |b| && forall i :: 0 <= i < |a| ==> rel(a[i], b[i])
  }

  /** The relation sees a difference in role, calls or answered id. */
  ghost predicate KeepsShape(rel: (Message, Message) -> bool) {
    forall m, w :: rel(m, w) ==> w.role == m.role && w.calls == m.calls && w.toolCallId == m.toolCallId
  }

  lemma RelatedFirst(a: seq<Message>, b: seq<Message>, x: Message, y: Message, rel: (Message, Message) -> bool)
    requires rel(x, y) && Related(a, b, rel)
    ensures Related([x] + a, [y] + b, rel)
  {
  }

  lemma RelatedRest(a: seq<Message>, b: seq<Message>, rel: (Message, Message) -> bool)
    requires Related(a, b, rel) && a != []
    ensures rel(a[0], b[0]) && Related(a[1..], b[1..], rel)
  {
  }

  lemma {:induction false} DropRelated(a: seq<Message>, b: seq<Message>, open: set<string>,
                                       rel: (Message, Message) -> bool)
    requires KeepsShape(rel) && Related(a, b, rel)
    ensures Related(Drop(a, open), Drop(b, open), rel)
  {
    if a != [] {
      RelatedRest(a, b, rel);
      var m := a[0];
      var next := if m.role == Assistant then IdSet(m)
                  else if m.role == Tool && !Orphan(m, open) then open - {m.toolCallId} else open;
      DropRelated(a[1..], b[1..], next, rel);
      if !Orphan(m, open) {
        RelatedFirst(Drop(a[1..], next), Drop(b[1..], next), a[0], b[0], rel);
        assert Drop(a, open) == [a[0]] + Drop(a[1..], next);
        assert Drop(b, open) == [b[0]] + Drop(b[1..], next);
      }
    }
  }

  // ---------------------------------------------------------------- cutting off a front

  /** What is open after one message. */
  function OpenNext(m: Message, open: set<string>): set<string> {
    if m.role == Assistant then IdSet(m) else if m.role == Tool then open - {m.toolCallId} else open
  }

  lemma DropFirst(m: Message, rest: seq<Message>, open: set<string>)
    requires "" !in open
    ensures "" !in OpenNext(m, open)
    ensures Drop([m] + rest, open) == (if Orphan(m, open) then [] else [m]) + Drop(rest, OpenNext(m, open))
    ensures OpenAfter([m] + rest, open) == OpenAfter(rest, OpenNext(m, open))
  {
    assert ([m] + rest)[1..] == rest;
    NoEmptyId(Declared(m));
    if Orphan(m, open) { assert open - {m.toolCallId} == open; }
  }

  lemma {:induction false} DropSplit(a: seq<Message>, b: seq<Message>, open: set<string>)
    requires "" !in open
    ensures Drop(a + b, open) == Drop(a, open) + Drop(b, OpenAfter(a, open))
  {
    if a == [] {
      assert a + b == b;
    } else {
      var m, rest := a[0], a[1..];
      var next := OpenNext(m, open);
      DropFirst(m, rest, open);
      DropFirst(m, rest + b, open);
      DropSplit(rest, b, next);
      assert a == [m] + rest && a + b == [m] + (rest + b);
      Regroup(if Orphan(m, open) then [] else [m], Drop(rest, next), Drop(b, OpenAfter(rest, next)));
    }
  }

  lemma SkipTurn(ms: seq<Message>, p: nat) returns (q: nat)
    requires Complete(ms) && 0 < p <= |ms| && NoToolFirst(ms[p..]) && ms[0].role == Assistant
    ensures q <= |AfterRun(ms[1..])| < |ms|
    ensures Complete(AfterRun(ms[1..])) && NoToolFirst(AfterRun(ms[1..])[q..])
    ensures OpenAfter(ms[..p], {}) == OpenAfter(AfterRun(ms[1..])[..q], {})
  {
    Cut(ms);
    q := SkipTurnOf(ms[0], Run(ms[1..]), AfterRun(ms[1..]), p);
  }

  lemma SkipTurnOf(m: Message, run: seq<Message>, rest: seq<Message>, p: nat) returns (q: nat)
    requires m.role == Assistant && AllTools(run) && NoToolFirst(rest) && Complete([m] + run + rest)
    requires 0 < p <= 1 + |run| + |rest| && NoToolFirst(([m] + run + rest)[p..])
    ensures q <= |rest| && Complete(rest) && NoToolFirst(rest[q..])
    ensures OpenAfter(([m] + run + rest)[..p], {}) == OpenAfter(rest[..q], {})
  {
    CompleteSegment(m, run, rest);
    TurnSlices(m, run, rest, p);
    q := p - 1 - |run|;
    TurnCloses(m, run, rest[..q]);
  }

  /** Where every call has its result directly after it, nothing is open before a message that is no
      result. */
  lemma {:induction false} NothingOpen(ms: seq<Message>, p: nat)
    requires Complete(ms) && p <= |ms| && NoToolFirst(ms[p..])
    ensures OpenAfter(ms[..p], {}) == {}
    decreases |ms|
  {
    if p == 0 {
      assert ms[..p] == [];
    } else {
      var rest, q := SkipFirst(ms, p);
      NothingOpen(rest, q);
    }
  }

  lemma SkipFirst(ms: seq<Message>, p: nat) returns (rest: seq<Message>, q: nat)
    requires Complete(ms) && 0 < p <= |ms| && NoToolFirst(ms[p..])
    ensures |rest| < |ms| && Complete(rest) && q <= |rest| && NoToolFirst(rest[q..])
    ensures OpenAfter(ms[..p], {}) == OpenAfter(rest[..q], {})
  {
    if ms[0].role == Assistant {
      q := SkipTurn(ms, p);
      rest := AfterRun(ms[1..]);
    } else {
      OneBefore(ms, p);
      OpenBehind(ms[0], ms[1..][..p - 1]);
      rest, q := ms[1..], p - 1;
    }
  }

  lemma OpenBehind(m: Message, front: seq<Message>)
    requires m.role != Assistant
    ensures OpenAfter([m] + front, {}) == OpenAfter(front, {})
  {
    DropFirst(m, front, {});
    assert OpenNext(m, {}) == {};
  }

  lemma OneBefore(ms: seq<Message>, p: nat)
    requires 0 < p <= |ms|
    ensures ms[..p] == [ms[0]] + ms[1..][..p - 1] && ms[p..] == ms[1..][p - 1..]
  {
  }

  /** So dropping orphans behind a cut is dropping them before it. */
  lemma DropBehind(ms: seq<Message>, p: nat)
    requires Complete(ms) && p <= |ms| && NoToolFirst(ms[p..])
    ensures Drop(ms, {}) == Drop(ms[..p], {}) + Drop(ms[p..], {})
  {
    assert ms == ms[..p] + ms[p..];
    DropSplit(ms[..p], ms[p..], {});
    NothingOpen(ms, p);
  }
}
