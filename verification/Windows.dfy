/** Where a replayed window of history may start. */
module Windows {
  import opened Transcript

  /** Some assistant message in [from, to) declares id. */
  ghost predicate DeclaredWithin(ms: seq<Message>, from: nat, to: nat, id: string) {
    exists i :: from <= i < to && i < |ms| && ms[i].role == Assistant && id in IdSet(ms[i])
  }

  /** The result at j answers no call of the window that starts at from. */
  ghost predicate Stray(ms: seq<Message>, from: nat, j: nat) {
    && from <= j < |ms|
    && ms[j].role == Tool && ms[j].toolCallId != ""
    && !DeclaredWithin(ms, from, j, ms[j].toolCallId)
  }

  ghost predicate StrayBefore(ms: seq<Message>, from: nat, to: nat) {
    exists j :: from <= j < to && Stray(ms, from, j)
  }

  ghost predicate LegalFrom(ms: seq<Message>, from: nat) {
    !StrayBefore(ms, from, |ms|)
  }

  lemma StrayFromLater(ms: seq<Message>, start: nat, from: nat, i: nat)
    requires start <= from <= i && Stray(ms, start, i)
    ensures StrayBefore(ms, from, i + 1)
  {
    if DeclaredWithin(ms, from, i, ms[i].toolCallId) {
      assert DeclaredWithin(ms, start, i, ms[i].toolCallId);
    }
    assert Stray(ms, from, i);
  }

  lemma StrayStays(ms: seq<Message>, from: nat, to: nat, later: nat)
    requires to <= later && StrayBefore(ms, from, to)
    ensures StrayBefore(ms, from, later)
  {
  }

  /** The earliest start that leaves no stray result: every earlier start leaves one. */
  method FindLegalMessageStart(ms: seq<Message>) returns (start: nat)
    ensures EarliestLegal(ms, start)
  {
    var declared: set<string> := {};
    start := 0;
    for i := 0 to |ms|
      invariant start <= i
      invariant forall id :: id in declared <==> DeclaredWithin(ms, start, i, id)
      invariant !StrayBefore(ms, start, i)
      invariant forall s :: 0 <= s < start ==> StrayBefore(ms, s, start)
    {
      var msg := ms[i];
      if msg.role == Assistant {
        forall id ensures id in declared + IdSet(msg) <==> DeclaredWithin(ms, start, i + 1, id) {
          if id in declared {
            assert DeclaredWithin(ms, start, i, id);
          } else if id in IdSet(msg) {
            assert ms[i].role == Assistant && id in IdSet(ms[i]);
          }
        }
        declared := declared + IdSet(msg);
      } else if msg.role == Tool && msg.toolCallId != "" && msg.toolCallId !in declared {
        var next := i + 1;
        assert Stray(ms, start, i);
        forall s: nat | s < next ensures StrayBefore(ms, s, next) {
          if s >= start {
            StrayFromLater(ms, start, s, i);
          } else {
            StrayStays(ms, s, start, next);
          }
        }
        start := next;
        declared := {};
      }
    }
    forall s: nat | s < start ensures !LegalFrom(ms, s) {
      StrayStays(ms, s, start, |ms|);
    }
  }

  lemma DeclaredShift(ms: seq<Message>, from: nat, to: nat, id: string)
    requires from <= to <= |ms| && DeclaredWithin(ms, from, to, id)
    ensures DeclaredWithin(ms[from..], 0, to - from, id)
  {
    var i :| from <= i < to && i < |ms| && ms[i].role == Assistant && id in IdSet(ms[i]);
    assert ms[from..][i - from] == ms[i];
  }

  lemma StrayShift(ms: seq<Message>, from: nat, j: nat)
    requires from <= |ms| && Stray(ms[from..], 0, j)
    ensures Stray(ms, from, from + j)
  {
    if DeclaredWithin(ms, from, from + j, ms[from + j].toolCallId) {
      DeclaredShift(ms, from, from + j, ms[from + j].toolCallId);
    }
  }

  /** What starts at a legal start is legal on its own. */
  lemma LegalShift(ms: seq<Message>, from: nat)
    requires from <= |ms| && LegalFrom(ms, from)
    ensures LegalFrom(ms[from..], 0)
  {
    if j: nat :| j < |ms| - from && Stray(ms[from..], 0, j) {
      StrayShift(ms, from, j);
    }
  }

  // ---------------------------------------------------------------- where a window opens

  ghost predicate HoldsUser(ms: seq<Message>, from: nat) {
    exists i :: from <= i < |ms| && ms[i].role == User
  }

  ghost predicate LatestUser(ms: seq<Message>, u: nat) {
    u < |ms| && ms[u].role == User && !HoldsUser(ms, u + 1)
  }

  ghost predicate FirstUser(ms: seq<Message>, from: nat, u: nat) {
    from <= u < |ms| && ms[u].role == User && forall i :: from <= i < u ==> ms[i].role != User
  }

  /** A window opens at the user message u, or with what a channel delivered just before it. */
  function OpenAt(delivered: seq<bool>, from: nat, u: nat): nat {
    if u > from && u - 1 < |delivered| && delivered[u - 1] then u - 1 else u
  }

  /** The last messages up to the limit; if they hold no user message, then from the latest user
      message on, if there is one. */
  ghost predicate RecentStart(ms: seq<Message>, most: int, extendToUser: bool, delivered: seq<bool>, start: nat) {
    if most <= 0 then start == |ms|
    else
      var cut := if |ms| > most then |ms| - most else 0;
      if !extendToUser || HoldsUser(ms, cut) || !HoldsUser(ms, 0) then start == cut
      else exists u: nat :: LatestUser(ms, u) && start == OpenAt(delivered, 0, u)
  }

  lemma RecentStartIsUnique(ms: seq<Message>, most: int, extendToUser: bool, delivered: seq<bool>, s: nat, t: nat)
    requires RecentStart(ms, most, extendToUser, delivered, s) && RecentStart(ms, most, extendToUser, delivered, t)
    ensures s == t
  {
    if u: nat, v: nat :|
      LatestUser(ms, u) && LatestUser(ms, v) && s == OpenAt(delivered, 0, u) && t == OpenAt(delivered, 0, v)
    {
      assert !(u < v) && !(v < u);
    }
  }

  /** The start of a recent replay window. */
  method RecentMessageStartIndex(
    ms: seq<Message>, maxMessages: int, extendToUser: bool, delivered: seq<bool>)
    returns (start: nat)
    requires |delivered| == |ms|
    ensures start <= |ms| && RecentStart(ms, maxMessages, extendToUser, delivered, start)
  {
    if maxMessages <= 0 { return |ms|; }
    start := if |ms| > maxMessages then |ms| - maxMessages else 0;
    if !extendToUser || |ms| <= maxMessages { return; }
    if exists i :: start <= i < |ms| && ms[i].role == User { return; }
    var i: int := start - 1;
    while i >= 0 && ms[i].role != User
      invariant -1 <= i < start
      invariant forall k :: i < k < |ms| ==> ms[k].role != User
    {
      i := i - 1;
    }
    if i < 0 { return; }
    assert LatestUser(ms, i);
    if i > 0 && delivered[i - 1] { return i - 1; }
    return i;
  }

  /** The window opens at its first user message, if it holds one. */
  ghost predicate OpensAtUser(ms: seq<Message>, delivered: seq<bool>, start: nat, at: nat) {
    if HoldsUser(ms, start) then exists u: nat :: FirstUser(ms, start, u) && at == OpenAt(delivered, start, u)
    else at == start
  }

  ghost predicate EarliestLegal(ms: seq<Message>, start: nat) {
    start <= |ms| && LegalFrom(ms, start) && forall s :: 0 <= s < start ==> !LegalFrom(ms, s)
  }

  /** What the replay shows of these messages starts here. */
  ghost predicate VisibleFrom(ms: seq<Message>, most: int, delivered: seq<bool>, first: nat) {
    exists start: nat, at: nat :: OpensThere(ms, most, delivered, start, at, first)
  }

  ghost predicate OpensThere(ms: seq<Message>, most: int, delivered: seq<bool>, start: nat, at: nat, first: nat) {
    && RecentStart(ms, most, true, delivered, start) && OpensAtUser(ms, delivered, start, at)
    && at <= |ms| && at <= first && EarliestLegal(ms[at..], first - at)
  }

  lemma OpensIsUnique(ms: seq<Message>, delivered: seq<bool>, start: nat, s: nat, t: nat)
    requires OpensAtUser(ms, delivered, start, s) && OpensAtUser(ms, delivered, start, t)
    ensures s == t
  {
    if HoldsUser(ms, start) {
      var u: nat :| FirstUser(ms, start, u) && s == OpenAt(delivered, start, u);
      var v: nat :| FirstUser(ms, start, v) && t == OpenAt(delivered, start, v);
      assert !(u < v) && !(v < u);
    }
  }

  lemma EarliestIsUnique(ms: seq<Message>, s: nat, t: nat)
    requires EarliestLegal(ms, s) && EarliestLegal(ms, t)
    ensures s == t
  {
  }

  lemma AllVisibleIff(ms: seq<Message>, most: int, delivered: seq<bool>, first: nat)
    requires VisibleFrom(ms, most, delivered, first)
    ensures VisibleFrom(ms, most, delivered, 0) <==> first == 0
  {
    if VisibleFrom(ms, most, delivered, 0) { VisibleIsUnique(ms, most, delivered, 0, first); }
  }

  /** The start is determined: there is one. */
  lemma VisibleIsUnique(ms: seq<Message>, most: int, delivered: seq<bool>, s: nat, t: nat)
    requires VisibleFrom(ms, most, delivered, s) && VisibleFrom(ms, most, delivered, t)
    ensures s == t
  {
    var a: nat, p: nat :| OpensThere(ms, most, delivered, a, p, s);
    var b: nat, q: nat :| OpensThere(ms, most, delivered, b, q, t);
    OpensOnce(ms, most, delivered, a, p, s, b, q, t);
  }

  lemma OpensOnce(ms: seq<Message>, most: int, delivered: seq<bool>, a: nat, p: nat, s: nat, b: nat, q: nat, t: nat)
    requires OpensThere(ms, most, delivered, a, p, s) && OpensThere(ms, most, delivered, b, q, t)
    ensures s == t
  {
    RecentStartIsUnique(ms, most, true, delivered, a, b);
    OpensIsUnique(ms, delivered, a, p, q);
    EarliestIsUnique(ms[p..], s - p, t - p);
  }
}
