/** From a forgotten message to the long-term memory: consolidation writes notes about it into the
    history log, and whatever the log then goes through, Dream is shown each of these notes or the
    file still holds it. */
module Remembered {
  import opened Transcript
  import opened MemoryLog
  import opened MemoryRuns
  import Consolidation

  predicate Appends(a: Action, text: string) { (a.Append? || a.AppendCut?) && a.content == text }

  ghost predicate IsIn(ever: seq<Line>, text: string) {
    exists i :: 0 <= i < |ever| && ever[i].Record? && ever[i].content == text
  }

  lemma StepKeepsRecords(s: State, a: Action)
    requires Enabled(s, a)
    ensures s.ever <= After(s, a).ever
    ensures forall text :: Appends(a, text) ==> IsIn(After(s, a).ever, text)
  {
    if a.Append? || a.AppendCut? {
      var ever := After(s, a).ever;
      assert ever[|s.ever|].content == a.content;
    }
  }

  lemma {:induction false} RunKeepsRecords(s: State, actions: seq<Action>, t: State)
    requires Leads(s, actions, t)
    ensures s.ever <= t.ever
    ensures forall k, text :: 0 <= k < |actions| && Appends(actions[k], text) ==> IsIn(t.ever, text)
    decreases |actions|
  {
    if actions != [] {
      var u := After(s, actions[0]);
      StepKeepsRecords(s, actions[0]);
      RunKeepsRecords(u, actions[1..], t);
      forall k, text | 0 <= k < |actions| && Appends(actions[k], text) ensures IsIn(t.ever, text) {
        if k == 0 {
          RecordStays(u.ever, t.ever, text);
        } else {
          assert actions[1..][k - 1] == actions[k];
        }
      }
    }
  }

  lemma RecordStays(ever: seq<Line>, later: seq<Line>, text: string)
    requires ever <= later && IsIn(ever, text)
    ensures IsIn(later, text)
  {
  }

  /** Dream has been shown it, or it is still in the file. */
  ghost predicate Kept(s: State, text: string) {
    exists l: Line :: l.Record? && l.content == text && (l in s.files.lines || l in s.offered)
  }

  lemma WrittenIsKept(limit: int, actions: seq<Action>, s: State, k: nat, text: string)
    requires Leads(Initial(limit), actions, s) && k < |actions| && Appends(actions[k], text)
    ensures Kept(s, text)
  {
    RunKeepsRecords(Initial(limit), actions, s);
    NothingLeavesUnseen(limit, actions, s);
    assert IsIn(s.ever, text);
    var i :| 0 <= i < |s.ever| && s.ever[i].Record? && s.ever[i].content == text;
    assert s.ever[i] in s.ever;
  }

  /** The log was written each note of the consolidator, as this text, at some moment of its run. */
  ghost predicate WroteAll(notes: seq<Consolidation.Note>, text: Consolidation.Note -> string, actions: seq<Action>) {
    forall n :: n in notes ==> exists k :: 0 <= k < |actions| && Appends(actions[k], text(n))
  }

  lemma {:induction false} NotesOfOne(passed: seq<Consolidation.Passed>, p: Consolidation.Passed)
    requires p in passed
    ensures forall n :: n in p.notes ==> n in Consolidation.Notes(passed)
  {
    var last := |passed| - 1;
    if p != passed[last] { NotesOfOne(passed[..last], p); }
  }

  /** Every message the session has passed lies in a batch that is summarized in full or dumped
      raw, and Dream is shown every note of that batch, or the file still holds it: through
      appends, compactions, crashes and Dream runs in any order. */
  lemma PassedMessagesAreKept(c: Consolidation.Consolidator, i: nat, text: Consolidation.Note -> string,
                              limit: int, actions: seq<Action>, s: State)
    requires c.Valid() && i < c.session.lastConsolidated
    requires Leads(Initial(limit), actions, s) && WroteAll(c.history, text, actions)
    ensures exists p :: p in c.passed && c.session.messages[i] in p.batch &&
              Consolidation.Covers(c.env, p.notes, p.batch) && (forall n :: n in p.notes ==> Kept(s, text(n)))
  {
    Consolidation.EveryPassedMessageIsCovered(c, i);
    var p :| p in c.passed && p.saved && c.session.messages[i] in p.batch
      && Consolidation.Covers(c.env, p.notes, p.batch);
    NotesOfOne(c.passed, p);
    forall n | n in p.notes ensures Kept(s, text(n)) {
      assert n in c.history;
      var k :| 0 <= k < |actions| && Appends(actions[k], text(n));
      WrittenIsKept(limit, actions, s, k, text(n));
    }
  }
}
