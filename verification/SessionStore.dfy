/** How a turn reaches the stored session, and how an interrupted turn leaves it.

    Class Session runs the code's steps in place; the functions on SessionState say what each
    step does, and module TurnRecovery proves what every run of them keeps. */
module SessionStore {
  import opened Transcript

  /** The size bound on a stored result, and the text that stands for a medium, if it is an inline
      image. */
  datatype Bounds = Bounds(maxChars: int, placeholder: string -> Option<string>)
  {
    function Stored(b: Block, truncated: bool): Block {
      match b
      case TextBlock(t) => if truncated then TextBlock(TruncateText(t, maxChars)) else b
      case MediaBlock(data) => if placeholder(data).Some? then TextBlock(placeholder(data).value) else b
    }

    function Blocks(bs: seq<Block>, truncated: bool): (out: seq<Block>)
      ensures |out| == |bs|
    {
      seq(|bs|, i requires 0 <= i < |bs| => Stored(bs[i], truncated))
    }

    function Result(m: Message): Message {
      match m.content
      case Null => m
      case Text(t) => m.(content := Text(TruncateText(t, maxChars)))
      case Blocks(bs) => m.(content := Content.Blocks(Blocks(bs, true)))
    }
  }

  const OMITTED := [TextBlock("[tool result omitted during persistence]")]
  const INTERRUPTED_TOOL := "Error: Task interrupted before this tool finished."
  const INTERRUPTED_TURN := "Error: Task interrupted before a response was generated."

  // ---------------------------------------------------------------- saving a turn

  /** An assistant message with nothing in it, or a user message of no blocks. */
  predicate Empty(m: Message) {
    || (m.role == Assistant && !m.content.Truthy() && m.calls == [])
    || (m.role == User && m.content == Blocks([]))
  }

  function Skim(ms: seq<Message>): seq<Message> {
    if ms == [] then [] else (if Empty(ms[0]) then [] else [ms[0]]) + Skim(ms[1..])
  }

  /** The record one kept message becomes. */
  function Entry(bounds: Bounds, m: Message): (e: Message)
    ensures e == m || (e == m.(content := e.content) && m.role in {Tool, User})
  {
    if m.role == Tool then
      var e := bounds.Result(m);
      if e.content == Blocks([]) then e.(content := Blocks(OMITTED)) else e
    else if m.role == User && m.content.Blocks? then
      m.(content := Blocks(bounds.Blocks(m.content.blocks, false)))
    else m
  }

  function Entries(bounds: Bounds, ms: seq<Message>): (es: seq<Message>)
    ensures |es| == |ms|
    ensures forall i :: 0 <= i < |ms| ==> es[i] == Entry(bounds, ms[i])
  {
    seq(|ms|, i requires 0 <= i < |ms| => Entry(bounds, ms[i]))
  }

  /** What a turn's messages add to a session: without the empty ones, without the results
      that answer no open call, each as its record. */
  function Saved(bounds: Bounds, added: seq<Message>, open: set<string>): seq<Message> {
    Entries(bounds, Drop(Skim(added), open))
  }

  // ---------------------------------------------------------------- checkpoints

  /** An in-flight turn as it is stored in the session's metadata. */
  datatype Checkpoint = Checkpoint(
    assistant: Option<Message>,
    completed: seq<Message>,
    pending: seq<RawCall>)

  function PendingName(c: RawCall): string
    requires c.Call?
  {
    match c.fn
    case Some(Name(t)) => if t != "" then t else "tool"
    case Some(NotAString(t)) => t
    case _ => "tool"
  }

  function Interrupted(pending: seq<RawCall>): seq<Message> {
    if pending == [] then []
    else
      var rest := Interrupted(pending[1..]);
      if pending[0].Call? then
        [Message(Tool, Text(INTERRUPTED_TOOL), [], pending[0].id, Some(PendingName(pending[0])), "", 0)] + rest
      else rest
  }

  function Results(bounds: Bounds, completed: seq<Message>): (rs: seq<Message>)
    ensures |rs| == |completed|
    ensures forall i :: 0 <= i < |rs| ==> rs[i] == bounds.Result(completed[i])
  {
    seq(|completed|, i requires 0 <= i < |completed| => bounds.Result(completed[i]))
  }

  /** The messages an interrupted turn is restored as. */
  function Restored(bounds: Bounds, cp: Checkpoint): seq<Message> {
    (match cp.assistant case Some(a) => [a] case None => [])
    + Results(bounds, cp.completed)
    + Interrupted(cp.pending)
  }

  /** Two records are one message when they agree on everything but the time stamp. */
  function Key(m: Message): Message {
    m.(stamp := 0)
  }

  function Keys(ms: seq<Message>): (ks: seq<Message>)
    ensures |ks| == |ms|
    ensures forall i :: 0 <= i < |ms| ==> ks[i] == Key(ms[i])
  {
    seq(|ms|, i requires 0 <= i < |ms| => Key(ms[i]))
  }

  predicate Overlaps(existing: seq<Message>, restored: seq<Message>, size: nat) {
    && size <= |existing| && size <= |restored|
    && Keys(existing)[|existing| - size..] == Keys(restored)[..size]
  }

  /** The largest size, at most the given one, at which the session's tail is already the
      front of the restored messages. */
  function Overlap(existing: seq<Message>, restored: seq<Message>, size: nat): (k: nat)
    ensures k <= size
    ensures k == 0 || Overlaps(existing, restored, k)
    ensures forall j :: k < j <= size ==> !Overlaps(existing, restored, j)
  {
    if size == 0 || Overlaps(existing, restored, size) then size
    else Overlap(existing, restored, size - 1)
  }

  function Min(a: nat, b: nat): nat { if a < b then a else b }

  function Extended(existing: seq<Message>, restored: seq<Message>): seq<Message> {
    existing + restored[Overlap(existing, restored, Min(|existing|, |restored|))..]
  }

  // ---------------------------------------------------------------- what a save keeps, on its own terms

  ghost predicate BlockStored(bounds: Bounds, bounded: bool, b: Block, kept: Block) {
    match b
    case TextBlock(t) => kept.TextBlock? && if bounded then Shortened(bounds.maxChars, t, kept.text) else kept.text == t
    case MediaBlock(data) =>
      kept == if bounds.placeholder(data).Some? then TextBlock(bounds.placeholder(data).value) else b
  }

  ghost predicate BlocksStored(bounds: Bounds, bounded: bool, bs: seq<Block>, kept: seq<Block>) {
    |kept| == |bs| && forall i :: 0 <= i < |bs| ==> BlockStored(bounds, bounded, bs[i], kept[i])
  }

  /** The text of a result is shortened; blocks of a result or of a user are stored one for one; a
      result of no block says that it was omitted; all else stays. */
  ghost predicate ContentStored(bounds: Bounds, role: Role, content: Content, kept: Content) {
    match content
    case Null => kept == Null
    case Text(t) => kept.Text? && if role == Tool then Shortened(bounds.maxChars, t, kept.text) else kept.text == t
    case Blocks(bs) =>
      if role == Tool && bs == [] then kept == Blocks([TextBlock("[tool result omitted during persistence]")])
      else if role == Tool || role == User then kept.Blocks? && BlocksStored(bounds, role == Tool, bs, kept.blocks)
      else kept == content
  }

  /** The record of a message differs from it in content at most. */
  ghost predicate StoredAs(bounds: Bounds, m: Message, e: Message) {
    e.(content := m.content) == m && ContentStored(bounds, m.role, m.content, e.content)
  }

  ghost predicate Declares(m: Message, id: string) {
    id != "" && exists i :: 0 <= i < |m.calls| && m.calls[i].Call? && m.calls[i].id == id
  }

  /** The last assistant message asked for it, and no result gave it yet. */
  ghost predicate WaitsFor(ms: seq<Message>, id: string) {
    exists a :: 0 <= a < |ms| && ms[a].role == Assistant && Declares(ms[a], id) &&
                forall k :: a < k < |ms| ==>
                  ms[k].role != Assistant && (ms[k].role == Tool ==> ms[k].toolCallId != id)
  }

  /** An assistant message that says or asks something, a result that is waited for, a user message
      that is not an empty list of blocks, and every other message. */
  ghost predicate Wanted(ms: seq<Message>, m: Message) {
    match m.role
    case Assistant => m.calls != [] || (m.content != Null && m.content != Text("") && m.content != Blocks([]))
    case Tool => WaitsFor(ms, m.toolCallId)
    case User => m.content != Blocks([])
    case _ => true
  }

  ghost predicate SavedOne(bounds: Bounds, before: seq<Message>, m: Message, after: seq<Message>) {
    if Wanted(before, m)
    then |after| == |before| + 1 && after[..|before|] == before && StoredAs(bounds, m, after[|before|])
    else after == before
  }

  /** The messages were taken one after the other; each that is wanted has its record, and nothing
      else is there. */
  ghost predicate SavedAll(bounds: Bounds, before: seq<Message>, added: seq<Message>, after: seq<Message>)
    decreases |added|
  {
    if added == [] then after == before
    else
      var n := |added| - 1;
      exists mid :: SavedAll(bounds, before, added[..n], mid) && SavedOne(bounds, mid, added[n], after)
  }

  // ---------------------------------------------------------------- the session in place

  datatype SessionState = SessionState(messages: seq<Message>, checkpoint: Option<Checkpoint>, pendingUser: bool)

  function RestoreCheckpoint(bounds: Bounds, s: SessionState): SessionState {
    match s.checkpoint
    case None => s
    case Some(cp) => SessionState(Extended(s.messages, Restored(bounds, cp)), None, false)
  }

  function ErrorReply(): Message {
    Message(Assistant, Text(INTERRUPTED_TURN), [], "", None, "", 0)
  }

  function RestorePendingUser(s: SessionState): SessionState {
    if !s.pendingUser then s
    else if s.messages != [] && s.messages[|s.messages| - 1].role == User then
      s.(messages := s.messages + [ErrorReply()], pendingUser := false)
    else s.(pendingUser := false)
  }

  function SaveTurn(bounds: Bounds, s: SessionState, added: seq<Message>): SessionState {
    s.(messages := s.messages + Saved(bounds, added, OpenAfter(s.messages, {})))
  }

  class Session {
    var messages: seq<Message>
    var checkpoint: Option<Checkpoint>
    var pendingUser: bool

    function State(): SessionState
      reads this
    {
      SessionState(messages, checkpoint, pendingUser)
    }

    constructor ()
      ensures State() == SessionState([], None, false)
    {
      messages, checkpoint, pendingUser := [], None, false;
    }

    /** The ids of the latest assistant message that still have no result. */
    method OpenToolCallIds() returns (open: set<string>)
      ensures open == OpenAfter(messages, {})
    {
      open := {};
      for i := 0 to |messages|
        invariant open == OpenAfter(messages[..i], {})
      {
        var m := messages[i];
        assert messages[..i + 1] == messages[..i] + [m];
        DropStep(messages[..i], m, {});
        if m.role == Assistant {
          open := IdSet(m);
        } else if m.role == Tool && m.toolCallId != "" {
          open := open - {m.toolCallId};
        }
      }
      assert messages[..|messages|] == messages;
    }

    method Save(bounds: Bounds, newMessages: seq<Message>)
      modifies this`messages
      ensures State() == SaveTurn(bounds, old(State()), newMessages)
      ensures SavedAll(bounds, old(messages), newMessages, messages)
    {
      ghost var before := messages;
      var open := OpenToolCallIds();
      ghost var open0 := open;
      OpenHasNoEmptyId(messages);
      assert before + [] == before;
      for i := 0 to |newMessages|
        invariant messages == before + Saved(bounds, newMessages[..i], open0)
        invariant open == OpenAfter(Skim(newMessages[..i]), open0)
      {
        var m := newMessages[i];
        SavedNext(bounds, before, newMessages, i, open0);
        if Empty(m) { continue; }
        if m.role == Tool {
          if m.toolCallId == "" || m.toolCallId !in open { continue; }
          open := open - {m.toolCallId};
        }
        messages := messages + [Entry(bounds, m)];
        if m.role == Assistant {
          open := IdSet(m);
        }
      }
      assert newMessages[..|newMessages|] == newMessages;
      SaveTakesAll(bounds, old(State()), newMessages);
    }

    method RestoreRuntimeCheckpoint(bounds: Bounds) returns (restored: bool)
      modifies this
      ensures State() == RestoreCheckpoint(bounds, old(State()))
      ensures restored == old(checkpoint).Some?
    {
      if checkpoint.None? { return false; }
      var all := Restored(bounds, checkpoint.value);
      var max := Min(|messages|, |all|);
      var overlap := max;
      while overlap > 0 && !Overlaps(messages, all, overlap)
        invariant 0 <= overlap <= max
        invariant Overlap(messages, all, overlap) == Overlap(messages, all, max)
      {
        overlap := overlap - 1;
      }
      messages := messages + all[overlap..];
      pendingUser := false;
      checkpoint := None;
      restored := true;
    }

    method RestorePendingUserTurn() returns (restored: bool)
      modifies this
      ensures State() == RestorePendingUser(old(State()))
      ensures restored == old(pendingUser)
      ensures !pendingUser && checkpoint == old(checkpoint)
      ensures messages == old(messages) +
        if old(pendingUser) && old(messages) != [] && old(messages[|messages| - 1]).role == User
        then [Message(Assistant, Text("Error: Task interrupted before a response was generated."), [], "", None, "", 0)]
        else []
    {
      if !pendingUser { return false; }
      if messages != [] && messages[|messages| - 1].role == User {
        messages := messages + [ErrorReply()];
      }
      pendingUser := false;
      restored := true;
    }
  }

  // ---------------------------------------------------------------- facts about saving

  lemma {:induction false} SkimStep(ms: seq<Message>, m: Message)
    ensures Skim(ms + [m]) == Skim(ms) + (if Empty(m) then [] else [m])
  {
    if ms != [] {
      assert (ms + [m])[1..] == ms[1..] + [m];
      SkimStep(ms[1..], m);
    }
  }

  lemma EntriesAppend(bounds: Bounds, a: seq<Message>, b: seq<Message>)
    ensures Entries(bounds, a + b) == Entries(bounds, a) + Entries(bounds, b)
  {
  }

  /** One more message of the turn, as the loop sees it. */
  lemma SavedStep(bounds: Bounds, ms: seq<Message>, m: Message, open: set<string>)
    requires "" !in open
    ensures
      var now := OpenAfter(Skim(ms), open);
      var kept := !Empty(m) && !Orphan(m, now);
      && Saved(bounds, ms + [m], open) == Saved(bounds, ms, open) + (if kept then [Entry(bounds, m)] else [])
      && OpenAfter(Skim(ms + [m]), open) == (if kept then OpenAfter([m], now) else now)
  {
    SkimStep(ms, m);
    if Empty(m) {
      assert Skim(ms) + [] == Skim(ms);
    } else {
      DropStep(Skim(ms), m, open);
      var now := OpenAfter(Skim(ms), open);
      var one := if Orphan(m, now) then [] else [m];
      EntriesAppend(bounds, Drop(Skim(ms), open), one);
      assert Entries(bounds, one) == if Orphan(m, now) then [] else [Entry(bounds, m)];
      if Orphan(m, now) {
        assert now - {m.toolCallId} == now;
        assert [m][1..] == [];
      }
    }
  }

  lemma SavedNext(bounds: Bounds, before: seq<Message>, added: seq<Message>, i: nat, open: set<string>)
    requires "" !in open && i < |added|
    ensures
      var m, now := added[i], OpenAfter(Skim(added[..i]), open);
      var kept := !Empty(m) && !Orphan(m, now);
      && before + Saved(bounds, added[..i + 1], open)
         == before + Saved(bounds, added[..i], open) + (if kept then [Entry(bounds, m)] else [])
      && OpenAfter(Skim(added[..i + 1]), open)
         == (if !kept then now else if m.role == Assistant then IdSet(m)
             else if m.role == Tool then now - {m.toolCallId} else now)
  {
    var m := added[i];
    assert added[..i + 1] == added[..i] + [m];
    SavedStep(bounds, added[..i], m, open);
    OpenOne(m, OpenAfter(Skim(added[..i]), open));
  }

  lemma {:induction false} OpenHasNoEmptyId(ms: seq<Message>)
    ensures "" !in OpenAfter(ms, {})
  {
    if ms != [] {
      var last := |ms| - 1;
      assert ms == ms[..last] + [ms[last]];
      DropStep(ms[..last], ms[last], {});
      NoEmptyId(Declared(ms[last]));
    }
  }

  lemma {:induction false} OpenSplit(a: seq<Message>, b: seq<Message>, open: set<string>)
    ensures OpenAfter(a + b, open) == OpenAfter(b, OpenAfter(a, open))
  {
    if a == [] {
      assert a + b == b;
    } else {
      assert (a + b)[1..] == a[1..] + b;
      OpenSplit(a[1..], b, if a[0].role == Assistant then IdSet(a[0])
                           else if a[0].role == Tool then open - {a[0].toolCallId} else open);
    }
  }

  /** What a save leaves open it left open in the turn. */
  lemma {:induction false} OpenOfEntries(bounds: Bounds, ms: seq<Message>, open: set<string>)
    requires "" !in open
    ensures OpenAfter(Entries(bounds, Drop(ms, open)), open) == OpenAfter(ms, open)
  {
    if ms != [] {
      var m := ms[0];
      var next := if m.role == Assistant then IdSet(m) else if m.role == Tool then open - {m.toolCallId} else open;
      NoEmptyId(Declared(m));
      OpenOfEntries(bounds, ms[1..], next);
      if Orphan(m, open) {
        assert next == open && Drop(ms, open) == Drop(ms[1..], open);
      } else {
        var es := Entries(bounds, Drop(ms, open));
        assert Drop(ms, open) == [m] + Drop(ms[1..], next);
        assert es[1..] == Entries(bounds, Drop(ms[1..], next)) && es[0] == Entry(bounds, m);
      }
    }
  }

  lemma OpenOne(m: Message, open: set<string>)
    ensures OpenAfter([m], open) ==
      if m.role == Assistant then IdSet(m) else if m.role == Tool then open - {m.toolCallId} else open
  {
    assert [m][1..] == [];
  }

  lemma DeclaresIff(m: Message, id: string)
    ensures Declares(m, id) <==> id in IdSet(m)
  {
    DeclaredIff(m.calls, id);
  }

  lemma WaitsForMore(ms: seq<Message>, m: Message, id: string)
    ensures WaitsFor(ms + [m], id) <==>
      if m.role == Assistant then Declares(m, id) else WaitsFor(ms, id) && !(m.role == Tool && m.toolCallId == id)
  {
    var all := ms + [m];
    if m.role == Assistant {
      if Declares(m, id) { assert all[|ms|] == m; }
    } else if WaitsFor(ms, id) && !(m.role == Tool && m.toolCallId == id) {
      var a :| 0 <= a < |ms| && ms[a].role == Assistant && Declares(ms[a], id) &&
        forall k :: a < k < |ms| ==> ms[k].role != Assistant && (ms[k].role == Tool ==> ms[k].toolCallId != id);
      assert all[a] == ms[a];
    }
    if WaitsFor(all, id) && m.role != Assistant {
      var a :| 0 <= a < |all| && all[a].role == Assistant && Declares(all[a], id) &&
        forall k :: a < k < |all| ==> all[k].role != Assistant && (all[k].role == Tool ==> all[k].toolCallId != id);
      assert ms[a] == all[a] && all[|ms|] == m;
      assert forall k :: 0 <= k < |ms| ==> all[k] == ms[k];
    }
  }

  lemma {:induction false} OpenIsWaiting(ms: seq<Message>, id: string)
    ensures id in OpenAfter(ms, {}) <==> WaitsFor(ms, id)
    decreases |ms|
  {
    if ms != [] {
      var n := |ms| - 1;
      assert ms == ms[..n] + [ms[n]];
      OpenIsWaiting(ms[..n], id);
      OpenSplit(ms[..n], [ms[n]], {});
      OpenOne(ms[n], OpenAfter(ms[..n], {}));
      WaitsForMore(ms[..n], ms[n], id);
      DeclaresIff(ms[n], id);
    }
  }

  lemma EntryIsStored(bounds: Bounds, m: Message)
    requires m.role == User ==> m.content != Blocks([])
    ensures StoredAs(bounds, m, Entry(bounds, m))
  {
    if m.content.Blocks? {
      var bs := m.content.blocks;
      assert BlocksStored(bounds, true, bs, bounds.Blocks(bs, true));
      assert BlocksStored(bounds, false, bs, bounds.Blocks(bs, false));
    }
  }

  /** One more message of the turn: it has its record exactly when it is wanted. */
  lemma SaveTakesOne(bounds: Bounds, s: SessionState, ms: seq<Message>, m: Message)
    ensures SavedOne(bounds, SaveTurn(bounds, s, ms).messages, m, SaveTurn(bounds, s, ms + [m]).messages)
  {
    var open := OpenAfter(s.messages, {});
    OpenHasNoEmptyId(s.messages);
    SavedStep(bounds, ms, m, open);
    var before := SaveTurn(bounds, s, ms).messages;
    var es := Saved(bounds, ms, open);
    OpenSplit(s.messages, es, {});
    OpenOfEntries(bounds, Skim(ms), open);
    OpenIsWaiting(before, m.toolCallId);
    assert !Empty(m) && !Orphan(m, OpenAfter(Skim(ms), open)) <==> Wanted(before, m) by {
      OpenHasNoEmptyId(before);
    }
    if Wanted(before, m) { EntryIsStored(bounds, m); }
    Regroup(s.messages, es, [Entry(bounds, m)]);
  }

  lemma {:induction false} SaveTakesAll(bounds: Bounds, s: SessionState, added: seq<Message>)
    ensures SavedAll(bounds, s.messages, added, SaveTurn(bounds, s, added).messages)
    decreases |added|
  {
    if added == [] {
      assert s.messages + [] == s.messages;
    } else {
      var n := |added| - 1;
      SaveTakesAll(bounds, s, added[..n]);
      assert added == added[..n] + [added[n]];
      SaveTakesOne(bounds, s, added[..n], added[n]);
      AllAndOne(bounds, s.messages, added, SaveTurn(bounds, s, added[..n]).messages, SaveTurn(bounds, s, added).messages);
    }
  }

  lemma AllAndOne(bounds: Bounds, before: seq<Message>, added: seq<Message>, mid: seq<Message>, after: seq<Message>)
    requires added != [] && SavedAll(bounds, before, added[..|added| - 1], mid)
    requires SavedOne(bounds, mid, added[|added| - 1], after)
    ensures SavedAll(bounds, before, added, after)
  {
  }

  lemma StoredIsUnique(bounds: Bounds, m: Message, a: Message, b: Message)
    requires StoredAs(bounds, m, a) && StoredAs(bounds, m, b)
    ensures a == b
  {
    if m.content.Blocks? && a.content.Blocks? && b.content.Blocks? {
      assert a.content.blocks == b.content.blocks;
    }
    assert a == m.(content := a.content) && b == m.(content := b.content);
  }

  lemma OneIsUnique(bounds: Bounds, before: seq<Message>, m: Message, a: seq<Message>, b: seq<Message>)
    requires SavedOne(bounds, before, m, a) && SavedOne(bounds, before, m, b)
    ensures a == b
  {
    if Wanted(before, m) {
      StoredIsUnique(bounds, m, a[|before|], b[|before|]);
      assert a == a[..|before|] + [a[|before|]] && b == b[..|before|] + [b[|before|]];
    }
  }

  /** What a save makes of a session is determined by these rules. */
  lemma {:induction false} SavedIsUnique(
    bounds: Bounds, before: seq<Message>, added: seq<Message>, a: seq<Message>, b: seq<Message>)
    requires SavedAll(bounds, before, added, a) && SavedAll(bounds, before, added, b)
    ensures a == b
    decreases |added|
  {
    if added != [] {
      var n := |added| - 1;
      var m :| SavedAll(bounds, before, added[..n], m) && SavedOne(bounds, m, added[n], a);
      var k :| SavedAll(bounds, before, added[..n], k) && SavedOne(bounds, k, added[n], b);
      SavedIsUnique(bounds, before, added[..n], m, k);
      OneIsUnique(bounds, m, added[n], a, b);
    }
  }
}
