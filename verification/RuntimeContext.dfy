/** Context that only the model reads: appended behind the user's content, marked so that it
    can be taken off again exactly, and kept behind the content when messages merge. */
module RuntimeContext {
  import opened Transcript

  const SEPARATOR := "\n\n"

  datatype ContextBlock = ContextBlock(source: string, content: string)

  datatype Marker = Marker(version: int, sources: seq<string>, suffix: Option<string>, blocks: Option<seq<Block>>)

  datatype Detached = Detached(content: Content, sources: seq<string>, blocks: seq<Block>)

  function Join(texts: seq<string>): string {
    if texts == [] then ""
    else if |texts| == 1 then texts[0]
    else texts[0] + SEPARATOR + Join(texts[1..])
  }

  /** Two texts, with the separator between them unless the first is empty. */
  function Glue(a: string, b: string): string { if a != "" then a + SEPARATOR + b else b }

  function Rendered(blocks: seq<ContextBlock>): seq<string> {
    seq(|blocks|, i requires 0 <= i < |blocks| => blocks[i].content)
  }

  function SourcesOf(blocks: seq<ContextBlock>): seq<string> {
    seq(|blocks|, i requires 0 <= i < |blocks| => blocks[i].source)
  }

  function AsBlocks(texts: seq<string>): (blocks: seq<Block>)
    ensures |blocks| == |texts|
  {
    seq(|texts|, i requires 0 <= i < |texts| => TextBlock(texts[i]))
  }

  datatype Appended = Appended(content: Content, marker: Option<Marker>)

  function AppendContext(content: Content, blocks: seq<ContextBlock>): Appended {
    if blocks == [] then Appended(content, None)
    else
      match content
      case Blocks(visible) =>
        var hidden := AsBlocks(Rendered(blocks));
        Appended(Blocks(visible + hidden), Some(Marker(1, SourcesOf(blocks), None, Some(hidden))))
      case Text(text) =>
        var suffix := Join(Rendered(blocks));
        Appended(Text(Glue(text, suffix)), Some(Marker(1, SourcesOf(blocks), Some(suffix), None)))
      case Null =>
        var suffix := Join(Rendered(blocks));
        Appended(Text(Glue("", suffix)), Some(Marker(1, SourcesOf(blocks), Some(suffix), None)))
  }

  predicate EndsWith(s: string, t: string) { |t| <= |s| && s[|s| - |t|..] == t }

  function NonEmpty(sources: seq<string>): seq<string> {
    if sources == [] then []
    else if sources[0] != "" then [sources[0]] + NonEmpty(sources[1..])
    else NonEmpty(sources[1..])
  }

  function Detach(content: Content, marker: Marker): Option<Detached> {
    if marker.version != 1 then None
    else if content.Text? && marker.suffix.Some? && marker.suffix.value != "" then
      var suffix, text := marker.suffix.value, content.text;
      if text == suffix then Some(Detached(Text(""), NonEmpty(marker.sources), [TextBlock(suffix)]))
      else if EndsWith(text, SEPARATOR + suffix) then
        Some(Detached(Text(text[..|text| - |suffix| - 2]), NonEmpty(marker.sources), [TextBlock(suffix)]))
      else None
    else if content.Blocks? && marker.blocks.Some? && marker.blocks.value != [] then
      var hidden, all := marker.blocks.value, content.blocks;
      if |hidden| <= |all| && all[|all| - |hidden|..] == hidden
      then Some(Detached(Blocks(all[..|all| - |hidden|]), NonEmpty(marker.sources), hidden))
      else None
    else None
  }

  /** A missing content reads as empty text. */
  function Read(content: Content): Content { if content.Null? then Text("") else content }

  lemma GlueEnds(text: string, suffix: string)
    requires suffix != ""
    ensures text == "" ==> Glue(text, suffix) == suffix
    ensures text != "" ==> Glue(text, suffix) != suffix && EndsWith(Glue(text, suffix), SEPARATOR + suffix)
    ensures text != "" ==> Glue(text, suffix)[..|Glue(text, suffix)| - |suffix| - 2] == text
  {
    var all := text + (SEPARATOR + suffix);
    assert all == text + SEPARATOR + suffix;
    assert all[|text|..] == SEPARATOR + suffix && all[..|text|] == text;
    assert |SEPARATOR + suffix| == |suffix| + 2;
  }

  /** Detaching undoes appending, exactly when there is something to detach: text needs a
      suffix that is not empty. */
  lemma DetachUndoesAppend(content: Content, blocks: seq<ContextBlock>)
    requires blocks != []
    ensures AppendContext(content, blocks).marker.Some?
    ensures var a := AppendContext(content, blocks);
      var d := Detach(a.content, a.marker.value);
      && (d.Some? <==> content.Blocks? || Join(Rendered(blocks)) != "")
      && (d.Some? ==> d.value.content == Read(content) && d.value.sources == NonEmpty(SourcesOf(blocks))
                      && Join(TextsOf(d.value.blocks)) == Join(Rendered(blocks)))
  {
    var a := AppendContext(content, blocks);
    var suffix := Join(Rendered(blocks));
    match content {
      case Blocks(visible) =>
        var hidden := AsBlocks(Rendered(blocks));
        var all := visible + hidden;
        assert all[|all| - |hidden|..] == hidden && all[..|all| - |hidden|] == visible;
        assert TextsOf(hidden) == Rendered(blocks);
      case Text(text) => if suffix != "" { GlueEnds(text, suffix); }
      case Null => if suffix != "" { GlueEnds("", suffix); }
    }
    assert TextsOf([TextBlock(suffix)]) == [suffix];
  }

  function TextOf(b: Block): string { if b.TextBlock? then b.text else "" }

  function TextsOf(blocks: seq<Block>): (texts: seq<string>)
    ensures |texts| == |blocks|
  {
    seq(|blocks|, i requires 0 <= i < |blocks| => TextOf(blocks[i]))
  }

  // ---------------------------------------------------------------- the public view

  function PublicContent(content: Content, marker: Option<Marker>): Content {
    if marker.None? || marker.value.version != 1 then content
    else if content.Text? && marker.value.suffix.Some? && marker.value.suffix.value != "" then
      var suffix, text := marker.value.suffix.value, content.text;
      if text == suffix then Text("")
      else if EndsWith(text, SEPARATOR + suffix) then Text(text[..|text| - |suffix| - 2])
      else content
    else if content.Blocks? && marker.value.blocks.Some? && marker.value.blocks.value != [] then
      var hidden, all := marker.value.blocks.value, content.blocks;
      if |hidden| <= |all| && all[|all| - |hidden|..] == hidden then Blocks(all[..|all| - |hidden|]) else content
    else content
  }

  /** What is shown is what detaching leaves; where nothing can be detached, all is shown. */
  lemma PublicIsDetached(content: Content, marker: Marker)
    ensures PublicContent(content, Some(marker)) ==
      match Detach(content, marker) case Some(d) => d.content case None => content
  {
  }

  // ---------------------------------------------------------------- merging

  predicate AllText(blocks: seq<Block>) { forall i :: 0 <= i < |blocks| ==> blocks[i].TextBlock? }

  function Reattach(content: Content, sources: seq<string>, blocks: seq<Block>): Appended {
    if content.Text? && AllText(blocks) then
      var suffix := Join(TextsOf(blocks));
      Appended(Text(Glue(content.text, suffix)), Some(Marker(1, sources, Some(suffix), None)))
    else
      Appended(Blocks(ToBlocks(content) + blocks), Some(Marker(1, sources, None, Some(blocks))))
  }

  function ToBlocks(content: Content): seq<Block> {
    match content
    case Null => []
    case Text(text) => [TextBlock(text)]
    case Blocks(blocks) => blocks
  }

  function MergeContent(left: Content, right: Content): Content {
    if left.Text? && right.Text? then Text(Glue(left.text, right.text))
    else Blocks(ToBlocks(left) + ToBlocks(right))
  }

  datatype UserMessage = UserMessage(content: Content, marker: Option<Marker>)

  /** The visible content and the context of a message; none when its marker does not fit. */
  function Open(m: UserMessage): Option<Detached> {
    match m.marker
    case None => Some(Detached(m.content, [], []))
    case Some(marker) => Detach(m.content, marker)
  }

  function Merge(left: UserMessage, right: UserMessage): UserMessage {
    var l, r := Open(left), Open(right);
    if l.Some? && r.Some? then
      var content := MergeContent(l.value.content, r.value.content);
      var blocks := l.value.blocks + r.value.blocks;
      if blocks == [] then UserMessage(content, left.marker)
      else
        var a := Reattach(content, l.value.sources + r.value.sources, blocks);
        UserMessage(a.content, a.marker)
    else UserMessage(MergeContent(left.content, right.content), left.marker)
  }

  /** A message as the code makes it: no context, or context that detaches. */
  ghost predicate Tidy(m: UserMessage) {
    var d := Open(m);
    && d.Some? && (m.marker.Some? ==> d.value.blocks != [])
    && (forall i :: 0 <= i < |d.value.blocks| ==> d.value.blocks[i].TextBlock? && d.value.blocks[i].text != "")
    && NonEmpty(d.value.sources) == d.value.sources
  }

  function Visible(m: UserMessage): Content { PublicContent(m.content, m.marker) }

  function Hidden(m: UserMessage): seq<string> {
    match Open(m) case Some(d) => TextsOf(d.blocks) case None => []
  }

  function Sources(m: UserMessage): seq<string> {
    match Open(m) case Some(d) => d.sources case None => []
  }

  ghost predicate Filled(texts: seq<string>) { forall i :: 0 <= i < |texts| ==> texts[i] != "" }

  lemma {:induction false} JoinFilled(texts: seq<string>)
    requires Filled(texts)
    ensures Join(texts) == "" <==> texts == []
  {
  }

  lemma {:induction false} JoinAppend(a: seq<string>, b: seq<string>)
    requires a != [] && b != []
    ensures Join(a + b) == Join(a) + SEPARATOR + Join(b)
  {
    if |a| == 1 {
      assert (a + b)[1..] == b;
    } else {
      JoinAppend(a[1..], b);
      assert (a + b)[1..] == a[1..] + b;
    }
  }

  /** The context of a join is joined the same, whatever was joined before. */
  lemma JoinReplace(a: seq<string>, c: seq<string>, b: seq<string>)
    requires Join(a) == Join(c) && (a == [] <==> c == [])
    ensures Join(a + b) == Join(c + b)
  {
    if b == [] {
      assert a + b == a && c + b == c;
    } else if a == [] {
      assert a + b == b && c + b == b;
    } else {
      JoinAppend(a, b);
      JoinAppend(c, b);
    }
  }

  lemma {:induction false} NonEmptyAppend(a: seq<string>, b: seq<string>)
    ensures NonEmpty(a + b) == NonEmpty(a) + NonEmpty(b)
  {
    if a == [] {
      assert a + b == b;
    } else {
      NonEmptyAppend(a[1..], b);
      assert (a + b)[1..] == a[1..] + b;
      if a[0] != "" { Regroup([a[0]], NonEmpty(a[1..]), NonEmpty(b)); }
    }
  }

  lemma {:induction false} NonEmptyTwice(a: seq<string>)
    ensures NonEmpty(NonEmpty(a)) == NonEmpty(a)
  {
    if a != [] {
      NonEmptyTwice(a[1..]);
      if a[0] != "" { assert ([a[0]] + NonEmpty(a[1..]))[1..] == NonEmpty(a[1..]); }
    }
  }

  /** A reattached context detaches again, from the same visible content. */
  lemma ReattachedOpens(content: Content, sources: seq<string>, blocks: seq<Block>)
    requires !content.Null? && blocks != [] && AllText(blocks) && Filled(TextsOf(blocks)) && NonEmpty(sources) == sources
    ensures var a := Reattach(content, sources, blocks);
      var m := UserMessage(a.content, a.marker);
      && Tidy(m) && Visible(m) == content && Sources(m) == sources && m.marker.Some?
      && Join(Hidden(m)) == Join(TextsOf(blocks)) && Hidden(m) != []
  {
    var suffix := Join(TextsOf(blocks));
    JoinFilled(TextsOf(blocks));
    match content {
      case Text(text) =>
        GlueEnds(text, suffix);
        assert TextsOf([TextBlock(suffix)]) == [suffix];
      case Blocks(visible) =>
        var all := visible + blocks;
        assert all[|all| - |blocks|..] == blocks && all[..|all| - |blocks|] == visible;
        forall i | 0 <= i < |blocks| ensures blocks[i].text != "" { assert TextsOf(blocks)[i] == blocks[i].text; }
    }
  }

  /** m shows this content, and hides this context from these sources, joined or not. */
  ghost predicate Keeps(m: UserMessage, visible: Content, hidden: seq<string>, sources: seq<string>) {
    && Tidy(m) && Visible(m) == visible && Sources(m) == sources
    && Join(Hidden(m)) == Join(hidden) && (Hidden(m) == [] <==> hidden == [])
  }

  lemma TidyParts(m: UserMessage)
    requires Tidy(m)
    ensures var d := Open(m).value;
      && Visible(m) == d.content && Hidden(m) == TextsOf(d.blocks) && Sources(m) == d.sources
      && AllText(d.blocks) && Filled(TextsOf(d.blocks)) && NonEmpty(d.sources) == d.sources
  {
    if m.marker.Some? { PublicIsDetached(m.content, m.marker.value); }
  }

  lemma MergePlain(left: UserMessage, right: UserMessage)
    requires left.marker.None? && right.marker.None?
    ensures Keeps(Merge(left, right), MergeContent(left.content, right.content), [], [])
  {
  }

  /** The text of the left and then that of the right, with a blank line between, or the blocks of
      the left and then those of the right; a text is one block, and no content is none. */
  ghost predicate Follows(left: Content, right: Content, both: Content) {
    if left.Text? && right.Text? then
      both == Text(if left.text == "" then right.text else left.text + "\n\n" + right.text)
    else
      && both.Blocks?
      && both.blocks == (match left case Null => [] case Text(t) => [TextBlock(t)] case Blocks(bs) => bs)
                      + (match right case Null => [] case Text(t) => [TextBlock(t)] case Blocks(bs) => bs)
  }

  lemma MergeFollows(left: Content, right: Content)
    ensures Follows(left, right, MergeContent(left, right))
  {
  }

  /** Merging is a homomorphism: what is shown is the merge of what was shown, and what is
      hidden is what was hidden on the left, then on the right. */
  lemma MergeKeepsApart(left: UserMessage, right: UserMessage)
    requires Tidy(left) && Tidy(right)
    ensures Keeps(Merge(left, right), MergeContent(Visible(left), Visible(right)),
                  Hidden(left) + Hidden(right), Sources(left) + Sources(right))
    ensures Follows(Visible(left), Visible(right), Visible(Merge(left, right)))
  {
    MergeFollows(Visible(left), Visible(right));
    TidyParts(left);
    TidyParts(right);
    if left.marker.None? && right.marker.None? {
      MergePlain(left, right);
    } else {
      var l, r := Open(left).value, Open(right).value;
      MergeContext(left, right, l, r);
    }
  }

  lemma {:induction false} JoinOneMore(texts: seq<string>, text: string)
    ensures Join([]) == "" && Join([text]) == text
    ensures texts != [] ==> Join(texts + [text]) == Join(texts) + "\n\n" + text
  {
    if |texts| > 1 {
      JoinOneMore(texts[1..], text);
      assert (texts + [text])[1..] == texts[1..] + [text];
      Regroup(texts[0] + SEPARATOR, Join(texts[1..]), SEPARATOR + text);
    } else if |texts| == 1 {
      assert (texts + [text])[1..] == [text];
    }
  }

  /** Where both contexts detach, the merge shows both contents and hides both contexts again, as one
      text behind a text or as blocks behind blocks. Where one does not, nothing is taken apart, and
      the marker of the left stays, as it does where there is no context. */
  ghost predicate Merged(left: UserMessage, right: UserMessage, m: UserMessage) {
    match (Open(left), Open(right))
    case (Some(l), Some(r)) =>
      if l.blocks + r.blocks == [] then Follows(l.content, r.content, m.content) && m.marker == left.marker
      else exists both :: Follows(l.content, r.content, both) && Behind(both, l.sources + r.sources, l.blocks + r.blocks, m)
    case _ => Follows(left.content, right.content, m.content) && m.marker == left.marker
  }

  ghost predicate Behind(visible: Content, sources: seq<string>, blocks: seq<Block>, m: UserMessage) {
    if visible.Text? && AllText(blocks) then
      var hidden := Join(TextsOf(blocks));
      && m.content == Text(if visible.text == "" then hidden else visible.text + "\n\n" + hidden)
      && m.marker == Some(Marker(1, sources, Some(hidden), None))
    else
      && m.content.Blocks? && m.marker == Some(Marker(1, sources, None, Some(blocks)))
      && m.content.blocks == (match visible case Null => [] case Text(t) => [TextBlock(t)] case Blocks(bs) => bs) + blocks
  }

  lemma MergeIs(left: UserMessage, right: UserMessage)
    ensures Merged(left, right, Merge(left, right))
  {
    MergeFollows(left.content, right.content);
    if Open(left).Some? && Open(right).Some? {
      var l, r := Open(left).value, Open(right).value;
      var both := MergeContent(l.content, r.content);
      MergeFollows(l.content, r.content);
      if l.blocks + r.blocks != [] {
        assert Behind(both, l.sources + r.sources, l.blocks + r.blocks, Merge(left, right));
      }
    }
  }

  lemma BothFilled(a: seq<Block>, b: seq<Block>)
    requires AllText(a) && AllText(b) && Filled(TextsOf(a)) && Filled(TextsOf(b))
    ensures TextsOf(a + b) == TextsOf(a) + TextsOf(b) && AllText(a + b) && Filled(TextsOf(a + b))
  {
  }

  lemma MergeContext(left: UserMessage, right: UserMessage, l: Detached, r: Detached)
    requires Open(left) == Some(l) && Open(right) == Some(r) && l.blocks + r.blocks != []
    requires AllText(l.blocks) && AllText(r.blocks) && Filled(TextsOf(l.blocks)) && Filled(TextsOf(r.blocks))
    requires NonEmpty(l.sources) == l.sources && NonEmpty(r.sources) == r.sources
    ensures Keeps(Merge(left, right), MergeContent(l.content, r.content),
                  TextsOf(l.blocks) + TextsOf(r.blocks), l.sources + r.sources)
  {
    BothFilled(l.blocks, r.blocks);
    NonEmptyAppend(l.sources, r.sources);
    ReattachedOpens(MergeContent(l.content, r.content), l.sources + r.sources, l.blocks + r.blocks);
  }

  // Any number of merges.

  function MergeAll(first: UserMessage, rest: seq<UserMessage>): UserMessage {
    if rest == [] then first else Merge(MergeAll(first, rest[..|rest| - 1]), rest[|rest| - 1])
  }

  function MergeContents(first: Content, rest: seq<Content>): Content {
    if rest == [] then first else MergeContent(MergeContents(first, rest[..|rest| - 1]), rest[|rest| - 1])
  }

  function Contents(ms: seq<UserMessage>): seq<Content> {
    seq(|ms|, i requires 0 <= i < |ms| => Visible(ms[i]))
  }

  function AllHidden(ms: seq<UserMessage>): seq<string> {
    if ms == [] then [] else AllHidden(ms[..|ms| - 1]) + Hidden(ms[|ms| - 1])
  }

  function AllSources(ms: seq<UserMessage>): seq<string> {
    if ms == [] then [] else AllSources(ms[..|ms| - 1]) + Sources(ms[|ms| - 1])
  }

  lemma KeepsMore(m: UserMessage, visible: Content, hidden: seq<string>, sources: seq<string>, last: UserMessage)
    requires Keeps(m, visible, hidden, sources) && Tidy(last)
    ensures Keeps(Merge(m, last), MergeContent(visible, Visible(last)), hidden + Hidden(last), sources + Sources(last))
  {
    MergeKeepsApart(m, last);
    JoinReplace(Hidden(m), hidden, Hidden(last));
  }

  /** After any number of merges the public view is the merge of the public contents, and the
      context is all contexts in order. */
  lemma {:induction false} MergesKeepApart(first: UserMessage, rest: seq<UserMessage>)
    requires Tidy(first) && forall m :: m in rest ==> Tidy(m)
    ensures Keeps(MergeAll(first, rest), MergeContents(Visible(first), Contents(rest)),
                  Hidden(first) + AllHidden(rest), Sources(first) + AllSources(rest))
    decreases |rest|
  {
    if rest == [] {
      assert Hidden(first) + AllHidden(rest) == Hidden(first);
      assert Sources(first) + AllSources(rest) == Sources(first);
    } else {
      var n := |rest| - 1;
      MergesKeepApart(first, rest[..n]);
      KeepsMore(MergeAll(first, rest[..n]), MergeContents(Visible(first), Contents(rest[..n])),
                Hidden(first) + AllHidden(rest[..n]), Sources(first) + AllSources(rest[..n]), rest[n]);
      assert Contents(rest)[..n] == Contents(rest[..n]);
      Regroup(Hidden(first), AllHidden(rest[..n]), Hidden(rest[n]));
      Regroup(Sources(first), AllSources(rest[..n]), Sources(rest[n]));
    }
  }

  /** What the code appends to begin with is tidy, whenever the blocks are normalized. */
  lemma AppendedIsTidy(content: Content, blocks: seq<ContextBlock>)
    requires blocks != [] && Filled(Rendered(blocks)) && Filled(SourcesOf(blocks))
    ensures var a := AppendContext(content, blocks);
      var m := UserMessage(a.content, a.marker);
      Tidy(m) && Visible(m) == Read(content) && Join(Hidden(m)) == Join(Rendered(blocks))
  {
    DetachUndoesAppend(content, blocks);
    JoinFilled(Rendered(blocks));
    NonEmptyTwice(SourcesOf(blocks));
    var a := AppendContext(content, blocks);
    PublicIsDetached(a.content, a.marker.value);
  }
}
