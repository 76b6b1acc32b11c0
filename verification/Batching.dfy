/** One round trip for a whole record: a redaction runs twice over the same input, first to
    collect the texts it asks about, then to fill in the answers. */
module Batching {
  import opened Transcript

  datatype Asked = Asked(text: string, cap: Option<string>)

  /** The n-th answer of a scrubber that is handed a text. */
  type Scrubber = (nat, Asked) -> string

  datatype Walked<T> = Walked(value: T, asked: seq<Asked>)

  /** Two scrubbers answer these questions alike, asked from these positions on. */
  ghost predicate Agree(a: Scrubber, m: nat, b: Scrubber, n: nat, asked: seq<Asked>) {
    forall k :: 0 <= k < |asked| ==> a(m + k, asked[k]) == b(n + k, asked[k])
  }

  /** A pure redaction: when its questions are answered alike, it asks the same questions and
      returns the same value. */
  ghost predicate Pure<T(!new)>(run: Scrubber -> Walked<T>) {
    forall a: Scrubber, b: Scrubber :: Agree(a, 0, b, 0, run(a).asked) ==> run(a) == run(b)
  }

  /** Its questions do not depend on the answers. */
  ghost predicate Oblivious<T(!new)>(run: Scrubber -> Walked<T>) {
    forall a: Scrubber, b: Scrubber :: run(a).asked == run(b).asked
  }

  function Echo(): Scrubber { (n: nat, q: Asked) => q.text }

  function Each(scrub: Asked -> string): Scrubber { (n: nat, q: Asked) => scrub(q) }

  function Script(answers: seq<string>): Scrubber {
    (n: nat, q: Asked) => if n < |answers| then answers[n] else ""
  }

  datatype BatchError = WrongCount | TooMany | Disagree(at: nat) | Unused(used: nat)

  datatype Batched<T> = Filled(value: T) | Raised(error: BatchError)

  /** Collect, ask once for all, fill. The second pass checks each text against the first. */
  method InOneBatch<T(!new)>(run: Scrubber -> Walked<T>, scrubMany: seq<Asked> -> seq<string>)
    returns (r: Batched<T>)
    ensures var asked := run(Echo()).asked;
      var answers := scrubMany(asked);
      var second := run(Script(answers));
      && (r.Filled? <==> |answers| == |asked| && second.asked == asked)
      && (r.Filled? ==> r.value == second.value)
      && (r == Raised(WrongCount) <==> |answers| != |asked|)
  {
    var asked := run(Echo()).asked;
    var answers := scrubMany(asked);
    if |answers| != |asked| { return Raised(WrongCount); }
    var second := run(Script(answers));
    var position: nat := 0;
    while position < |second.asked|
      invariant position <= |second.asked| && position <= |asked|
      invariant forall k :: 0 <= k < position ==> second.asked[k] == asked[k]
    {
      if position >= |asked| { return Raised(TooMany); }
      if asked[position] != second.asked[position] { return Raised(Disagree(position)); }
      position := position + 1;
    }
    if position != |asked| { return Raised(Unused(position)); }
    assert second.asked == asked;
    r := Filled(second.value);
  }

  /** The batch answers each text as the scrubber would. */
  ghost predicate Answers(scrubMany: seq<Asked> -> seq<string>, scrub: Asked -> string) {
    forall asked: seq<Asked> ::
      |scrubMany(asked)| == |asked| && forall k :: 0 <= k < |asked| ==> scrubMany(asked)[k] == scrub(asked[k])
  }

  /** What a batch fills in is what the per-text scrub returns, and it asked the same texts in
      the same order. */
  lemma FilledIsDirect<T(!new)>(run: Scrubber -> Walked<T>, scrubMany: seq<Asked> -> seq<string>, scrub: Asked -> string)
    requires Pure(run) && Answers(scrubMany, scrub)
    requires run(Script(scrubMany(run(Echo()).asked))).asked == run(Echo()).asked
    ensures run(Script(scrubMany(run(Echo()).asked))) == run(Each(scrub))
    ensures run(Each(scrub)).asked == run(Echo()).asked
  {
    var asked := run(Echo()).asked;
    var a, b := Script(scrubMany(asked)), Each(scrub);
    assert Agree(a, 0, b, 0, run(a).asked);
  }

  /** A walk that asks the same whatever it is answered never raises over a faithful batch. */
  lemma ObliviousNeverRaises<T(!new)>(
    run: Scrubber -> Walked<T>, scrubMany: seq<Asked> -> seq<string>, scrub: Asked -> string)
    requires Pure(run) && Oblivious(run) && Answers(scrubMany, scrub)
    ensures var asked := run(Echo()).asked;
      |scrubMany(asked)| == |asked| && run(Script(scrubMany(asked))).asked == asked
      && run(Script(scrubMany(asked))).value == run(Each(scrub)).value
  {
    FilledIsDirect(run, scrubMany, scrub);
  }
}
