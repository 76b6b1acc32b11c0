/** Whether a requirement is installed together with what its extras require: a depth-first
    search over a dependency graph that may have cycles, with one set of visited keys.

    Names and extras are in their canonical spelling. A marker and a version bound are
    arbitrary predicates. */
module Requirements {
  datatype Req = Req(name: string, extras: seq<string>, applies: string -> bool, accepts: string -> bool)

  datatype Dist = Dist(version: string, offers: set<string>, needs: seq<Req>)

  type Installed = map<string, Dist>

  datatype Key = Key(name: string, extras: set<string>)

  function SetOf(extras: seq<string>): (s: set<string>)
    ensures forall e :: e in s <==> e in extras
  {
    if extras == [] then {} else {extras[0]} + SetOf(extras[1..])
  }

  function KeyOf(r: Req): Key { Key(r.name, SetOf(r.extras)) }

  // ---------------------------------------------------------------- what can be reached

  ghost predicate BringsIn(env: Installed, r: Req, e: string, next: Req) {
    r.name in env && e in r.extras && next in env[r.name].needs
  }

  /** Each requirement applies, and each but the first is one that an extra requested by the
      one before it brings in. */
  ghost predicate Path(env: Installed, reqs: seq<Req>, via: seq<string>) {
    && |reqs| == |via| > 0
    && (forall i :: 0 <= i < |reqs| ==> reqs[i].applies(via[i]))
    && (forall i {:trigger via[i]} :: 0 < i < |reqs| ==> BringsIn(env, reqs[i - 1], via[i], reqs[i]))
  }

  ghost predicate Reaches(env: Installed, req: Req, extra: string, r: Req) {
    exists reqs, via :: Path(env, reqs, via) && reqs[0] == req && via[0] == extra && reqs[|reqs| - 1] == r
  }

  /** The distribution does not offer the extra: it lists others, or it lists none and nothing
      it requires depends on the extra. */
  ghost predicate BadExtra(d: Dist, e: string) {
    if d.offers != {} then e !in d.offers
    else forall i :: 0 <= i < |d.needs| ==> !d.needs[i].applies(e)
  }

  ghost predicate Missing(env: Installed, r: Req) {
    r.name !in env || exists e :: e in r.extras && BadExtra(env[r.name], e)
  }

  ghost predicate WrongVersion(env: Installed, r: Req) {
    r.name in env && !r.accepts(env[r.name].version)
  }

  ghost predicate Fails(env: Installed, r: Req) { Missing(env, r) || WrongVersion(env, r) }

  /** The first of the requirements an extra brings in that has this name and these extras. */
  ghost predicate Foremost(d: Dist, e: string, next: Req) {
    exists j :: 0 <= j < |d.needs| && d.needs[j] == next
                && forall i :: 0 <= i < j && d.needs[i].applies(e) ==> KeyOf(d.needs[i]) != KeyOf(next)
  }

  /** A path to a requirement that fails, on which each was the foremost of its key. */
  ghost predicate Blamed(env: Installed, req: Req, extra: string, reqs: seq<Req>, via: seq<string>) {
    && Path(env, reqs, via) && reqs[0] == req && via[0] == extra && Fails(env, reqs[|reqs| - 1])
    && AllForemost(env, reqs, via)
  }

  ghost predicate AllForemost(env: Installed, reqs: seq<Req>, via: seq<string>)
    requires |reqs| == |via|
  {
    forall i :: 0 < i < |reqs| ==> ForemostStep(env, reqs, via, i)
  }

  ghost predicate ForemostStep(env: Installed, reqs: seq<Req>, via: seq<string>, i: nat)
    requires |reqs| == |via| && 0 < i < |reqs|
  {
    reqs[i - 1].name in env && Foremost(env[reqs[i - 1].name], via[i], reqs[i])
  }

  /** A bad extra is blamed on the requirement that asks for it. */
  lemma BlameHere(env: Installed, req: Req, extra: string, e: string)
    requires req.applies(extra) && req.name in env && e in req.extras && BadExtra(env[req.name], e)
    ensures Blamed(env, req, extra, [req], [extra])
  {
  }

  /** One step further up: the extra of a requirement brings in the start of a path. */
  lemma BlameOn(env: Installed, req: Req, extra: string, e: string, reqs: seq<Req>, via: seq<string>)
    requires req.applies(extra) && req.name in env && e in req.extras
    requires reqs != [] && Blamed(env, reqs[0], e, reqs, via) && Foremost(env[req.name], e, reqs[0])
    ensures Blamed(env, req, extra, [req] + reqs, [extra] + via)
  {
    PathOn(env, req, extra, reqs, via);
    ForemostOn(env, req, extra, reqs, via);
    assert ([req] + reqs)[|reqs|] == reqs[|reqs| - 1];
  }

  lemma ForemostOn(env: Installed, req: Req, extra: string, reqs: seq<Req>, via: seq<string>)
    requires |reqs| == |via| > 0 && AllForemost(env, reqs, via)
    requires req.name in env && Foremost(env[req.name], via[0], reqs[0])
    ensures AllForemost(env, [req] + reqs, [extra] + via)
  {
    var rs, vs := [req] + reqs, [extra] + via;
    forall i | 0 < i < |rs| ensures ForemostStep(env, rs, vs, i) {
      assert vs[i] == via[i - 1] && rs[i] == reqs[i - 1];
      if i > 1 { assert ForemostStep(env, reqs, via, i - 1) && rs[i - 1] == reqs[i - 2]; }
    }
  }

  lemma PathOn(env: Installed, req: Req, extra: string, reqs: seq<Req>, via: seq<string>)
    requires req.applies(extra) && Path(env, reqs, via) && BringsIn(env, req, via[0], reqs[0])
    ensures Path(env, [req] + reqs, [extra] + via)
  {
    var rs, vs := [req] + reqs, [extra] + via;
    forall i {:trigger vs[i]} | 0 < i < |rs| ensures BringsIn(env, rs[i - 1], vs[i], rs[i]) {
      assert vs[i] == via[i - 1] && rs[i] == reqs[i - 1];
      if i > 1 { assert rs[i - 1] == reqs[i - 2]; }
    }
  }

  lemma ReachesItself(env: Installed, req: Req, extra: string)
    requires req.applies(extra)
    ensures Reaches(env, req, extra, req)
  {
    assert Path(env, [req], [extra]) && [req][0] == req && [extra][0] == extra;
  }

  lemma ReachesOn(env: Installed, req: Req, extra: string, e: string, next: Req, r: Req)
    requires req.applies(extra) && BringsIn(env, req, e, next) && Reaches(env, next, e, r)
    ensures Reaches(env, req, extra, r)
  {
    var reqs, via :| Path(env, reqs, via) && reqs[0] == next && via[0] == e && reqs[|reqs| - 1] == r;
    var rs, vs := [req] + reqs, [extra] + via;
    PathOn(env, req, extra, reqs, via);
    assert Path(env, rs, vs) && rs[|rs| - 1] == r && rs[0] == req && vs[0] == extra;
  }

  // ---------------------------------------------------------------- the first of each key

  /** Each of these keys has its first requirement, which is reached. */
  ghost predicate FirstsReached(env: Installed, req: Req, extra: string, keys: set<Key>, first: map<Key, Req>) {
    forall k :: k in keys ==> k in first && KeyOf(first[k]) == k && Reaches(env, req, extra, first[k])
  }

  ghost predicate FirstsBroughtIn(env: Installed, d: Dist, e: string, keys: set<Key>, first: map<Key, Req>) {
    forall k :: k in keys ==> k in first && KeyOf(first[k]) == k && BroughtIn(env, d, e, first[k])
  }

  ghost predicate BroughtIn(env: Installed, d: Dist, e: string, r: Req) {
    exists j :: 0 <= j < |d.needs| && Reaches(env, d.needs[j], e, r)
  }

  ghost predicate FirstsAccepted(env: Installed, keys: set<Key>, first: map<Key, Req>) {
    forall k :: k in keys ==> k in first && !WrongVersion(env, first[k])
  }

  /** What is recorded stays. */
  ghost predicate Extends(first: map<Key, Req>, more: map<Key, Req>) {
    forall k :: k in first ==> k in more && more[k] == first[k]
  }

  lemma FirstsUp(env: Installed, req: Req, extra: string, e: string, keys: set<Key>, first: map<Key, Req>)
    requires req.applies(extra) && req.name in env && e in req.extras
    requires FirstsBroughtIn(env, env[req.name], e, keys, first)
    ensures FirstsReached(env, req, extra, keys, first)
  {
    forall k | k in keys ensures Reaches(env, req, extra, first[k]) {
      var d := env[req.name];
      var j :| 0 <= j < |d.needs| && Reaches(env, d.needs[j], e, first[k]);
      ReachesOn(env, req, extra, e, d.needs[j], first[k]);
    }
  }

  lemma FirstsInto(env: Installed, d: Dist, e: string, j: nat, keys: set<Key>, first: map<Key, Req>)
    requires j < |d.needs| && FirstsReached(env, d.needs[j], e, keys, first)
    ensures FirstsBroughtIn(env, d, e, keys, first)
  {
  }

  // ---------------------------------------------------------------- what a search leaves

  /** The key is installed, offers its extras, and what they bring in was visited. */
  ghost predicate Settled(env: Installed, seen: set<Key>, k: Key) {
    && k.name in env
    && forall e :: e in k.extras ==> SettledExtra(env[k.name], seen, e)
  }

  ghost predicate SettledExtra(d: Dist, seen: set<Key>, e: string) {
    !BadExtra(d, e) && Visited(d, seen, e, |d.needs|)
  }

  ghost predicate Visited(d: Dist, seen: set<Key>, e: string, n: nat) {
    forall i :: 0 <= i < n && i < |d.needs| && d.needs[i].applies(e) ==> KeyOf(d.needs[i]) in seen
  }

  ghost predicate AllSettled(env: Installed, seen: set<Key>, keys: set<Key>) {
    forall k :: k in keys ==> Settled(env, seen, k)
  }

  lemma SettledGrows(env: Installed, seen: set<Key>, more: set<Key>, keys: set<Key>)
    requires seen <= more && AllSettled(env, seen, keys)
    ensures AllSettled(env, more, keys)
  {
    forall k | k in keys ensures Settled(env, more, k) {
      forall e | e in k.extras ensures SettledExtra(env[k.name], more, e) {
        assert SettledExtra(env[k.name], seen, e);
      }
    }
  }

  /** What a search has done when it returns. */
  ghost predicate Grown(env: Installed, seen: set<Key>, first: map<Key, Req>,
                        now: set<Key>, known: map<Key, Req>, ok: bool) {
    && seen <= now && Extends(first, known) && known.Keys == now
    && (ok ==> AllSettled(env, now, now - seen) && FirstsAccepted(env, now - seen, known))
  }

  lemma GrownOn(env: Installed, seen: set<Key>, first: map<Key, Req>, mid: set<Key>, middle: map<Key, Req>,
                now: set<Key>, known: map<Key, Req>, ok: bool)
    requires Grown(env, seen, first, mid, middle, true) && Grown(env, mid, middle, now, known, ok)
    ensures Grown(env, seen, first, now, known, ok)
  {
    SettledGrows(env, mid, now, mid - seen);
    assert now - seen == (now - mid) + (mid - seen);
  }

  lemma OneVisited(env: Installed, req: Req, extra: string, seen: set<Key>, first: map<Key, Req>)
    requires req.applies(extra) && KeyOf(req) !in seen && first.Keys == seen
    ensures var now, known := seen + {KeyOf(req)}, first[KeyOf(req) := req];
      Grown(env, seen, first, now, known, false) && FirstsReached(env, req, extra, now - seen, known)
  {
    ReachesItself(env, req, extra);
  }

  ghost predicate ExtrasSettled(env: Installed, req: Req, seen: set<Key>, n: nat)
    requires req.name in env
  {
    forall j :: 0 <= j < n && j < |req.extras| ==> SettledExtra(env[req.name], seen, req.extras[j])
  }

  lemma ExtrasSettledOn(env: Installed, req: Req, seen: set<Key>, now: set<Key>, n: nat)
    requires req.name in env && seen <= now && n < |req.extras|
    requires ExtrasSettled(env, req, seen, n) && SettledExtra(env[req.name], now, req.extras[n])
    ensures ExtrasSettled(env, req, now, n + 1)
  {
    forall j | 0 <= j < n ensures SettledExtra(env[req.name], now, req.extras[j]) {
      assert SettledExtra(env[req.name], seen, req.extras[j]);
    }
  }

  lemma AllExtrasSettled(env: Installed, req: Req, seen: set<Key>)
    requires req.name in env && ExtrasSettled(env, req, seen, |req.extras|)
    ensures Settled(env, seen, KeyOf(req))
  {
  }

  /** The search of the extras of a key that was just visited. */
  lemma GrownFrom(env: Installed, seen: set<Key>, first: map<Key, Req>, req: Req,
                  now: set<Key>, known: map<Key, Req>, ok: bool)
    requires Grown(env, seen + {KeyOf(req)}, first[KeyOf(req) := req], now, known, ok) && KeyOf(req) !in seen
    requires first.Keys == seen
    requires ok ==> Settled(env, now, KeyOf(req)) && !WrongVersion(env, req)
    ensures Grown(env, seen, first, now, known, ok)
  {
    assert now - seen == (now - (seen + {KeyOf(req)})) + {KeyOf(req)};
  }

  lemma VisitedOn(d: Dist, seen: set<Key>, now: set<Key>, e: string, i: nat)
    requires Visited(d, seen, e, i) && seen <= now && i < |d.needs|
    requires d.needs[i].applies(e) ==> KeyOf(d.needs[i]) in now
    ensures Visited(d, now, e, i + 1)
  {
  }

  ghost predicate Matched(d: Dist, e: string, n: nat) {
    exists j :: 0 <= j < n && j < |d.needs| && d.needs[j].applies(e)
  }

  lemma MatchedOn(d: Dist, e: string, i: nat)
    requires i < |d.needs|
    ensures Matched(d, e, i + 1) <==> Matched(d, e, i) || d.needs[i].applies(e)
    ensures !Matched(d, e, 0)
  {
  }

  lemma NothingGrown(env: Installed, d: Dist, e: string, seen: set<Key>, first: map<Key, Req>)
    requires first.Keys == seen
    ensures Grown(env, seen, first, seen, first, true) && FirstsBroughtIn(env, d, e, seen - seen, first)
    ensures Visited(d, seen, e, 0) && !Matched(d, e, 0)
  {
  }

  lemma ExtraSettled(d: Dist, seen: set<Key>, e: string, matched: bool)
    requires Visited(d, seen, e, |d.needs|) && (d.offers != {} ==> e in d.offers)
    requires matched <==> Matched(d, e, |d.needs|)
    ensures if matched || d.offers != {} then SettledExtra(d, seen, e) else BadExtra(d, e)
  {
  }

  lemma ForemostAt(d: Dist, seen: set<Key>, e: string, i: nat)
    requires i < |d.needs| && Visited(d, seen, e, i) && KeyOf(d.needs[i]) !in seen
    ensures Foremost(d, e, d.needs[i])
  {
  }

  lemma FirstsOn(env: Installed, req: Req, extra: string, seen: set<Key>, mid: set<Key>, middle: map<Key, Req>,
                 now: set<Key>, known: map<Key, Req>)
    requires seen <= mid <= now && Extends(middle, known)
    requires FirstsReached(env, req, extra, mid - seen, middle) && FirstsReached(env, req, extra, now - mid, known)
    ensures FirstsReached(env, req, extra, now - seen, known)
  {
    assert now - seen == (now - mid) + (mid - seen);
  }

  lemma BroughtInOn(env: Installed, d: Dist, e: string, seen: set<Key>, mid: set<Key>, middle: map<Key, Req>,
                    now: set<Key>, known: map<Key, Req>)
    requires seen <= mid <= now && Extends(middle, known)
    requires FirstsBroughtIn(env, d, e, mid - seen, middle) && FirstsBroughtIn(env, d, e, now - mid, known)
    ensures FirstsBroughtIn(env, d, e, now - seen, known)
  {
    assert now - seen == (now - mid) + (mid - seen);
  }

  /** The keys a search can visit. */
  ghost function Universe(env: Installed, root: Req): set<Key> {
    {KeyOf(root)} + set n, i | n in env && 0 <= i < |env[n].needs| :: KeyOf(env[n].needs[i])
  }

  lemma {:induction false} Subset<T>(a: set<T>, b: set<T>)
    requires a <= b
    ensures |a| <= |b|
    ensures a != b ==> |a| < |b|
    decreases |a|
  {
    if a != {} {
      var x :| x in a;
      Subset(a - {x}, b - {x});
      if a != b { assert a - {x} != b - {x} by { assert a == (a - {x}) + {x} && b == (b - {x}) + {x}; } }
    } else if b != {} {
      var y :| y in b;
      assert b == (b - {y}) + {y};
    }
  }

  /** A search that has added a key of the universe has fewer left, however it went on. */
  lemma LeftOver(universe: set<Key>, before: set<Key>, now: set<Key>, key: Key)
    requires before + {key} <= now && key in universe && key !in before
    ensures |universe - now| < |universe - before|
  {
    Subset(universe - now, universe - before);
    assert key in universe - before;
  }

  // ---------------------------------------------------------------- the search in place

  class Search {
    const env: Installed
    ghost const universe: set<Key>
    var seen: set<Key>
    ghost var first: map<Key, Req>

    ghost predicate Knows(r: Req) { KeyOf(r) in universe }

    ghost predicate Valid() {
      forall n, i :: n in env && 0 <= i < |env[n].needs| ==> Knows(env[n].needs[i])
    }

    constructor (env: Installed, root: Req)
      ensures Valid() && Knows(root) && seen == {} && first == map[] && this.env == env
    {
      this.env, this.universe, this.seen, this.first := env, Universe(env, root), {}, map[];
    }

    /** How many keys are left to visit. */
    ghost function Left(): nat
      reads this
    {
      |universe - seen|
    }

    /** The extra is bad itself, or brings in the start of a path to what fails. */
    ghost predicate BlamesExtra(name: string, extra: string, reqs: seq<Req>, via: seq<string>)
      requires name in env
    {
      if reqs == [] then via == [] && BadExtra(env[name], extra)
      else Blamed(env, reqs[0], extra, reqs, via) && Foremost(env[name], extra, reqs[0])
    }

    /** What fails was the first of its key. */
    ghost predicate BlamesFirst(reqs: seq<Req>)
      reads this
    {
      reqs != [] ==> KeyOf(reqs[|reqs| - 1]) in first && first[KeyOf(reqs[|reqs| - 1])] == reqs[|reqs| - 1]
    }

    lemma BlameUp(req: Req, extra: string, e: string, reqs: seq<Req>, via: seq<string>)
      requires req.applies(extra) && req.name in env && e in req.extras && BlamesExtra(req.name, e, reqs, via)
      requires BlamesFirst(reqs) && KeyOf(req) in first && first[KeyOf(req)] == req
      ensures Blamed(env, req, extra, [req] + reqs, [extra] + via) && BlamesFirst([req] + reqs)
    {
      if reqs == [] {
        BlameHere(env, req, extra, e);
        assert [req] + reqs == [req] && [extra] + via == [extra];
      } else {
        BlameOn(env, req, extra, e, reqs, via);
        assert ([req] + reqs)[|reqs|] == reqs[|reqs| - 1];
      }
    }

    /** True settles every key it adds; false names a path to what fails. A key that was visited
        already is passed over. */
    method RequirementInstalled(req: Req, extra: string)
      returns (ok: bool, ghost reqs: seq<Req>, ghost via: seq<string>)
      requires Valid() && Knows(req) && first.Keys == seen
      modifies this
      ensures old(seen) <= seen && Grown(env, old(seen), old(first), seen, first, ok)
      ensures !req.applies(extra) || KeyOf(req) in old(seen) ==> ok && seen == old(seen)
      ensures req.applies(extra) ==> KeyOf(req) in seen && (KeyOf(req) !in old(seen) ==> first[KeyOf(req)] == req)
      ensures FirstsReached(env, req, extra, seen - old(seen), first)
      ensures !ok ==> Blamed(env, req, extra, reqs, via) && BlamesFirst(reqs)
      decreases Left(), 0
    {
      reqs, via := [req], [extra];
      if !req.applies(extra) { return true, [], []; }
      var key := KeyOf(req);
      if key in seen { return true, [], []; }
      OneVisited(env, req, extra, seen, first);
      seen, first := seen + {key}, first[key := req];
      LeftOver(universe, old(seen), seen, key);
      if req.name !in env { return false, reqs, via; }
      if !req.accepts(env[req.name].version) { return false, reqs, via; }
      ghost var before, known := seen, first;
      ok, reqs, via := ExtrasInstalled(req, extra);
      if ok { AllExtrasSettled(env, req, seen); }
      GrownFrom(env, old(seen), old(first), req, seen, first, ok);
      FirstsOn(env, req, extra, old(seen), before, known, seen, first);
    }

    /** The extras of a requirement whose own key was just visited. */
    method ExtrasInstalled(req: Req, extra: string) returns (ok: bool, ghost reqs: seq<Req>, ghost via: seq<string>)
      requires Valid() && req.applies(extra) && req.name in env && first.Keys == seen
      requires KeyOf(req) in seen && first[KeyOf(req)] == req
      modifies this
      ensures old(seen) <= seen && Grown(env, old(seen), old(first), seen, first, ok)
      ensures FirstsReached(env, req, extra, seen - old(seen), first)
      ensures ok ==> ExtrasSettled(env, req, seen, |req.extras|)
      ensures !ok ==> Blamed(env, req, extra, reqs, via) && BlamesFirst(reqs)
      decreases Left(), 2
    {
      for i := 0 to |req.extras|
        invariant old(seen) <= seen && Grown(env, old(seen), old(first), seen, first, true)
        invariant FirstsReached(env, req, extra, seen - old(seen), first)
        invariant ExtrasSettled(env, req, seen, i)
      {
        ghost var before, known := seen, first;
        Subset(universe - seen, universe - old(seen));
        ok, reqs, via := ExtraDependenciesInstalled(req.name, req.extras[i]);
        FirstsUp(env, req, extra, req.extras[i], seen - before, first);
        GrownOn(env, old(seen), old(first), before, known, seen, first, ok);
        FirstsOn(env, req, extra, old(seen), before, known, seen, first);
        if !ok {
          BlameUp(req, extra, req.extras[i], reqs, via);
          return false, [req] + reqs, [extra] + via;
        }
        ExtrasSettledOn(env, req, before, seen, i);
      }
      ok, reqs, via := true, [], [];
    }

    method ExtraDependenciesInstalled(name: string, extra: string)
      returns (ok: bool, ghost reqs: seq<Req>, ghost via: seq<string>)
      requires Valid() && name in env && first.Keys == seen
      modifies this
      ensures old(seen) <= seen && Grown(env, old(seen), old(first), seen, first, ok)
      ensures FirstsBroughtIn(env, env[name], extra, seen - old(seen), first)
      ensures ok ==> SettledExtra(env[name], seen, extra)
      ensures !ok ==> BlamesExtra(name, extra, reqs, via) && BlamesFirst(reqs)
      decreases Left(), 1
    {
      var d := env[name];
      if d.offers != {} && extra !in d.offers { return false, [], []; }
      var matched := false;
      NothingGrown(env, d, extra, seen, first);
      for i := 0 to |d.needs|
        invariant old(seen) <= seen && Grown(env, old(seen), old(first), seen, first, true)
        invariant FirstsBroughtIn(env, d, extra, seen - old(seen), first)
        invariant Visited(d, seen, extra, i)
        invariant matched <==> Matched(d, extra, i)
      {
        ghost var before, known := seen, first;
        MatchedOn(d, extra, i);
        if d.needs[i].applies(extra) {
          matched := true;
          Subset(universe - seen, universe - old(seen));
          var fine;
          fine, reqs, via := RequirementInstalled(d.needs[i], extra);
          FirstsInto(env, d, extra, i, seen - before, first);
          GrownOn(env, old(seen), old(first), before, known, seen, first, fine);
          BroughtInOn(env, d, extra, old(seen), before, known, seen, first);
          if !fine {
            ForemostAt(d, before, extra, i);
            return false, reqs, via;
          }
        }
        VisitedOn(d, before, seen, extra, i);
      }
      ExtraSettled(d, seen, extra, matched);
      ok, reqs, via := matched || d.offers != {}, [], [];
    }
  }

  // ---------------------------------------------------------------- what the answer means

  /** A settled set that holds the first requirement of a path holds them all. */
  lemma {:induction false} PathSettled(env: Installed, seen: set<Key>, reqs: seq<Req>, via: seq<string>, i: nat)
    requires AllSettled(env, seen, seen) && Path(env, reqs, via) && KeyOf(reqs[0]) in seen && i < |reqs|
    ensures KeyOf(reqs[i]) in seen
  {
    if i > 0 {
      var last := i - 1;
      PathSettled(env, seen, reqs, via, last);
      var k := KeyOf(reqs[last]);
      assert Settled(env, seen, k) && via[i] in k.extras;
      var d := env[k.name];
      assert SettledExtra(d, seen, via[i]);
      var j :| 0 <= j < |d.needs| && d.needs[j] == reqs[i];
      assert d.needs[j].applies(via[i]);
    }
  }

  lemma SettledIsThere(env: Installed, seen: set<Key>, r: Req)
    requires Settled(env, seen, KeyOf(r))
    ensures !Missing(env, r)
  {
    if r.name in env {
      forall e | e in r.extras ensures !BadExtra(env[r.name], e) {
        assert e in KeyOf(r).extras && SettledExtra(env[r.name], seen, e);
      }
    }
  }

  ghost predicate AllReached(env: Installed, req: Req, extra: string, first: map<Key, Req>) {
    forall r :: Reaches(env, req, extra, r) ==> KeyOf(r) in first && !Missing(env, r)
  }

  /** Requirements of one name and the same extras agree about the installed version. */
  ghost predicate Agree(env: Installed, req: Req, extra: string) {
    exists refused :: Verdicts(env, req, extra, refused)
  }

  ghost predicate Verdicts(env: Installed, req: Req, extra: string, refused: set<Key>) {
    forall r :: Reaches(env, req, extra, r) ==> (WrongVersion(env, r) <==> KeyOf(r) in refused)
  }

  ghost predicate NoneMissing(env: Installed, req: Req, extra: string) {
    forall r :: Reaches(env, req, extra, r) ==> !Missing(env, r)
  }

  ghost predicate NoneFails(env: Installed, req: Req, extra: string) {
    forall r :: Reaches(env, req, extra, r) ==> !Fails(env, r)
  }

  /** Where the answer is true, it is exact precisely when the requirements of one key agree. */
  ghost predicate ExactIffAgreed(env: Installed, req: Req, extra: string) {
    NoneFails(env, req, extra) <==> Agree(env, req, extra)
  }

  /** The search looks at the first requirement of each key, and answers whether one of those
      fails. True: everything that can be reached is installed and offers its extras, and its name
      with its extras was required first in a version that is installed. False: something that
      can be reached fails. */
  method RequirementInstalled(env: Installed, req: Req, extra: string) returns (ok: bool, ghost first: map<Key, Req>)
    ensures FirstsReached(env, req, extra, first.Keys, first)
    ensures ok <==> forall k :: k in first ==> !Fails(env, first[k])
    ensures req.applies(extra) ==> KeyOf(req) in first && first[KeyOf(req)] == req
    ensures ok ==> AllReached(env, req, extra, first)
    ensures !ok ==> exists reqs, via :: Blamed(env, req, extra, reqs, via)
    ensures ok ==> ExactIffAgreed(env, req, extra)
  {
    var search := new Search(env, req);
    ghost var reqs, via;
    ok, reqs, via := search.RequirementInstalled(req, extra);
    first := search.first;
    assert search.seen - {} == search.seen;
    if ok {
      SettledIsReached(env, search.seen, req, extra, first);
      FirstsAreThere(env, req, extra, first);
      ExactWhenAgreed(env, req, extra, first);
    } else {
      assert Reaches(env, req, extra, reqs[|reqs| - 1]);
    }
  }

  lemma SettledIsReached(env: Installed, seen: set<Key>, req: Req, extra: string, first: map<Key, Req>)
    requires AllSettled(env, seen, seen) && first.Keys == seen && (req.applies(extra) ==> KeyOf(req) in seen)
    ensures AllReached(env, req, extra, first)
  {
    forall r | Reaches(env, req, extra, r) ensures KeyOf(r) in first && !Missing(env, r) {
      var rs, vs :| Path(env, rs, vs) && rs[0] == req && vs[0] == extra && rs[|rs| - 1] == r;
      PathSettled(env, seen, rs, vs, |rs| - 1);
      SettledIsThere(env, seen, r);
    }
  }

  lemma FirstsAreThere(env: Installed, req: Req, extra: string, first: map<Key, Req>)
    requires AllReached(env, req, extra, first) && FirstsReached(env, req, extra, first.Keys, first)
    requires FirstsAccepted(env, first.Keys, first)
    ensures forall k :: k in first ==> !Fails(env, first[k])
  {
  }

  lemma ExactWhenAgreed(env: Installed, req: Req, extra: string, first: map<Key, Req>)
    requires AllReached(env, req, extra, first) && FirstsReached(env, req, extra, first.Keys, first)
    requires FirstsAccepted(env, first.Keys, first)
    ensures ExactIffAgreed(env, req, extra)
  {
    if NoneFails(env, req, extra) { assert Verdicts(env, req, extra, {}); }
    if Agree(env, req, extra) {
      var refused :| Verdicts(env, req, extra, refused);
      forall r | Reaches(env, req, extra, r) ensures !Fails(env, r) {
        assert Reaches(env, req, extra, first[KeyOf(r)]);
      }
    }
  }

  /** What is asked for is there, in a version it accepts. */
  ghost predicate Accepted(env: Installed, req: Req, extra: string) {
    req.applies(extra) ==> !Fails(env, req)
  }

  /** What a true answer says of each of the first n dependencies. */
  ghost predicate AllInstalled(env: Installed, deps: seq<Req>, extra: string, n: nat) {
    forall i :: 0 <= i < n && i < |deps| ==>
      NoneMissing(env, deps[i], extra) && Accepted(env, deps[i], extra) && ExactIffAgreed(env, deps[i], extra)
  }

  ghost predicate SomeFails(env: Installed, deps: seq<Req>, extra: string) {
    exists i :: 0 <= i < |deps| && !NoneFails(env, deps[i], extra)
  }

  lemma OneMoreInstalled(env: Installed, deps: seq<Req>, extra: string, n: nat)
    requires n < |deps| && AllInstalled(env, deps, extra, n)
    requires NoneMissing(env, deps[n], extra) && Accepted(env, deps[n], extra) && ExactIffAgreed(env, deps[n], extra)
    ensures AllInstalled(env, deps, extra, n + 1)
  {
  }

  lemma ThisFails(env: Installed, deps: seq<Req>, extra: string, n: nat)
    requires n < |deps| && !NoneFails(env, deps[n], extra)
    ensures SomeFails(env, deps, extra)
  {
  }

  /** All dependencies of an extra, each searched on its own. */
  method ExtraInstalled(env: Installed, extra: string, deps: seq<Req>) returns (ok: bool)
    ensures ok ==> AllInstalled(env, deps, extra, |deps|)
    ensures !ok ==> SomeFails(env, deps, extra)
  {
    for i := 0 to |deps|
      invariant AllInstalled(env, deps, extra, i)
    {
      var fine := DependencyInstalled(env, deps[i], extra);
      if !fine {
        ThisFails(env, deps, extra, i);
        return false;
      }
      OneMoreInstalled(env, deps, extra, i);
    }
    ok := true;
  }

  method DependencyInstalled(env: Installed, dep: Req, extra: string) returns (ok: bool)
    ensures ok ==> NoneMissing(env, dep, extra) && Accepted(env, dep, extra)
    ensures !ok ==> !NoneFails(env, dep, extra)
    ensures ok ==> ExactIffAgreed(env, dep, extra)
  {
    ghost var first;
    ok, first := RequirementInstalled(env, dep, extra);
    if !ok {
      ghost var k :| k in first && Fails(env, first[k]);
      assert Reaches(env, dep, extra, first[k]);
    }
  }

  // ---------------------------------------------------------------- a bound that is passed over

  const ALWAYS: string -> bool := e => true

  /** Two requirements on one library; the second refuses the version that is there. */
  const LOOSE := Req("lib", [], ALWAYS, ALWAYS)
  const STRICT := Req("lib", [], ALWAYS, v => v != "1")
  const APP := Req("app", ["web"], ALWAYS, ALWAYS)

  const MACHINE: Installed := map["app" := Dist("1", {"web"}, [LOOSE, STRICT]), "lib" := Dist("1", {}, [])]

  /** The answer is true, and something that can be reached has the wrong version: where the
      requirements of one key do not agree, only the first of them counts. */
  method ALaterBoundIsPassedOver() returns (ok: bool)
    ensures ok && Reaches(MACHINE, APP, "", STRICT) && WrongVersion(MACHINE, STRICT)
  {
    ghost var first;
    ok, first := RequirementInstalled(MACHINE, APP, "");
    var d := MACHINE["app"];
    assert d.needs[1] == STRICT && BringsIn(MACHINE, APP, "web", STRICT);
    ReachesItself(MACHINE, STRICT, "web");
    ReachesOn(MACHINE, APP, "", "web", STRICT, STRICT);
    if !ok {
      ghost var reqs, via :| Blamed(MACHINE, APP, "", reqs, via);
      NothingToBlame(reqs, via);
    }
  }

  lemma NothingToBlame(reqs: seq<Req>, via: seq<string>)
    ensures !Blamed(MACHINE, APP, "", reqs, via)
  {
    assert !Fails(MACHINE, APP) && !Fails(MACHINE, LOOSE);
    if Path(MACHINE, reqs, via) && reqs[0] == APP && |reqs| > 1 {
      assert AllForemost(MACHINE, reqs, via) ==> ForemostStep(MACHINE, reqs, via, 1);
      ShortPath(reqs, via);
      StrictIsSecond(via[1]);
    }
  }

  lemma ShortPath(reqs: seq<Req>, via: seq<string>)
    requires Path(MACHINE, reqs, via) && reqs[0] == APP && |reqs| > 1
    ensures |reqs| == 2 && (reqs[1] == LOOSE || reqs[1] == STRICT)
  {
    assert BringsIn(MACHINE, reqs[0], via[1], reqs[1]);
    var needs := MACHINE["app"].needs;
    var j :| 0 <= j < |needs| && needs[j] == reqs[1];
    assert reqs[1].extras == [];
    var next := if |reqs| > 2 then 2 else 1;
    assert BringsIn(MACHINE, reqs[next - 1], via[next], reqs[next]);
  }

  lemma StrictIsSecond(e: string)
    ensures !Foremost(MACHINE["app"], e, STRICT)
  {
    assert LOOSE.accepts("1") && !STRICT.accepts("1");
    assert MACHINE["app"].needs[0] == LOOSE && KeyOf(LOOSE) == KeyOf(STRICT) && LOOSE.applies(e);
  }
}
