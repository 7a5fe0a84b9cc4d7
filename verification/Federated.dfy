// A federated search from its request to its page, in every execution mode:
// one query over all indexes, or a query per Type and a merge. The page both
// give is the one of the sorted documents the request means.

module Federated {
  import opened Common
  import opened Wrappers
  import opened Query
  import opened Fanout

  datatype Mode = SingleDfs | Single | PerType | Undeclared

  type Score = (string, string, Doc) -> real

  /** What a search runs against: the documents, how a document scores against a
      text query under index-local and under global term statistics, up to where
      a total is tracked, the indexes that do not exist, and the calls, named by
      the indexes they search, that fail. Filters do not score. */
  datatype Cluster = Cluster(
    docs: set<Doc>,
    local: Score,
    global: Score,
    cap: nat,
    missing: set<string>,
    down: set<set<string>>)

  /** An id is unique within an index, and an index that does not exist holds
      nothing. */
  ghost predicate Keyed(cl: Cluster) {
    && (forall d, e :: d in cl.docs && e in cl.docs && d.index == e.index && d.id == e.id ==> d == e)
    && forall d :: d in cl.docs ==> d.index !in cl.missing
  }

  /** Distinct Types: no two groups share a read alias or an index. */
  ghost predicate DistinctTypes(en: Engine, groups: seq<Group>) {
    forall i, j :: 0 <= i < j < |groups| ==>
      groups[i].alias != groups[j].alias && en.index(groups[i].alias) != en.index(groups[j].alias)
  }

  function ScoreOf(cl: Cluster, mode: Mode): (s: Score)
    ensures mode == SingleDfs ==> s == cl.global
    ensures mode != SingleDfs ==> s == cl.local
  {
    if mode.SingleDfs? then cl.global else cl.local
  }

  function HitOf(score: Score, p: Search, d: Doc): (h: Hit)
    ensures h.score == score(p.query, p.scope, d) && h.index == d.index && h.id == d.id
  {
    Hit(score(p.query, p.scope, d), d.index, d.id)
  }

  // ------------------------------------------------------ what a request means

  /** The documents a request means: the shared filters and text hold, and the
      group of the document's own Type. */
  ghost predicate Wants(en: Engine, p: Search, d: Doc) {
    SharedMeaning(en, d, p) && GroupsMeaning(en, d, p.groups)
  }

  ghost function WantedHits(en: Engine, cl: Cluster, score: Score, p: Search): set<Hit> {
    set d | d in cl.docs && Wants(en, p, d) :: HitOf(score, p, d)
  }

  /** The hits a request means, in the total order. */
  ghost function Wanted(en: Engine, cl: Cluster, score: Score, p: Search): (s: seq<Hit>)
    ensures Sorted(s) && HitSet(s) == WantedHits(en, cl, score, p)
  {
    RankedExists(WantedHits(en, cl, score, p));
    var s :| Sorted(s) && HitSet(s) == WantedHits(en, cl, score, p);
    s
  }

  /** A request no mode runs: past the paging limit, or with a filter that does
      not compile. */
  ghost predicate Refused(p: Search, page: nat, size: nat) {
    (page + 1) * size > MAX_WINDOW || SharedRefuse(p) || GroupsRefuse(p.groups)
  }

  /** The indexes the legs search. */
  function LegIndexes(en: Engine, p: Search): (xs: set<string>)
    ensures forall x :: x in xs <==> exists g :: g in p.groups && !g.matchNothing && en.index(g.alias) == x
  {
    set g | g in p.groups && !g.matchNothing :: en.index(g.alias)
  }

  /** No call of the mode fails: the one query, or the fan-out and each leg. */
  ghost predicate Reaches(en: Engine, cl: Cluster, mode: Mode, p: Search) {
    if mode.PerType? then
      var legs := set g | g in p.groups && !g.matchNothing :: en.index(g.alias);
      (legs == {} || legs !in cl.down) && forall x :: x in legs ==> {x} !in cl.down
    else
      (set g | g in p.groups :: en.index(g.alias)) !in cl.down
  }

  ghost function HitsIn(hits: seq<Hit>, index: string): set<Hit> {
    set h | h in hits && h.index == index
  }

  // ------------------------------------------------------------------- sorting

  lemma {:induction false} RankedExists(hits: set<Hit>)
    ensures exists s :: Sorted(s) && HitSet(s) == hits
  {
    if hits == {} {
      assert Sorted([]) && HitSet([]) == hits;
    } else {
      var h :| h in hits;
      RankedExists(hits - {h});
      var s :| Sorted(s) && HitSet(s) == hits - {h};
      assert h !in HitSet(s);
      var i := Place(s, h);
      Inserted(s, h, i);
    }
  }

  /** Where a hit goes in a sorted list. */
  ghost function Place(s: seq<Hit>, h: Hit): (i: nat)
    ensures i <= |s| && (forall k :: 0 <= k < i ==> Before(s[k], h)) && (i < |s| ==> !Before(s[i], h))
  {
    if s == [] || !Before(s[0], h) then 0 else 1 + Place(s[1..], h)
  }

  /** Two sorted lists of the same hits are one list. */
  lemma SortedUnique(a: seq<Hit>, b: seq<Hit>)
    requires Sorted(a) && Sorted(b) && HitSet(a) == HitSet(b)
    ensures a == b
  {
    forall i | 0 <= i < |b| ensures b[i] in a { assert b[i] in HitSet(b); }
    SamePrefix(a, b, |b|, |b|);
    LongerSorted(a, b);
  }

  lemma {:induction false} SortedSize(s: seq<Hit>)
    requires Sorted(s)
    ensures |HitSet(s)| == |s|
  {
    if s != [] {
      var n := |s| - 1;
      SortedSize(s[..n]);
      LastIsNew(s);
      hide Sorted;
      assert s == s[..n] + [s[n]];
      assert HitSet(s) == HitSet(s[..n]) + {s[n]};
    }
  }

  lemma LastIsNew(s: seq<Hit>)
    requires Sorted(s) && s != []
    ensures s[|s| - 1] !in s[..|s| - 1] && Sorted(s[..|s| - 1])
  {
    var n := |s| - 1;
    forall k | 0 <= k < n ensures s[k] != s[n] { BeforeTotal(s[k], s[n]); }
  }

  // ---------------------------------------------------------------- the engine

  ghost function Found(en: Engine, docs: set<Doc>, score: Score, p: Search, indexes: set<string>, c: Clause): set<Hit> {
    set d | d in docs && d.index in indexes && Matches(en, d, c) :: HitOf(score, p, d)
  }

  /** The engine's answer to one body. */
  datatype Reply = Hits(hits: seq<Hit>) | NotFound | Down

  /** The engine runs one body, if the call reaches it and every index exists:
      every document of the indexes that matches the clause, in the body's
      sort. */
  method Run(en: Engine, cl: Cluster, score: Score, p: Search, indexes: set<string>, c: Clause) returns (r: Reply)
    requires Keyed(cl)
    ensures r.Hits? ==> Sorted(r.hits) && HitSet(r.hits) == Found(en, cl.docs, score, p, indexes, c)
    ensures r.Down? <==> indexes in cl.down
    ensures (r.NotFound? ==> indexes * cl.missing != {}) && (r.Hits? ==> indexes * cl.missing == {})
  {
    hide Matches, Keyed, Before;
    if indexes in cl.down {
      return Down;
    }
    if indexes * cl.missing != {} {
      return NotFound;
    }
    var hits: seq<Hit> := [];
    var rest := cl.docs;
    while rest != {}
      invariant rest <= cl.docs
      invariant Sorted(hits) && HitSet(hits) == Found(en, cl.docs - rest, score, p, indexes, c)
      decreases |rest|
    {
      var d :| d in rest;
      var done := cl.docs - rest;
      assert cl.docs - (rest - {d}) == done + {d};
      NewHit(en, cl, score, p, indexes, c, done, d, hits);
      if d.index in indexes && Matches(en, d, c) {
        hits := Insert(hits, HitOf(score, p, d));
      }
      rest := rest - {d};
    }
    assert cl.docs - rest == cl.docs;
    r := Hits(hits);
  }

  lemma NewHit(
      en: Engine, cl: Cluster, score: Score, p: Search, indexes: set<string>, c: Clause, done: set<Doc>, d: Doc,
      hits: seq<Hit>)
    requires
      Keyed(cl) && done <= cl.docs && d in cl.docs - done && HitSet(hits) == Found(en, done, score, p, indexes, c)
    ensures HitOf(score, p, d) !in hits
    ensures Found(en, done + {d}, score, p, indexes, c) ==
            Found(en, done, score, p, indexes, c) +
              if d.index in indexes && Matches(en, d, c) then {HitOf(score, p, d)} else {}
  {
    hide Matches;
    assert HitOf(score, p, d) in hits <==> HitOf(score, p, d) in HitSet(hits);
  }

  function Tracked(cl: Cluster, n: nat): (t: nat)
    ensures t == if n < cl.cap then n else cl.cap
  {
    Min(n, cl.cap)
  }

  /** The buckets of the per_index aggregation: each index's number of hits. */
  method Buckets(hits: seq<Hit>) returns (counts: map<string, nat>)
    requires Sorted(hits)
    ensures forall x :: x in counts <==> HitsIn(hits, x) != {}
    ensures forall x :: x in counts ==> counts[x] == |HitsIn(hits, x)|
  {
    hide Sorted, Before;
    counts := map[];
    for i := 0 to |hits|
      invariant forall x :: x in counts <==> HitsIn(hits[..i], x) != {}
      invariant forall x :: x in counts ==> counts[x] == |HitsIn(hits[..i], x)|
    {
      var x := hits[i].index;
      BucketMore(hits, i);
      counts := counts[x := (if x in counts then counts[x] else 0) + 1];
    }
    assert hits[..|hits|] == hits;
  }

  lemma BucketMore(hits: seq<Hit>, i: nat)
    requires Sorted(hits) && i < |hits|
    ensures forall x :: x != hits[i].index ==> HitsIn(hits[..i + 1], x) == HitsIn(hits[..i], x)
    ensures HitsIn(hits[..i + 1], hits[i].index) != {}
    ensures |HitsIn(hits[..i + 1], hits[i].index)| == |HitsIn(hits[..i], hits[i].index)| + 1
  {
    var h := hits[i];
    assert hits[..i + 1] == hits[..i] + [h];
    forall k | 0 <= k < i ensures hits[k] != h { BeforeTotal(hits[k], h); }
    assert HitsIn(hits[..i + 1], h.index) == HitsIn(hits[..i], h.index) + {h};
    assert h in HitsIn(hits[..i + 1], h.index);
  }

  // ---------------------------------------------------------------- one query

  /** federatedSingle: one query over every group's index. A missing index
      empties the whole response. */
  method SearchSingle(en: Engine, cl: Cluster, mode: Mode, p: Search, page: int32, size: int32)
    returns (r: Result<Outcome>)
    requires Keyed(cl) && 0 <= page && 0 <= size && !mode.PerType?
    ensures r.Err? <==> Refused(p, page as int, size as int) || !Reaches(en, cl, mode, p)
    ensures r.Ok? && NoneMissing(en, cl, p) ==> Served(en, cl, ScoreOf(cl, mode), p, page as int, size as int, r.value)
    ensures r.Ok? && NoneMissing(en, cl, p) ==> forall g :: g in p.groups ==> SingleCount(en, cl, mode, p, r.value, g)
    ensures r.Ok? && !NoneMissing(en, cl, p) ==> r.value == Outcome([], 0, map[])
  {
    hide Sorted, HitSet, Found, WantedHits, SharedRefuse, GroupsRefuse, SharedMeaning, GroupsMeaning, Matches, Keyed;
    var paging := PagingWindow(page, size);
    PageFits(page as int, size as int);
    ProductFits(page as int, size as int);
    if paging.Err? {
      return Err;
    }
    var from, window := paging.value.0 as nat, paging.value.1 as nat;
    var c := SingleQuery(en, p);
    if c.Err? {
      return Err;
    }
    var indexes := set g | g in p.groups :: en.index(g.alias);
    var score := ScoreOf(cl, mode);
    var reply := Run(en, cl, score, p, indexes, c.value);
    if reply.Down? {
      return Err;
    }
    if reply.NotFound? {
      assert !NoneMissing(en, cl, p);
      return Ok(Outcome([], 0, map[]));
    }
    var hits := reply.hits;
    assert NoneMissing(en, cl, p) by {
      forall g | g in p.groups ensures en.index(g.alias) !in cl.missing {
        assert en.index(g.alias) in cl.missing ==> en.index(g.alias) in indexes * cl.missing;
      }
    }
    SingleFinds(en, cl, score, p, indexes, c.value);
    SortedUnique(hits, Wanted(en, cl, score, p));
    var counts := Buckets(hits);
    r := Ok(Outcome(Page(hits, from, window), Tracked(cl, |hits|), counts));
  }

  ghost predicate NoneMissing(en: Engine, cl: Cluster, p: Search) {
    forall g :: g in p.groups ==> en.index(g.alias) !in cl.missing
  }

  /** The answer is the page of the sorted documents the request means, and the
      total is theirs as far as it is tracked. */
  ghost predicate Served(en: Engine, cl: Cluster, score: Score, p: Search, page: nat, size: nat, o: Outcome) {
    var all := Wanted(en, cl, score, p);
    && IsPage(o.hits, all, page * size, size)
    && (|all| <= cl.cap ==> o.total == |all|)
  }

  ghost predicate SingleCount(en: Engine, cl: Cluster, mode: Mode, p: Search, o: Outcome, g: Group) {
    var own := HitsIn(Wanted(en, cl, ScoreOf(cl, mode), p), en.index(g.alias));
    if en.index(g.alias) in o.counts then o.counts[en.index(g.alias)] == |own| else own == {}
  }

  /** The single query finds what the request means: every wanted document is
      of a searched index. */
  lemma SingleFinds(en: Engine, cl: Cluster, score: Score, p: Search, indexes: set<string>, c: Clause)
    requires forall d :: Matches(en, d, c) <==> Wants(en, p, d)
    requires indexes == set g | g in p.groups :: en.index(g.alias)
    ensures Found(en, cl.docs, score, p, indexes, c) == WantedHits(en, cl, score, p)
  {
    hide Matches, SharedMeaning, GroupMeaning;
    forall d | d in cl.docs && Matches(en, d, c) ensures d.index in indexes {
      var g :| g in p.groups && !g.matchNothing && d.index == en.index(g.alias) && GroupMeaning(en, d, g);
    }
  }

  // ------------------------------------------------------------ a leg per Type

  /** What a leg is for: the documents of its group's index its group holds of. */
  ghost function LegHits(en: Engine, cl: Cluster, score: Score, p: Search, g: Group): set<Hit> {
    set d | d in cl.docs && d.index == en.index(g.alias) && SharedMeaning(en, d, p) && GroupMeaning(en, d, g) ::
      HitOf(score, p, d)
  }

  /** A leg's answer: skipped for a group known to match nothing, and otherwise
      the hits its group means, unless its index is missing or its call failed. */
  ghost predicate LegFor(en: Engine, cl: Cluster, p: Search, g: Group, l: Leg) {
    && l.alias == g.alias && l.index == en.index(g.alias) && l.skipped == g.matchNothing
    && match l.answer
       case Answered(total, hits) =>
         && {l.index} !in cl.down
         && Sorted(hits) && HitSet(hits) == LegHits(en, cl, cl.local, p, g) && total == Tracked(cl, |hits|)
       case Missing => g.matchNothing || ({l.index} !in cl.down && l.index in cl.missing)
       case Failed => !g.matchNothing && {l.index} in cl.down
  }

  ghost predicate LegsFor(en: Engine, cl: Cluster, p: Search, groups: seq<Group>, legs: seq<Leg>) {
    |legs| == |groups| && forall i :: 0 <= i < |legs| ==> LegFor(en, cl, p, groups[i], legs[i])
  }

  /** The legs of the request's groups, compiled and run. */
  method RunLegs(en: Engine, cl: Cluster, p: Search) returns (r: Result<seq<Leg>>)
    requires Keyed(cl)
    ensures r.Err? <==> SharedRefuse(p) || GroupsRefuse(p.groups)
    ensures r.Ok? ==> LegsFor(en, cl, p, p.groups, r.value)
  {
    hide LegFor, Keyed, Matches, SharedMeaning, GroupMeaning, Refuses;
    var globals := GlobalClauses(en, p.filters);
    if globals.Err? {
      return Err;
    }
    var legs: seq<Leg> := [];
    for i := 0 to |p.groups|
      invariant !GroupsRefuse(p.groups[..i]) && LegsFor(en, cl, p, p.groups[..i], legs)
    {
      var g := p.groups[i];
      assert p.groups[..i + 1] == p.groups[..i] + [g];
      var leg := RunLeg(en, cl, p, g, globals.value);
      if leg.Err? {
        return Err;
      }
      legs := legs + [leg.value];
    }
    assert p.groups[..|p.groups|] == p.groups;
    r := Ok(legs);
  }

  method RunLeg(en: Engine, cl: Cluster, p: Search, g: Group, globals: seq<Clause>) returns (r: Result<Leg>)
    requires Keyed(cl)
    requires
      forall d :: MatchesAll(en, d, globals) <==> forall f :: f in p.filters && f.field != "" ==> FilterHolds(en, d, f)
    ensures r.Err? <==> !g.matchNothing && Refuses(g.filters, g.scoped, g.scope)
    ensures r.Ok? ==> LegFor(en, cl, p, g, r.value)
  {
    hide Keyed, Matches, FilterHolds, SharedMeaning, GroupMeaning, Refuses, Sorted, HitSet;
    var index := en.index(g.alias);
    if g.matchNothing {
      return Ok(Leg(g.alias, index, true, Missing));
    }
    var c := LegQuery(en, p, g, globals);
    if c.Err? {
      return Err;
    }
    var reply := Run(en, cl, cl.local, p, {index}, c.value);
    if reply.Down? {
      return Ok(Leg(g.alias, index, false, Failed));
    }
    if reply.NotFound? {
      return Ok(Leg(g.alias, index, false, Missing));
    }
    var hits := reply.hits;
    assert Found(en, cl.docs, cl.local, p, {index}, c.value) == LegHits(en, cl, cl.local, p, g);
    r := Ok(Leg(g.alias, index, false, Answered(Tracked(cl, |hits|), hits)));
  }

  // ------------------------------------------------- the legs make up the whole

  ghost predicate Runs(l: Leg) {
    !l.skipped && l.answer.Answered?
  }

  /** A leg that ran holds exactly the wanted hits of its index, and a leg that
      did not run lacks none. */
  lemma LegIsWhole(en: Engine, cl: Cluster, p: Search, i: nat, l: Leg)
    requires DistinctTypes(en, p.groups) && Keyed(cl) && i < |p.groups| && LegFor(en, cl, p, p.groups[i], l)
    requires l.skipped || !l.answer.Failed?
    ensures (if Runs(l) then HitSet(l.answer.hits) else {}) == HitsIn(Wanted(en, cl, cl.local, p), l.index)
  {
    hide Matches, SharedMeaning, GroupMeaning, Sorted;
    var g := p.groups[i];
    var all := Wanted(en, cl, cl.local, p);
    forall h ensures h in HitsIn(all, l.index) <==> h in WantedHits(en, cl, cl.local, p) && h.index == l.index {
      assert h in all <==> h in HitSet(all);
    }
    forall d | d in cl.docs && d.index == l.index
      ensures Wants(en, p, d) <==> !g.matchNothing && SharedMeaning(en, d, p) && GroupMeaning(en, d, g)
    {
      if g.matchNothing {
        OwnGroup(en, p, d, i);
      } else {
        LegAgrees(en, d, p, g);
      }
    }
    assert !g.matchNothing ==> HitsIn(all, l.index) == LegHits(en, cl, cl.local, p, g);
    if l.skipped || l.answer.Missing? {
      assert HitsIn(all, l.index) == {};
    }
  }

  /** A group that serves a document of an index is the index's own. */
  lemma OwnGroup(en: Engine, p: Search, d: Doc, i: nat)
    requires
      && DistinctTypes(en, p.groups)
      && i < |p.groups|
      && d.index == en.index(p.groups[i].alias)
      && p.groups[i].matchNothing
    ensures !GroupsMeaning(en, d, p.groups)
  {
    hide GroupMeaning;
    forall g | g in p.groups && !g.matchNothing ensures d.index != en.index(g.alias) {
      var j :| 0 <= j < |p.groups| && p.groups[j] == g;
      assert i != j;
    }
  }

  lemma {:induction false} AnswersFrom(legs: seq<Leg>, hits: seq<Hit>)
    ensures hits in Answers(legs) <==> exists l :: l in legs && Runs(l) && l.answer.hits == hits
  {
    if legs != [] {
      var n := |legs| - 1;
      AnswersFrom(legs[..n], hits);
      assert legs == legs[..n] + [legs[n]];
    }
  }

  lemma LegsAreOwn(en: Engine, cl: Cluster, p: Search, legs: seq<Leg>)
    requires DistinctTypes(en, p.groups) && LegsFor(en, cl, p, p.groups, legs)
    ensures LegsOwn(legs)
  {
    hide Sorted, SharedMeaning, GroupMeaning;
    forall l | l in legs && l.answer.Answered?
      ensures Sorted(l.answer.hits) && forall h :: h in l.answer.hits ==> h.index == l.index
    {
      var i :| 0 <= i < |legs| && legs[i] == l;
      assert LegFor(en, cl, p, p.groups[i], l);
      forall h | h in l.answer.hits ensures h.index == l.index { assert h in HitSet(l.answer.hits); }
    }
    forall i, j | 0 <= i < j < |legs| ensures legs[i].alias != legs[j].alias && legs[i].index != legs[j].index {
      assert LegFor(en, cl, p, p.groups[i], legs[i]) && LegFor(en, cl, p, p.groups[j], legs[j]);
    }
  }

  /** Every hit the request means is in exactly the leg of its Type. */
  lemma LegsCover(en: Engine, cl: Cluster, p: Search, legs: seq<Leg>)
    requires DistinctTypes(en, p.groups) && Keyed(cl) && LegsFor(en, cl, p, p.groups, legs)
    requires forall l :: l in legs && !l.skipped ==> !l.answer.Failed?
    ensures Union(Answers(legs)) == HitSet(Wanted(en, cl, cl.local, p))
  {
    hide Sorted, SharedMeaning, GroupMeaning, Keyed, LegFor, Matches, HitSet, Answers;
    var all := Wanted(en, cl, cl.local, p);
    forall h ensures h in Union(Answers(legs)) <==> h in HitSet(all) {
      HitInLeg(en, cl, p, legs, h);
    }
  }

  lemma HitInLeg(en: Engine, cl: Cluster, p: Search, legs: seq<Leg>, h: Hit)
    requires DistinctTypes(en, p.groups) && Keyed(cl) && LegsFor(en, cl, p, p.groups, legs)
    requires forall l :: l in legs && !l.skipped ==> !l.answer.Failed?
    ensures h in Union(Answers(legs)) <==> h in HitSet(Wanted(en, cl, cl.local, p))
  {
    hide Sorted, SharedMeaning, GroupMeaning, Keyed, Answers, Matches, DistinctTypes;
    var all := Wanted(en, cl, cl.local, p);
    if h in Union(Answers(legs)) {
      var hits :| hits in Answers(legs) && h in hits;
      AnswersFrom(legs, hits);
      var l :| l in legs && Runs(l) && l.answer.hits == hits;
      var i :| 0 <= i < |legs| && legs[i] == l;
      LegIsWhole(en, cl, p, i, l);
      assert h in HitSet(hits);
    }
    if h in HitSet(all) {
      var i := TypeOf(en, cl, p, h);
      LegIsWhole(en, cl, p, i, legs[i]);
      assert h in HitsIn(all, legs[i].index);
      AnswersFrom(legs, legs[i].answer.hits);
      assert legs[i] in legs;
    }
  }

  /** The Type of a wanted hit. */
  ghost function TypeOf(en: Engine, cl: Cluster, p: Search, h: Hit): (i: nat)
    requires h in HitSet(Wanted(en, cl, cl.local, p))
    ensures i < |p.groups| && en.index(p.groups[i].alias) == h.index
  {
    var d :| d in cl.docs && Wants(en, p, d) && HitOf(cl.local, p, d) == h;
    var g :| g in p.groups && !g.matchNothing && d.index == en.index(g.alias) && GroupMeaning(en, d, g);
    var i :| 0 <= i < |p.groups| && p.groups[i] == g;
    i
  }

  /** The legs' totals add up to what they hold together, while that is tracked. */
  lemma {:induction false} TotalsAdd(cl: Cluster, legs: seq<Leg>)
    requires LegsOwn(legs) && forall l :: l in legs && Runs(l) ==> l.answer.total == Tracked(cl, |l.answer.hits|)
    ensures |Union(Answers(legs))| <= cl.cap ==> Totals(legs) == |Union(Answers(legs))|
  {
    if legs == [] {
      assert Union(Answers(legs)) == {};
    } else {
      var n := |legs| - 1;
      assert legs == legs[..n] + [legs[n]] && legs[n] in legs;
      assert LegsOwn(legs[..n]);
      TotalsAdd(cl, legs[..n]);
      if Runs(legs[n]) { SortedSize(legs[n].answer.hits); }
      hide *;
      AnswersAppend(legs[..n], legs[n]);
      if Runs(legs[n]) {
        UnionMore(Answers(legs[..n]), legs[n].answer.hits);
        ApartFromLast(legs);
        Apart(Union(Answers(legs[..n])), HitSet(legs[n].answer.hits));
      }
    }
  }

  lemma Apart(a: set<Hit>, b: set<Hit>)
    requires a !! b
    ensures |a + b| == |a| + |b|
  {
  }

  lemma UnionMore(legs: seq<seq<Hit>>, l: seq<Hit>)
    ensures Union(legs + [l]) == Union(legs) + HitSet(l)
  {
    assert forall k :: k in legs + [l] <==> k in legs || k == l;
  }

  lemma ApartFromLast(legs: seq<Leg>)
    requires legs != [] && LegsOwn(legs) && Runs(legs[|legs| - 1])
    ensures Union(Answers(legs[..|legs| - 1])) !! HitSet(legs[|legs| - 1].answer.hits)
  {
    hide Sorted;
    var n := |legs| - 1;
    forall h | h in Union(Answers(legs[..n])) ensures h !in HitSet(legs[n].answer.hits) {
      var hits :| hits in Answers(legs[..n]) && h in hits;
      AnswersFrom(legs[..n], hits);
      var l :| l in legs[..n] && Runs(l) && l.answer.hits == hits;
      assert h.index == l.index != legs[n].index;
    }
  }

  // ------------------------------------------------------------------- fan-out

  /** federatedFanout: a leg per Type, merged. A missing index empties its own
      leg only. */
  method SearchFanout(en: Engine, cl: Cluster, p: Search, page: int32, size: int32)
    returns (r: Result<Outcome>)
    requires Keyed(cl) && DistinctTypes(en, p.groups) && 0 <= page && 0 <= size
    ensures r.Err? <==> Refused(p, page as int, size as int) || !Reaches(en, cl, PerType, p)
    ensures r.Ok? ==> Served(en, cl, cl.local, p, page as int, size as int, r.value)
    ensures r.Ok? ==> r.value.counts.Keys == set g | g in p.groups :: g.alias
    ensures r.Ok? ==> forall g :: g in p.groups ==>
      r.value.counts[g.alias] == Tracked(cl, |HitsIn(Wanted(en, cl, cl.local, p), en.index(g.alias))|)
  {
    hide Sorted, HitSet, Union, Answers, LegFor, Keyed, DistinctTypes, SharedRefuse, GroupsRefuse;
    PageFits(page as int, size as int);
    if PagingWindow(page, size).Err? {
      return Err;
    }
    var legs := RunLegs(en, cl, p);
    if legs.Err? {
      return Err;
    }
    var asked := LegIndexes(en, p);
    assert asked == set g | g in p.groups && !g.matchNothing :: en.index(g.alias);
    if asked != {} && asked in cl.down {
      return Err;
    }
    var failed := set l | l in legs.value && !l.skipped && l.answer.Failed?;
    LegsReach(en, cl, p, legs.value);
    if failed != {} {
      assert !forall l :: l in legs.value && !l.skipped ==> !l.answer.Failed?;
      return Err;
    }
    forall l | l in legs.value && !l.skipped ensures !l.answer.Failed? { assert l !in failed; }
    LegsAreOwn(en, cl, p, legs.value);
    LegsCover(en, cl, p, legs.value);
    LegTotals(en, cl, p, legs.value);
    LegGroups(en, cl, p, legs.value);
    r := FederatedFanout(legs.value, page, size, Wanted(en, cl, cl.local, p));
  }

  /** A leg fails exactly when its call does. */
  lemma LegsReach(en: Engine, cl: Cluster, p: Search, legs: seq<Leg>)
    requires LegsFor(en, cl, p, p.groups, legs)
    ensures (forall l :: l in legs && !l.skipped ==> !l.answer.Failed?) <==>
      forall x :: x in LegIndexes(en, p) ==> {x} !in cl.down
  {
    hide Sorted, LegHits;
    forall l | l in legs && !l.skipped
      ensures l.index in LegIndexes(en, p) && (l.answer.Failed? <==> {l.index} in cl.down)
    {
      var i :| 0 <= i < |legs| && legs[i] == l;
      assert LegFor(en, cl, p, p.groups[i], legs[i]) && p.groups[i] in p.groups;
    }
    forall x | x in LegIndexes(en, p) ensures exists l :: l in legs && !l.skipped && l.index == x {
      var g :| g in p.groups && !g.matchNothing && en.index(g.alias) == x;
      var i :| 0 <= i < |p.groups| && p.groups[i] == g;
      assert LegFor(en, cl, p, p.groups[i], legs[i]) && legs[i] in legs;
    }
  }

  lemma LegGroups(en: Engine, cl: Cluster, p: Search, legs: seq<Leg>)
    requires LegsFor(en, cl, p, p.groups, legs)
    ensures (set l | l in legs :: l.alias) == (set g | g in p.groups :: g.alias)
    ensures forall g :: g in p.groups ==> exists l :: l in legs && l.alias == g.alias && l.index == en.index(g.alias)
  {
    hide Sorted, LegHits;
    forall g | g in p.groups ensures exists l :: l in legs && l.alias == g.alias && l.index == en.index(g.alias) {
      var i :| 0 <= i < |p.groups| && p.groups[i] == g;
      assert LegFor(en, cl, p, p.groups[i], legs[i]) && legs[i] in legs;
    }
    forall l | l in legs ensures exists g :: g in p.groups && g.alias == l.alias {
      var i :| 0 <= i < |legs| && legs[i] == l;
      assert LegFor(en, cl, p, p.groups[i], legs[i]) && p.groups[i] in p.groups;
    }
  }

  lemma LegTotals(en: Engine, cl: Cluster, p: Search, legs: seq<Leg>)
    requires DistinctTypes(en, p.groups) && Keyed(cl) && LegsFor(en, cl, p, p.groups, legs) && LegsOwn(legs)
    requires forall l :: l in legs && !l.skipped ==> !l.answer.Failed?
    requires Union(Answers(legs)) == HitSet(Wanted(en, cl, cl.local, p))
    ensures var all := Wanted(en, cl, cl.local, p); |all| <= cl.cap ==> Totals(legs) == |all|
    ensures forall l :: l in legs ==> CountOf(l) == Tracked(cl, |HitsIn(Wanted(en, cl, cl.local, p), l.index)|)
  {
    hide Sorted, HitSet, Union, Answers, Keyed, DistinctTypes, SharedMeaning, GroupMeaning;
    forall l | l in legs
      ensures Runs(l) ==> l.answer.total == Tracked(cl, |l.answer.hits|)
      ensures CountOf(l) == Tracked(cl, |HitsIn(Wanted(en, cl, cl.local, p), l.index)|)
    {
      var i :| 0 <= i < |legs| && legs[i] == l;
      LegIsWhole(en, cl, p, i, l);
      if Runs(l) { SortedSize(l.answer.hits); }
    }
    TotalsAdd(cl, legs);
    SortedSize(Wanted(en, cl, cl.local, p));
  }

  // --------------------------------------------------------------- every mode

  /** A group's own count: under its read alias in a fan-out, and otherwise in
      its index's bucket, 0 without one. */
  function CountFor(en: Engine, mode: Mode, counts: map<string, nat>, g: Group): nat {
    var key := if mode.PerType? then g.alias else en.index(g.alias);
    if key in counts then counts[key] else 0
  }

  /** FederatedSearch: whichever mode a backend is configured with, a request is
      refused in the same cases and answered with the same page of the same
      documents, in the order of the mode's scores; the totals and each Type's
      count agree too while they are tracked. Only a missing index tells the
      modes apart: the single query then answers nothing. */
  method FederatedSearch(en: Engine, cl: Cluster, mode: Mode, p: Search, page: int32, size: int32)
    returns (r: Result<Outcome>)
    requires Keyed(cl) && DistinctTypes(en, p.groups) && 0 <= page && 0 <= size
    ensures r.Err? <==> mode.Undeclared? || Refused(p, page as int, size as int) || !Reaches(en, cl, mode, p)
    ensures r.Ok? && (mode.PerType? || NoneMissing(en, cl, p)) ==>
      && Served(en, cl, ScoreOf(cl, mode), p, page as int, size as int, r.value)
      && (|Wanted(en, cl, ScoreOf(cl, mode), p)| <= cl.cap ==> forall g :: g in p.groups ==>
           CountFor(en, mode, r.value.counts, g) == |HitsIn(Wanted(en, cl, ScoreOf(cl, mode), p), en.index(g.alias))|)
    ensures r.Ok? && !mode.PerType? && !NoneMissing(en, cl, p) ==> r.value == Outcome([], 0, map[])
  {
    hide Refused, Served, Keyed, DistinctTypes, NoneMissing, Reaches;
    match mode {
      case PerType =>
        r := SearchFanout(en, cl, p, page, size);
        FewerIn(Wanted(en, cl, cl.local, p));
      case Single => r := SearchSingle(en, cl, mode, p, page, size);
      case SingleDfs => r := SearchSingle(en, cl, mode, p, page, size);
      case Undeclared => r := Err;
    }
  }

  /** The hits of one index are no more than all of them. */
  lemma FewerIn(hits: seq<Hit>)
    requires Sorted(hits)
    ensures forall x :: |HitsIn(hits, x)| <= |hits|
  {
    SortedSize(hits);
    forall x ensures |HitsIn(hits, x)| <= |hits| { SubsetSize(HitsIn(hits, x), HitSet(hits)); }
  }
}
