// The fan-out execution of a federated search: each leg returns its first
// `window` hits in the shared total order; the merge sorts them and slices the
// page out. The page is the one the fully sorted union would give.

module Fanout {
  import opened Common
  import opened Wrappers
  import opened Strings

  datatype Hit = Hit(score: real, index: string, id: string)

  // ---------------------------------------------------------------- the order

  /** The order of every federated body and of the merge: score descending,
      then index, then id. */
  predicate Before(a: Hit, b: Hit) {
    || a.score > b.score
    || (a.score == b.score && (StrLess(a.index, b.index) || (a.index == b.index && StrLess(a.id, b.id))))
  }

  /** The order, written out. */
  ghost predicate Precedes(a: Hit, b: Hit) {
    && a.score >= b.score
    && (a.score == b.score ==>
          || FirstDiffers(a.index, b.index)
          || (a.index == b.index && FirstDiffers(a.id, b.id)))
  }

  /** A sorted list is one in that order. */
  lemma SortedIs(s: seq<Hit>)
    ensures Sorted(s) <==> forall i, j :: 0 <= i < j < |s| ==> Precedes(s[i], s[j])
  {
    forall i, j | 0 <= i < j < |s| ensures Before(s[i], s[j]) <==> Precedes(s[i], s[j]) {
      StrLessIs(s[i].index, s[j].index);
      StrLessIs(s[i].id, s[j].id);
    }
  }

  lemma BeforeTotal(a: Hit, b: Hit)
    ensures a == b || Before(a, b) || Before(b, a)
    ensures Before(a, b) ==> !Before(b, a) && a != b
  {
    StrTotal(a.index, b.index);
    StrTotal(a.id, b.id);
  }

  lemma BeforeTransitive(a: Hit, b: Hit, c: Hit)
    requires Before(a, b) && Before(b, c)
    ensures Before(a, c)
  {
    if StrLess(a.index, b.index) && StrLess(b.index, c.index) { StrTransitive(a.index, b.index, c.index); }
    if StrLess(a.id, b.id) && StrLess(b.id, c.id) { StrTransitive(a.id, b.id, c.id); }
  }

  /** Sorted, with no hit twice. */
  ghost predicate Sorted(s: seq<Hit>) {
    forall i, j :: 0 <= i < j < |s| ==> Before(s[i], s[j])
  }

  ghost function HitSet(s: seq<Hit>): set<Hit> {
    set h | h in s
  }

  // --------------------------------------------------- ranks in sorted lists

  /** A hit's rank in a list is at most its rank in any larger list. */
  lemma {:induction false} RankGrows(l: seq<Hit>, s: seq<Hit>, j: nat, k: nat)
    requires Sorted(l) && Sorted(s) && HitSet(l) <= HitSet(s)
    requires j < |l| && k < |s| && l[j] == s[k]
    ensures j <= k
  {
    if j > 0 {
      var h := l[j - 1];
      assert h in HitSet(l) && h in s;
      var m :| 0 <= m < |s| && s[m] == h;
      assert Before(s[m], s[k]);
      if m >= k {
        BeforeTotal(s[m], s[k]);
        assert false;
      }
      RankGrows(l, s, j - 1, m);
    }
  }

  /** A sorted list that keeps the first w hits of another, and has no hit the
      other lacks, agrees with it on those w. */
  lemma {:induction false} SamePrefix(t: seq<Hit>, s: seq<Hit>, w: nat, k: nat)
    requires Sorted(t) && Sorted(s) && HitSet(t) <= HitSet(s)
    requires forall i :: 0 <= i < |s| && i < w ==> s[i] in t
    requires k <= w && k <= |s|
    ensures k <= |t| && t[..k] == s[..k]
  {
    if k > 0 {
      SamePrefix(t, s, w, k - 1);
      assert s[k - 1] in t;
      var m :| 0 <= m < |t| && t[m] == s[k - 1];
      RankGrows(t, s, m, k - 1);
      if m < k - 1 {
        assert t[..k - 1][m] == s[..k - 1][m];
        assert Before(s[m], s[k - 1]);
        BeforeTotal(s[m], s[k - 1]);
        assert false;
      }
      assert t[..k] == t[..k - 1] + [t[k - 1]] && s[..k] == s[..k - 1] + [s[k - 1]];
    }
  }

  // --------------------------------------------------------------------- legs

  function Take(s: seq<Hit>, n: nat): (r: seq<Hit>)
    ensures r <= s && |r| == if n < |s| then n else |s|
  {
    s[..Min(n, |s|)]
  }

  ghost function Union(legs: seq<seq<Hit>>): set<Hit> {
    set l, h | l in legs && h in l :: h
  }

  function Takes(legs: seq<seq<Hit>>, w: nat): (r: seq<seq<Hit>>)
    ensures |r| == |legs| && forall i :: 0 <= i < |r| ==> r[i] == Take(legs[i], w)
  {
    seq(|legs|, i requires 0 <= i < |legs| => Take(legs[i], w))
  }

  /** The page of `size` hits from `from`, cut short where the hits end. */
  ghost predicate IsPage(page: seq<Hit>, all: seq<Hit>, from: nat, size: nat) {
    && |page| == (if |all| <= from then 0 else if |all| - from < size then |all| - from else size)
    && forall i :: 0 <= i < |page| ==> page[i] == all[from + i]
  }

  /** The page of the merged windows is the page of the fully sorted union. */
  lemma MergeAgrees(legs: seq<seq<Hit>>, from: nat, size: nat, merged: seq<Hit>, full: seq<Hit>, page: seq<Hit>)
    requires forall l :: l in legs ==> Sorted(l)
    requires Sorted(merged) && HitSet(merged) == Union(Takes(legs, from + size))
    requires Sorted(full) && HitSet(full) == Union(legs)
    ensures IsPage(page, merged, from, size) <==> IsPage(page, full, from, size)
  {
    hide Sorted, HitSet, Union, Takes;
    var window := from + size;
    WindowsCover(legs, window, merged, full);
    var k := Min(window, |full|);
    SamePrefix(merged, full, window, k);
    LongerSorted(merged, full);
    forall i | 0 <= i < k ensures merged[i] == full[i] {
      assert merged[..k][i] == full[..k][i];
    }
  }

  /** Every hit the windows keep is a hit, and the first `window` hits are kept. */
  lemma WindowsCover(legs: seq<seq<Hit>>, window: nat, merged: seq<Hit>, full: seq<Hit>)
    requires forall l :: l in legs ==> Sorted(l)
    requires HitSet(merged) == Union(Takes(legs, window))
    requires Sorted(full) && HitSet(full) == Union(legs)
    ensures HitSet(merged) <= HitSet(full)
    ensures forall i :: 0 <= i < |full| && i < window ==> full[i] in merged
  {
    forall h | h in HitSet(merged) ensures h in HitSet(full) {
      var l :| l in Takes(legs, window) && h in l;
      var i :| 0 <= i < |legs| && Takes(legs, window)[i] == l;
      assert legs[i] in legs && h in legs[i];
    }
    forall i | 0 <= i < |full| && i < window ensures full[i] in merged {
      assert full[i] in HitSet(full);
      var l :| l in legs && full[i] in l;
      var j :| 0 <= j < |l| && l[j] == full[i];
      assert HitSet(l) <= HitSet(full) by {
        forall h | h in HitSet(l) ensures h in HitSet(full) { assert h in Union(legs); }
      }
      RankGrows(l, full, j, i);
      assert Take(l, window)[j] == full[i];
      var n :| 0 <= n < |legs| && legs[n] == l;
      var kept := Takes(legs, window)[n];
      assert kept in Takes(legs, window) && full[i] in kept;
      assert full[i] in Union(Takes(legs, window));
    }
  }

  lemma LongerSorted(t: seq<Hit>, s: seq<Hit>)
    requires Sorted(t) && Sorted(s) && HitSet(t) <= HitSet(s)
    ensures |t| <= |s|
  {
    if |t| > 0 {
      var h := t[|t| - 1];
      assert h in HitSet(t) && h in s;
      var k :| 0 <= k < |s| && s[k] == h;
      RankGrows(t, s, |t| - 1, k);
    }
  }

  /** hits[from:min(window, len)], and nothing past the end. */
  function Page(hits: seq<Hit>, from: nat, window: nat): (page: seq<Hit>)
    requires from <= window
    ensures IsPage(page, hits, from, window - from)
  {
    if from < |hits| && from <= Min(window, |hits|) then hits[from..Min(window, |hits|)] else []
  }

  // ------------------------------------------------------------------- sorting

  /** Puts a hit in its place in a sorted list. */
  method Insert(s: seq<Hit>, h: Hit) returns (r: seq<Hit>)
    requires Sorted(s) && h !in s
    ensures Sorted(r) && HitSet(r) == HitSet(s) + {h} && |r| == |s| + 1
  {
    hide Sorted, Before, HitSet;
    var i := 0;
    while i < |s| && Before(s[i], h)
      invariant 0 <= i <= |s|
      invariant forall k :: 0 <= k < i ==> Before(s[k], h)
    {
      i := i + 1;
    }
    r := s[..i] + [h] + s[i..];
    Inserted(s, h, i);
  }

  lemma Inserted(s: seq<Hit>, h: Hit, i: nat)
    requires
      Sorted(s) && h !in s && i <= |s| && (forall k :: 0 <= k < i ==> Before(s[k], h)) && (i < |s| ==> !Before(s[i], h))
    ensures Sorted(s[..i] + [h] + s[i..]) && HitSet(s[..i] + [h] + s[i..]) == HitSet(s) + {h}
  {
    var r := s[..i] + [h] + s[i..];
    forall k | i <= k < |s| ensures Before(h, s[k]) {
      BeforeTotal(s[i], h);
      if k > i { BeforeTransitive(h, s[i], s[k]); }
    }
    hide Before;
    forall a, b | 0 <= a < b < |r| ensures Before(r[a], r[b]) {
      assert r[a] == if a < i then s[a] else if a == i then h else s[a - 1];
      assert r[b] == if b < i then s[b] else if b == i then h else s[b - 1];
    }
    assert s == s[..i] + s[i..];
    assert forall x :: x in r <==> x in s || x == h;
  }

  /** Sorts a leg's hits into the merge. */
  method MergeLeg(merged: seq<Hit>, leg: seq<Hit>) returns (r: seq<Hit>)
    requires Sorted(merged) && Sorted(leg) && forall h :: h in leg ==> h !in merged
    ensures Sorted(r) && HitSet(r) == HitSet(merged) + HitSet(leg) && |r| == |merged| + |leg|
  {
    r := merged;
    for i := 0 to |leg|
      invariant Sorted(r) && HitSet(r) == HitSet(merged) + HitSet(leg[..i]) && |r| == |merged| + i
    {
      assert leg[..i + 1] == leg[..i] + [leg[i]];
      NotYet(merged, leg, i, r);
      r := Insert(r, leg[i]);
    }
    assert leg[..|leg|] == leg;
  }

  lemma NotYet(merged: seq<Hit>, leg: seq<Hit>, i: nat, r: seq<Hit>)
    requires i < |leg| && Sorted(leg) && (forall h :: h in leg ==> h !in merged)
    requires HitSet(r) == HitSet(merged) + HitSet(leg[..i])
    ensures leg[i] !in r
  {
    forall k | 0 <= k < i ensures leg[k] != leg[i] { BeforeTotal(leg[k], leg[i]); }
    assert forall h :: h in r ==> h in HitSet(r);
  }

  // --------------------------------------------------------------------- paging

  const MAX_WINDOW: int := 10000

  newtype int32 = x: int | -0x8000_0000 <= x < 0x8000_0000
  newtype int64 = x: int | -0x8000_0000_0000_0000 <= x < 0x8000_0000_0000_0000

  /** pagingWindow, in int64: the products and sums never wrap, so exactly the
      pages whose window is past the limit are refused. */
  function PagingWindow(page: int32, size: int32): (r: Result<(int64, int64)>)
    ensures r.Err? <==> (page as int + 1) * size as int > MAX_WINDOW
    ensures
      r.Ok? ==> r.value.0 as int == page as int * size as int && r.value.1 as int == r.value.0 as int + size as int
  {
    ProductFits(page as int, size as int);
    var from := page as int64 * size as int64;
    var window := from + size as int64;
    if window > 10000 then Err else Ok((from, window))
  }

  lemma ProductBound(x: int, y: int)
    requires 0 <= x <= 0x8000_0000 && 0 <= y <= 0x8000_0000
    ensures 0 <= x * y <= 0x4000_0000_0000_0000
  {
    assert x * y <= 0x8000_0000 * y by { assert (0x8000_0000 - x) * y >= 0; }
  }

  lemma ProductFits(a: int, b: int)
    requires -0x8000_0000 <= a < 0x8000_0000 && -0x8000_0000 <= b < 0x8000_0000
    ensures -0x4000_0000_0000_0000 <= a * b <= 0x4000_0000_0000_0000
    ensures (a + 1) * b == a * b + b
  {
    var x, y := if a < 0 then -a else a, if b < 0 then -b else b;
    ProductBound(x, y);
    assert a * b == x * y || a * b == -(x * y);
  }

  // ------------------------------------------------------------------ the merge

  /** One Type of the fan-out, under its read alias and the concrete index that
      points to: skipped, or what its leg answers. Answered holds every hit of
      the leg's index, sorted, of which the leg returns a window. */
  datatype Answer = Answered(total: nat, hits: seq<Hit>) | Missing | Failed
  datatype Leg = Leg(alias: string, index: string, skipped: bool, answer: Answer)

  datatype Outcome = Outcome(hits: seq<Hit>, total: nat, counts: map<string, nat>)

  ghost function Answers(legs: seq<Leg>): seq<seq<Hit>> {
    if legs == [] then []
    else
      var last := legs[|legs| - 1];
      Answers(legs[..|legs| - 1]) + if !last.skipped && last.answer.Answered? then [last.answer.hits] else []
  }

  ghost function Totals(legs: seq<Leg>): nat {
    if legs == [] then 0
    else
      var last := legs[|legs| - 1];
      Totals(legs[..|legs| - 1]) + if !last.skipped && last.answer.Answered? then last.answer.total else 0
  }

  function CountOf(l: Leg): nat {
    if !l.skipped && l.answer.Answered? then l.answer.total else 0
  }

  lemma TakesAppend(legs: seq<seq<Hit>>, l: seq<Hit>, w: nat)
    ensures Union(Takes(legs + [l], w)) == Union(Takes(legs, w)) + HitSet(Take(l, w))
  {
    assert Takes(legs + [l], w) == Takes(legs, w) + [Take(l, w)];
    var all := Takes(legs, w);
    assert forall k :: k in all + [Take(l, w)] <==> k in all || k == Take(l, w);
  }

  /** Each leg's hits are its own index's, sorted. */
  ghost predicate LegsOwn(legs: seq<Leg>) {
    && (forall i, j :: 0 <= i < j < |legs| ==> legs[i].alias != legs[j].alias && legs[i].index != legs[j].index)
    && (forall l ::
          l in legs && l.answer.Answered? ==>
            Sorted(l.answer.hits) && forall h :: h in l.answer.hits ==> h.index == l.index)
  }

  /** Every hit is of one of the legs' indexes. */
  ghost predicate IndexesIn(hits: seq<Hit>, legs: seq<Leg>) {
    forall h :: h in hits ==> exists l :: l in legs && l.index == h.index
  }

  lemma MergedIndexes(hits: seq<Hit>, was: seq<Hit>, leg: seq<Hit>, legs: seq<Leg>, l: Leg)
    requires
      HitSet(hits) == HitSet(was) + HitSet(leg) && IndexesIn(was, legs) && forall h :: h in leg ==> h.index == l.index
    ensures IndexesIn(hits, legs + [l])
  {
    forall h | h in hits ensures exists k :: k in legs + [l] && k.index == h.index {
      assert h in HitSet(hits);
      if h in leg {
        assert l in legs + [l];
      } else {
        assert h in was;
        var k :| k in legs && k.index == h.index;
        assert k in legs + [l];
      }
    }
  }

  lemma TakeOwn(leg: seq<Hit>, w: nat)
    requires Sorted(leg)
    ensures Sorted(Take(leg, w)) && forall h :: h in Take(leg, w) ==> h in leg
  {
  }

  lemma AnswersAppend(legs: seq<Leg>, l: Leg)
    ensures
      Answers(legs + [l]) == if !l.skipped && l.answer.Answered? then Answers(legs) + [l.answer.hits] else Answers(legs)
    ensures Totals(legs + [l]) == Totals(legs) + CountOf(l)
  {
    assert (legs + [l])[..|legs|] == legs;
  }

  /** federatedFanout's merge: each leg is asked for its first `window` hits from
      0. A missing index empties its own leg only, and any other leg's failure
      fails the search. */
  method Merge(legs: seq<Leg>, from: nat, window: nat) returns (r: Result<Outcome>, ghost merged: seq<Hit>)
    requires LegsOwn(legs) && from <= window
    ensures r.Err? <==> exists l :: l in legs && !l.skipped && l.answer.Failed?
    ensures r.Ok? ==> Sorted(merged) && HitSet(merged) == Union(Takes(Answers(legs), window))
    ensures r.Ok? ==> IsPage(r.value.hits, merged, from, window - from) && r.value.total == Totals(legs)
    ensures r.Ok? ==> r.value.counts.Keys == (set l | l in legs :: l.alias)
    ensures r.Ok? ==> forall l :: l in legs ==> r.value.counts[l.alias] == CountOf(l)
  {
    hide Sorted, HitSet, Union, Answers, Totals, Before, IndexesIn, Take, Takes, IsPage;
    var hits: seq<Hit> := [];
    merged := [];
    var total := 0;
    var counts: map<string, nat> := map[];
    MergeStart(window);
    for i := 0 to |legs|
      invariant Sorted(hits) && HitSet(hits) == Union(Takes(Answers(legs[..i]), window)) && IndexesIn(hits, legs[..i])
      invariant total == Totals(legs[..i])
      invariant counts.Keys == set l | l in legs[..i] :: l.alias
      invariant forall l :: l in legs[..i] ==> counts[l.alias] == CountOf(l)
      invariant forall l :: l in legs[..i] ==> l.skipped || !l.answer.Failed?
    {
      var l := legs[i];
      assert legs[..i + 1] == legs[..i] + [l];
      assert l.alias !in counts;
      AnswersAppend(legs[..i], l);
      if l.skipped || l.answer.Missing? {
        MoreIndexes(hits, legs[..i], l);
        counts := counts[l.alias := 0];
        continue;
      }
      if l.answer.Failed? {
        return Err, merged;
      }
      TakesAppend(Answers(legs[..i]), l.answer.hits, window);
      TakeOwn(l.answer.hits, window);
      OtherIndexes(hits, legs, i, Take(l.answer.hits, window));
      ghost var was := hits;
      hits := MergeLeg(hits, Take(l.answer.hits, window));
      MergedIndexes(hits, was, Take(l.answer.hits, window), legs[..i], l);
      counts := counts[l.alias := l.answer.total];
      total := total + l.answer.total;
    }
    assert legs[..|legs|] == legs;
    merged := hits;
    r := Ok(Outcome(Page(hits, from, window), total, counts));
  }

  lemma MergeStart(window: nat)
    ensures Sorted([]) && HitSet([]) == Union(Takes(Answers([]), window)) && IndexesIn([], []) && Totals([]) == 0
  {
  }

  lemma MoreIndexes(hits: seq<Hit>, legs: seq<Leg>, l: Leg)
    requires IndexesIn(hits, legs)
    ensures IndexesIn(hits, legs + [l])
  {
    MergedIndexes(hits, hits, [], legs, l);
  }

  lemma OtherIndexes(hits: seq<Hit>, legs: seq<Leg>, i: nat, leg: seq<Hit>)
    requires
      LegsOwn(legs) && i < |legs| && IndexesIn(hits, legs[..i]) && forall h :: h in leg ==> h.index == legs[i].index
    ensures forall h :: h in leg ==> h !in hits
  {
    assert forall l :: l in legs[..i] ==> l.index != legs[i].index;
  }

  lemma AnswersSorted(legs: seq<Leg>)
    requires LegsOwn(legs)
    ensures forall l :: l in Answers(legs) ==> Sorted(l)
  {
    if legs != [] {
      var n := |legs| - 1;
      assert legs == legs[..n] + [legs[n]];
      AnswersSorted(legs[..n]);
    }
  }

  /** A page of the fan-out equals that page of the fully sorted union, whatever
      the legs' hits; it fails exactly past the paging limit or on a failed leg. */
  method FederatedFanout(legs: seq<Leg>, page: int32, size: int32, ghost full: seq<Hit>) returns (r: Result<Outcome>)
    requires LegsOwn(legs) && 0 <= page && 0 <= size
    requires Sorted(full) && HitSet(full) == Union(Answers(legs))
    ensures r.Err? <==>
      (page as int + 1) * size as int > MAX_WINDOW || exists l :: l in legs && !l.skipped && l.answer.Failed?
    ensures
      r.Ok? ==> IsPage(r.value.hits, full, page as int * size as int, size as int) && r.value.total == Totals(legs)
    ensures r.Ok? ==> r.value.counts.Keys == (set l | l in legs :: l.alias)
    ensures r.Ok? ==> forall l :: l in legs ==> r.value.counts[l.alias] == CountOf(l)
  {
    hide Sorted, HitSet, Union, Answers, Totals, LegsOwn, IsPage;
    var paging := PagingWindow(page, size);
    ProductFits(page as int, size as int);
    PageFits(page as int, size as int);
    if paging.Err? {
      return Err;
    }
    var from, window := paging.value.0 as nat, paging.value.1 as nat;
    ghost var merged;
    r, merged := Merge(legs, from, window);
    if r.Ok? {
      AnswersSorted(legs);
      MergeAgrees(Answers(legs), from, size as nat, merged, full, r.value.hits);
    }
  }

  lemma PageFits(page: nat, size: nat)
    ensures 0 <= page * size && (page + 1) * size == page * size + size
  {
  }
}
