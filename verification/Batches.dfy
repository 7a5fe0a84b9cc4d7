// How a Build call and a sweep cut their ids into batches.

module Batches {
  import opened Rows

  /** A claimed resource and its owner token. */
  datatype Owned = Owned(res: Resource, token: nat)

  function Flatten<T>(batches: seq<seq<T>>): (r: seq<T>) {
    if batches == [] then [] else Flatten(batches[..|batches| - 1]) + batches[|batches| - 1]
  }

  lemma FlattenAppend<T>(batches: seq<seq<T>>, b: seq<T>)
    ensures Flatten(batches + [b]) == Flatten(batches) + b
  {
    assert (batches + [b])[..|batches|] == batches;
  }

  lemma {:induction false} FlattenHas<T>(batches: seq<seq<T>>, i: nat, o: T)
    requires i < |batches| && o in batches[i]
    ensures o in Flatten(batches)
  {
    var n := |batches| - 1;
    if i < n {
      FlattenHas(batches[..n], i, o);
    }
  }

  /** The ids in order of first appearance. */
  function FirstSeen(ids: seq<string>): (r: seq<string>) {
    if ids == [] then []
    else
      var before := FirstSeen(ids[..|ids| - 1]);
      if ids[|ids| - 1] in before then before else before + [ids[|ids| - 1]]
  }

  lemma {:induction false} FirstSeenIs(ids: seq<string>)
    ensures forall id :: id in FirstSeen(ids) <==> id in ids
    ensures forall i, j :: 0 <= i < j < |FirstSeen(ids)| ==> FirstSeen(ids)[i] != FirstSeen(ids)[j]
  {
    if ids != [] {
      var n := |ids| - 1;
      FirstSeenIs(ids[..n]);
      assert ids == ids[..n] + [ids[n]];
    }
  }

  lemma FirstSeenAppend(ids: seq<string>, id: string)
    ensures FirstSeen(ids + [id]) == if id in FirstSeen(ids) then FirstSeen(ids) else FirstSeen(ids) + [id]
  {
    assert (ids + [id])[..|ids|] == ids;
  }

  lemma NothingSeen()
    ensures FirstSeen([]) == [] && Flatten<string>([]) == []
  {
  }

  /** idBatches: the ids once each, in order, in batches that are full but for
      the last. */
  method IdBatches(ids: seq<string>, size: nat) returns (out: seq<seq<string>>)
    ensures Flatten(out) == FirstSeen(ids)
    ensures forall i :: 0 <= i < |out| ==> out[i] != [] && (size > 0 ==> |out[i]| <= size)
    ensures size > 0 ==> forall i :: 0 <= i < |out| - 1 ==> |out[i]| == size
  {
    hide Flatten, FirstSeen;
    NothingSeen();
    out := [];
    var seen: set<string> := {};
    var cur: seq<string> := [];
    for i := 0 to |ids|
      invariant Flatten(out) + cur == FirstSeen(ids[..i])
      invariant forall id :: id in seen <==> id in FirstSeen(ids[..i])
      invariant (out != [] ==> size > 0) && forall k :: 0 <= k < |out| ==> |out[k]| == size
      invariant size > 0 ==> |cur| < size
    {
      assert ids[..i + 1] == ids[..i] + [ids[i]];
      FirstSeenAppend(ids[..i], ids[i]);
      if ids[i] in seen {
        continue;
      }
      seen := seen + {ids[i]};
      assert Flatten(out) + (cur + [ids[i]]) == (Flatten(out) + cur) + [ids[i]];
      cur := cur + [ids[i]];
      assert |cur| > 0;
      if |cur| == size {
        FlattenAppend(out, cur);
        var more := out + [cur];
        forall k | 0 <= k < |more| ensures |more[k]| == size { assert k < |out| ==> more[k] == out[k]; }
        out, cur := more, [];
      }
    }
    assert ids[..|ids|] == ids;
    if |cur| > 0 {
      FlattenAppend(out, cur);
      out := out + [cur];
    }
  }

  // ------------------------------------------------------------ owned batches

  /** The claimed entries of one type, in input order. */
  function OfType(owned: seq<Owned>, typ: string): (r: seq<Owned>) {
    if owned == [] then []
    else
      var last := owned[|owned| - 1];
      OfType(owned[..|owned| - 1], typ) + if last.token != 0 && last.res.typ == typ then [last] else []
  }

  lemma OfTypeAppend(owned: seq<Owned>, o: Owned, typ: string)
    ensures OfType(owned + [o], typ) == OfType(owned, typ) + if o.token != 0 && o.res.typ == typ then [o] else []
  {
    assert (owned + [o])[..|owned|] == owned;
  }

  lemma {:induction false} OfTypeIs(owned: seq<Owned>, typ: string)
    ensures forall o :: o in OfType(owned, typ) <==> o in owned && o.token != 0 && o.res.typ == typ
  {
    if owned != [] {
      var n := |owned| - 1;
      OfTypeIs(owned[..n], typ);
      assert owned == owned[..n] + [owned[n]];
    }
  }

  /** The types of the claimed entries, in order of their first entry. */
  function TypesOf(owned: seq<Owned>): (r: seq<string>) {
    if owned == [] then []
    else
      var before, last := TypesOf(owned[..|owned| - 1]), owned[|owned| - 1];
      if last.token == 0 || last.res.typ in before then before else before + [last.res.typ]
  }

  lemma {:induction false} TypesOfIs(owned: seq<Owned>)
    ensures forall t :: t in TypesOf(owned) <==> exists o :: o in owned && o.token != 0 && o.res.typ == t
    ensures forall i, j :: 0 <= i < j < |TypesOf(owned)| ==> TypesOf(owned)[i] != TypesOf(owned)[j]
  {
    if owned != [] {
      var n := |owned| - 1;
      TypesOfIs(owned[..n]);
      assert owned == owned[..n] + [owned[n]];
    }
  }

  /** What ownedBatches flattens to: the types in order, each one's claimed
      entries in input order. */
  function ByTypes(owned: seq<Owned>, types: seq<string>): (r: seq<Owned>) {
    if types == [] then [] else ByTypes(owned, types[..|types| - 1]) + OfType(owned, types[|types| - 1])
  }

  /** A batch serves claimed entries of one type, at most its size. */
  ghost predicate OneType(b: seq<Owned>, typ: string, size: nat) {
    b != [] && |b| <= size && forall o :: o in b ==> o.res.typ == typ && o.token != 0
  }

  ghost predicate Sized(b: seq<Owned>, size: map<string, nat>, base: nat) {
    exists t :: OneType(b, t, SizeOf(size, base, t))
  }

  /** ownedBatches: batches of one type each, none above its type's size, that
      drop an entry without a token and keep every other, in order. */
  method OwnedBatches(owned: seq<Owned>, size: map<string, nat>, base: nat) returns (out: seq<seq<Owned>>)
    requires base > 0 && forall t :: t in size ==> size[t] > 0
    ensures Flatten(out) == ByTypes(owned, TypesOf(owned))
    ensures forall b :: b in out ==> Sized(b, size, base)
  {
    hide Flatten, OfType, TypesOf, OneType, Sized;
    var types, byType := GroupByType(owned);
    TypesOfIs(owned);
    out := [];
    FlattenNone();
    for i := 0 to |types|
      invariant Flatten(out) == ByTypes(owned, types[..i])
      invariant forall b :: b in out ==> Sized(b, size, base)
    {
      OfTypeIs(owned, types[i]);
      assert byType[types[i]] != [];
      var cut := CutType(byType[types[i]], types[i], SizeOf(size, base, types[i]));
      forall b | b in cut ensures Sized(b, size, base) { SizedBy(b, size, base, types[i]); }
      assert types[..i + 1][..i] == types[..i];
      FlattenJoin(out, cut);
      out := out + cut;
    }
    assert types[..|types|] == types;
  }

  lemma FlattenNone()
    ensures Flatten<Owned>([]) == []
  {
  }

  lemma SizedBy(b: seq<Owned>, size: map<string, nat>, base: nat, t: string)
    requires OneType(b, t, SizeOf(size, base, t))
    ensures Sized(b, size, base)
  {
  }

  lemma NoTypes()
    ensures TypesOf([]) == [] && forall t :: OfType([], t) == []
  {
  }

  lemma TypesOfAppend(owned: seq<Owned>, o: Owned)
    ensures
      TypesOf(owned + [o]) ==
        if o.token == 0 || o.res.typ in TypesOf(owned) then TypesOf(owned) else TypesOf(owned) + [o.res.typ]
  {
    assert (owned + [o])[..|owned|] == owned;
  }

  method GroupByType(owned: seq<Owned>) returns (types: seq<string>, byType: map<string, seq<Owned>>)
    ensures types == TypesOf(owned)
    ensures forall t :: t in byType <==> t in types
    ensures forall t :: t in byType ==> byType[t] == OfType(owned, t) && byType[t] != []
  {
    hide OfType, TypesOf;
    NoTypes();
    types, byType := [], map[];
    for i := 0 to |owned|
      invariant types == TypesOf(owned[..i])
      invariant forall t :: t in byType <==> t in types
      invariant forall t :: (if t in byType then byType[t] else []) == OfType(owned[..i], t)
      invariant forall t :: t in byType ==> byType[t] != []
    {
      var o := owned[i];
      assert owned[..i + 1] == owned[..i] + [o];
      forall t
        ensures OfType(owned[..i + 1], t) == OfType(owned[..i], t) + if o.token != 0 && o.res.typ == t then [o] else []
      {
        OfTypeAppend(owned[..i], o, t);
      }
      TypesOfAppend(owned[..i], o);
      if o.token == 0 {
        continue;
      }
      if o.res.typ !in byType {
        types := types + [o.res.typ];
      }
      byType := byType[o.res.typ := (if o.res.typ in byType then byType[o.res.typ] else []) + [o]];
    }
    assert owned[..|owned|] == owned;
  }

  function SizeOf(size: map<string, nat>, base: nat, t: string): nat {
    if t in size then size[t] else base
  }

  lemma {:induction false} FlattenJoin<T>(a: seq<seq<T>>, b: seq<seq<T>>)
    ensures Flatten(a + b) == Flatten(a) + Flatten(b)
  {
    if b == [] {
      assert a + b == a;
    } else {
      var n := |b| - 1;
      FlattenJoin(a, b[..n]);
      assert (a + b)[..|a + b| - 1] == a + b[..n];
    }
  }

  /** One type's entries, cut into batches of `size`. */
  method CutType(entries: seq<Owned>, typ: string, size: nat) returns (out: seq<seq<Owned>>)
    requires size > 0 && entries != [] && forall o :: o in entries ==> o.res.typ == typ && o.token != 0
    ensures Flatten(out) == entries
    ensures forall b :: b in out ==> OneType(b, typ, size)
  {
    hide Flatten;
    out := [];
    FlattenNone();
    var all := entries;
    while |all| > size
      invariant all != [] && Flatten(out) + all == entries
      invariant forall o :: o in all ==> o in entries
      invariant forall b :: b in out ==> OneType(b, typ, size)
      decreases |all|
    {
      var b, rest := all[..size], all[size..];
      FlattenAppend(out, b);
      assert all == b + rest && OneType(b, typ, size);
      assert (Flatten(out) + b) + rest == Flatten(out) + all;
      out, all := out + [b], rest;
    }
    FlattenAppend(out, all);
    out := out + [all];
  }

  /** Nothing claimed is lost and nothing is claimed twice. */
  lemma {:induction false} ByTypesKeeps(owned: seq<Owned>, types: seq<string>, o: Owned)
    requires forall i, j :: 0 <= i < j < |types| ==> types[i] != types[j]
    ensures multiset(ByTypes(owned, types))[o] == if o.res.typ in types && o.token != 0 then multiset(owned)[o] else 0
  {
    hide OfType;
    if types != [] {
      var n := |types| - 1;
      ByTypesKeeps(owned, types[..n], o);
      OfTypeCounts(owned, types[n], o);
      assert types == types[..n] + [types[n]];
      assert types[n] !in types[..n];
    }
  }

  lemma {:induction false} OfTypeCounts(owned: seq<Owned>, typ: string, o: Owned)
    ensures multiset(OfType(owned, typ))[o] == if o.res.typ == typ && o.token != 0 then multiset(owned)[o] else 0
  {
    if owned != [] {
      var n := |owned| - 1;
      OfTypeCounts(owned[..n], typ, o);
      assert owned == owned[..n] + [owned[n]];
    }
  }

  /** The batches hold exactly the entries with a token, each as often as given. */
  lemma BatchesKeepEvery(owned: seq<Owned>, o: Owned)
    ensures multiset(ByTypes(owned, TypesOf(owned)))[o] == if o.token != 0 then multiset(owned)[o] else 0
  {
    TypesOfIs(owned);
    ByTypesKeeps(owned, TypesOf(owned), o);
    if o.token != 0 && o in owned { assert o.res.typ in TypesOf(owned); }
  }
}
