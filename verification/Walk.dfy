// A rebuild's walk over the listings of its plans, and the batch answer that
// a walk of several plans must give for each id.

module WalkModel {
  import opened Rows
  import opened FlusherModel
  import opened FlusherEffects
  import opened FlusherState
  import opened FlusherSightings

  /** One listed item: a document with its relations, or a nil. */
  datatype Sighting = Sighting(id: Id, doc: bool, relations: seq<Resource>)

  /** One plan with an Executer, and everything its pages list. */
  datatype Plan = Plan(version: Version, items: seq<Sighting>)

  datatype Outcome = NotListed | Refused | Removed | Rebuilt

  /** The first n items list the id with, or without, a document. */
  ghost predicate Lists(items: seq<Sighting>, n: nat, id: Id, doc: bool) {
    exists i :: 0 <= i < n && i < |items| && items[i].id == id && items[i].doc == doc
  }

  ghost function AllVersions(walk: seq<Plan>): set<Version> {
    set k | 0 <= k < |walk| :: walk[k].version
  }

  /** The versions that said so far `doc` of the id: every plan before the k-th,
      and the first n items of the k-th. */
  ghost function Said(walk: seq<Plan>, k: nat, n: nat, id: Id, doc: bool): set<Version> {
    set j |
        && 0 <= j < |walk|
        && (|| (j < k && Lists(walk[j].items, |walk[j].items|, id, doc))
            || (j == k && Lists(walk[j].items, n, id, doc))) ::
      walk[j].version
  }

  /** What a walk owes an id, from its listings alone: refused if some plan
      listed it both with and without a document or some plan never listed it,
      removed if every plan found it gone, and otherwise rebuilt. */
  ghost function Batch(walk: seq<Plan>, id: Id): Outcome {
    var docs, nils := Said(walk, |walk|, 0, id, true), Said(walk, |walk|, 0, id, false);
    if docs == {} && nils == {} then NotListed
    else if docs * nils != {} || docs + nils != AllVersions(walk) then Refused
    else if docs == {} then Removed
    else Rebuilt
  }

  /** Plans have distinct Schema Versions, starting at 1. */
  ghost predicate Walkable(walk: seq<Plan>) {
    && (forall i, j :: 0 <= i < j < |walk| ==> walk[i].version != walk[j].version)
    && (forall i :: 0 <= i < |walk| ==> walk[i].version != 0)
  }

  function VersionSeq(walk: seq<Plan>): (r: seq<Version>)
    ensures |r| == |walk| && forall k :: 0 <= k < |walk| ==> r[k] == walk[k].version
  {
    seq(|walk|, k requires 0 <= k < |walk| => walk[k].version)
  }

  ghost function VersionsFrom(walk: seq<Plan>, k: nat): set<Version> {
    set j | k <= j < |walk| :: walk[j].version
  }

  lemma {:induction false} VersionsFromSize(walk: seq<Plan>, k: nat)
    requires Walkable(walk) && k <= |walk|
    ensures |VersionsFrom(walk, k)| == |walk| - k
    decreases |walk| - k
  {
    hide Walkable;
    if k < |walk| {
      VersionsFromSize(walk, k + 1);
      VersionsFromStep(walk, k);
    } else {
      assert VersionsFrom(walk, k) == {};
    }
  }

  lemma VersionsFromStep(walk: seq<Plan>, k: nat)
    requires Walkable(walk) && k < |walk|
    ensures VersionsFrom(walk, k) == {walk[k].version} + VersionsFrom(walk, k + 1)
    ensures walk[k].version !in VersionsFrom(walk, k + 1)
  {
    forall v | v in VersionsFrom(walk, k) ensures v == walk[k].version || v in VersionsFrom(walk, k + 1) {
      var j :| k <= j < |walk| && v == walk[j].version;
    }
  }

  // --------------------------------------------- the entries mirror the walk

  ghost predicate Sighted(walk: seq<Plan>, k: nat, n: nat, id: Id) {
    Said(walk, k, n, id, true) != {} || Said(walk, k, n, id, false) != {}
  }

  /** What an entry and its history say, against what the plans have listed. */
  ghost predicate Mirrored(walk: seq<Plan>, k: nat, n: nat, id: Id, e: Entry, h: Hist) {
    && (!e.failed ==>
         && h.docs == Said(walk, k, n, id, true) && h.nils == Said(walk, k, n, id, false)
         && h.expected <= AllVersions(walk) && VersionsFrom(walk, k) <= h.expected
         && (!e.partial ==> h.expected == AllVersions(walk)))
    && h.docs <= Said(walk, k, n, id, true) && h.nils <= Said(walk, k, n, id, false)
    && (e.partial ==>
          && k > 0
          && |walk| > 0
          && !Lists(walk[0].items, |walk[0].items|, id, true)
          && !Lists(walk[0].items, |walk[0].items|, id, false))
  }

  ghost predicate Mirror(walk: seq<Plan>, k: nat, n: nat, w: World)
    requires |walk| > 0
  {
    && w.hist.Keys == w.state.Keys
    && (forall id {:trigger Said(walk, k, n, id, true)} {:trigger id in w.state} ::
          id in w.state <==> id != "" && Sighted(walk, k, n, id))
    && (forall id {:trigger w.state[id]} {:trigger w.hist[id]} ::
          id in w.state ==> Mirrored(walk, k, n, id, w.state[id], w.hist[id]))
    && ClashesSaid(walk, k, n, w)
  }

  ghost predicate ClashesSaid(walk: seq<Plan>, k: nat, n: nat, w: World) {
    && (forall id {:trigger id in w.fx.clashed} ::
          id in w.fx.clashed ==> Said(walk, k, n, id, true) * Said(walk, k, n, id, false) != {})
    && (forall life {:trigger life in w.fx.begun} :: life in w.fx.begun ==> life.id in w.state)
  }

  /** One more item of the k-th plan. */
  lemma SaidStep(walk: seq<Plan>, k: nat, n: nat, id: Id, doc: bool)
    requires k < |walk| && n < |walk[k].items|
    ensures Said(walk, k, n + 1, id, doc) ==
            if walk[k].items[n].id == id && walk[k].items[n].doc == doc then Said(walk, k, n, id, doc) + {
              walk[k].version
            }
            else Said(walk, k, n, id, doc)
  {
    var items := walk[k].items;
    assert Lists(items, n + 1, id, doc) <==> Lists(items, n, id, doc) || (items[n].id == id && items[n].doc == doc);
    hide Lists;
  }

  lemma SaidPlan(walk: seq<Plan>, k: nat, id: Id, doc: bool)
    requires k < |walk|
    ensures Said(walk, k, |walk[k].items|, id, doc) == Said(walk, k + 1, 0, id, doc)
  {
    forall j | 0 <= j < |walk| ensures !Lists(walk[j].items, 0, id, doc) {}
  }

  lemma MirrorPlan(walk: seq<Plan>, k: nat, w: World)
    requires k < |walk| && Mirror(walk, k, |walk[k].items|, w)
    ensures Mirror(walk, k + 1, 0, w)
  {
    hide Said, Lists;
    forall id, doc ensures Said(walk, k, |walk[k].items|, id, doc) == Said(walk, k + 1, 0, id, doc) {
      SaidPlan(walk, k, id, doc);
    }
  }

  lemma MirrorStart(walk: seq<Plan>, w: World)
    requires |walk| > 0 && w.state == map[] && w.hist == map[] && w.fx == NoEffects
    ensures Mirror(walk, 0, 0, w)
  {
    forall id, doc ensures Said(walk, 0, 0, id, doc) == {} {}
  }

  lemma MirrorMoves(walk: seq<Plan>, k: nat, n: nat, w: World, w': World)
    requires |walk| > 0 && Mirror(walk, k, n, w) && Moves(w, w') && w.c.keepSettled
    ensures Mirror(walk, k, n, w')
  {
    hide Said, Lists, Grows, AllVersions, VersionsFrom;
    forall id | id in w'.state ensures Mirrored(walk, k, n, id, w'.state[id], w'.hist[id]) {
      assert Mirrored(walk, k, n, id, w.state[id], w.hist[id]);
      assert SameSightings(w.hist[id], w'.hist[id]) && Later(w.state[id], w'.state[id]);
    }
  }

  /** A skipped item: the document without a root id. */
  lemma MirrorSkip(walk: seq<Plan>, k: nat, n: nat, w: World)
    requires k < |walk| && n < |walk[k].items| && Mirror(walk, k, n, w) && walk[k].items[n].id == ""
    ensures Mirror(walk, k, n + 1, w)
  {
    hide Said, Lists, AllVersions, VersionsFrom;
    forall id, doc
      ensures
        && Said(walk, k, n, id, doc) <= Said(walk, k, n + 1, id, doc)
        && (id != "" ==> Said(walk, k, n + 1, id, doc) == Said(walk, k, n, id, doc))
    {
      SaidStep(walk, k, n, id, doc);
    }
    forall id | id in w.state ensures Mirrored(walk, k, n + 1, id, w.state[id], w.hist[id]) {
      assert Mirrored(walk, k, n, id, w.state[id], w.hist[id]);
    }
  }

  /** As Mirror, with the item's own id begun and its sighting still to come. */
  ghost predicate Mid(walk: seq<Plan>, k: nat, n: nat, w: World, own: Id) {
    && w.hist.Keys == w.state.Keys && own in w.state && own != ""
    && (forall id {:trigger Said(walk, k, n, id, true)} {:trigger id in w.state} ::
          id != own ==> (id in w.state <==> id != "" && Sighted(walk, k, n, id)))
    && (forall id {:trigger w.state[id]} {:trigger w.hist[id]} ::
          id in w.state ==> Mirrored(walk, k, n, id, w.state[id], w.hist[id]))
    && ClashesSaid(walk, k, n, w)
  }

  lemma MirrorBegin(walk: seq<Plan>, k: nat, n: nat, w: World, id: Id, e: Entry)
    requires k < |walk| && Mirror(walk, k, n, w) && id !in w.state && id != ""
    requires !e.failed && e.partial == (k != 0)
    ensures Mid(walk, k, n, BeginWorld(w, id, e, VersionsFrom(walk, k)), id)
  {
    var w' := BeginWorld(w, id, e, VersionsFrom(walk, k));
    hide Said, Lists, AllVersions, VersionsFrom, Mirrored, Sighted;
    forall j | j in w'.state ensures Mirrored(walk, k, n, j, w'.state[j], w'.hist[j]) {
      if j != id {
        assert Mirrored(walk, k, n, j, w.state[j], w.hist[j]);
      } else {
        MirrorBegun(walk, k, n, id, e);
      }
    }
  }

  lemma MirrorBegun(walk: seq<Plan>, k: nat, n: nat, id: Id, e: Entry)
    requires k < |walk| && !Sighted(walk, k, n, id) && !e.failed && e.partial == (k != 0)
    ensures Mirrored(walk, k, n, id, e, NoHist.(expected := VersionsFrom(walk, k)))
  {
    hide Said, Lists, AllVersions, VersionsFrom;
    FirstPlan(walk, k, n, id);
  }

  lemma FirstPlan(walk: seq<Plan>, k: nat, n: nat, id: Id)
    requires k < |walk|
    ensures VersionsFrom(walk, k) <= AllVersions(walk) && VersionsFrom(walk, 0) == AllVersions(walk)
    ensures !Sighted(walk, k, n, id) && k > 0 ==>
      !Lists(walk[0].items, |walk[0].items|, id, true) && !Lists(walk[0].items, |walk[0].items|, id, false)
  {
    hide Lists;
    if k > 0 {
      var all := |walk[0].items|;
      assert Lists(walk[0].items, all, id, true) ==> walk[0].version in Said(walk, k, n, id, true);
      assert Lists(walk[0].items, all, id, false) ==> walk[0].version in Said(walk, k, n, id, false);
    }
  }

  /** In a walk the documents an id has shown come from plans up to this one. */
  lemma SaidUpto(walk: seq<Plan>, k: nat, n: nat, id: Id, doc: bool, v: Version)
    requires Walkable(walk) && k < |walk| && v in Said(walk, k, n, id, doc)
    ensures Pos(VersionSeq(walk), v) <= Pos(VersionSeq(walk), walk[k].version)
  {
    var j :| 0 <= j < |walk| && j <= k && walk[j].version == v;
    hide Pos, Said;
    PosOf(VersionSeq(walk), j);
    PosOf(VersionSeq(walk), k);
  }

  lemma MidInOrder(walk: seq<Plan>, k: nat, n: nat, w: World, id: Id)
    requires Walkable(walk) && k < |walk| && w.c.plans == VersionSeq(walk)
    requires id in w.state && id in w.hist && Mirrored(walk, k, n, id, w.state[id], w.hist[id])
    ensures InOrder(w, id, walk[k].version)
  {
    hide Pos, Said, AllVersions;
    forall d | d in w.hist[id].docs && !w.state[id].failed
      ensures Pos(w.c.plans, d) <= Pos(w.c.plans, walk[k].version)
    {
      SaidUpto(walk, k, n, id, true, d);
    }
    assert walk[k].version in VersionsFrom(walk, k);
  }

  /** The sighting enters the mirror. */
  lemma MirrorSees(walk: seq<Plan>, k: nat, n: nat, w: World, w': World)
    requires k < |walk| && n < |walk[k].items| && w.c.keepSettled
    requires Mid(walk, k, n, w, walk[k].items[n].id)
    requires Sees(w, w', walk[k].items[n].id, walk[k].version, walk[k].items[n].doc, walk[k].items[n].relations)
    ensures Mirror(walk, k, n + 1, w')
  {
    hide Lists, Grows, AllVersions, VersionsFrom, Said, Mirrored, Clashes;
    var own, doc, v := walk[k].items[n].id, walk[k].items[n].doc, walk[k].version;
    forall id | id in w'.state ensures Mirrored(walk, k, n + 1, id, w'.state[id], w'.hist[id]) {
      MirroredSees(walk, k, n, w, w', id);
    }
    ClashesSees(walk, k, n, w, w');
    forall id ensures id in w'.state <==> id != "" && Sighted(walk, k, n + 1, id) {
      SaidStep(walk, k, n, id, true);
      SaidStep(walk, k, n, id, false);
      if id == own { assert v in Said(walk, k, n + 1, id, doc); }
    }
  }

  lemma MirroredSees(walk: seq<Plan>, k: nat, n: nat, w: World, w': World, id: Id)
    requires k < |walk| && n < |walk[k].items| && id in w'.state
    requires Mid(walk, k, n, w, walk[k].items[n].id)
    requires Sees(w, w', walk[k].items[n].id, walk[k].version, walk[k].items[n].doc, walk[k].items[n].relations)
    ensures Mirrored(walk, k, n + 1, id, w'.state[id], w'.hist[id])
  {
    hide Lists, Grows, AllVersions, VersionsFrom, Said;
    SaidStep(walk, k, n, id, true);
    SaidStep(walk, k, n, id, false);
    assert Mirrored(walk, k, n, id, w.state[id], w.hist[id]);
    assert Later(w.state[id], w'.state[id]);
    var own, doc, v := walk[k].items[n].id, walk[k].items[n].doc, walk[k].version;
    assert
      SameSightings(
        if id == own && !w.state[id].failed && !Clashes(w, own, v, doc) then
          SeenBy(w.state[id], w.hist[id], v, doc, walk[k].items[n].relations)
        else w.hist[id],
        w'.hist[id]);
  }

  lemma ClashesSees(walk: seq<Plan>, k: nat, n: nat, w: World, w': World)
    requires k < |walk| && n < |walk[k].items| && w.c.keepSettled
    requires Mid(walk, k, n, w, walk[k].items[n].id)
    requires Sees(w, w', walk[k].items[n].id, walk[k].version, walk[k].items[n].doc, walk[k].items[n].relations)
    ensures ClashesSaid(walk, k, n + 1, w')
  {
    hide Lists, Grows, AllVersions, VersionsFrom, Said;
    var own, doc, v := walk[k].items[n].id, walk[k].items[n].doc, walk[k].version;
    forall id | id in w'.fx.clashed ensures Said(walk, k, n + 1, id, true) * Said(walk, k, n + 1, id, false) != {} {
      SaidStep(walk, k, n, id, true);
      SaidStep(walk, k, n, id, false);
      if id in w.fx.clashed {
        var u :| u in Said(walk, k, n, id, true) * Said(walk, k, n, id, false);
        assert u in Said(walk, k, n + 1, id, true) * Said(walk, k, n + 1, id, false);
      } else {
        assert id == own && Clashes(w, own, v, doc);
        assert Mirrored(walk, k, n, id, w.state[id], w.hist[id]);
        assert v in Said(walk, k, n + 1, id, true) * Said(walk, k, n + 1, id, false);
      }
    }
  }

  /** An item whose begin failed. */
  lemma MirrorFail(walk: seq<Plan>, k: nat, n: nat, w: World, ok: bool)
    requires
      && k < |walk|
      && n < |walk[k].items|
      && Mirror(walk, k, n, w)
      && walk[k].items[n].id != ""
      && walk[k].items[n].id !in w.state
    ensures Mirror(walk, k, n + 1, FailWorld(w, walk[k].items[n].id, ok))
  {
    hide Lists, AllVersions, VersionsFrom, Said, Without;
    var own, doc, v := walk[k].items[n].id, walk[k].items[n].doc, walk[k].version;
    var w' := FailWorld(w, own, ok);
    forall id | id in w'.state ensures Mirrored(walk, k, n + 1, id, w'.state[id], w'.hist[id]) {
      SaidStep(walk, k, n, id, true);
      SaidStep(walk, k, n, id, false);
      if id != own { assert Mirrored(walk, k, n, id, w.state[id], w.hist[id]); }
    }
    forall id ensures id in w'.state <==> id != "" && Sighted(walk, k, n + 1, id) {
      SaidStep(walk, k, n, id, true);
      SaidStep(walk, k, n, id, false);
      if id == own { assert v in Said(walk, k, n + 1, id, doc); }
    }
    forall id | id in w'.fx.clashed ensures Said(walk, k, n + 1, id, true) * Said(walk, k, n + 1, id, false) != {} {
      SaidStep(walk, k, n, id, true);
      SaidStep(walk, k, n, id, false);
      var u :| u in Said(walk, k, n, id, true) * Said(walk, k, n, id, false);
      assert u in Said(walk, k, n + 1, id, true) * Said(walk, k, n + 1, id, false);
    }
  }

  // ------------------------------------------------------------------ the end

  /** The entry of each id, when a reliable walk of several plans has flushed
      its last chunk, answers as the batch answer does. */
  lemma EndEntry(walk: seq<Plan>, w: World, id: Id)
    requires |walk| > 0 && Good(w) && Idle(w) && w.pending == [] && w.c.reliable && w.c.keepSettled
    requires Mirror(walk, |walk|, 0, w) && id != "" && Walkable(walk)
    ensures Batch(walk, id) == NotListed <==> id !in w.state
    ensures Batch(walk, id) == Refused <==> id in w.state && (w.state[id].failed || w.state[id].settled == Unsettled)
    ensures id in w.state && !w.state[id].failed && w.state[id].settled != Unsettled ==>
      && Life(id, w.state[id].occ) in w.fx.settled
      && w.fx.settled[Life(id, w.state[id].occ)].docs == Said(walk, |walk|, 0, id, true)
      && w.fx.settled[Life(id, w.state[id].occ)].nils == Said(walk, |walk|, 0, id, false)
      && id in w.hist && w.fx.settled[Life(id, w.state[id].occ)] == w.hist[id]
  {
    hide Good, Said, Lists, AllVersions, VersionsFrom, Clean, Stored, Queue;
    if id in w.state {
      Standing(w, id);
      var e, h := w.state[id], w.hist[id];
      assert Mirrored(walk, |walk|, 0, id, e, h);
      assert Sighted(walk, |walk|, 0, id);
      QueueEmpty(w.queue, id);
      if e.failed {
        BlameOf(w, id);
        if e.partial { Omitted(walk, id); }
      } else if e.settled == Unsettled {
        Unanswered(walk, w, id);
      } else {
        Answered(e, h, w.c.plans);
      }
    } else {
      assert !Sighted(walk, |walk|, 0, id);
    }
  }

  lemma BlameOf(w: World, id: Id)
    requires Good(w) && w.c.reliable && id in w.state && w.state[id].failed
    ensures w.state[id].partial || id in w.fx.clashed
  {
  }

  /** A plan that never listed the id leaves the batch answer refused. */
  lemma Omitted(walk: seq<Plan>, id: Id)
    requires
      && |walk| > 0
      && !Lists(walk[0].items, |walk[0].items|, id, true)
      && !Lists(walk[0].items, |walk[0].items|, id, false)
    requires Walkable(walk)
    ensures Said(walk, |walk|, 0, id, true) + Said(walk, |walk|, 0, id, false) != AllVersions(walk)
  {
    assert walk[0].version in AllVersions(walk);
  }

  lemma Unanswered(walk: seq<Plan>, w: World, id: Id)
    requires Good(w) && Idle(w) && w.pending == [] && |walk| > 0 && Mirror(walk, |walk|, 0, w)
    requires id in w.state && !w.state[id].failed && w.state[id].settled == Unsettled
    ensures Said(walk, |walk|, 0, id, true) + Said(walk, |walk|, 0, id, false) != AllVersions(walk)
  {
    hide Good, Said, Lists, AllVersions, VersionsFrom, Clean, Stored, Queue;
    Standing(w, id);
    QueueEmpty(w.queue, id);
    var e, h := w.state[id], w.hist[id];
    assert Mirrored(walk, |walk|, 0, id, e, h);
    assert Awaiting(e, h, Queue(w.queue, id));
    var none: seq<Version> := [];
    assert Flows(h, none, w.c.plans);
    assert forall v :: v in h.docs <==> v in h.counted || v in none;
    assert h.docs == h.counted;
    assert |h.docs + h.nils| == |h.docs| + |h.nils|;
    assert h.docs + h.nils != h.expected;
  }
}
