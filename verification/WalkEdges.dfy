// What a walk of several plans stores of the children its documents fetched,
// read off the listings: each plan's last document of an id decides, but a
// repeat that the last plan lists after the id settled is ignored.

module WalkEdges {
  import opened Wrappers
  import opened Rows
  import opened FlusherModel
  import opened FlusherEffects
  import opened FlusherState
  import opened FlusherSightings
  import opened WalkModel

  /** The children of the last document of the id among the first n items. */
  ghost function LastListed(items: seq<Sighting>, n: nat, id: Id): Option<seq<Resource>>
    requires n <= |items|
  {
    if n == 0 then None
    else if items[n - 1].id == id && items[n - 1].doc then Some(items[n - 1].relations)
    else LastListed(items, n - 1, id)
  }

  /** The children of the first one. */
  ghost function FirstListed(items: seq<Sighting>, n: nat, id: Id): Option<seq<Resource>>
    requires n <= |items|
  {
    if n == 0 then None
    else if FirstListed(items, n - 1, id).Some? then FirstListed(items, n - 1, id)
    else if items[n - 1].id == id && items[n - 1].doc then Some(items[n - 1].relations)
    else None
  }

  /** Some document of the id among the first n items fetched these children. */
  ghost predicate Fetches(items: seq<Sighting>, n: nat, id: Id, rels: seq<Resource>) {
    exists i :: 0 <= i < n && i < |items| && items[i].id == id && items[i].doc && items[i].relations == rels
  }

  lemma {:induction false} NoneListed(items: seq<Sighting>, n: nat, id: Id)
    requires n <= |items| && !Lists(items, n, id, true)
    ensures FirstListed(items, n, id) == None
  {
    if n > 0 {
      assert !Lists(items, n - 1, id, true);
      NoneListed(items, n - 1, id);
    }
  }

  // ------------------------------------------------------- as the walk goes on

  /** How many items of the j-th plan the walk has met. */
  function Met(walk: seq<Plan>, k: nat, n: nat, j: nat): nat
    requires j < |walk|
  {
    if j < k then |walk[j].items| else if j == k then n else 0
  }

  ghost predicate Place(walk: seq<Plan>, k: nat, n: nat) {
    k <= |walk| && (k < |walk| ==> n <= |walk[k].items|)
  }

  /** The children an entry's history holds of the j-th plan: its last document's
      so far, and once the id has settled, of the last plan, those of a document
      it listed: with a chunk size of one, the first. */
  ghost predicate ToldBy(walk: seq<Plan>, k: nat, n: nat, one: bool, j: nat, id: Id, e: Entry, h: Hist)
    requires Place(walk, k, n) && j < |walk|
  {
    var items, m, v := walk[j].items, Met(walk, k, n, j), walk[j].version;
    && v in h.last && Fetches(items, m, id, h.last[v])
    && (e.settled == Unsettled || j + 1 < |walk| ==> LastListed(items, m, id) == Some(h.last[v]))
    && (one && e.settled != Unsettled && j + 1 == |walk| ==> FirstListed(items, m, id) == Some(h.last[v]))
  }

  ghost predicate Told(walk: seq<Plan>, k: nat, n: nat, one: bool, id: Id, e: Entry, h: Hist)
    requires Place(walk, k, n)
  {
    !e.failed ==> forall j {:trigger walk[j]} ::
      0 <= j < |walk| && walk[j].version in h.docs ==> ToldBy(walk, k, n, one, j, id, e, h)
  }

  ghost predicate AllTold(walk: seq<Plan>, k: nat, n: nat, one: bool, w: World)
    requires Place(walk, k, n)
  {
    w.hist.Keys == w.state.Keys &&
    forall id {:trigger w.state[id]} {:trigger w.hist[id]} ::
      id in w.state ==> Told(walk, k, n, one, id, w.state[id], w.hist[id])
  }

  lemma TellPlan(walk: seq<Plan>, k: nat, one: bool, w: World)
    requires k < |walk| && AllTold(walk, k, |walk[k].items|, one, w)
    ensures AllTold(walk, k + 1, 0, one, w)
  {
    hide Fetches, LastListed, FirstListed;
    forall id | id in w.state ensures Told(walk, k + 1, 0, one, id, w.state[id], w.hist[id]) {
      assert Told(walk, k, |walk[k].items|, one, id, w.state[id], w.hist[id]);
    }
  }

  /** A flush may settle ids, which with a chunk size of one it never does
      between items. */
  lemma TellMoves(walk: seq<Plan>, k: nat, n: nat, one: bool, w: World, w': World)
    requires Place(walk, k, n) && AllTold(walk, k, n, one, w) && Moves(w, w') && (one ==> w' == w)
    ensures AllTold(walk, k, n, one, w')
  {
    hide Fetches, LastListed, FirstListed, Grows;
    forall id | id in w'.state ensures Told(walk, k, n, one, id, w'.state[id], w'.hist[id]) {
      assert Told(walk, k, n, one, id, w.state[id], w.hist[id]);
      assert Later(w.state[id], w'.state[id]) && SameSightings(w.hist[id], w'.hist[id]);
    }
  }

  /** An item of another id, or a nil, tells this id's children nothing. */
  lemma FetchesOn(walk: seq<Plan>, k: nat, n: nat, j: nat, id: Id)
    requires k < |walk| && n < |walk[k].items| && j < |walk|
    requires j != k || walk[k].items[n].id != id || !walk[k].items[n].doc
    ensures LastListed(walk[j].items, Met(walk, k, n + 1, j), id) == LastListed(walk[j].items, Met(walk, k, n, j), id)
    ensures FirstListed(walk[j].items, Met(walk, k, n + 1, j), id) == FirstListed(walk[j].items, Met(walk, k, n, j), id)
  {
  }

  lemma FetchesMore(items: seq<Sighting>, n: nat, m: nat, id: Id, rels: seq<Resource>)
    requires Fetches(items, n, id, rels) && n <= m
    ensures Fetches(items, m, id, rels)
  {
  }

  lemma ToldOn(walk: seq<Plan>, k: nat, n: nat, one: bool, j: nat, id: Id, e: Entry, h: Hist)
    requires k < |walk| && n < |walk[k].items| && j < |walk| && ToldBy(walk, k, n, one, j, id, e, h)
    requires j != k || walk[k].items[n].id != id || !walk[k].items[n].doc
    ensures ToldBy(walk, k, n + 1, one, j, id, e, h)
  {
    hide Fetches, LastListed, FirstListed;
    FetchesOn(walk, k, n, j, id);
    FetchesMore(walk[j].items, Met(walk, k, n, j), Met(walk, k, n + 1, j), id, h.last[walk[j].version]);
  }

  lemma TellSkip(walk: seq<Plan>, k: nat, n: nat, one: bool, w: World)
    requires k < |walk| && n < |walk[k].items| && AllTold(walk, k, n, one, w) && walk[k].items[n].id !in w.state
    ensures AllTold(walk, k, n + 1, one, w)
  {
    hide ToldBy;
    forall id | id in w.state ensures Told(walk, k, n + 1, one, id, w.state[id], w.hist[id]) {
      assert Told(walk, k, n, one, id, w.state[id], w.hist[id]);
      forall j | 0 <= j < |walk| && walk[j].version in w.hist[id].docs && !w.state[id].failed
        ensures ToldBy(walk, k, n + 1, one, j, id, w.state[id], w.hist[id])
      {
        ToldOn(walk, k, n, one, j, id, w.state[id], w.hist[id]);
      }
    }
  }

  lemma TellBegin(walk: seq<Plan>, k: nat, n: nat, one: bool, w: World, id: Id, e: Entry, versions: set<Version>)
    requires Place(walk, k, n) && AllTold(walk, k, n, one, w) && id !in w.state
    ensures AllTold(walk, k, n, one, BeginWorld(w, id, e, versions))
  {
    hide ToldBy;
    var w' := BeginWorld(w, id, e, versions);
    forall j | j in w'.state ensures Told(walk, k, n, one, j, w'.state[j], w'.hist[j]) {
      if j != id { assert Told(walk, k, n, one, j, w.state[j], w.hist[j]); }
    }
  }

  /** An item whose begin failed. */
  lemma TellFail(walk: seq<Plan>, k: nat, n: nat, one: bool, w: World, ok: bool)
    requires k < |walk| && n < |walk[k].items| && AllTold(walk, k, n, one, w) && walk[k].items[n].id !in w.state
    ensures AllTold(walk, k, n + 1, one, FailWorld(w, walk[k].items[n].id, ok))
  {
    hide ToldBy, Without;
    TellSkip(walk, k, n, one, w);
    var w' := FailWorld(w, walk[k].items[n].id, ok);
    forall id | id in w'.state ensures Told(walk, k, n + 1, one, id, w'.state[id], w'.hist[id]) {
      if id in w.state { assert Told(walk, k, n + 1, one, id, w.state[id], w.hist[id]); }
    }
  }

  // ------------------------------------------------------------- one sighting

  /** Between items, with nothing queued, an unsettled id still misses an
      outcome. */
  lemma Misses(w: World, id: Id)
    requires Good(w) && Idle(w) && w.pending == [] && id in w.state && id in w.hist
    requires !w.state[id].failed && w.state[id].settled == Unsettled && w.hist[id].expected != {}
    ensures w.hist[id].docs + w.hist[id].nils != w.hist[id].expected
  {
    hide Good, Clean, Stored, Queue, EdgedOne, WatchedBut;
    Standing(w, id);
    QueueEmpty(w.queue, id);
    var e, h := w.state[id], w.hist[id];
    assert Awaiting(e, h, Queue(w.queue, id));
    var none: seq<Version> := [];
    assert Flows(h, none, w.c.plans);
    assert forall v :: v in h.docs <==> v in h.counted || v in none;
    assert h.docs == h.counted;
    assert |h.docs + h.nils| == |h.docs| + |h.nils|;
  }

  /** A settled id has every outcome. */
  lemma HasAll(w: World, id: Id)
    requires Good(w) && id in w.state && id in w.hist && !w.state[id].failed && w.state[id].settled != Unsettled
    ensures w.hist[id].docs + w.hist[id].nils == w.hist[id].expected
  {
    hide Good, Clean, Stored, Queue, EdgedOne;
    Standing(w, id);
    Answered(w.state[id], w.hist[id], w.c.plans);
  }

  /** Having every outcome takes the last plan's. */
  lemma AtLast(walk: seq<Plan>, k: nat, n: nat, id: Id, e: Entry, h: Hist)
    requires Walkable(walk) && k < |walk| && Mirrored(walk, k, n, id, e, h) && !e.failed
    requires h.docs + h.nils == h.expected
    ensures k + 1 == |walk|
  {
    hide Lists;
    var last := |walk| - 1;
    assert walk[last].version in VersionsFrom(walk, k);
    var doc := walk[last].version in h.docs;
    assert walk[last].version in Said(walk, k, n, id, doc);
    var j :| 0 <= j < |walk| && j <= k && walk[j].version == walk[last].version;
    assert j == last;
  }

  /** What the sighting makes of the history its id's plans have told. */
  lemma ToldSees(walk: seq<Plan>, k: nat, n: nat, one: bool, w: World, w': World, id: Id)
    requires k < |walk| && n < |walk[k].items| && Walkable(walk) && w.c.keepSettled
    requires Mid(walk, k, n, w, walk[k].items[n].id) && Mirror(walk, k, n + 1, w') && id in w'.state
    requires
      Sees(w, w', walk[k].items[n].id, walk[k].version, walk[k].items[n].doc, walk[k].items[n].relations)
    requires Good(w) && Idle(w) && Good(w') && (one ==> w.pending == [])
    requires Told(walk, k, n, one, id, w.state[id], w.hist[id])
    ensures Told(walk, k, n + 1, one, id, w'.state[id], w'.hist[id])
  {
    hide Good, IdleBut, Grows, Said, Lists, Fetches, LastListed, FirstListed, AllVersions, VersionsFrom;
    var e, h, e', h' := w.state[id], w.hist[id], w'.state[id], w'.hist[id];
    assert Later(e, e') && Mirrored(walk, k, n, id, e, h) && Mirrored(walk, k, n + 1, id, e', h');
    forall j | 0 <= j < |walk| && walk[j].version in h'.docs && !e'.failed
      ensures ToldBy(walk, k, n + 1, one, j, id, e', h')
    {
      if e.settled == Unsettled && e'.settled != Unsettled { Settles(walk, k, n, one, w, w', id, j); }
      ToldSee(walk, k, n, one, w, w', id, j);
    }
  }

  /** With a chunk size of one, only the last plan's first document settles an
      id that has a document of it. */
  lemma Settles(walk: seq<Plan>, k: nat, n: nat, one: bool, w: World, w': World, id: Id, j: nat)
    requires k < |walk| && n < |walk[k].items| && Walkable(walk) && w.c.keepSettled
    requires Mid(walk, k, n, w, walk[k].items[n].id) && Mirror(walk, k, n + 1, w') && id in w'.state
    requires
      Sees(w, w', walk[k].items[n].id, walk[k].version, walk[k].items[n].doc, walk[k].items[n].relations)
    requires Good(w) && Idle(w) && Good(w') && (one ==> w.pending == [])
    requires !w'.state[id].failed && w.state[id].settled == Unsettled && w'.state[id].settled != Unsettled
    requires j < |walk| && walk[j].version in w'.hist[id].docs
    ensures one && j + 1 == |walk| ==>
      j == k && id == walk[k].items[n].id && walk[k].items[n].doc && walk[k].version !in w.hist[id].docs
  {
    hide Good, IdleBut, Grows, Said, Lists, AllVersions;
    var own, doc, v := walk[k].items[n].id, walk[k].items[n].doc, walk[k].version;
    var e, h, h' := w.state[id], w.hist[id], w'.hist[id];
    assert Later(e, w'.state[id]) && Mirrored(walk, k, n, id, e, h);
    assert Mirrored(walk, k, n + 1, id, w'.state[id], h');
    assert v in VersionsFrom(walk, k) && h.expected == h'.expected;
    HasAll(w', id);
    AtLast(walk, k, n + 1, id, w'.state[id], h');
    if one {
      Misses(w, id);
      assert SameSightings(
          if id == own && !e.failed && !Clashes(w, own, v, doc) then SeenBy(e, h, v, doc, walk[k].items[n].relations)
          else h, h');
    }
  }

  lemma ToldSee(walk: seq<Plan>, k: nat, n: nat, one: bool, w: World, w': World, id: Id, j: nat)
    requires k < |walk| && n < |walk[k].items| && Walkable(walk)
    requires id in w'.state && id in w.state && id in w.hist && id in w'.hist && Good(w)
    requires Mirrored(walk, k, n, id, w.state[id], w.hist[id])
    requires
      Sees(w, w', walk[k].items[n].id, walk[k].version, walk[k].items[n].doc, walk[k].items[n].relations)
    requires Told(walk, k, n, one, id, w.state[id], w.hist[id]) && !w'.state[id].failed
    requires j < |walk| && walk[j].version in w'.hist[id].docs
    requires w.state[id].settled == Unsettled && w'.state[id].settled != Unsettled && one && j + 1 == |walk| ==>
      j == k && id == walk[k].items[n].id && walk[k].items[n].doc && walk[k].version !in w.hist[id].docs
    ensures ToldBy(walk, k, n + 1, one, j, id, w'.state[id], w'.hist[id])
  {
    hide Good, Grows, AllVersions, VersionsFrom, Said, Lists, Fetches, LastListed, FirstListed, Sees, Mirrored;
    var own, doc, v := walk[k].items[n].id, walk[k].items[n].doc, walk[k].version;
    var h' := SeesOf(w, w', own, v, doc, walk[k].items[n].relations, id);
    if id == own && doc && j == k {
      if w.state[id].settled == Unsettled {
        ToldDoc(walk, k, n, one, w, w', id);
      } else {
        ToldRepeat(walk, k, n, one, w, w', id);
      }
    } else {
      ToldOn(walk, k, n, one, j, id, w.state[id], w.hist[id]);
      hide Told;
      assert ToldBy(walk, k, n, one, j, id, w.state[id], w.hist[id]);
    }
  }

  /** What a sighting leaves of a standing id's history. */
  lemma SeesOf(w: World, w': World, own: Id, v: Version, doc: bool, rels: seq<Resource>, id: Id) returns (h': Hist)
    requires Sees(w, w', own, v, doc, rels) && id in w'.state && !w'.state[id].failed
    ensures id in w.state && id in w.hist && id in w'.hist && !w.state[id].failed && Later(w.state[id], w'.state[id])
    ensures h' == if id == own then SeenBy(w.state[id], w.hist[id], v, doc, rels) else w.hist[id]
    ensures SameSightings(h', w'.hist[id])
    ensures id == own ==> !Clashes(w, own, v, doc)
  {
    hide Grows;
    assert Later(w.state[id], w'.state[id]);
    h' := if id == own then SeenBy(w.state[id], w.hist[id], v, doc, rels) else w.hist[id];
    assert SameSightings(
        if id == own && !w.state[id].failed && !Clashes(w, own, v, doc) then
          SeenBy(w.state[id], w.hist[id], v, doc, rels)
        else w.hist[id],
        w'.hist[id]);
  }

  /** A document of an unsettled id is its plan's last, and if it settles the id
      with a chunk size of one, the first. */
  lemma ToldDoc(walk: seq<Plan>, k: nat, n: nat, one: bool, w: World, w': World, id: Id)
    requires k < |walk| && n < |walk[k].items| && walk[k].items[n].id == id && walk[k].items[n].doc
    requires id in w.state && id in w.hist && id in w'.state && id in w'.hist && !w.state[id].failed
    requires Mirrored(walk, k, n, id, w.state[id], w.hist[id]) && w.state[id].settled == Unsettled
    requires w'.hist[id].last == w.hist[id].last[walk[k].version := walk[k].items[n].relations]
    requires w'.state[id].settled != Unsettled && one && k + 1 == |walk| ==> walk[k].version !in w.hist[id].docs
    ensures ToldBy(walk, k, n + 1, one, k, id, w'.state[id], w'.hist[id])
  {
    hide AllVersions, VersionsFrom;
    if walk[k].version !in w.hist[id].docs { NoneListed(walk[k].items, n, id); }
  }

  /** A settled id is the last plan's, whose repeats are ignored. */
  lemma ToldRepeat(walk: seq<Plan>, k: nat, n: nat, one: bool, w: World, w': World, id: Id)
    requires k < |walk| && n < |walk[k].items| && walk[k].items[n].id == id && walk[k].items[n].doc && Walkable(walk)
    requires id in w.state && id in w.hist && id in w'.state && id in w'.hist && !w.state[id].failed && Good(w)
    requires Mirrored(walk, k, n, id, w.state[id], w.hist[id]) && w.state[id].settled != Unsettled
    requires Later(w.state[id], w'.state[id]) && w'.hist[id].last == w.hist[id].last
    requires !Clashes(w, id, walk[k].version, true)
    requires Told(walk, k, n, one, id, w.state[id], w.hist[id])
    ensures ToldBy(walk, k, n + 1, one, k, id, w'.state[id], w'.hist[id])
  {
    hide Good, AllVersions, Lists, LastListed, Fetches;
    var h, v := w.hist[id], walk[k].version;
    HasAll(w, id);
    AtLast(walk, k, n, id, w.state[id], h);
    assert v in VersionsFrom(walk, k) && v in h.docs;
    assert ToldBy(walk, k, n, one, k, id, w.state[id], h);
    FetchesMore(walk[k].items, n, n + 1, id, h.last[v]);
  }

  /** The sighting tells the mirror its document's children. */
  lemma TellSees(walk: seq<Plan>, k: nat, n: nat, one: bool, w: World, w': World)
    requires k < |walk| && n < |walk[k].items| && Walkable(walk) && w.c.keepSettled
    requires Mid(walk, k, n, w, walk[k].items[n].id) && Mirror(walk, k, n + 1, w')
    requires
      Sees(w, w', walk[k].items[n].id, walk[k].version, walk[k].items[n].doc, walk[k].items[n].relations)
    requires Good(w) && Idle(w) && Good(w') && (one ==> w.pending == []) && AllTold(walk, k, n, one, w)
    ensures AllTold(walk, k, n + 1, one, w')
  {
    hide Good, IdleBut, Told, Mid, Mirror, Grows;
    forall id | id in w'.state ensures Told(walk, k, n + 1, one, id, w'.state[id], w'.hist[id]) {
      ToldSees(walk, k, n, one, w, w', id);
    }
  }

  /** How many items the first k plans list. */
  ghost function ItemsBefore(walk: seq<Plan>, k: nat): nat
    requires k <= |walk|
  {
    if k == 0 then 0 else ItemsBefore(walk, k - 1) + |walk[k - 1].items|
  }

  /** A single flush ends a walk whose chunk holds all its items and that no
      pacing flushes. */
  ghost predicate OneFlush(walk: seq<Plan>, chunkSize: nat, paced: bool) {
    !paced && ItemsBefore(walk, |walk|) < chunkSize
  }

  lemma {:induction false} ItemsGrow(walk: seq<Plan>, k: nat, m: nat)
    requires k <= m <= |walk|
    ensures ItemsBefore(walk, k) <= ItemsBefore(walk, m)
  {
    if k < m { ItemsGrow(walk, k, m - 1); }
  }

  // ------------------------------------------------------------------ the end

  /** Every plan's last document is the one its history holds. */
  ghost predicate LastTold(walk: seq<Plan>, w: World) {
    forall id, j {:trigger w.hist[id], walk[j]} ::
      id in w.state && id in w.hist && !w.state[id].failed && 0 <= j < |walk| && walk[j].version in w.hist[id].docs ==>
        walk[j].version in w.hist[id].last
        && LastListed(walk[j].items, |walk[j].items|, id) == Some(w.hist[id].last[walk[j].version])
  }

  lemma Unflushed(w: World, id: Id)
    requires Good(w) && Uncounted(w) && id in w.state && id in w.hist && !w.state[id].failed
    ensures w.state[id].settled != Unsettled ==> w.hist[id].docs == {}
  {
    hide Good, EdgedOne, Clean, Stored, Queue;
    Standing(w, id);
    if w.state[id].settled != Unsettled { Answered(w.state[id], w.hist[id], w.c.plans); }
  }

  /** With nothing flushed yet, no id with a document has settled. */
  lemma NoneSettled(walk: seq<Plan>, one: bool, w: World)
    requires Good(w) && Uncounted(w) && AllTold(walk, |walk|, 0, one, w)
    ensures LastTold(walk, w)
  {
    hide Good, LastListed, FirstListed, Fetches, EdgedOne, Clean, Stored, Queue;
    forall id, j |
        id in w.state && id in w.hist && !w.state[id].failed && 0 <= j < |walk| && walk[j].version in w.hist[id].docs
      ensures walk[j].version in w.hist[id].last
      ensures LastListed(walk[j].items, |walk[j].items|, id) == Some(w.hist[id].last[walk[j].version])
    {
      Standing(w, id);
      assert ToldBy(walk, |walk|, 0, one, j, id, w.state[id], w.hist[id]);
      Unflushed(w, id);
    }
  }

  lemma LastMoves(walk: seq<Plan>, w: World, w': World)
    requires LastTold(walk, w) && Moves(w, w')
    ensures LastTold(walk, w')
  {
    hide LastListed, Grows;
    forall id, j | id in w'.state && id in w'.hist && !w'.state[id].failed && 0 <= j < |walk|
                   && walk[j].version in w'.hist[id].docs
      ensures walk[j].version in w'.hist[id].last
      ensures LastListed(walk[j].items, |walk[j].items|, id) == Some(w'.hist[id].last[walk[j].version])
    {
      assert Later(w.state[id], w'.state[id]) && SameSightings(w.hist[id], w'.hist[id]);
    }
  }

  /** The edge set a walk leaves of the j-th plan's version: the children of a
      document that plan listed of the id; of its last, unless it is the last
      plan; of its last all the same when one flush ends the whole walk; and of
      the last plan's first with a chunk size of one. */
  ghost predicate EdgeLeft(walk: seq<Plan>, j: nat, one: bool, whole: bool, life: Life, fx: Effects)
    requires j < |walk|
  {
    var items, d := walk[j].items, Doc(life.id, walk[j].version, life.occ);
    && d in fx.edged && Fetches(items, |items|, life.id, fx.edged[d])
    && (j + 1 < |walk| || whole ==> LastListed(items, |items|, life.id) == Some(fx.edged[d]))
    && (one && j + 1 == |walk| ==> FirstListed(items, |items|, life.id) == Some(fx.edged[d]))
  }

  /** What a settled life's edge sets hold, read off the listings; a nil's set is
      empty where one is stored. */
  ghost predicate EdgesLeft(walk: seq<Plan>, one: bool, whole: bool, life: Life, fx: Effects) {
    && (forall j {:trigger walk[j]} :: 0 <= j < |walk| && Lists(walk[j].items, |walk[j].items|, life.id, true) ==>
          EdgeLeft(walk, j, one, whole, life, fx))
    && (forall j {:trigger walk[j]} :: 0 <= j < |walk| && Lists(walk[j].items, |walk[j].items|, life.id, false) ==>
          Doc(life.id, walk[j].version, life.occ) in fx.edged ==>
            fx.edged[Doc(life.id, walk[j].version, life.occ)] == [])
  }

  lemma EdgesHold(walk: seq<Plan>, one: bool, whole: bool, w: World, fx: Effects, id: Id)
    requires Walkable(walk) && id in w.state && id in w.hist && !w.state[id].failed && w.state[id].settled != Unsettled
    requires AllTold(walk, |walk|, 0, one, w) && (whole ==> LastTold(walk, w))
    requires w.hist[id].docs == Said(walk, |walk|, 0, id, true) && w.hist[id].nils == Said(walk, |walk|, 0, id, false)
    requires EdgesSaid(Life(id, w.state[id].occ), w.hist[id], fx)
    ensures EdgesLeft(walk, one, whole, Life(id, w.state[id].occ), fx)
  {
    hide LastListed, FirstListed, Fetches, Lists;
    var life, h := Life(id, w.state[id].occ), w.hist[id];
    forall j | 0 <= j < |walk| && Lists(walk[j].items, |walk[j].items|, id, true)
      ensures EdgeLeft(walk, j, one, whole, life, fx)
    {
      assert walk[j].version in h.docs;
      assert ToldBy(walk, |walk|, 0, one, j, id, w.state[id], h);
    }
    forall j | 0 <= j < |walk| && Lists(walk[j].items, |walk[j].items|, id, false)
      ensures Doc(id, walk[j].version, life.occ) in fx.edged ==> fx.edged[Doc(id, walk[j].version, life.occ)] == []
    {
      assert walk[j].version in h.nils;
    }
  }

  // ------------------------------------------------ where chunks end, it shows

  /** Whatever documents of the id the items list fetched the same children. */
  ghost predicate Unvaried(items: seq<Sighting>, id: Id) {
    forall a, b :: Fetches(items, |items|, id, a) && Fetches(items, |items|, id, b) ==> a == b
  }

  lemma {:induction false} LastFetches(items: seq<Sighting>, n: nat, id: Id)
    requires n <= |items|
    ensures LastListed(items, n, id).Some? ==> Fetches(items, n, id, LastListed(items, n, id).value)
    ensures LastListed(items, n, id).Some? <==> Lists(items, n, id, true)
  {
    if n > 0 {
      LastFetches(items, n - 1, id);
      if items[n - 1].id == id && items[n - 1].doc {
        assert Fetches(items, n, id, items[n - 1].relations) && Lists(items, n, id, true);
      } else if Lists(items, n - 1, id, true) {
        FetchesMore(items, n - 1, n, id, LastListed(items, n - 1, id).value);
        var i :| 0 <= i < n - 1 && items[i].id == id && items[i].doc;
        assert Lists(items, n, id, true);
      }
    }
  }

  /** When the last document's children stay: always, of every plan but the
      last; of the last, for every chunk size, if what it lists of the id never
      varies, and with a chunk size of one exactly if its first document fetched
      what its last did. */
  lemma LastStays(walk: seq<Plan>, j: nat, one: bool, whole: bool, life: Life, fx: Effects)
    requires j < |walk| && Lists(walk[j].items, |walk[j].items|, life.id, true)
    requires EdgesLeft(walk, one, whole, life, fx)
    ensures var items, d := walk[j].items, Doc(life.id, walk[j].version, life.occ);
            && d in fx.edged
            && (j + 1 < |walk| || whole || Unvaried(items, life.id) ==>
                  Some(fx.edged[d]) == LastListed(items, |items|, life.id))
            && (one && j + 1 == |walk| ==>
                  (Some(fx.edged[d]) == LastListed(items, |items|, life.id) <==>
                     FirstListed(items, |items|, life.id) == LastListed(items, |items|, life.id)))
  {
    hide LastListed, FirstListed, Fetches;
    LastFetches(walk[j].items, |walk[j].items|, life.id);
    assert EdgeLeft(walk, j, one, whole, life, fx);
  }

  /** Two plans that both list one product, the second of them twice: its first
      document fetched a child, its second none. */
  const Repeating: seq<Plan> :=
    [Plan(1, [Sighting("a", true, [])]),
     Plan(2, [Sighting("a", true, [Resource("part", "p")]), Sighting("a", true, [])])]

  /** The listings that tell a chunk size of one from a single flush: the walk
      rebuilds the id either way, and what the second plan's version stores
      differs. */
  lemma RepeatsShow(a: nat, one: Effects, b: nat, whole: Effects)
    requires EdgesLeft(Repeating, true, false, Life("a", a), one)
    requires EdgesLeft(Repeating, false, true, Life("a", b), whole)
    ensures Walkable(Repeating) && Batch(Repeating, "a") == Rebuilt
    ensures Doc("a", 2, a) in one.edged && one.edged[Doc("a", 2, a)] == [Resource("part", "p")]
    ensures Doc("a", 2, b) in whole.edged && whole.edged[Doc("a", 2, b)] == []
  {
    var items := Repeating[1].items;
    assert items[0].id == "a" && items[0].doc && Repeating[0].items[0].id == "a" && Repeating[0].items[0].doc;
    assert Lists(items, 2, "a", true) && Lists(Repeating[0].items, 1, "a", true);
    assert !Lists(items, 2, "a", false) && !Lists(Repeating[0].items, 1, "a", false);
    assert Said(Repeating, 2, 0, "a", true) == {1, 2} == AllVersions(Repeating) by {
      assert Repeating[0].version in Said(Repeating, 2, 0, "a", true);
      assert Repeating[1].version in Said(Repeating, 2, 0, "a", true);
      assert Repeating[0].version in AllVersions(Repeating) && Repeating[1].version in AllVersions(Repeating);
    }
    assert Said(Repeating, 2, 0, "a", false) == {};
    assert EdgeLeft(Repeating, 1, true, false, Life("a", a), one);
    assert EdgeLeft(Repeating, 1, false, true, Life("a", b), whole);
    assert FirstListed(items, 1, "a") == Some([Resource("part", "p")]) by { assert FirstListed(items, 0, "a") == None; }
    assert FirstListed(items, 2, "a") == Some([Resource("part", "p")]);
    assert LastListed(items, 2, "a") == Some([]);
  }
}
