// What a flush does to the flusher's state, step by step: the bulk write, the
// edge sets, the count of the landed documents.

module FlushModel {
  import opened Wrappers
  import opened Common
  import opened Rows
  import opened FlusherModel
  import opened FlusherEffects
  import opened FlusherState
  import opened FlusherSightings

  /** Nothing outside `ids` moved. */
  ghost predicate Outside<T(!new)>(ids: set<Id>, a: map<Id, T>, b: map<Id, T>) {
    forall j {:trigger a[j]} {:trigger b[j]} {:trigger j in a} {:trigger j in b} ::
      j !in ids ==> (j in a <==> j in b) && (j in a ==> a[j] == b[j])
  }

  lemma OutsideOn<T(!new)>(ids: set<Id>, a: map<Id, T>, b: map<Id, T>, c: map<Id, T>)
    requires Outside(ids, a, b) && Outside(ids, b, c)
    ensures Outside(ids, a, c)
  {
  }

  /** A step of a flush over the ids of its chunk. */
  ghost predicate Flushes(ids: set<Id>, w: World, w': World) {
    Moves(w, w') && Outside(ids, w.state, w'.state) && Outside(ids, w.hist, w'.hist)
  }

  lemma FlushesOn(ids: set<Id>, w: World, w': World, w'': World)
    requires Flushes(ids, w, w') && Flushes(ids, w', w'')
    ensures Flushes(ids, w, w'')
  {
    hide Moves, Outside;
    MovesOn(w, w', w'');
    OutsideOn(ids, w.state, w'.state, w''.state);
    OutsideOn(ids, w.hist, w'.hist, w''.hist);
  }

  lemma FailedFlushes(ids: set<Id>, more: set<Id>, w: World, w': World)
    requires Good(w) && FailedSome(more, w, w') && more <= ids
    ensures Flushes(ids, w, w')
  {
    hide Good, Grows, Trimmed, Dropped;
    SameKeys(w);
    FailedMoves(more, w, w');
  }

  // ---------------------------------------------------------- the drift check

  /** The root's check now would follow its nils, or its removal. */
  ghost predicate Ripe(id: Id, e: Entry, h: Hist, fx: Effects) {
    Applied(id, e.occ, h.nils, fx) || Life(id, e.occ) in fx.erased
  }

  function Root(w: Config, id: Id): Resource {
    Resource(w.typ, id)
  }

  /** A checked resource's change is above its start; a row gone reads as
      unchanged. */
  ghost predicate Changed(news: map<Resource, nat>, checks: seq<Check>) {
    exists k :: k in checks && k.res in news && news[k.res] > k.start
  }

  /** The checks ask after every child the document fetched. */
  ghost predicate AsksAfter(it: Item, start: nat, checks: seq<Check>) {
    forall r :: r in it.relations ==> Check(r, start) in checks
  }

  lemma ChildAsked(it: Item, start: nat, checks: seq<Check>)
    requires AsksAfter(it, start, checks)
    ensures it.relations == [] || checks != []
  {
    if it.relations != [] { assert Check(it.relations[0], start) in checks; }
  }

  ghost predicate AsksRoot(c: Config, id: Id, start: nat, checks: seq<Check>) {
    Check(Root(c, id), start) in checks
  }

  /** The documents a check of these roots follows. */
  ghost predicate Follows(w: World, roots: seq<Id>, driftCheck: map<Id, seq<Check>>, items: set<Item>) {
    forall it {:trigger it in items} :: it in items ==>
      && it.id in roots && it.id in driftCheck && it.id in w.state && it.occ == w.state[it.id].occ
      && AsksAfter(it, w.state[it.id].start, driftCheck[it.id])
  }

  /** The roots whose own check follows their nils, or their removal. */
  ghost function RootsAsked(w: World, roots: seq<Id>, driftCheck: map<Id, seq<Check>>): set<Life> {
    set r | r in roots && r in driftCheck && r in w.state && r in w.hist && Ripe(r, w.state[r], w.hist[r], w.fx)
            && AsksRoot(w.c, r, w.state[r].start, driftCheck[r]) :: Life(r, w.state[r].occ)
  }

  /** The roots a check finds out of date. */
  ghost function RootsDue(
      w: World, roots: seq<Id>, driftCheck: map<Id, seq<Check>>, news: map<Resource, nat>): set<Life>
  {
    set r | r in roots && r in driftCheck && r in w.state && Changed(news, driftCheck[r]) :: Life(r, w.state[r].occ)
  }

  /** A drift check's record: what it followed, and what it found. */
  ghost function CheckEffects(fx: Effects, items: set<Item>, rooted: set<Life>, due: set<Life>): Effects {
    fx.(checked := fx.checked + items, rooted := fx.rooted + rooted, due := fx.due + due)
  }

  /** The roots that the check found out of date have been re-marked or failed,
      and its record may be made. */
  lemma CheckGood(
      w0: World, w: World, roots: seq<Id>, driftCheck: map<Id, seq<Check>>, news: map<Resource, nat>, items: set<Item>,
      due: set<Life>)
    requires Good(w0) && Good(w) && FailedSome(IdSet(roots), w0, w)
    requires forall r :: r in roots ==> r in w0.state && !w0.state[r].failed && w0.state[r].settled == Unsettled
    requires due <= RootsDue(w0, roots, driftCheck, news)
    requires forall life :: life in due ==> Remarked(w, life.id)
    ensures var fx := CheckEffects(w.fx, items, RootsAsked(w0, roots, driftCheck), due);
            Good(w.(fx := fx)) && FailedSome(IdSet(roots), w0, w.(fx := fx))
  {
    hide Good, FailedSome, RootsAsked, Grows;
    var fx := CheckEffects(w.fx, items, RootsAsked(w0, roots, driftCheck), due);
    forall life | life in due
      ensures
        && life in w.fx.begun
        && life !in w.fx.settled
        && life.id in w.state
        && (w.state[life.id].failed || life in w.fx.marked)
    {
      DueStands(w0, w, roots, life.id);
    }
    assert Grows(w.fx, fx) by { hide *; CheckGrows(w.fx, items, RootsAsked(w0, roots, driftCheck), due); }
    AcksGood(w, fx);
    FailedOn(IdSet(roots), {}, w0, w, w.(fx := fx));
  }

  lemma CheckGrows(fx: Effects, items: set<Item>, rooted: set<Life>, due: set<Life>)
    ensures Grows(fx, CheckEffects(fx, items, rooted, due))
  {
  }

  lemma DueStands(w0: World, w: World, roots: seq<Id>, id: Id)
    requires Good(w0) && Good(w) && FailedSome(IdSet(roots), w0, w)
    requires id in w0.state && !w0.state[id].failed && w0.state[id].settled == Unsettled
    ensures id in w.state && w.state[id].occ == w0.state[id].occ && Life(id, w.state[id].occ) in w.fx.begun
    ensures Life(id, w.state[id].occ) !in w.fx.settled
  {
    hide Good, Grows, Trimmed, Dropped, Alert;
    Standing(w0, id);
    Standing(w, id);
  }

  /** A root is durably re-marked, or failed. */
  ghost predicate Remarked(w: World, id: Id) {
    id in w.state && (w.state[id].failed || Life(id, w.state[id].occ) in w.fx.marked)
  }

  lemma RemarkedLater(ids: set<Id>, w: World, w': World, id: Id)
    requires Remarked(w, id) && FailedSome(ids, w, w')
    ensures Remarked(w', id)
  {
    hide Trimmed, Dropped;
  }

  // ------------------------------------------------------------ what landed

  ghost function LandWorld(w: World, items: set<Item>): World {
    w.(fx := w.fx.(landed := w.fx.landed + items))
  }

  /** A flush's start: its chunk taken, and these documents of it landed. */
  ghost function Taken(w: World, items: set<Item>): World {
    LandWorld(w.(pending := []), items)
  }

  /** No document landed and no check found a change. */
  ghost predicate SameFound(w: World, w': World) {
    w'.fx.landed == w.fx.landed && w'.fx.due == w.fx.due
  }

  /** Only the ids whose documents just landed have one that is not checked. */
  lemma TakenWatched(w: World, items: set<Item>, ids: set<Id>)
    requires WatchedBut({}, w.state, w.fx) && forall it :: it in items ==> it.id in ids
    ensures WatchedBut(ids, Taken(w, items).state, Taken(w, items).fx)
  {
    forall id | id in w.state && id !in ids ensures WatchedOne(id, w.state[id], Taken(w, items).fx) {
      assert WatchedOne(id, w.state[id], w.fx);
    }
  }

  lemma TakenKeys(w: World, items: set<Item>, ids: set<Id>, w': World)
    requires FailedSome(ids, Taken(w, items), w')
    ensures w'.state.Keys == w.state.Keys && w'.pending == [] && items <= w'.fx.landed
  {
    hide Grows, Trimmed, Dropped, Alert;
  }

  lemma ChunkLandable(w: World, chunk: seq<Item>)
    requires Good(w) && Idle(w) && w.pending == chunk
    ensures Landable(w.(pending := []), set it | it in chunk)
  {
    hide Good, Queue, AwaitingBut, WatchedBut;
    ChunkStands(w, w, chunk);
  }

  /** A bulk write sends its chunk, and part of it lands. */
  lemma LandSent(w: World, items: set<Item>)
    requires FailedSome({}, w, SendWorld(w))
    ensures FailedSome({}, LandWorld(w, items), LandWorld(SendWorld(w), items))
  {
    hide Trimmed, Dropped, SomeFailed, Queue, DocsOf;
  }

  /** What has changed at one time has changed at a later one, as long as no row
      vanishes. */
  lemma StillChanged(news: map<Resource, nat>, later: map<Resource, nat>, checks: seq<Check>)
    requires Changed(news, checks) && forall r :: r in news ==> r in later && later[r] >= news[r]
    ensures Changed(later, checks)
  {
  }

  /** The batched query answers for every root. */
  lemma AnyOf(roots: seq<Id>, driftCheck: map<Id, seq<Check>>, news: map<Resource, nat>, all: seq<Check>)
    requires forall r :: r in roots ==> r in driftCheck
    requires forall k :: k in all <==> exists r :: r in roots && k in driftCheck[r]
    ensures Changed(news, all) <==> exists r :: r in roots && Changed(news, driftCheck[r])
  {
    if Changed(news, all) {
      var k :| k in all && k.res in news && news[k.res] > k.start;
      var r :| r in roots && k in driftCheck[r];
      assert Changed(news, driftCheck[r]);
    }
  }

  /** What a drift check of several roots re-marks when every query answers:
      nothing if the batched query finds no change; otherwise the roots whose own
      query, on the rows as they are by then, shows one, or all if none does. */
  ghost function ToRemark(
      roots: set<Id>, driftCheck: map<Id, seq<Check>>, first: map<Resource, nat>, later: map<Id, map<Resource, nat>>
      ): set<Id>
    requires roots <= driftCheck.Keys && roots <= later.Keys
  {
    if forall r :: r in roots ==> !Changed(first, driftCheck[r]) then {}
    else if forall r :: r in roots ==> !Changed(later[r], driftCheck[r]) then roots
    else Narrowed(roots, driftCheck, later)
  }

  ghost function Narrowed(roots: set<Id>, driftCheck: map<Id, seq<Check>>, later: map<Id, map<Resource, nat>>): set<Id>
    requires roots <= driftCheck.Keys && roots <= later.Keys
  {
    set r | r in roots && Changed(later[r], driftCheck[r])
  }

  ghost function LivesOf(state: map<Id, Entry>, ids: set<Id>): set<Life> {
    set r | r in ids && r in state :: Life(r, state[r].occ)
  }

  /** A batched query that finds no change re-marks nothing. */
  lemma NoneToRemark(
      roots: seq<Id>, driftCheck: map<Id, seq<Check>>, first: map<Resource, nat>, later: map<Id, map<Resource, nat>>,
      state: map<Id, Entry>)
    requires IdSet(roots) <= driftCheck.Keys && IdSet(roots) <= later.Keys
    requires !exists r :: r in roots && Changed(first, driftCheck[r])
    ensures LivesOf(state, ToRemark(IdSet(roots), driftCheck, first, later)) == {}
  {
    hide Changed;
  }

  /** One that finds a change re-marks the narrowed roots, or all of them. */
  lemma SomeToRemark(
      roots: seq<Id>, driftCheck: map<Id, seq<Check>>, first: map<Resource, nat>, later: map<Id, map<Resource, nat>>,
      confirmed: bool)
    requires IdSet(roots) <= driftCheck.Keys && IdSet(roots) <= later.Keys
    requires exists r :: r in roots && Changed(first, driftCheck[r])
    requires confirmed <==> Narrowed(IdSet(roots), driftCheck, later) != {}
    ensures ToRemark(IdSet(roots), driftCheck, first, later) ==
            if confirmed then Narrowed(IdSet(roots), driftCheck, later) else IdSet(roots)
  {
    hide Changed;
    var narrowed := Narrowed(IdSet(roots), driftCheck, later);
    forall r | r in roots && Changed(later[r], driftCheck[r]) ensures r in narrowed {}
  }

  /** A changed root is passed over exactly when its own query no longer shows
      the change and another root's shows one. */
  lemma MissedExactly(
      roots: set<Id>, driftCheck: map<Id, seq<Check>>, first: map<Resource, nat>, later: map<Id, map<Resource, nat>>,
      r: Id)
    requires roots <= driftCheck.Keys && roots <= later.Keys && r in roots && Changed(first, driftCheck[r])
    ensures r !in ToRemark(roots, driftCheck, first, later) <==>
            !Changed(later[r], driftCheck[r]) && exists q :: q in roots && Changed(later[q], driftCheck[q])
  {
    hide Changed;
  }

  /** Two roots each have a changed child, and the first one's row is deleted
      between the queries: only the second root is re-marked. */
  lemma VanishMisses()
    ensures var p, q := Resource("part", "p"), Resource("part", "q");
            var checks := map["a" := [Check(p, 1)], "b" := [Check(q, 1)]];
            var first, after := map[p := 2, q := 2], map[q := 2];
            Changed(first, checks["a"]) && ToRemark({"a", "b"}, checks, first, map["a" := after, "b" := after]) == {"b"}
  {
    var p, q := Resource("part", "p"), Resource("part", "q");
    var first, after := map[p := 2, q := 2], map[q := 2];
    assert Check(p, 1) in [Check(p, 1)] && Check(q, 1) in [Check(q, 1)];
    assert Changed(first, [Check(p, 1)]) && Changed(after, [Check(q, 1)]) && !Changed(after, [Check(p, 1)]);
  }

  lemma DueFollows(w: World, chunk: seq<Item>, standing: seq<Id>, driftCheck: map<Id, seq<Check>>)
    ensures Follows(w, standing, driftCheck, DueItems(w, chunk, standing, driftCheck))
  {
    hide AsksAfter;
  }

  lemma StandingUnsettled(w: World, w': World, ids: set<Id>, standing: seq<Id>)
    requires FailedSome(ids, w, w') && forall r :: r in standing ==> r in ids && r in w'.state && !w'.state[r].failed
    requires forall r :: r in ids ==> r in w.state && (w.state[r].failed || w.state[r].settled == Unsettled)
    ensures forall r :: r in standing ==> w'.state[r].settled == Unsettled
  {
    hide Grows, Trimmed, Dropped, Alert;
  }

  /** Documents land only of entries that still stand unsettled. */
  ghost predicate Landable(w: World, items: set<Item>) {
    forall it {:trigger it in items} :: it in items ==>
      it.id in w.state && !w.state[it.id].failed && it.occ == w.state[it.id].occ && w.state[it.id].settled == Unsettled
  }

  lemma LandSome(w: World, w': World, all: set<Item>, some: set<Item>)
    requires Landable(w, all) && some <= all && w'.state == w.state
    ensures Landable(w, some) && Landable(w', some)
  {
  }

  lemma LandGood(w: World, items: set<Item>)
    requires Good(w) && Landable(w, items)
    ensures Good(LandWorld(w, items))
  {
    hide AllTied, Failures, Owed, NoClash, AllClean, AllServed, Bounded, Kept, Served, Clean;
    EdgedSame(w.state, w.hist, w.queue, w.fx, LandWorld(w, items).fx);
    hide AllEdged;
    LandClean(w, items);
    LandServed(w, items);
    LandBounded(w, items);
    LandRest(w, items);
  }

  lemma LandRest(w: World, items: set<Item>)
    requires
      && Failures(w.state, w.failed, w.markFailed, w.fx)
      && Owed(w.state, w.fx)
      && NoClash(w.fx)
      && Kept(w.state, w.hist, w.c.keepSettled, w.fx)
    ensures Failures(w.state, w.failed, w.markFailed, LandWorld(w, items).fx) && Owed(w.state, LandWorld(w, items).fx)
    ensures NoClash(LandWorld(w, items).fx) && Kept(w.state, w.hist, w.c.keepSettled, LandWorld(w, items).fx)
    ensures w.c.reliable && Blamed(w.state, w.fx) ==> Blamed(w.state, LandWorld(w, items).fx)
  {
    forall j | j in w.state ensures KeptOne(j, w.state[j], w.hist[j], w.c.keepSettled, LandWorld(w, items).fx) {
      assert KeptOne(j, w.state[j], w.hist[j], w.c.keepSettled, w.fx);
    }
  }

  lemma LandClean(w: World, items: set<Item>)
    requires AllClean(w.state, w.hist, w.fx)
    ensures AllClean(w.state, w.hist, LandWorld(w, items).fx)
  {
    forall j | j in w.state
      ensures Clean(j, w.state[j], w.hist[j], LandWorld(w, items).fx)
      ensures !w.state[j].failed ==> Stored(j, w.state[j].occ, w.hist[j].counted, LandWorld(w, items).fx)
    {
      assert Clean(j, w.state[j], w.hist[j], w.fx);
    }
  }

  lemma LandBounded(w: World, items: set<Item>)
    requires Bounded(w.state, w.fx) && Owed(w.state, w.fx) && Landable(w, items)
    ensures Bounded(w.state, LandWorld(w, items).fx)
  {
  }

  lemma LandServed(w: World, items: set<Item>)
    requires AllServed(w.c.mayDelete, w.fx) && Kept(w.state, w.hist, w.c.keepSettled, w.fx) && Landable(w, items)
    ensures AllServed(w.c.mayDelete, LandWorld(w, items).fx)
  {
    hide Served;
    var fx' := LandWorld(w, items).fx;
    forall life | life in fx'.settled ensures Served(life, fx'.settled[life], w.c.mayDelete, fx') {
      forall it | it in items ensures LifeOf(it) != life {
        assert KeptOne(it.id, w.state[it.id], w.hist[it.id], w.c.keepSettled, w.fx);
      }
      ServedGrows(life, w.fx.settled[life], w.c.mayDelete, w.fx, fx');
    }
  }

  // ------------------------------------------------------------ the bulk write

  ghost function DocsOf(items: seq<Item>): set<Doc> {
    set it | it in items :: DocOf(it)
  }

  /** A failure names the document it rejects; one that names no document of
      the chunk may reject any document of its id. */
  ghost predicate Rejected(failures: seq<DocKey>, chunk: seq<Item>, it: Item) {
    || DocKey(it.id, it.version) in failures
    || exists k :: k in failures && k.id == it.id && Stray(chunk, k)
  }

  ghost predicate Stray(chunk: seq<Item>, k: DocKey) {
    forall it :: it in chunk ==> DocKey(it.id, it.version) != k
  }

  ghost function SendWorld(w: World): World {
    w.(fx := w.fx.(sent := w.fx.sent + DocsOf(w.queue)))
  }

  ghost predicate Sendable(w: World) {
    forall it {:trigger it in w.queue} :: it in w.queue ==>
      && it.id in w.state && it.id in w.hist && !w.state[it.id].failed && it.occ == w.state[it.id].occ
      && it.version in w.hist[it.id].docs && w.hist[it.id].docs !! w.hist[it.id].nils
  }

  lemma QueuedSendable(w: World)
    requires Good(w) && Queued(w.state, w.queue)
    ensures Sendable(w)
  {
    hide Good, Queue;
    forall it | it in w.queue
      ensures it.id in w.hist && it.version in w.hist[it.id].docs && w.hist[it.id].docs !! w.hist[it.id].nils
    {
      Standing(w, it.id);
      QueueMember(w.queue, it.id, it.version);
    }
  }

  lemma SendClash(w: World)
    requires NoClash(w.fx) && AllClean(w.state, w.hist, w.fx) && Sendable(w)
    ensures NoClash(SendWorld(w).fx)
  {
    forall d | d in SendWorld(w).fx.sent ensures d !in w.fx.asked && Life(d.id, d.occ) !in w.fx.askedAll {
      if d in DocsOf(w.queue) {
        var it :| it in w.queue && d == DocOf(it);
        assert Clean(it.id, w.state[it.id], w.hist[it.id], w.fx);
      }
    }
  }

  lemma SendClean(w: World)
    requires AllClean(w.state, w.hist, w.fx) && Sendable(w)
    ensures AllClean(w.state, w.hist, SendWorld(w).fx)
  {
    var fx' := SendWorld(w).fx;
    forall j | j in w.state
      ensures
        && Clean(j, w.state[j], w.hist[j], fx')
        && (!w.state[j].failed ==> Stored(j, w.state[j].occ, w.hist[j].counted, fx'))
    {
      assert Clean(j, w.state[j], w.hist[j], w.fx);
      forall d | d in fx'.sent && d.id == j && d.occ == w.state[j].occ && !w.state[j].failed
        ensures d.version in w.hist[j].docs
      {
        if d in DocsOf(w.queue) {
          var it :| it in w.queue && d == DocOf(it);
        }
      }
    }
  }

  lemma SendBounded(w: World)
    requires Bounded(w.state, w.fx) && Sendable(w)
    ensures Bounded(w.state, SendWorld(w).fx)
  {
    forall d | d in SendWorld(w).fx.sent ensures d.occ <= w.fx.top {
      if d in DocsOf(w.queue) {
        var it :| it in w.queue && d == DocOf(it);
        assert w.state[it.id].occ <= w.fx.top;
      }
    }
  }

  lemma SendGood(w: World)
    requires Good(w) && Sendable(w)
    ensures Good(SendWorld(w)) && FailedSome({}, w, SendWorld(w))
  {
    hide AllTied, Failures, Owed, NoClash, AllClean, AllServed, Bounded, Kept, Sendable, Served;
    EdgedSame(w.state, w.hist, w.queue, w.fx, SendWorld(w).fx);
    hide AllEdged;
    SendClash(w);
    SendClean(w);
    SendBounded(w);
    var fx' := SendWorld(w).fx;
    assert Grows(w.fx, fx');
    SendServed(w);
    SendRest(w);
  }

  lemma SendServed(w: World)
    requires AllServed(w.c.mayDelete, w.fx)
    ensures AllServed(w.c.mayDelete, SendWorld(w).fx)
  {
    var fx' := SendWorld(w).fx;
    forall life | life in fx'.settled ensures Served(life, fx'.settled[life], w.c.mayDelete, fx') {
      ServedGrows(life, w.fx.settled[life], w.c.mayDelete, w.fx, fx');
    }
  }

  lemma SendRest(w: World)
    requires
      && Failures(w.state, w.failed, w.markFailed, w.fx)
      && Owed(w.state, w.fx)
      && Kept(w.state, w.hist, w.c.keepSettled, w.fx)
    ensures Failures(w.state, w.failed, w.markFailed, SendWorld(w).fx) && Owed(w.state, SendWorld(w).fx)
    ensures Kept(w.state, w.hist, w.c.keepSettled, SendWorld(w).fx)
  {
    hide Clean;
    forall j | j in w.state ensures KeptOne(j, w.state[j], w.hist[j], w.c.keepSettled, SendWorld(w).fx) {
      assert KeptOne(j, w.state[j], w.hist[j], w.c.keepSettled, w.fx);
    }
  }

  // ------------------------------------------------------------- the grouping

  datatype EdgeSet = EdgeSet(version: Version, relations: seq<Resource>)

  /** The k-th document is the last of its version among the first n. */
  ghost predicate LastOfVersion(docs: seq<Item>, n: nat, k: nat)
    requires n <= |docs|
  {
    k < n && forall j :: k < j < n ==> docs[j].version != docs[k].version
  }

  ghost predicate HasSet(sets: seq<EdgeSet>, v: Version) {
    exists i :: 0 <= i < |sets| && sets[i].version == v
  }

  function EdgeSetOf(it: Item): EdgeSet {
    EdgeSet(it.version, it.relations)
  }

  /** The sets of the first n documents: `at` is each version's place, `source`
      the document each set is from. */
  ghost predicate SetsSo(docs: seq<Item>, n: nat, sets: seq<EdgeSet>, source: seq<nat>, at: map<Version, nat>) {
    && n <= |docs| && |source| == |sets|
    && (forall v {:trigger at[v]} :: v in at ==> at[v] < |sets| && sets[at[v]].version == v)
    && (forall i {:trigger sets[i]} :: 0 <= i < |sets| ==> sets[i].version in at && at[sets[i].version] == i)
    && (forall k {:trigger docs[k]} :: 0 <= k < n ==> docs[k].version in at)
    && (forall i {:trigger source[i]} ::
          0 <= i < |sets| ==> LastOfVersion(docs, n, source[i]) && sets[i] == EdgeSetOf(docs[source[i]]))
  }

  lemma NoSets(docs: seq<Item>)
    ensures SetsSo(docs, 0, [], [], map[])
  {
  }

  /** The next document's set replaces its version's, or is the first. */
  lemma PutSet(docs: seq<Item>, n: nat, sets: seq<EdgeSet>, source: seq<nat>, at: map<Version, nat>)
    requires SetsSo(docs, n, sets, source, at) && n < |docs|
    ensures var it := docs[n];
            if it.version in at then
              at[it.version] < |sets| == |source|
              && SetsSo(docs, n + 1, sets[at[it.version] := EdgeSetOf(it)], source[at[it.version] := n], at)
            else SetsSo(docs, n + 1, sets + [EdgeSetOf(it)], source + [n], at[it.version := |sets|])
  {
    var it := docs[n];
    if it.version in at { assert at[it.version] < |sets|; }
    forall i | 0 <= i < |sets| && sets[i].version != it.version ensures LastOfVersion(docs, n + 1, source[i]) {
      assert LastOfVersion(docs, n, source[i]);
    }
  }

  lemma AllSets(docs: seq<Item>, sets: seq<EdgeSet>, source: seq<nat>, at: map<Version, nat>)
    requires SetsSo(docs, |docs|, sets, source, at)
    ensures SetsOf(docs, sets, source)
    ensures forall i, j :: 0 <= i < j < |sets| ==> sets[i].version != sets[j].version
  {
    forall k | 0 <= k < |docs| ensures HasSet(sets, docs[k].version) {
      assert sets[at[docs[k].version]].version == docs[k].version;
    }
  }

  /** The sets are one per version of the documents, each of its last one. */
  ghost predicate SetsOf(docs: seq<Item>, sets: seq<EdgeSet>, source: seq<nat>) {
    && |source| == |sets|
    && (forall k {:trigger docs[k]} :: 0 <= k < |docs| ==> HasSet(sets, docs[k].version))
    && forall i {:trigger sets[i]} {:trigger source[i]} :: 0 <= i < |sets| ==>
         source[i] < |docs| && LastOfVersion(docs, |docs|, source[i]) && sets[i] == EdgeSetOf(docs[source[i]])
  }

  /** The sets of a replace, under the documents they belong to. */
  ghost function Stores(docs: seq<Item>, sets: seq<EdgeSet>, source: seq<nat>): map<Doc, seq<Resource>>
    requires SetsOf(docs, sets, source)
  {
    map d | d in DocsOf(docs) && HasSource(docs, sets, source, d) :: sets[SourceOf(docs, sets, source, d)].relations
  }

  ghost predicate HasSource(docs: seq<Item>, sets: seq<EdgeSet>, source: seq<nat>, d: Doc)
    requires SetsOf(docs, sets, source)
  {
    exists i :: 0 <= i < |sets| && DocOf(docs[source[i]]) == d
  }

  ghost function SourceOf(docs: seq<Item>, sets: seq<EdgeSet>, source: seq<nat>, d: Doc): (i: nat)
    requires SetsOf(docs, sets, source) && HasSource(docs, sets, source, d)
    ensures i < |sets| && DocOf(docs[source[i]]) == d
  {
    var i :| 0 <= i < |sets| && DocOf(docs[source[i]]) == d;
    i
  }

  ghost predicate OneLife(docs: seq<Item>) {
    forall a, b :: 0 <= a < |docs| && 0 <= b < |docs| ==> LifeOf(docs[a]) == LifeOf(docs[b])
  }

  /** The documents are some of the id's queued ones, at its Build Sequence. */
  ghost predicate OfQueue(w: World, id: Id, docs: seq<Item>) {
    && id in w.state
    && forall it :: it in docs ==> LifeOf(it) == Life(id, w.state[id].occ) && it.version in Queue(w.queue, id)
  }

  /** An unsettled, standing id, whose documents may be stored. */
  ghost predicate Storable(w: World, id: Id, landed: map<Id, seq<Item>>) {
    && id in w.state && !w.state[id].failed && w.state[id].settled == Unsettled
    && (id in landed ==> OfQueue(w, id, landed[id]))
  }

  lemma StorableLater(ids: set<Id>, w: World, w': World, id: Id, landed: map<Id, seq<Item>>)
    requires Storable(w, id, landed) && FailedSome(ids, w, w') && id !in ids
    ensures Storable(w', id, landed)
  {
    hide Grows, Alert, OtherEdges, Dropped, Queue;
  }

  lemma ChunkStorable(
      w: World, items: set<Item>, w1: World, chunk: seq<Item>, order: seq<Id>, landed: map<Id, seq<Item>>)
    requires Good(w) && Idle(w) && w.pending == chunk && FailedSome({}, Taken(w, items), w1)
    requires forall id :: id in order <==> exists it :: it in chunk && it.id == id
    requires forall id :: id in landed ==> forall it :: it in landed[id] ==> it in chunk && it.id == id
    ensures forall id :: id in order ==> Storable(w1, id, landed)
  {
    hide Good, Queue, AwaitingBut, WatchedBut, Alert, OtherEdges, Grows, Dropped;
    ChunkStands(w, w, chunk);
    forall id | id in order ensures Storable(w1, id, landed) {
      assert w1.state[id] == w.state[id] && Queue(w1.queue, id) == Queue(w.queue, id);
      forall it | id in landed && it in landed[id]
        ensures LifeOf(it) == Life(id, w.state[id].occ) && it.version in Queue(w.queue, id)
      {
        QueueMember(w.queue, id, it.version);
      }
    }
  }

  lemma StorableStands(w: World, id: Id, landed: map<Id, seq<Item>>)
    requires Storable(w, id, landed)
    ensures id in w.state && !w.state[id].failed
  {
  }

  /** What a replace of an id's landed documents stores may be stored, and is
      each version's last document's. */
  lemma StoresMay(
      w: World, id: Id, landed: map<Id, seq<Item>>, sets: seq<EdgeSet>, source: seq<nat>, add: map<Doc, seq<Resource>>)
    requires Good(w) && Storable(w, id, landed) && id in landed && SetsOf(landed[id], sets, source)
    requires add == Stores(landed[id], sets, source)
    ensures MayStore(w, id, add) && SetsHold(landed[id], EdgeWorld(w, add).fx)
  {
    hide Good, Queue, Stores, LastOfVersion;
    SameKeys(w);
    var docs := landed[id];
    assert OneLife(docs) by {
      forall k | 0 <= k < |docs| ensures LifeOf(docs[k]) == Life(id, w.state[id].occ) { assert docs[k] in docs; }
    }
    StoresAll(docs, sets, source);
    hide OneLife, SetsOf;
    forall k | 0 <= k < |docs| ensures DocOf(docs[k]) in DocsOf(docs) { assert docs[k] in docs; }
  }

  /** The stored sets are those of each version's last document. */
  lemma StoresAll(docs: seq<Item>, sets: seq<EdgeSet>, source: seq<nat>)
    requires OneLife(docs) && SetsOf(docs, sets, source)
    ensures Stores(docs, sets, source).Keys == DocsOf(docs)
    ensures forall k ::
      0 <= k < |docs| && LastOfVersion(docs, |docs|, k) ==>
        Stores(docs, sets, source)[DocOf(docs[k])] == docs[k].relations
  {
    forall k | 0 <= k < |docs| ensures HasSource(docs, sets, source, DocOf(docs[k])) {
      var i :| 0 <= i < |sets| && sets[i].version == docs[k].version;
      assert DocOf(docs[source[i]]) == DocOf(docs[k]);
    }
    forall k | 0 <= k < |docs| && LastOfVersion(docs, |docs|, k)
      ensures docs[k] in docs && Stores(docs, sets, source)[DocOf(docs[k])] == docs[k].relations
    {
      var i := SourceOf(docs, sets, source, DocOf(docs[k]));
      assert docs[source[i]].version == docs[k].version;
      assert source[i] == k;
    }
  }

  ghost function NilDocs(id: Id, occ: nat, nils: set<Version>): set<Doc> {
    set v | v in nils :: Doc(id, v, occ)
  }

  /** The empty sets of a resource's nils. */
  ghost function NoEdges(id: Id, occ: nat, nils: set<Version>): map<Doc, seq<Resource>> {
    map d | d in NilDocs(id, occ, nils) :: []
  }

  ghost function ItemsOf(items: seq<Item>, id: Id): (r: seq<Item>) {
    if items == [] then []
    else ItemsOf(items[..|items| - 1], id) + if items[|items| - 1].id == id then [items[|items| - 1]] else []
  }

  ghost function Versions(items: seq<Item>): (r: seq<Version>)
    ensures |r| == |items| && forall i :: 0 <= i < |r| ==> r[i] == items[i].version
  {
    seq(|items|, i requires 0 <= i < |items| => items[i].version)
  }

  lemma ItemsOfNone(id: Id)
    ensures ItemsOf([], id) == []
  {
  }

  lemma ItemsOfAppend(items: seq<Item>, it: Item, id: Id)
    ensures ItemsOf(items + [it], id) == ItemsOf(items, id) + if it.id == id then [it] else []
  {
    assert (items + [it])[..|items|] == items;
  }

  lemma {:induction false} ItemsOfQueue(items: seq<Item>, id: Id)
    ensures Versions(ItemsOf(items, id)) == Queue(items, id)
    ensures forall it :: it in ItemsOf(items, id) <==> it in items && it.id == id
  {
    if items != [] {
      var n := |items| - 1;
      ItemsOfQueue(items[..n], id);
      hide ItemsOf, Queue, Versions;
      assert items == items[..n] + [items[n]];
      ItemsOfAppend(items[..n], items[n], id);
      QueueAppend(items[..n], items[n], id);
      VersionsAppend(ItemsOf(items[..n], id), items[n]);
    }
  }

  lemma VersionsAppend(items: seq<Item>, it: Item)
    ensures Versions(items + [it]) == Versions(items) + [it.version]
  {
  }

  /** The first n documents of the chunk, grouped by id in order of first
      appearance, but for those of ids with a rejected one. */
  ghost predicate Grouped(
      chunk: seq<Item>, failures: seq<DocKey>, n: nat, order: seq<Id>, landed: map<Id, seq<Item>>, hasRejected: set<Id>)
  {
    && n <= |chunk|
    && (forall id {:trigger id in order} :: id in order <==> id in landed || id in hasRejected)
    && (forall i, j {:trigger order[i], order[j]} :: 0 <= i < j < |order| ==> order[i] != order[j])
    && (forall id {:trigger id in order} :: id in order ==> exists it :: it in chunk[..n] && it.id == id)
    && (forall it {:trigger it in chunk[..n]} :: it in chunk[..n] ==> it.id in order)
    && (forall id {:trigger id in hasRejected} ::
          id in hasRejected ==> exists it :: it in chunk && it.id == id && Rejected(failures, chunk, it))
    && (forall it {:trigger it in chunk[..n]} ::
          it in chunk[..n] && it.id !in hasRejected ==> !Rejected(failures, chunk, it))
    && (forall id {:trigger ItemsOf(chunk[..n], id)} ::
          id !in hasRejected ==> ItemsOf(chunk[..n], id) == if id in landed then landed[id] else [])
    && (forall id {:trigger landed[id]} ::
          id in landed ==> forall it {:trigger it in landed[id]} :: it in landed[id] ==> it in chunk && it.id == id)
  }

  lemma GroupNone(chunk: seq<Item>, failures: seq<DocKey>)
    ensures Grouped(chunk, failures, 0, [], map[], {})
  {
    forall id ensures ItemsOf(chunk[..0], id) == [] { ItemsOfNone(id); }
  }

  lemma GroupMore(
      chunk: seq<Item>, failures: seq<DocKey>, n: nat, order: seq<Id>, landed: map<Id, seq<Item>>, hasRejected: set<Id>,
      rejected: bool)
    requires
      && Grouped(chunk, failures, n, order, landed, hasRejected)
      && n < |chunk|
      && (rejected <==> Rejected(failures, chunk, chunk[n]))
    ensures var it := chunk[n];
            Grouped(chunk, failures, n + 1, if it.id in landed || it.id in hasRejected then order else order + [it.id],
                    if rejected then
                      landed
                    else
                      landed[it.id := (if it.id in landed then landed[it.id] else []) + [it]],
                    if rejected then hasRejected + {it.id} else hasRejected)
  {
    hide Rejected, ItemsOf;
    var it := chunk[n];
    assert chunk[..n + 1] == chunk[..n] + [it];
    forall id ensures ItemsOf(chunk[..n + 1], id) == ItemsOf(chunk[..n], id) + if it.id == id then [it] else [] {
      ItemsOfAppend(chunk[..n], it, id);
    }
    var order' := if it.id in landed || it.id in hasRejected then order else order + [it.id];
    forall id | id in order' ensures exists o :: o in chunk[..n + 1] && o.id == id {
      if id in order {
        var o :| o in chunk[..n] && o.id == id;
        assert o in chunk[..n + 1];
      } else {
        assert it in chunk[..n + 1];
      }
    }
    forall i, j | 0 <= i < j < |order'| ensures order'[i] != order'[j] { assert order[i] in order; }
    var landed' := if rejected then landed else landed[it.id := (if it.id in landed then landed[it.id] else []) + [it]];
    forall id | id !in (if rejected then hasRejected + {it.id} else hasRejected)
      ensures ItemsOf(chunk[..n + 1], id) == if id in landed' then landed'[id] else []
    {
      assert ItemsOf(chunk[..n], id) == if id in landed then landed[id] else [];
      assert ItemsOf(chunk[..n], id) + [] == ItemsOf(chunk[..n], id);
    }
  }

  lemma GroupAll(
      chunk: seq<Item>, failures: seq<DocKey>, order: seq<Id>, landed: map<Id, seq<Item>>, hasRejected: set<Id>)
    requires Grouped(chunk, failures, |chunk|, order, landed, hasRejected)
    ensures forall id :: id in order <==> exists it :: it in chunk && it.id == id
    ensures forall i, j :: 0 <= i < j < |order| ==> order[i] != order[j]
    ensures forall id :: id in hasRejected ==> exists it :: it in chunk && it.id == id && Rejected(failures, chunk, it)
    ensures forall it :: it in chunk && it.id !in hasRejected ==> !Rejected(failures, chunk, it)
    ensures forall id :: id in order && id !in hasRejected ==> id in landed && landed[id] == ItemsOf(chunk, id)
    ensures forall id :: id in landed ==> forall it :: it in landed[id] ==> it in chunk && it.id == id
  {
    hide Rejected, ItemsOf;
    assert chunk[..|chunk|] == chunk;
  }

  // ----------------------------------------------------------------- counting

  function CountEntry(e: Entry, v: Version): Entry {
    if v != e.lastCounted && e.remaining > 0 then e.(lastCounted := v, remaining := e.remaining - 1) else e
  }

  ghost function CountHist(h: Hist, v: Version): Hist {
    h.(counted := h.counted + {v})
  }

  lemma CountFlows(h: Hist, q: seq<Version>, plans: seq<Version>)
    requires q != [] && Flows(h, q, plans)
    ensures Flows(CountHist(h, q[0]), q[1..], plans)
  {
    hide Pos;
    var h' := CountHist(h, q[0]);
    assert q == [q[0]] + q[1..];
    forall v ensures v in h'.docs <==> v in h'.counted || v in q[1..] {
      assert v in h.docs <==> v in h.counted || v in q;
    }
    forall v, i | v in h'.counted && 0 <= i < |q[1..]| ensures Pos(plans, v) <= Pos(plans, q[1..][i]) {
      assert q[1..][i] == q[i + 1];
      if v in h.counted { assert Pos(plans, v) <= Pos(plans, q[i + 1]); }
    }
  }

  /** Counting the next landed document: a repeat of the version counted last
      counts no further, and any other is new. */
  lemma CountTied(e: Entry, h: Hist, q: seq<Version>, plans: seq<Version>)
    requires Tied(e, h, q, plans) && !e.failed && e.settled == Unsettled && q != []
    ensures Tied(CountEntry(e, q[0]), CountHist(h, q[0]), q[1..], plans)
  {
    hide Flows, Latest, Pos, HistOk, Counts;
    CountFlows(h, q, plans);
    CountLatest(e, h, q, plans);
    CountCounts(e, h, q, plans);
  }

  lemma CountCounts(e: Entry, h: Hist, q: seq<Version>, plans: seq<Version>)
    requires Tied(e, h, q, plans) && !e.failed && e.settled == Unsettled && q != []
    ensures HistOk(CountHist(h, q[0]), plans) && Counts(CountEntry(e, q[0]), CountHist(h, q[0]))
  {
    hide Flows, Latest, Pos;
    CountLatest(e, h, q, plans);
  }

  lemma CountLatest(e: Entry, h: Hist, q: seq<Version>, plans: seq<Version>)
    requires Tied(e, h, q, plans) && !e.failed && e.settled == Unsettled && q != []
    ensures q[0] in h.docs && q[0] != 0 && (q[0] in h.counted <==> q[0] == e.lastCounted)
    ensures CountEntry(e, q[0]).remaining == |h.expected| - |h.nils| - |CountHist(h, q[0]).counted|
    ensures Latest(CountEntry(e, q[0]).lastCounted, CountHist(h, q[0]).counted, plans)
  {
    hide Pos;
    var v := q[0];
    assert v in q;
    if v in h.counted {
      assert Pos(plans, e.lastCounted) <= Pos(plans, v);
      PosInjective(plans, v, e.lastCounted);
      assert CountHist(h, v) == h;
    } else {
      Remaining(h.nils, h.counted, h.expected);
      assert v in h.expected && v !in h.nils + h.counted;
    }
  }

  ghost predicate Counted(e: Entry, e': Entry) {
    e' == e.(lastCounted := e'.lastCounted, remaining := e'.remaining)
  }

  ghost function CountWorld(w: World, id: Id, e': Entry, h': Hist): World {
    w.(state := w.state[id := e'], hist := w.hist[id := h'], queue := Without(w.queue, id))
  }

  ghost predicate MayCount(w: World, id: Id, e': Entry, h': Hist) {
    && id in w.state && id in w.hist && !w.state[id].failed && w.state[id].settled == Unsettled
    && Tied(e', h', [], w.c.plans) && Counted(w.state[id], e') && SameSightings(w.hist[id], h')
    && Stored(id, e'.occ, h'.counted, w.fx) && EdgesCaught(w, id)
  }

  /** Every version with a queued document has the children of its last one
      stored. */
  ghost predicate EdgesCaught(w: World, id: Id) {
    id in w.state && id in w.hist && forall v {:trigger v in Queue(w.queue, id)} :: v in Queue(w.queue, id) ==>
      && v in w.hist[id].last && Doc(id, v, w.state[id].occ) in w.fx.edged
      && w.fx.edged[Doc(id, v, w.state[id].occ)] == w.hist[id].last[v]
  }

  lemma CountEdged(w: World, id: Id, e': Entry, h': Hist)
    requires AllEdged(w.state, w.hist, w.queue, w.fx) && MayCount(w, id, e', h')
    ensures
      AllEdged(CountWorld(w, id, e', h').state, CountWorld(w, id, e', h').hist, CountWorld(w, id, e', h').queue, w.fx)
  {
    hide Queue, LastQueued, Without, Tied, Stored;
    var w' := CountWorld(w, id, e', h');
    forall j | j in w'.state ensures EdgedOne(j, w'.state[j], w'.hist[j], w'.queue, w'.fx) {
      assert EdgedOne(j, w.state[j], w.hist[j], w.queue, w.fx);
      WithoutQueue(w.queue, id, j);
      forall v ensures j != id ==> LastQueued(w'.queue, j, v) == LastQueued(w.queue, j, v) {
        WithoutLast(w.queue, id, j, v);
      }
    }
  }

  lemma CountGood(w: World, id: Id, e': Entry, h': Hist)
    requires Good(w) && MayCount(w, id, e', h')
    ensures Good(CountWorld(w, id, e', h'))
  {
    hide Tied, Sound, Blamed, Stored, AllEdged, EdgesCaught;
    var w' := CountWorld(w, id, e', h');
    CountEdged(w, id, e', h');
    CountSound(w, id, e', h');
    if w.c.reliable { CountBlamed(w, id, e', h'); }
    forall j | j in w'.state ensures Tied(w'.state[j], w'.hist[j], Queue(w'.queue, j), w'.c.plans) {
      WithoutQueue(w.queue, id, j);
      if j != id { assert Tied(w.state[j], w.hist[j], Queue(w.queue, j), w.c.plans); }
    }
  }

  lemma CountBlamed(w: World, id: Id, e': Entry, h': Hist)
    requires MayCount(w, id, e', h') && Blamed(w.state, w.fx)
    ensures Blamed(w.state[id := e'], w.fx)
  {
    hide Tied;
  }

  lemma CountSound(w: World, id: Id, e': Entry, h': Hist)
    requires
      Sound(w.state, w.hist, w.failed, w.markFailed, w.c.keepSettled, w.c.mayDelete, w.fx) && MayCount(w, id, e', h')
    ensures Sound(w.state[id := e'], w.hist[id := h'], w.failed, w.markFailed, w.c.keepSettled, w.c.mayDelete, w.fx)
  {
    hide Tied, Stored;
    assert Clean(id, w.state[id], w.hist[id], w.fx);
    assert Revises(w.state, w.hist, id, e', h', w.fx);
    hide Failures, Owed, NoClash, AllClean, AllServed, Bounded, Kept, Revises;
    ReviseSound(w, id, e', h');
  }

  lemma CountFlushes(ids: set<Id>, w: World, id: Id, e': Entry, h': Hist)
    requires MayCount(w, id, e', h') && w.hist.Keys == w.state.Keys && id in ids
    ensures Flushes(ids, w, CountWorld(w, id, e', h'))
  {
    hide Tied;
    GrowsSame(w.fx);
    hide Grows;
  }

  /** Every document of the id's queue landed, and its version's edge set is that
      of the last one. */
  ghost predicate QueueStored(w: World, id: Id) {
    id in w.state
    && (w.state[id].failed ||
        (EdgesCaught(w, id) && forall v {:trigger v in Queue(w.queue, id)} ::
           v in Queue(w.queue, id) ==> Landed(Doc(id, v, w.state[id].occ), w.fx)))
  }

  /** The documents' edge sets are stored, each version's with the children of
      its last document. */
  ghost predicate SetsHold(docs: seq<Item>, fx: Effects) {
    && (forall it :: it in docs ==> DocOf(it) in fx.edged)
    && forall k {:trigger docs[k]} ::
         0 <= k < |docs| && LastOfVersion(docs, |docs|, k) ==> fx.edged[DocOf(docs[k])] == docs[k].relations
  }

  /** The edge sets of an id's landed documents are stored, or it failed. */
  ghost predicate EdgesKept(w: World, id: Id, docs: seq<Item>) {
    id in w.state && (w.state[id].failed || SetsHold(docs, w.fx))
  }

  lemma EdgesKeptLater(ids: set<Id>, w: World, w': World, id: Id, docs: seq<Item>)
    requires EdgesKept(w, id, docs) && FailedSome(ids, w, w')
    requires w'.fx.edged == w.fx.edged || (id !in ids && forall it :: it in docs ==> it.id == id)
    ensures EdgesKept(w', id, docs)
  {
    hide Trimmed, Dropped, Alert;
    forall k | 0 <= k < |docs| && EdgesKept(w, id, docs) && !w.state[id].failed
      ensures DocOf(docs[k]) in w'.fx.edged && w'.fx.edged[DocOf(docs[k])] == w.fx.edged[DocOf(docs[k])]
    {
      assert docs[k] in docs;
    }
  }

  /** What landed and was stored, for the ids with no rejected document. */
  ghost predicate GroupStored(chunk: seq<Item>, ids: seq<Id>, w: World) {
    forall id {:trigger ItemsOf(chunk, id)} :: id in ids ==>
      && id in w.state
      && (w.state[id].failed ||
          (SetsHold(ItemsOf(chunk, id), w.fx) && forall it :: it in ItemsOf(chunk, id) ==> it in w.fx.landed))
  }

  /** The last queued document of a version is the last of the id's. */
  lemma {:induction false} LastKept(chunk: seq<Item>, id: Id, v: Version) returns (k: nat)
    requires v in Queue(chunk, id)
    ensures k < |ItemsOf(chunk, id)| && LastOfVersion(ItemsOf(chunk, id), |ItemsOf(chunk, id)|, k)
    ensures ItemsOf(chunk, id)[k].version == v && LastQueued(chunk, id, v) == Some(ItemsOf(chunk, id)[k].relations)
  {
    var n := |chunk| - 1;
    var docs, before, it := ItemsOf(chunk, id), ItemsOf(chunk[..n], id), chunk[n];
    assert docs == if it.id == id then before + [it] else before;
    if it.id == id && it.version == v {
      k := |docs| - 1;
    } else {
      k := LastKept(chunk[..n], id, v);
    }
  }

  /** The queue and the history of an id agree on its last documents. */
  ghost predicate LastAgrees(queue: seq<Item>, id: Id, h: Hist) {
    forall v {:trigger v in Queue(queue, id)} ::
      v in Queue(queue, id) ==> v in h.last && LastQueued(queue, id, v) == Some(h.last[v])
  }

  lemma QueueAgrees(w: World, id: Id)
    requires Good(w) && id in w.state && !w.state[id].failed && w.state[id].settled == Unsettled
    ensures id in w.hist && LastAgrees(w.queue, id, w.hist[id])
  {
    hide Good, Queue, LastQueued, Clean, Stored;
    Standing(w, id);
  }

  lemma GroupQueueStored(chunk: seq<Item>, order: seq<Id>, w0: World, w: World, id: Id)
    requires w0.queue == chunk && Queued(w0.state, chunk) && FailedSome(IdSet(order), w0, w)
    requires GroupStored(chunk, order, w) && id in order && id in w0.state
    requires id in w0.hist && LastAgrees(chunk, id, w0.hist[id])
    ensures QueueStored(w, id)
    ensures !w.state[id].failed ==> Queue(w.queue, id) == Versions(ItemsOf(chunk, id)) && w.state[id] == w0.state[id]
  {
    hide Grows, Queue, ItemsOf, LastQueued, Alert, OtherEdges;
    ItemsOfQueue(chunk, id);
    if !w.state[id].failed {
      forall v | v in Queue(w.queue, id)
        ensures Landed(Doc(id, v, w.state[id].occ), w.fx) && v in w.hist[id].last
        ensures Doc(id, v, w.state[id].occ) in w.fx.edged
        ensures w.fx.edged[Doc(id, v, w.state[id].occ)] == w.hist[id].last[v]
      {
        var k := LastKept(chunk, id, v);
        var docs := ItemsOf(chunk, id);
        assert docs[k] in docs && DocOf(docs[k]) == Doc(id, v, w.state[id].occ);
      }
    }
  }

  /** An id of the chunk may be counted, unless it failed. */
  ghost predicate Countable(w: World, id: Id, landed: map<Id, seq<Item>>) {
    && id in w.state && id in w.hist
    && (!w.state[id].failed ==>
         && w.state[id].settled == Unsettled
         && QueueStored(w, id)
         && id in landed && Versions(landed[id]) == Queue(w.queue, id))
  }

  lemma CountStored(w: World, id: Id, h': Hist, q: seq<Version>)
    requires
      Good(w) && id in w.state && id in w.hist && !w.state[id].failed && QueueStored(w, id) && q == Queue(w.queue, id)
    requires h'.counted == w.hist[id].counted + set v | v in q
    ensures Stored(id, w.state[id].occ, h'.counted, w.fx)
  {
    hide Good, Queue;
    Standing(w, id);
  }

  /** What counting an id's documents makes due. */
  lemma CountDue(
      w: World, id: Id, e': Entry, h': Hist, docs: seq<Item>, chunk: seq<Item>, driftCheck: map<Id, seq<Check>>)
    requires
      && id in w.state
      && id in w.hist
      && e'.occ == w.state[id].occ
      && e'.start == w.state[id].start
      && e'.checkRoot == w.state[id].checkRoot
    requires Heeded(Life(id, e'.occ), w.fx) && LandedIn(w, id, docs) && forall it :: it in docs ==> it in chunk
    requires e'.checkRoot ==> id in driftCheck && AsksRoot(w.c, id, e'.start, driftCheck[id])
    requires
      forall it :: it in docs ==> it in w.fx.checked || (id in driftCheck && AsksAfter(it, e'.start, driftCheck[id]))
    ensures DueCheck(CountWorld(w, id, e', h'), id, chunk, driftCheck)
  {
    hide Without;
  }

  /** Of an id, what landed has been checked, but for these documents. */
  ghost predicate LandedIn(w: World, id: Id, docs: seq<Item>) {
    && id in w.state
    && forall it {:trigger it in w.fx.landed} ::
         it in w.fx.landed && LifeOf(it) == Life(id, w.state[id].occ) ==> it in w.fx.checked || it in docs
  }

  lemma DueOthers(
      w: World, id: Id, e': Entry, h': Hist, j: Id, chunk: seq<Item>, was: map<Id, seq<Check>>,
      now: map<Id, seq<Check>>)
    requires DueCheck(w, j, chunk, was) && j != id && (j in was ==> j in now && now[j] == was[j])
    ensures DueCheck(CountWorld(w, id, e', h'), j, chunk, now)
  {
    hide Without, AsksAfter;
  }

  lemma DueMore(w: World, fx: Effects, j: Id, chunk: seq<Item>, driftCheck: map<Id, seq<Check>>)
    requires DueCheck(w, j, chunk, driftCheck) && fx == w.fx.(checked := fx.checked) && w.fx.checked <= fx.checked
    ensures DueCheck(w.(fx := fx), j, chunk, driftCheck)
  {
    hide AsksAfter;
  }

  /** Counting one id leaves what the others need. */
  lemma CountOthers(w: World, id: Id, e': Entry, h': Hist, j: Id, landed: map<Id, seq<Item>>)
    requires Countable(w, j, landed) && j != id
    ensures Countable(CountWorld(w, id, e', h'), j, landed)
    ensures Queue(CountWorld(w, id, e', h').queue, j) == Queue(w.queue, j)
  {
    WithoutQueue(w.queue, id, j);
  }

  lemma CountQueued(w: World, id: Id, e': Entry, h': Hist)
    requires Queued(w.state, w.queue)
    ensures Queued(CountWorld(w, id, e', h').state, CountWorld(w, id, e', h').queue)
    ensures forall it :: it in CountWorld(w, id, e', h').queue ==> it in w.queue && it.id != id
  {
    forall it ensures it in Without(w.queue, id) <==> it in w.queue && it.id != id {
      WithoutMember(w.queue, id, it);
    }
  }

  lemma CountableOf(w: World, id: Id, landed: map<Id, seq<Item>>)
    requires Countable(w, id, landed)
    ensures id in w.state && id in w.hist
    ensures !w.state[id].failed ==>
      && w.state[id].settled == Unsettled
      && QueueStored(w, id)
      && id in landed
      && Versions(landed[id]) == Queue(w.queue, id)
  {
  }

  lemma FailedUnqueued(w: World, id: Id)
    requires Queued(w.state, w.queue) && id in w.state && w.state[id].failed
    ensures forall it :: it in w.queue ==> it.id != id
  {
  }

  /** After the count the queue is empty, and only the ids of the chunk may
      have all their outcomes, or an unchecked document. */
  lemma CountIdle(order: seq<Id>, w0: World, w3: World, w: World)
    requires AwaitingBut({}, w0.state, w0.hist, w0.queue) && w.hist.Keys == w.state.Keys
    requires WatchedBut(IdSet(order), w3.state, w3.fx) && w3.fx.checked <= w.fx.checked && w3.fx.marked <= w.fx.marked
    requires SameFound(w3, w) && w.queue == [] && w.pending == []
    requires forall it :: it in w0.queue ==> it.id in order
    requires
      && Outside(IdSet(order), w0.state, w.state)
      && Outside(IdSet(order), w0.hist, w.hist)
      && Outside(IdSet(order), w3.state, w.state)
    ensures IdleBut(IdSet(order), w)
  {
    forall id | id in w.state && id !in IdSet(order)
      ensures Awaiting(w.state[id], w.hist[id], Queue(w.queue, id)) && WatchedOne(id, w.state[id], w.fx)
    {
      QueueEmpty(w0.queue, id);
      assert Awaiting(w0.state[id], w0.hist[id], Queue(w0.queue, id)) && WatchedOne(id, w3.state[id], w3.fx);
    }
  }

  /** A standing id all of whose outcomes arrived has its nils applied, and saw
      a document. */
  ghost predicate Due(w: World, id: Id) {
    && id in w.state
    && id in w.hist
    && !w.state[id].failed
    && w.state[id].settled == Unsettled
    && w.state[id].remaining == 0
    && !w.state[id].partial
  }

  ghost predicate NilsApplied(w: World, id: Id) {
    Due(w, id) ==> Applied(id, w.state[id].occ, w.hist[id].nils, w.fx)
  }

  lemma NilsAppliedLater(ids: set<Id>, w: World, w': World, id: Id)
    requires NilsApplied(w, id) && FailedSome(ids, w, w')
    ensures NilsApplied(w', id)
  {
    hide Trimmed, Dropped;
  }

  /** Settling one id leaves the others' nils applied. */
  lemma NilsAppliedOthers(w: World, w': World, id: Id, j: Id)
    requires
      NilsApplied(w, j) && j != id && Others(id, w.state, w'.state) && Others(id, w.hist, w'.hist) && Grows(w.fx, w'.fx)
    ensures NilsApplied(w', j)
  {
  }

  /** The id's landed documents have been checked, and its root if it is due. */
  ghost predicate Looked(w: World, id: Id) {
    id in w.state && id in w.hist ==>
      && WatchedOne(id, w.state[id], w.fx)
      && (Due(w, id) ==> RootChecked(Life(id, w.state[id].occ), w.fx))
  }

  lemma LookedLater(ids: set<Id>, w: World, w': World, id: Id)
    requires Looked(w, id) && FailedSome(ids, w, w')
    ensures Looked(w', id)
  {
    hide Trimmed, Dropped;
  }

  lemma LookedOthers(w: World, w': World, id: Id, j: Id)
    requires
      && Looked(w, j)
      && j != id
      && Others(id, w.state, w'.state)
      && Others(id, w.hist, w'.hist)
      && Grows(w.fx, w'.fx)
      && SameFound(w, w')
    ensures Looked(w', j)
  {
  }

  lemma LookedSettled(w: World, id: Id)
    requires id in w.state ==> w.state[id].settled != Unsettled
    ensures Looked(w, id)
  {
  }

  /** A landed document of the id has been checked, or is one of the chunk
      whose check is due, and the root's own check is due in a walk. */
  ghost predicate DueCheck(w: World, id: Id, chunk: seq<Item>, driftCheck: map<Id, seq<Check>>) {
    id in w.state && id in w.hist && !w.state[id].failed ==>
      && Heeded(Life(id, w.state[id].occ), w.fx)
      && (w.state[id].checkRoot ==> id in driftCheck && AsksRoot(w.c, id, w.state[id].start, driftCheck[id]))
      && forall it {:trigger it in w.fx.landed} :: it in w.fx.landed && LifeOf(it) == Life(id, w.state[id].occ) ==>
           it in w.fx.checked || (it in chunk && id in driftCheck && AsksAfter(it, w.state[id].start, driftCheck[id]))
  }

  lemma DueLater(w: World, w': World, ids: set<Id>, id: Id, chunk: seq<Item>, driftCheck: map<Id, seq<Check>>)
    requires DueCheck(w, id, chunk, driftCheck) && FailedSome(ids, w, w')
    ensures DueCheck(w', id, chunk, driftCheck)
  {
    hide Trimmed, Dropped, AsksAfter;
  }

  /** The documents of the chunk whose check is due. */
  ghost function DueItems(w: World, chunk: seq<Item>, standing: seq<Id>, driftCheck: map<Id, seq<Check>>): set<Item> {
    set it | it in chunk && it.id in standing && it.id in driftCheck && it.id in w.state && it.occ == w.state[it.id].occ
             && AsksAfter(it, w.state[it.id].start, driftCheck[it.id])
  }

  /** After the drift check, what was due has been looked at. */
  lemma LookedNow(w: World, w': World, id: Id, chunk: seq<Item>, driftCheck: map<Id, seq<Check>>, standing: seq<Id>)
    requires Good(w') && DueCheck(w, id, chunk, driftCheck) && NilsApplied(w, id) && FailedSome(IdSet(standing), w, w')
    requires id in driftCheck && id in w.state && !w.state[id].failed ==> id in standing
    requires
      DueItems(w, chunk, standing, driftCheck) <= w'.fx.checked && RootsAsked(w, standing, driftCheck) <= w'.fx.rooted
    ensures Looked(w', id)
  {
    hide Good, Trimmed, Dropped, AsksAfter, Grows, AsksRoot, Applied;
    FailedGrows(IdSet(standing), w, w');
    GrowsChecked(w.fx, w'.fx);
    if id in w'.state && id in w'.hist && !w'.state[id].failed {
      Standing(w', id);
      HeededLater(w, w', IdSet(standing), id);
      var life := Life(id, w.state[id].occ);
      forall it | it in w'.fx.landed && LifeOf(it) == life ensures it in w'.fx.checked {
        if it !in w.fx.checked { assert it in DueItems(w, chunk, standing, driftCheck); }
      }
      if Due(w', id) && w.state[id].checkRoot {
        assert life in RootsAsked(w, standing, driftCheck);
      }
    }
  }

  lemma FailedGrows(ids: set<Id>, w: World, w': World)
    requires FailedSome(ids, w, w')
    ensures Grows(w.fx, w'.fx)
  {
  }

  lemma GrowsChecked(a: Effects, b: Effects)
    requires Grows(a, b)
    ensures a.checked <= b.checked && a.rooted <= b.rooted
  {
  }

  ghost predicate SawDocs(w: World, id: Id) {
    id in w.hist ==> w.hist[id].docs != {}
  }

  lemma SawDocsMoves(w: World, w': World, id: Id)
    requires SawDocs(w, id) && Moves(w, w')
    ensures SawDocs(w', id)
  {
    hide Grows;
  }

  lemma SettleReady(chunk: seq<Item>, ids: set<Id>, w: World, id: Id)
    requires Good(w) && w.queue == [] && Due(w, id) && NilsApplied(w, id) && SawDocs(w, id) && Looked(w, id)
    ensures WatchedOne(id, w.state[id], w.fx) && RootChecked(Life(id, w.state[id].occ), w.fx)
    ensures Ready(w, id) && w.hist[id].docs != {} && Applied(id, w.state[id].occ, w.hist[id].nils, w.fx)
  {
    hide Good;
  }

  lemma FailedRest(chunk: seq<Item>, w: World, w': World, id: Id)
    requires FailedSome({id}, w, w')
    requires forall it :: it in chunk ==> NilsApplied(w, it.id) && SawDocs(w, it.id) && Looked(w, it.id)
    ensures forall it :: it in chunk ==> NilsApplied(w', it.id) && SawDocs(w', it.id) && Looked(w', it.id)
    ensures w'.state.Keys == w.state.Keys
    ensures forall j :: j in w.state && j != id ==> w'.state[j] == w.state[j]
    ensures w.pending == [] && w.queue == [] ==> w'.pending == []
  {
    hide NilsApplied, Grows, Looked;
    forall it | it in chunk ensures NilsApplied(w', it.id) && Looked(w', it.id) {
      NilsAppliedLater({id}, w, w', it.id);
      LookedLater({id}, w, w', it.id);
    }
  }

  lemma SettledRest(chunk: seq<Item>, w: World, w': World, id: Id)
    requires Moves(w, w') && Others(id, w.state, w'.state) && Others(id, w.hist, w'.hist) && SameFound(w, w')
    requires id in w'.state ==> w'.state[id].settled != Unsettled
    requires forall it :: it in chunk ==> NilsApplied(w, it.id) && SawDocs(w, it.id) && Looked(w, it.id)
    ensures forall it :: it in chunk ==> NilsApplied(w', it.id) && SawDocs(w', it.id) && Looked(w', it.id)
    ensures forall j :: j in w'.state && j != id ==> j in w.state && w'.state[j] == w.state[j]
  {
    hide Grows;
    hide Looked;
    forall it | it in chunk ensures NilsApplied(w', it.id) && SawDocs(w', it.id) && Looked(w', it.id) {
      SawDocsMoves(w, w', it.id);
      if it.id != id {
        NilsAppliedOthers(w, w', id, it.id);
        LookedOthers(w, w', id, it.id);
      } else {
        LookedSettled(w', id);
      }
    }
  }

  lemma PendingFree(w: World, pending: seq<Item>)
    requires Good(w)
    ensures Good(w.(pending := pending))
  {
    hide AllTied, Sound, Blamed, AllEdged;
  }

  lemma SendableLater(w: World, w': World)
    requires Sendable(w) && w'.queue == w.queue && w'.state == w.state && w'.hist == w.hist
    ensures Sendable(w')
  {
  }

  lemma MovesFrom(w: World, items: set<Item>, w': World)
    requires Moves(Taken(w, items), w')
    ensures Moves(w, w')
  {
    assert Grows(w.fx, Taken(w, items).fx);
    GrowsOn(w.fx, Taken(w, items).fx, w'.fx);
    hide Grows;
  }

  // ------------------------------------------------------- a flush's phases

  lemma FailedKeys(ids: set<Id>, w: World, w': World)
    requires FailedSome(ids, w, w')
    ensures w'.state.Keys == w.state.Keys && |w'.pending| <= |w.pending|
  {
    hide Grows, Trimmed, Dropped;
  }

  /** Every document of a chunk belongs to an unsettled, standing id. */
  lemma ChunkStands(w: World, w': World, chunk: seq<Item>)
    requires Good(w) && Idle(w) && w.pending == chunk && w'.state.Keys == w.state.Keys
    ensures forall it ::
      it in chunk ==>
        it.id in w'.state && it.id in w.state && !w.state[it.id].failed && w.state[it.id].settled == Unsettled
  {
    hide Good, Grows, Trimmed, Dropped, Queue;
    forall it | it in chunk ensures it.id in w.state && w.state[it.id].settled == Unsettled {
      Standing(w, it.id);
      QueueMember(w.queue, it.id, it.version);
    }
  }

  lemma NoneRejected(chunk: seq<Item>, hasRejected: set<Id>)
    requires forall id :: id in hasRejected ==> exists it :: it in chunk && it.id == id && Rejected([], chunk, it)
    ensures hasRejected == {}
  {
  }

  lemma GroupStoredNow(
      chunk: seq<Item>, order: seq<Id>, landed: map<Id, seq<Item>>, hasRejected: set<Id>, failures: seq<DocKey>,
      w1: World, w2: World, w3: World)
    requires FailedSome(IdSet(order), w1, w2) && FailedSome(IdSet(order), w2, w3)
    requires forall id :: id in order ==> id in w1.state
    requires forall it :: it in chunk && !Rejected(failures, chunk, it) ==> it in w1.fx.landed
    requires forall it :: it in chunk && it.id !in hasRejected ==> !Rejected(failures, chunk, it)
    requires forall id :: id in order && id !in hasRejected ==> id in landed && landed[id] == ItemsOf(chunk, id)
    requires forall id :: id in order && id in landed ==> EdgesKept(w2, id, landed[id])
    requires w3.fx.edged == w2.fx.edged
    requires forall id :: id in order && id in hasRejected ==> id in w3.state && w3.state[id].failed
    ensures GroupStored(chunk, order, w3)
  {
    hide Trimmed, Dropped, ItemsOf, Rejected;
    forall id | id in order
      ensures
        && id in w3.state
        && (|| w3.state[id].failed
            || (SetsHold(ItemsOf(chunk, id), w3.fx) && forall it :: it in ItemsOf(chunk, id) ==> it in w3.fx.landed))
    {
      ItemsOfQueue(chunk, id);
      assert id in w2.state;
    }
  }

  lemma StandsAt(w: World, it: Item)
    requires Idle(w) && it in w.pending
    ensures w.queue == w.pending && it.id in w.state && !w.state[it.id].failed
  {
    hide AwaitingBut, WatchedBut;
  }

  lemma AllCountable(
      chunk: seq<Item>, order: seq<Id>, landed: map<Id, seq<Item>>, hasRejected: set<Id>, items: set<Item>, w: World,
      w3: World)
    requires Good(w) && Idle(w) && w.pending == chunk && Good(w3)
    requires FailedSome(IdSet(order), Taken(w, items), w3) && GroupStored(chunk, order, w3)
    requires forall id :: id in order <==> exists it :: it in chunk && it.id == id
    requires forall it :: it in chunk ==> it.id in w.state && w.state[it.id].settled == Unsettled
    requires forall id :: id in order && id !in hasRejected ==> id in landed && landed[id] == ItemsOf(chunk, id)
    requires forall id :: id in order && id in hasRejected ==> id in w3.state && w3.state[id].failed
    ensures Queued(w3.state, w3.queue)
    ensures forall id :: id in order ==> Countable(w3, id, landed)
    ensures forall it :: it in w3.queue ==> it.id in order
  {
    hide Good, Grows, Queue, ItemsOf, Dropped, GroupStored, Alert;
    var p0 := Taken(w, items);
    FailedQueued(IdSet(order), p0, w3);
    SameKeys(w3);
    forall id | id in order ensures Countable(w3, id, landed) {
      var it :| it in chunk && it.id == id;
      StandsAt(w, it);
      QueueAgrees(w, id);
      GroupQueueStored(chunk, order, p0, w3, id);
    }
  }

  lemma MovesMarked(w: World, w': World)
    requires Moves(w, w')
    ensures w.fx.checked <= w'.fx.checked && w.fx.marked <= w'.fx.marked
  {
  }

  lemma CountedIdle(order: seq<Id>, chunk: seq<Item>, items: set<Item>, w: World, w3: World, w4: World)
    requires
      Good(w) && Idle(w) && w.pending == chunk && Good(w3) && Good(w4) && forall it :: it in items ==> it in chunk
    requires FailedSome(IdSet(order), Taken(w, items), w3) && Flushes(IdSet(order), w3, w4) && SameFound(w3, w4)
    requires Good(Taken(w, items)) && w4.pending == [] && w4.queue == []
    requires forall id :: id in order <==> exists it :: it in chunk && it.id == id
    ensures IdleBut(IdSet(order), w4) && Moves(w, w4)
    ensures forall id :: id in order ==> SawDocs(w4, id)
  {
    hide Good, Grows, Queue, Dropped, Trimmed, Moves, Outside, SomeFailed, AwaitingBut, WatchedBut, Alert;
    var ids, p0 := IdSet(order), Taken(w, items);
    FailedFlushes(ids, ids, p0, w3);
    FlushesOn(ids, p0, w3, w4);
    SameKeys(w4);
    TakenWatched(w, items, ids);
    FailedWatched(ids, ids, p0, w3);
    MovesMarked(w3, w4);
    CountIdle(order, p0, w3, w4);
    MovesFrom(w, items, w4);
    forall id | id in order ensures SawDocs(w4, id) {
      var it :| it in chunk && it.id == id;
      Standing(w, id);
      QueueMember(w.queue, id, it.version);
      SawDocsMoves(w, w4, id);
    }
  }

  // ----------------------------------------------------------- finish, salvage

  datatype RebuildError = NoError | MarkedFailures(count: nat) | UnmarkedFailures(count: nat)

  /** The ids an ended walk leaves without every outcome. */
  ghost function Incomplete(state: map<Id, Entry>): set<Id> {
    set id | id in state && !state[id].failed && state[id].settled == Unsettled
  }

  /** Nothing begun is forgotten, each failed id is counted once, and every
      failed id is marked unless a mark failed. */
  ghost predicate Closed(fx: Effects, failed: nat, markFailed: bool) {
    && failed == |fx.failedIds|
    && (!markFailed ==>
          forall life {:trigger life in fx.begun} :: life in fx.begun ==> life in fx.settled || life in fx.marked)
    && (!markFailed ==>
          forall id {:trigger id in fx.failedIds} :: id in fx.failedIds ==> exists occ :: Life(id, occ) in fx.marked)
  }

  /** What finish has marked so far. */
  ghost predicate MarkedUpto(w: World, fx: Effects, done: set<Id>) {
    && (forall id {:trigger id in fx.failedIds} ::
          id in fx.failedIds ==> id in w.state && Life(id, w.state[id].occ) in fx.marked)
    && (forall id {:trigger id in done} ::
          id in done && id in w.state && !w.state[id].failed && w.state[id].settled == Unsettled ==>
            Life(id, w.state[id].occ) in fx.marked)
  }

  ghost predicate FinishInv(w: World, fx: Effects, done: set<Id>, failed: nat, markFailed: bool) {
    && Grows(w.fx, fx) && fx.settled == w.fx.settled && fx.begun == w.fx.begun
    && fx.failedIds == w.fx.failedIds + (Incomplete(w.state) * done)
    && failed == |fx.failedIds| && (markFailed ==> failed > 0)
    && (!markFailed ==> MarkedUpto(w, fx, done))
    && NoClash(fx) && AllServed(w.c.mayDelete, fx)
  }

  lemma FinishStart(w: World)
    requires Good(w)
    ensures FinishInv(w, w.fx, {}, w.failed, w.markFailed)
  {
    hide AllTied, AllEdged, Blamed, Owed, NoClash, AllClean, AllServed, Bounded, Kept;
  }

  lemma FinishSkip(w: World, fx: Effects, done: set<Id>, id: Id, failed: nat, markFailed: bool)
    requires FinishInv(w, fx, done, failed, markFailed)
    requires id in w.state && (w.state[id].failed || w.state[id].settled != Unsettled) && id !in done
    ensures FinishInv(w, fx, done + {id}, failed, markFailed)
  {
    hide Grows, NoClash, AllServed;
    assert Incomplete(w.state) * (done + {id}) == Incomplete(w.state) * done;
  }

  ghost function FinishEffects(fx: Effects, life: Life, ok: bool): Effects {
    fx.(failedIds := fx.failedIds + {life.id}, marked := if ok then fx.marked + {life} else fx.marked)
  }

  lemma FinishMarksOnly(fx: Effects, life: Life, ok: bool)
    ensures FinishEffects(fx, life, ok).landed == fx.landed
  {
  }

  lemma FinishMark(w: World, was: Effects, done: set<Id>, id: Id, ok: bool, failed: nat, markFailed: bool)
    requires Good(w) && FinishInv(w, was, done, failed, markFailed)
    requires id in w.state && !w.state[id].failed && w.state[id].settled == Unsettled && id !in done
    ensures FinishInv(w, FinishEffects(was, Life(id, w.state[id].occ), ok), done + {id}, failed + 1, markFailed || !ok)
  {
    hide Good, Served, Tied, Clean, Stored, Grows, AllServed;
    var fx := FinishEffects(was, Life(id, w.state[id].occ), ok);
    Standing(w, id);
    assert Incomplete(w.state) * (done + {id}) == (Incomplete(w.state) * done) + {id};
    FinishServed(w, was, Life(id, w.state[id].occ), ok);
  }

  lemma FinishServed(w: World, was: Effects, life: Life, ok: bool)
    requires Grows(w.fx, was) && AllServed(w.c.mayDelete, was)
    ensures Grows(w.fx, FinishEffects(was, life, ok)) && AllServed(w.c.mayDelete, FinishEffects(was, life, ok))
  {
    hide Served;
    var fx := FinishEffects(was, life, ok);
    forall l | l in fx.settled ensures Served(l, fx.settled[l], w.c.mayDelete, fx) {
      ServedGrows(l, was.settled[l], w.c.mayDelete, was, fx);
    }
  }

  lemma FinishClosed(w: World, fx: Effects, done: set<Id>, failed: nat, markFailed: bool)
    requires Good(w) && FinishInv(w, fx, done, failed, markFailed) && done == w.state.Keys
    ensures
      && Grows(w.fx, fx)
      && fx.settled == w.fx.settled
      && fx.begun == w.fx.begun
      && NoClash(fx)
      && AllServed(w.c.mayDelete, fx)
    ensures
      && Closed(fx, failed, markFailed)
      && fx.failedIds == w.fx.failedIds + Incomplete(w.state)
      && (markFailed ==> failed > 0)
  {
    hide Good, Tied, Clean, Stored, AllServed, NoClash;
    if !markFailed {
      OwedOf(w);
      forall life | life in fx.begun ensures life in fx.settled || life in fx.marked {
        assert life in w.fx.settled || Open(w.state, life);
        if life !in fx.settled {
          Standing(w, life.id);
        }
      }
    }
    assert Incomplete(w.state) * done == Incomplete(w.state);
  }

  lemma OwedOf(w: World)
    requires Good(w)
    ensures Owed(w.state, w.fx)
    ensures w.failed == |w.fx.failedIds|
    ensures
      !w.markFailed ==> forall id :: id in w.fx.failedIds ==> id in w.state && Life(id, w.state[id].occ) in w.fx.marked
  {
    hide AllTied, AllEdged, Blamed, Owed, NoClash, AllClean, AllServed, Bounded, Kept;
  }

  lemma SalvageParts(w: World)
    requires Good(w)
    ensures NoClash(w.fx) && AllServed(w.c.mayDelete, w.fx) && Grows(w.fx, w.fx)
  {
    hide AllTied, AllEdged, Blamed, Owed, NoClash, AllClean, AllServed, Bounded, Kept, Failures;
  }

  lemma SalvageClosed(w: World, roots: seq<Id>, ok: bool, fx: Effects, markFailed: bool)
    requires Good(w) && (markFailed <==> w.markFailed || !ok)
    requires forall id :: id in roots <==> id in w.state && !w.state[id].failed && w.state[id].settled == Unsettled
    requires
      if ok && roots != [] then
        fx == w.fx.(marked := w.fx.marked + set id | id in roots :: Life(id, w.state[id].occ))
      else
        fx == w.fx
    ensures Grows(w.fx, fx) && Closed(fx, w.failed, markFailed) && NoClash(fx) && AllServed(w.c.mayDelete, fx)
  {
    hide Good, Served, Tied, Clean, Stored;
    SalvageParts(w);
    OwedOf(w);
    forall life | life in fx.settled ensures Served(life, fx.settled[life], w.c.mayDelete, fx) {
      ServedGrows(life, w.fx.settled[life], w.c.mayDelete, w.fx, fx);
    }
    if !markFailed {
      forall life | life in fx.begun ensures life in fx.settled || life in fx.marked {
        assert life in w.fx.settled || Open(w.state, life);
        if life !in fx.settled {
          Standing(w, life.id);
          if !w.state[life.id].failed { assert life.id in roots; }
        }
      }
      forall id | id in fx.failedIds ensures exists occ :: Life(id, occ) in fx.marked {
        assert Life(id, w.state[id].occ) in fx.marked;
      }
    }
  }

  /** The landed documents of an id are the chunk's, at its Build Sequence, and
      what landed of it before has been checked. */
  ghost predicate Fetched(w: World, id: Id, landed: map<Id, seq<Item>>, chunk: seq<Item>) {
    id in w.state && id in w.hist && !w.state[id].failed ==>
      && Heeded(Life(id, w.state[id].occ), w.fx)
      && id in landed && landed[id] != [] && LandedIn(w, id, landed[id])
      && forall it :: it in landed[id] ==> it in chunk && it.id == id && it.occ == w.state[id].occ
  }

  lemma AllFetched(
      chunk: seq<Item>, order: seq<Id>, landed: map<Id, seq<Item>>, hasRejected: set<Id>, items: set<Item>, w: World,
      w3: World)
    requires
      && Good(w)
      && Idle(w)
      && w.pending == chunk
      && FailedSome(IdSet(order), Taken(w, items), w3)
      && forall it :: it in items ==> it in chunk
    requires forall it :: it in chunk ==> it.id in w.state && w.state[it.id].settled == Unsettled
    requires forall id :: id in order <==> exists it :: it in chunk && it.id == id
    requires forall id :: id in order && id !in hasRejected ==> id in landed && landed[id] == ItemsOf(chunk, id)
    requires forall id :: id in order && id in hasRejected ==> id in w3.state && w3.state[id].failed
    ensures forall id :: id in order ==> Fetched(w3, id, landed, chunk)
  {
    hide Good, Trimmed, Dropped, ItemsOf, Queue, AwaitingBut;
    forall id | id in order ensures Fetched(w3, id, landed, chunk) {
      ItemsOfQueue(chunk, id);
      var it :| it in chunk && it.id == id;
      assert WatchedOne(id, w.state[id], w.fx);
    }
  }

  lemma FailedDue(w: World, id: Id, chunk: seq<Item>, driftCheck: map<Id, seq<Check>>)
    requires id in w.state && w.state[id].failed
    ensures DueCheck(w, id, chunk, driftCheck)
  {
  }

  /** Before an id is counted: what needs no check is shown not to. */
  lemma CountStart(
      order: seq<Id>, i: nat, landed: map<Id, seq<Item>>, driftCheck: map<Id, seq<Check>>, chunk: seq<Item>, w0: World,
      w1: World, all: set<Id>)
    requires
      && i < |order|
      && Good(w0)
      && w1 == w0.(fx := w1.fx)
      && w1.fx == w0.fx.(checked := w1.fx.checked)
      && w0.fx.checked <= w1.fx.checked
    requires forall j :: i <= j < |order| ==> Countable(w0, order[j], landed) && Fetched(w0, order[j], landed, chunk)
    requires forall j :: 0 <= j < i ==> DueCheck(w0, order[j], chunk, driftCheck)
    ensures Flushes(all, w0, w1)
    ensures forall j :: i <= j < |order| ==> Countable(w1, order[j], landed) && Fetched(w1, order[j], landed, chunk)
    ensures forall j :: 0 <= j < i ==> DueCheck(w1, order[j], chunk, driftCheck)
  {
    hide Good, Queue, Versions, DueCheck;
    SameKeys(w0);
    assert Grows(w0.fx, w1.fx);
    hide Grows;
    forall j | 0 <= j < i ensures DueCheck(w1, order[j], chunk, driftCheck) {
      DueMore(w0, w1.fx, order[j], chunk, driftCheck);
    }
    forall j | i <= j < |order| ensures Countable(w1, order[j], landed) && Fetched(w1, order[j], landed, chunk) {
      assert Countable(w0, order[j], landed) && Fetched(w0, order[j], landed, chunk);
    }
  }

  lemma CountMay(w: World, id: Id, e': Entry, h': Hist, landed: map<Id, seq<Item>>)
    requires Countable(w, id, landed) && !w.state[id].failed && Tied(e', h', [], w.c.plans) && Counted(w.state[id], e')
    requires SameSightings(w.hist[id], h') && Stored(id, w.state[id].occ, h'.counted, w.fx)
    ensures MayCount(w, id, e', h')
  {
    hide Tied, Stored;
  }

  /** Counting one id keeps what the ids after it need, and makes its own check
      due. */
  lemma CountRest(
      order: seq<Id>, i: nat, landed: map<Id, seq<Item>>, was: map<Id, seq<Check>>, now: map<Id, seq<Check>>,
      chunk: seq<Item>, w: World, e': Entry, h': Hist)
    requires
      i < |order| && (forall a, b :: 0 <= a < b < |order| ==> order[a] != order[b]) && MayCount(w, order[i], e', h')
    requires forall j :: i <= j < |order| ==> Countable(w, order[j], landed) && Fetched(w, order[j], landed, chunk)
    requires forall j :: 0 <= j < i ==> DueCheck(w, order[j], chunk, was)
    requires order[i] in landed
    requires forall id :: id != order[i] && id in was ==> id in now && now[id] == was[id]
    requires e'.checkRoot ==> order[i] in now && AsksRoot(w.c, order[i], e'.start, now[order[i]])
    requires forall it ::
      it in landed[order[i]] ==> it in w.fx.checked || (order[i] in now && AsksAfter(it, e'.start, now[order[i]]))
    ensures var w' := CountWorld(w, order[i], e', h');
            && (forall j :: i < j < |order| ==> Countable(w', order[j], landed) && Fetched(w', order[j], landed, chunk))
            && (forall j :: 0 <= j <= i ==> DueCheck(w', order[j], chunk, now))
  {
    hide Tied, Stored, DueCheck, Countable, Versions, Without, AsksAfter, AsksRoot;
    var id, w' := order[i], CountWorld(w, order[i], e', h');
    assert Countable(w, id, landed) && Fetched(w, id, landed, chunk);
    CountDue(w, id, e', h', landed[id], chunk, now);
    forall j | i < j < |order| ensures Countable(w', order[j], landed) && Fetched(w', order[j], landed, chunk) {
      CountOthers(w, id, e', h', order[j], landed);
      assert Fetched(w, order[j], landed, chunk);
    }
    forall j | 0 <= j < i ensures DueCheck(w', order[j], chunk, now) {
      DueOthers(w, id, e', h', order[j], chunk, was, now);
    }
  }

  /** Counting one id, all in one. */
  lemma CountAll(
      order: seq<Id>, i: nat, landed: map<Id, seq<Item>>, was: map<Id, seq<Check>>, now: map<Id, seq<Check>>,
      chunk: seq<Item>, w: World, e': Entry, h': Hist)
    requires i < |order| && (forall a, b :: 0 <= a < b < |order| ==> order[a] != order[b]) && Good(w)
    requires forall j :: i <= j < |order| ==> Countable(w, order[j], landed) && Fetched(w, order[j], landed, chunk)
    requires forall j :: 0 <= j < i ==> DueCheck(w, order[j], chunk, was)
    requires order[i] in w.state && order[i] in w.hist && !w.state[order[i]].failed && order[i] in landed
    requires Tied(e', h', [], w.c.plans) && Counted(w.state[order[i]], e') && SameSightings(w.hist[order[i]], h')
    requires h'.counted == w.hist[order[i]].counted + set v | v in Versions(landed[order[i]])
    requires forall id :: id != order[i] && id in was ==> id in now && now[id] == was[id]
    requires e'.checkRoot ==> order[i] in now && AsksRoot(w.c, order[i], e'.start, now[order[i]])
    requires forall it ::
      it in landed[order[i]] ==>
        it in w.fx.checked || (order[i] in now && AsksAfter(it, e'.start, now[order[i]]))
    requires Queued(w.state, w.queue)
    ensures var w' := CountWorld(w, order[i], e', h');
            && Good(w') && Flushes(IdSet(order), w, w') && Queued(w'.state, w'.queue)
            && (forall it :: it in w'.queue ==> it in w.queue && it.id != order[i])
            && (forall j :: i < j < |order| ==> Countable(w', order[j], landed) && Fetched(w', order[j], landed, chunk))
            && (forall j :: 0 <= j <= i ==> DueCheck(w', order[j], chunk, now))
  {
    hide Good, Queued, Countable, Queue, QueueStored, Tied, Stored, Versions, Without, DueCheck, Fetched, MayCount,
      Flushes, AsksAfter, AsksRoot;
    var id := order[i];
    SameKeys(w);
    CountableOf(w, id, landed);
    CountStored(w, id, h', Versions(landed[id]));
    CountMay(w, id, e', h', landed);
    CountGood(w, id, e', h');
    CountFlushes(IdSet(order), w, id, e', h');
    CountQueued(w, id, e', h');
    CountRest(order, i, landed, was, now, chunk, w, e', h');
  }

  lemma AllLooked(chunk: seq<Item>, ids: set<Id>, w: World)
    requires
      && Good(w)
      && (forall it :: it in chunk ==> Looked(w, it.id))
      && forall id :: id in ids ==> exists it :: it in chunk && it.id == id
    ensures forall id :: id in ids && id in w.state ==> id in w.hist && WatchedOne(id, w.state[id], w.fx)
  {
    hide Good;
    SameKeys(w);
    forall id | id in ids && id in w.state ensures id in w.hist && WatchedOne(id, w.state[id], w.fx) {
      var it :| it in chunk && it.id == id;
      assert Looked(w, it.id);
    }
  }
}
