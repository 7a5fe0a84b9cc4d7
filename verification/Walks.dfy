// Walks of an all-of-type rebuild: over the listings of several plans, and
// the resumable walk of a single plan's pages.

module Walks {
  import opened Wrappers
  import opened Rows
  import opened FlusherModel
  import opened FlusherState
  import opened FlusherSightings
  import opened FlushModel
  import opened FlusherClass
  import opened WalkModel
  import opened WalkEdges

  /** One listed item: begun on its first sighting, then its nil or document. */
  method Sight(
      fl: Flusher, v: Version, s: Sighting, expected: nat, partial: bool, start: nat, clock: nat,
      ghost versions: set<Version>)
    returns (err: bool, flushed: bool, clock': nat, ghost began: bool, ghost mid: World, ghost ok: bool)
    requires fl.Valid() && fl.fx.top <= clock
    requires |versions| == expected && v in versions && forall u :: u in versions ==> u in fl.c.plans && u != 0
    requires s.id in fl.state ==> InOrder(fl.W(), s.id, v)
    modifies fl
    ensures fl.Inv() && fl.fx.top <= clock'
    ensures !err ==> fl.Valid() && (flushed ==> fl.pending == [])
    ensures err ==> !fl.c.reliable && !flushed
    ensures !err && !flushed ==> fl.fx.landed == old(fl.fx.landed)
    ensures began && s.id in old(fl.state) ==> mid == old(fl.W())
    ensures began && s.id !in old(fl.state) ==>
      exists occ: nat, stale: nat ::
        && occ > old(fl.fx.top)
        && mid == BeginWorld(old(fl.W()), s.id, Begun(occ, stale, start, true, expected, partial), versions)
    ensures began ==> Sees(mid, fl.W(), s.id, v, s.doc, s.relations)
    ensures began ==> Good(mid) && Idle(mid) && mid.pending == old(fl.pending)
    ensures !err && fl.chunkSize <= 1 && old(fl.pending) == [] ==> fl.pending == []
    ensures fl.c.keepSettled && !err && !flushed && old(Uncounted(fl.W())) ==> Uncounted(fl.W())
    ensures |fl.pending| <= |old(fl.pending)| + 1 && (flushed ==> |old(fl.pending)| + 1 >= fl.chunkSize)
    ensures
      !began ==> !fl.c.reliable && s.id !in old(fl.state) && !flushed && fl.W() == FailWorld(old(fl.W()), s.id, ok)
  {
    hide Good, IdleBut, Sees, Queue;
    err, flushed, began, ok, clock' := false, false, true, true, clock;
    if s.id !in fl.state {
      var begun;
      begun, clock', ok := First(fl, s.id, v, expected, partial, start, clock, versions);
      if !begun {
        began, mid := false, old(fl.W());
        return;
      }
    }
    mid := fl.W();
    if s.doc {
      err, flushed := fl.Add(s.id, v, s.relations);
    } else {
      fl.Gone(s.id, v);
      NilSeen(mid, fl.W(), s.id, v, s.relations);
    }
    SeesTop(mid, fl.W(), s.id, v, s.doc, s.relations);
  }

  /** An id's first sighting begins it, or fails it when its begin does. */
  method First(
      fl: Flusher, id: Id, v: Version, expected: nat, partial: bool, start: nat, clock: nat,
      ghost versions: set<Version>)
    returns (begun: bool, clock': nat, ghost ok: bool)
    requires fl.Valid() && fl.fx.top <= clock && id !in fl.state
    requires |versions| == expected && v in versions && forall u :: u in versions ==> u in fl.c.plans && u != 0
    modifies fl
    ensures fl.Valid() && fl.fx.top <= clock' && (begun ==> id in fl.state && InOrder(fl.W(), id, v))
    ensures (begun ==> fl.pending == old(fl.pending)) && fl.fx.landed == old(fl.fx.landed)
    ensures |fl.pending| <= |old(fl.pending)| && (old(Uncounted(fl.W())) ==> Uncounted(fl.W()))
    ensures begun ==> exists occ: nat, stale: nat ::
      && occ > old(fl.fx.top)
      && fl.W() == BeginWorld(old(fl.W()), id, Begun(occ, stale, start, true, expected, partial), versions)
    ensures !begun ==> !fl.c.reliable && fl.W() == FailWorld(old(fl.W()), id, ok)
  {
    hide Good, IdleBut, Queue, FailWorld, BeginWorld, Uncounted, InOrder;
    begun := fl.Call();
    clock', ok := clock, true;
    ghost var w := fl.W();
    if !begun {
      ok := fl.Fail(id);
      FailWorldIdle(w, id, ok);
      return;
    }
    var drawn: int := *;
    var captured: int := *;
    var stale := if captured < 0 then 0 else captured;
    clock' := if drawn > clock then drawn else clock + 1;
    NewInOrder(w, id, Begun(clock', stale, start, true, expected, partial), versions, v);
    fl.Begin(id, clock', stale, start, true, expected, partial, versions);
  }

  lemma NewInOrder(w: World, id: Id, e: Entry, versions: set<Version>, v: Version)
    requires id !in w.state && v in versions
    ensures InOrder(BeginWorld(w, id, e, versions), id, v)
    ensures var w' := BeginWorld(w, id, e, versions);
            id in w'.state && w'.pending == w.pending && w'.fx.top == e.occ && (Uncounted(w) ==> Uncounted(w'))
  {
  }

  /** A nil's sighting says nothing of children. */
  lemma NilSeen(w: World, w': World, id: Id, v: Version, rels: seq<Resource>)
    requires Sees(w, w', id, v, false, [])
    ensures Sees(w, w', id, v, false, rels) && |w'.pending| <= |w.pending|
  {
    hide Grows;
  }

  lemma SeesTop(w: World, w': World, id: Id, v: Version, doc: bool, rels: seq<Resource>)
    requires Sees(w, w', id, v, doc, rels)
    ensures w'.fx.top == w.fx.top && w'.c == w.c && |w'.pending| <= |w.pending| + 1
  {
    hide Grows;
  }

  lemma FailWorldIdle(w: World, id: Id, ok: bool)
    requires Good(w) && Idle(w) && id !in w.state
    ensures Idle(FailWorld(w, id, ok))
    ensures var w' := FailWorld(w, id, ok);
            |w'.pending| <= |w.pending| && w'.fx.top == w.fx.top && (Uncounted(w) ==> Uncounted(w'))
  {
    hide Good, Queue;
    SameKeys(w);
    var w' := FailWorld(w, id, ok);
    forall it ensures it in w'.pending <==> it in w.pending && it.id != id { WithoutMember(w.pending, id, it); }
    forall j | j in w'.state ensures Awaiting(w'.state[j], w'.hist[j], Queue(w'.queue, j)) {
      WithoutQueue(w.queue, id, j);
      if j != id { assert Awaiting(w.state[j], w.hist[j], Queue(w.queue, j)); }
    }
  }

  /** How the whole walk must have answered an id. */
  ghost predicate Answers(walk: seq<Plan>, id: Id, mayDelete: bool, chunkSize: nat, paced: bool, fx: Effects) {
    match Batch(walk, id)
    case NotListed => id !in fx.failedIds && forall occ: nat {:trigger Life(id, occ)} :: Life(id, occ) !in fx.begun
    case Refused => id in fx.failedIds && exists occ: nat :: Life(id, occ) in fx.marked
    case _ =>
      && id !in fx.failedIds
      && exists occ: nat ::
           AnsweredBy(walk, Life(id, occ), mayDelete, chunkSize <= 1, OneFlush(walk, chunkSize, paced), fx)
  }

  /** The life settled on exactly what the plans said, and left the edge sets
      that their documents fetched. */
  ghost predicate AnsweredBy(walk: seq<Plan>, life: Life, mayDelete: bool, one: bool, whole: bool, fx: Effects)
  {
    && life in fx.settled
    && fx.settled[life].docs == Said(walk, |walk|, 0, life.id, true)
    && fx.settled[life].nils == Said(walk, |walk|, 0, life.id, false)
    && Served(life, fx.settled[life], mayDelete, fx) && EdgesLeft(walk, one, whole, life, fx)
  }

  /** An all-of-type rebuild over the listings of several plans. `reliable` is
      a run whose calls succeed, whose documents all land and that nothing
      ends; a paced walk flushes before pages of its choosing. One flush ends a
      walk that is not paced and whose chunk holds all it lists. */
  method WalkAll(
      typ: string, versions: seq<Version>, walk: seq<Plan>, chunkSize: nat, paced: bool, mayDelete: bool,
      reliable: bool)
    returns (aborted: bool, error: RebuildError, ghost fx: Effects)
    requires Walkable(walk) && |walk| > 1
    ensures aborted ==> !reliable
    ensures NoClash(fx) && AllServed(mayDelete, fx)
    ensures !aborted && !error.UnmarkedFailures? ==>
      forall life :: life in fx.begun ==> life in fx.settled || life in fx.marked
    ensures !aborted ==>
      (error == NoError <==> fx.failedIds == {}) && (error.MarkedFailures? ==> error.count == |fx.failedIds|)
    ensures reliable ==> !error.UnmarkedFailures?
    ensures reliable ==> forall id :: id != "" ==> Answers(walk, id, mayDelete, chunkSize, paced, fx)
  {
    hide Good, IdleBut, Mirror, Queue, Moves, Closed, NoClash, AllServed, Sees, Answers, Walkable, Told, Uncounted,
      LastTold;
    var fl := new Flusher(Config(typ, versions, VersionSeq(walk), true, mayDelete, reliable), chunkSize);
    var clock := 0;
    error, aborted := NoError, false;
    MirrorStart(walk, fl.W());
    TellsStart(walk, paced, chunkSize, fl.W());
    for k := 0 to |walk|
      invariant
        fl.Valid() && fl.fx.top <= clock && fl.c == Config(typ, versions, VersionSeq(walk), true, mayDelete, reliable)
      invariant
        fl.chunkSize == chunkSize && Mirror(walk, k, 0, fl.W()) && Tells(walk, k, 0, paced, fl.chunkSize, fl.W())
    {
      var stopped;
      stopped, clock := WalkPlan(walk, k, fl, clock, paced);
      if stopped {
        fl.Salvage();
        aborted, fx := true, fl.fx;
        return;
      }
    }
    var failed;
    ghost var w1;
    ghost var w0 := fl.W();
    failed, w1 := fl.Finish();
    MirrorMoves(walk, |walk|, 0, w0, w1);
    MovesTop(w0, w1);
    ghost var one, whole := chunkSize <= 1, OneFlush(walk, chunkSize, paced);
    TellMoves(walk, |walk|, 0, one, w0, w1);
    if whole {
      NoneSettled(walk, one, w0);
      LastMoves(walk, w0, w1);
    }
    if failed {
      fl.Salvage();
      aborted, fx := true, fl.fx;
      return;
    }
    fx := fl.fx;
    error := fl.ErrorIfFailed();
    ClosedSays(fx, fl.failed, fl.markFailed);
    if reliable {
      forall id | id != "" ensures Answers(walk, id, mayDelete, chunkSize, paced, fx) {
        AnswersHold(walk, w1, chunkSize, paced, fx, fl.failed, id);
      }
    }
  }

  lemma ClosedSays(fx: Effects, failed: nat, markFailed: bool)
    requires Closed(fx, failed, markFailed) && (markFailed ==> failed > 0)
    ensures fx.failedIds == {} ==> !markFailed
    ensures !markFailed ==> forall life :: life in fx.begun ==> life in fx.settled || life in fx.marked
  {
  }

  /** The k-th plan's listing. `stopped` is a failed flush or an ended walk. */
  method WalkPlan(walk: seq<Plan>, k: nat, fl: Flusher, clock: nat, paced: bool) returns (stopped: bool, clock': nat)
    requires k < |walk| && Walkable(walk)
    requires fl.Valid() && fl.fx.top <= clock && fl.c.plans == VersionSeq(walk) && fl.c.keepSettled
    requires Mirror(walk, k, 0, fl.W()) && Tells(walk, k, 0, paced, fl.chunkSize, fl.W())
    modifies fl
    ensures fl.Inv() && (stopped ==> !fl.c.reliable)
    ensures !stopped ==> fl.Valid() && fl.fx.top <= clock' && Mirror(walk, k + 1, 0, fl.W())
    ensures !stopped ==> Tells(walk, k + 1, 0, paced, fl.chunkSize, fl.W())
  {
    hide Good, IdleBut, Mirror, Queue, Moves, Sees, Walkable, Tells;
    stopped, clock' := false, clock;
    var drawn;
    drawn, clock' := WalkStart(fl, clock);
    if drawn.Err? {
      return true, clock';
    }
    var start := drawn.value;
    var items := walk[k].items;
    for n := 0 to |items|
      invariant fl.Valid() && fl.fx.top <= clock'
      invariant Mirror(walk, k, n, fl.W()) && Tells(walk, k, n, paced, fl.chunkSize, fl.W())
    {
      var ended: bool := *;
      if ended && !fl.c.reliable {
        return true, clock';
      }
      var due: bool := *;
      if paced && due {
        ghost var w := fl.W();
        var err, _ := fl.Flush();
        if err {
          return true, clock';
        }
        MovesTop(w, fl.W());
        MirrorMoves(walk, k, n, w, fl.W());
        TellsFlush(walk, k, n, paced, fl.chunkSize, w, fl.W());
      }
      if items[n].id == "" {
        MirrorSkip(walk, k, n, fl.W());
        TellsSkip(walk, k, n, paced, fl.chunkSize, fl.W());
        continue;
      }
      stopped, clock' := WalkItem(walk, k, n, fl, start, clock', paced);
      if stopped {
        return;
      }
    }
    MirrorPlan(walk, k, fl.W());
    TellsPlan(walk, k, paced, fl.chunkSize, fl.W());
  }

  /** What a walk has told the histories before the n-th item of the k-th plan:
      with a chunk size of one nothing is queued, and a walk of a single flush
      has flushed nothing. */
  ghost predicate Tells(walk: seq<Plan>, k: nat, n: nat, paced: bool, chunkSize: nat, w: World) {
    && Place(walk, k, n)
    && AllTold(walk, k, n, chunkSize <= 1, w)
    && (chunkSize <= 1 ==> w.pending == [])
    && (OneFlush(walk, chunkSize, paced) ==>
          Uncounted(w) && |w.pending| <= ItemsBefore(walk, k) + if k < |walk| then n else 0)
  }

  lemma TellsStart(walk: seq<Plan>, paced: bool, chunkSize: nat, w: World)
    requires |walk| > 0 && w.state == map[] && w.hist == map[] && w.pending == []
    ensures Tells(walk, 0, 0, paced, chunkSize, w)
  {
  }

  lemma TellsFlush(walk: seq<Plan>, k: nat, n: nat, paced: bool, chunkSize: nat, w: World, w': World)
    requires Tells(walk, k, n, paced, chunkSize, w) && Moves(w, w') && paced && (w.pending == [] ==> w' == w)
    ensures Tells(walk, k, n, paced, chunkSize, w')
  {
    hide Told, Grows;
    TellMoves(walk, k, n, chunkSize <= 1, w, w');
  }

  lemma TellsSkip(walk: seq<Plan>, k: nat, n: nat, paced: bool, chunkSize: nat, w: World)
    requires k < |walk| && n < |walk[k].items| && Tells(walk, k, n, paced, chunkSize, w) && Mirror(walk, k, n, w)
    requires walk[k].items[n].id == ""
    ensures Tells(walk, k, n + 1, paced, chunkSize, w)
  {
    hide Told, Said, Mirrored;
    TellSkip(walk, k, n, chunkSize <= 1, w);
  }

  lemma TellsPlan(walk: seq<Plan>, k: nat, paced: bool, chunkSize: nat, w: World)
    requires k < |walk| && Tells(walk, k, |walk[k].items|, paced, chunkSize, w)
    ensures Tells(walk, k + 1, 0, paced, chunkSize, w)
  {
    hide Told;
    TellPlan(walk, k, chunkSize <= 1, w);
  }

  /** A begun or tracked id's sighting, as Sight leaves it. */
  lemma TellsItem(
      walk: seq<Plan>, k: nat, n: nat, paced: bool, chunkSize: nat, w: World, mid: World, w': World, flushed: bool)
    requires k < |walk| && n < |walk[k].items| && Walkable(walk) && mid.c.keepSettled
    requires Tells(walk, k, n, paced, chunkSize, w) && AllTold(walk, k, n, chunkSize <= 1, mid)
    requires Mid(walk, k, n, mid, walk[k].items[n].id) && Mirror(walk, k, n + 1, w')
    requires
      Sees(mid, w', walk[k].items[n].id, walk[k].version, walk[k].items[n].doc, walk[k].items[n].relations)
    requires Good(mid) && Idle(mid) && mid.pending == w.pending && Good(w')
    requires chunkSize <= 1 && w.pending == [] ==> w'.pending == []
    requires !flushed && Uncounted(w) ==> Uncounted(w')
    requires |w'.pending| <= |w.pending| + 1 && (flushed ==> |w.pending| + 1 >= chunkSize)
    ensures Tells(walk, k, n + 1, paced, chunkSize, w')
  {
    hide Good, IdleBut, Told, Mid, Mirror, Sees, Uncounted;
    TellSees(walk, k, n, chunkSize <= 1, mid, w');
    ItemsGrow(walk, k + 1, |walk|);
  }

  lemma TellsFail(walk: seq<Plan>, k: nat, n: nat, paced: bool, chunkSize: nat, w: World, ok: bool)
    requires k < |walk| && n < |walk[k].items| && Tells(walk, k, n, paced, chunkSize, w)
    requires walk[k].items[n].id !in w.state
    ensures Tells(walk, k, n + 1, paced, chunkSize, FailWorld(w, walk[k].items[n].id, ok))
  {
    hide Told;
    TellFail(walk, k, n, chunkSize <= 1, w, ok);
  }

  /** The walk start: a Change Sequence value drawn before a plan's first page,
      from which every root it begins is checked. */
  method WalkStart(fl: Flusher, clock: nat) returns (start: Result<nat>, clock': nat)
    requires fl.Inv()
    modifies fl`dead
    ensures fl.Inv() && (start.Err? ==> !fl.c.reliable) && clock <= clock'
    ensures start.Ok? ==> clock < start.value == clock'
  {
    hide Good;
    var ok := fl.Call();
    clock' := clock + 1;
    start := if ok then Ok(clock') else Err;
  }

  lemma MovesTop(w: World, w': World)
    requires Moves(w, w')
    ensures w'.fx.top == w.fx.top && w'.c == w.c
  {
    hide Grows;
  }

  method WalkItem(walk: seq<Plan>, k: nat, n: nat, fl: Flusher, start: nat, clock: nat, ghost paced: bool)
    returns (stopped: bool, clock': nat)
    requires k < |walk| && n < |walk[k].items| && walk[k].items[n].id != "" && Walkable(walk)
    requires fl.Valid() && fl.fx.top <= clock && fl.c.plans == VersionSeq(walk) && fl.c.keepSettled
    requires Mirror(walk, k, n, fl.W()) && Tells(walk, k, n, paced, fl.chunkSize, fl.W())
    modifies fl
    ensures fl.Inv() && (stopped ==> !fl.c.reliable)
    ensures !stopped ==> fl.Valid() && fl.fx.top <= clock' && Mirror(walk, k, n + 1, fl.W())
    ensures !stopped ==> Tells(walk, k, n + 1, paced, fl.chunkSize, fl.W())
  {
    hide Good, IdleBut, Mirror, Queue, Sees, Walkable, Mid, BeginWorld, FailWorld, InOrder, Told, Uncounted;
    var s, v := walk[k].items[n], walk[k].version;
    ghost var w := fl.W();
    VersionsFromSize(walk, k);
    VersionsFromPlans(walk, k);
    if s.id in fl.state { TrackedInOrder(walk, k, n, w, s.id); }
    ghost var began, mid, ok;
    var flushed;
    stopped, flushed, clock', began, mid, ok :=
      Sight(fl, v, s, |walk| - k, k != 0, start, clock, VersionsFrom(walk, k));
    if stopped {
      return;
    }
    if began {
      if s.id in w.state {
        MirrorMid(walk, k, n, w, s.id);
      } else {
        var occ: nat, stale: nat :|
          && occ > w.fx.top
          && mid == BeginWorld(w, s.id, Begun(occ, stale, start, true, |walk| - k, k != 0), VersionsFrom(walk, k));
        MirrorBegin(walk, k, n, w, s.id, Begun(occ, stale, start, true, |walk| - k, k != 0));
        BeginConfig(w, s.id, Begun(occ, stale, start, true, |walk| - k, k != 0), VersionsFrom(walk, k));
        TellBegin(walk, k, n, fl.chunkSize <= 1, w, s.id, Begun(occ, stale, start, true, |walk| - k, k != 0),
          VersionsFrom(walk, k));
      }
      MirrorSees(walk, k, n, mid, fl.W());
      TellsItem(walk, k, n, paced, fl.chunkSize, w, mid, fl.W(), flushed);
    } else {
      MirrorFail(walk, k, n, w, ok);
      TellsFail(walk, k, n, paced, fl.chunkSize, w, ok);
    }
  }

  lemma BeginConfig(w: World, id: Id, e: Entry, versions: set<Version>)
    ensures BeginWorld(w, id, e, versions).c == w.c
  {
  }

  lemma TrackedInOrder(walk: seq<Plan>, k: nat, n: nat, w: World, id: Id)
    requires k < |walk| && Walkable(walk) && Mirror(walk, k, n, w) && id in w.state && w.c.plans == VersionSeq(walk)
    ensures InOrder(w, id, walk[k].version)
  {
    hide Mirrored, Said;
    MidInOrder(walk, k, n, w, id);
  }

  lemma MirrorMid(walk: seq<Plan>, k: nat, n: nat, w: World, id: Id)
    requires k < |walk| && Mirror(walk, k, n, w) && id in w.state
    ensures Mid(walk, k, n, w, id)
  {
    hide Mirrored, Said, ClashesSaid;
  }

  lemma VersionsFromPlans(walk: seq<Plan>, k: nat)
    requires Walkable(walk) && k < |walk|
    ensures walk[k].version in VersionsFrom(walk, k)
    ensures forall u :: u in VersionsFrom(walk, k) ==> u in VersionSeq(walk) && u != 0
  {
    forall u | u in VersionsFrom(walk, k) ensures u in VersionSeq(walk) && u != 0 {
      var j :| k <= j < |walk| && u == walk[j].version;
      assert VersionSeq(walk)[j] == u;
    }
  }

  /** The batch answer of each id, read off the state after the last flush. */
  lemma AnswersHold(walk: seq<Plan>, w1: World, chunkSize: nat, paced: bool, fx: Effects, failed: nat, id: Id)
    requires |walk| > 0 && Walkable(walk) && id != "" && w1.c.reliable && w1.c.keepSettled
    requires Good(w1) && Idle(w1) && w1.pending == [] && Mirror(walk, |walk|, 0, w1)
    requires AllTold(walk, |walk|, 0, chunkSize <= 1, w1) && (OneFlush(walk, chunkSize, paced) ==> LastTold(walk, w1))
    requires Grows(w1.fx, fx) && fx.settled == w1.fx.settled && fx.begun == w1.fx.begun
    requires
      && fx.failedIds == w1.fx.failedIds + Incomplete(w1.state)
      && Closed(fx, failed, false)
      && AllServed(w1.c.mayDelete, fx)
    ensures Answers(walk, id, w1.c.mayDelete, chunkSize, paced, fx)
  {
    hide Good, Grows, Served, Said, Idle, Batch, Tied, Clean, Stored;
    EndEntry(walk, w1, id);
    Standing(w1, id);
    FailedTracked(w1, id);
    match Batch(walk, id) {
      case NotListed =>
        assert ClashesSaid(walk, |walk|, 0, w1);
      case Refused =>
        assert id in fx.failedIds;
      case _ =>
        var one, whole := chunkSize <= 1, OneFlush(walk, chunkSize, paced);
        LifeEdges(walk, w1, one, whole, fx, id);
        assert AnsweredBy(walk, Life(id, w1.state[id].occ), w1.c.mayDelete, one, whole, fx);
    }
  }

  lemma LifeEdges(walk: seq<Plan>, w: World, one: bool, whole: bool, fx: Effects, id: Id)
    requires Walkable(walk) && AllTold(walk, |walk|, 0, one, w) && (whole ==> LastTold(walk, w))
    requires id in w.state && id in w.hist && !w.state[id].failed && w.state[id].settled != Unsettled
    requires w.hist[id].docs == Said(walk, |walk|, 0, id, true) && w.hist[id].nils == Said(walk, |walk|, 0, id, false)
    requires Life(id, w.state[id].occ) in fx.settled && fx.settled[Life(id, w.state[id].occ)] == w.hist[id]
    requires AllServed(w.c.mayDelete, fx)
    ensures EdgesLeft(walk, one, whole, Life(id, w.state[id].occ), fx)
  {
    hide Said, Told, LastTold, Stored, Applied, Checked, RootChecked, GuardedBy, EdgesSaid;
    assert Served(Life(id, w.state[id].occ), w.hist[id], w.c.mayDelete, fx);
    EdgesHold(walk, one, whole, w, fx, id);
  }

  lemma FailedTracked(w: World, id: Id)
    requires Good(w)
    ensures id in w.fx.failedIds ==> id in w.state
  {
  }
}
