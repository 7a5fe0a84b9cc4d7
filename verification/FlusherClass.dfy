// The flusher itself, as a class whose methods update its fields.

module FlusherClass {
  import opened Common
  import opened Rows
  import opened FlusherModel
  import opened FlusherEffects
  import opened FlusherState
  import opened FlusherSightings
  import opened FlushModel

  class Flusher {
    /** The plans the rebuild runs in plan order, how it treats what settled,
        and whether this is a run whose calls all succeed. */
    const c: Config
    const chunkSize: nat

    var pending: seq<Item>
    var state: map<Id, Entry>
    var failed: nat
    var markFailed: bool
    /** The process has died: no call has an effect any more. */
    var dead: bool

    ghost var hist: map<Id, Hist>
    ghost var queue: seq<Item>
    ghost var fx: Effects

    ghost function W(): World
      reads this
    {
      World(c, state, pending, failed, markFailed, hist, queue, fx)
    }

    ghost predicate Inv()
      reads this
    {
      Good(W()) && (c.reliable ==> !dead && !markFailed)
    }

    ghost predicate Valid()
      reads this
    {
      Inv() && Idle(W())
    }

    constructor (c: Config, chunkSize: nat)
      ensures Valid()
      ensures this.c == c && this.chunkSize == chunkSize
      ensures W() == World(c, map[], [], 0, false, map[], [], NoEffects)
    {
      hide AllTied, AllEdged, Sound, Blamed, Queued, AwaitingBut;
      this.c, this.chunkSize := c, chunkSize;
      pending, state, failed, markFailed, dead := [], map[], 0, false, false;
      hist, queue, fx := map[], [], NoEffects;
      NothingYet(c.plans);
      NothingDone(c.keepSettled, c.mayDelete);
    }

    /** One call to the store or the backend, and whether it succeeded. */
    method Call() returns (ok: bool)
      requires c.reliable ==> !dead
      modifies this`dead
      ensures c.reliable ==> ok && !dead
      ensures dead ==> !ok
    {
      if c.reliable {
        ok := true;
      } else {
        var crash: bool := *;
        ok := *;
        dead := dead || crash;
        ok := ok && !dead;
      }
    }

    /** One call with an effect: what it leaves done when it was only issued, and
        when it also succeeded. */
    method CallFor(ghost issued: Effects, ghost done: Effects) returns (ok: bool)
      requires c.reliable ==> !dead
      modifies this`dead, this`fx
      ensures c.reliable ==> ok && !dead
      ensures dead ==> !ok
      ensures fx == if ok then done else issued
    {
      ok := Call();
      fx := if ok then done else issued;
    }

    /** Drops an id's queued documents. */
    method DropPending(id: Id)
      modifies this`pending
      ensures pending == Without(old(pending), id)
    {
      var kept: seq<Item> := [];
      for i := 0 to |pending|
        invariant kept == Without(pending[..i], id)
      {
        assert pending[..i + 1][..i] == pending[..i];
        if pending[i].id != id {
          kept := kept + [pending[i]];
        }
      }
      assert pending[..|pending|] == pending;
      pending := kept;
    }

    /** Fails a resource, once: drops its queued documents and marks it. */
    method Fail(id: Id) returns (ghost ok: bool)
      requires Inv() && MayFail(W(), id)
      modifies this
      ensures fx.landed == old(fx.landed) && fx.rooted == old(fx.rooted)
      ensures Inv() && id in state && state[id].failed && id in hist
      ensures W() == if id in old(state) && old(state)[id].failed then old(W()) else FailWorld(old(W()), id, ok)
      ensures id in old(state) ==> FailedSome({id}, old(W()), W()) && hist == old(hist)
    {
      hide Good, FailedSome, MayFail, Without, FailEffects, FailingHist, Tied, Clean, KeptOne, Stored, Queue;
      ghost var w := W();
      Standing(w, id);
      var p := if id in state then state[id] else Begun(0, 0, 0, false, 0, false);
      if p.failed {
        ok := true;
        FailedNone({id}, w);
        return;
      }
      state := state[id := p.(failed := true)];
      failed := failed + 1;
      DropPending(id);
      ghost var life := Life(id, state[id].occ);
      var marked := CallFor(FailEffects(w.fx, life, false), FailEffects(w.fx, life, true));
      if !marked {
        markFailed := true;
      }
      ok := marked;
      FailingHistOf(hist, id);
      FailMarksOnly(w.fx, life, ok);
      hist, queue := FailingHist(hist, id), Without(queue, id);
      FailGood(w, id, ok);
      assert W() == FailWorld(w, id, ok);
    }

    /** Deletes the documents and empties the edge sets of a resource's nils. */
    method DropNils(id: Id)
      requires Inv() && id in state && !state[id].failed && state[id].settled == Unsettled
      modifies this
      ensures fx.landed == old(fx.landed) && fx.rooted == old(fx.rooted)
      ensures Inv() && FailedSome({id}, old(W()), W()) && id in state && id in hist
      ensures c.reliable ==> state == old(state)
      ensures !state[id].failed ==> state == old(state) && Applied(id, state[id].occ, hist[id].nils, fx)
      ensures !state[id].failed ==> forall v :: v in hist[id].nils ==> fx.edged[Doc(id, v, state[id].occ)] == []
    {
      hide Good, FailedSome, Without, Queue, FailWorld, Latest, Flows, Rests, Clean, KeptOne, Stored;
      ghost var w := W();
      Standing(w, id);
      FailedNone({id}, w);
      var p := state[id];
      for i := 0 to |p.nils|
        invariant Inv() && FailedSome({id}, w, W()) && state == w.state && hist == w.hist
        invariant forall j :: 0 <= j < i ==> Doc(id, p.nils[j], p.occ) in fx.dropped
        invariant fx.landed == w.fx.landed && fx.rooted == w.fx.rooted
      {
        ghost var w1 := W();
        fx := AskWorld(w1, id, p.nils[i]).fx;
        AskGood(w1, id, p.nils[i]);
        FailedOn({id}, {}, w, w1, W());
        ghost var w2 := W();
        var ok := CallFor(fx, fx.(dropped := fx.dropped + {Doc(id, p.nils[i], p.occ)}));
        if !ok {
          ghost var _ := Fail(id);
          FailedOn({id}, {id}, w, w2, W());
          return;
        }
        AcksGood(w2, fx);
        FailedOn({id}, {}, w, w2, W());
      }
      ghost var w1 := W();
      EmptyEdges(id);
      FailedOn({id}, {id}, w, w1, W());
    }

    /** Empties the edge sets of the nils whose documents are gone. */
    method EmptyEdges(id: Id)
      requires Inv() && id in state && !state[id].failed && state[id].settled == Unsettled
      requires forall v :: v in state[id].nils ==> Doc(id, v, state[id].occ) in fx.dropped
      modifies this
      ensures fx.landed == old(fx.landed) && fx.rooted == old(fx.rooted)
      ensures Inv() && FailedSome({id}, old(W()), W()) && id in state && id in hist
      ensures c.reliable ==> state == old(state)
      ensures !state[id].failed ==> state == old(state) && Applied(id, state[id].occ, hist[id].nils, fx)
      ensures !state[id].failed ==> forall v :: v in hist[id].nils ==> fx.edged[Doc(id, v, state[id].occ)] == []
    {
      hide Good, FailedSome, Without, Queue, FailWorld, Latest, Flows, Rests, Clean, KeptOne, Stored;
      ghost var w := W();
      Standing(w, id);
      EdgeGood(w, id, NoEdges(id, state[id].occ, hist[id].nils));
      var ok := CallFor(fx, fx.(edged := fx.edged + NoEdges(id, state[id].occ, hist[id].nils)));
      if !ok {
        ghost var _ := Fail(id);
      }
    }

    /** AnyChangedSince: whether some checked row's change is above its start,
        of the rows `news` shows. */
    method AnyChangedSince(checks: seq<Check>, news: map<Resource, nat>) returns (ok: bool, hit: bool)
      requires c.reliable ==> !dead
      modifies this`dead
      ensures c.reliable ==> ok && !dead
      ensures if ok then hit <==> Changed(news, checks) else !hit
    {
      ok := Call();
      hit := false;
      if ok {
        for i := 0 to |checks|
          invariant hit <==> Changed(news, checks[..i])
        {
          assert checks[..i + 1] == checks[..i] + [checks[i]];
          hit := hit || (checks[i].res in news && news[checks[i].res] > checks[i].start);
        }
        assert checks[..|checks|] == checks;
      }
    }

    /** The rows a later query shows: new changes may have been accepted, and,
        if rows vanish, some may be gone. */
    method LaterNews(news: map<Resource, nat>, vanish: bool) returns (later: map<Resource, nat>)
      ensures !vanish ==> forall r :: r in news ==> r in later && later[r] >= news[r]
    {
      later := *;
      if !vanish {
        later := later + map r | r in news :: if r in later && later[r] > news[r] then later[r] else news[r];
      }
    }

    /** Re-marks each root; one whose re-mark fails is failed. */
    method Remark(roots: seq<Id>)
      requires Inv() && forall r :: r in roots ==> r in state
      modifies this
      ensures fx.landed == old(fx.landed)
      ensures Inv() && FailedSome(IdSet(roots), old(W()), W())
      ensures c.reliable ==> state == old(state)
      ensures forall r :: r in roots ==> Remarked(W(), r)
      ensures c.reliable ==> fx.marked == old(fx.marked) + LivesOf(old(state), IdSet(roots))
    {
      hide Good, Queue, FailedSome, Remarked;
      ghost var w := W();
      ghost var all := IdSet(roots);
      FailedNone(all, w);
      for i := 0 to |roots|
        invariant Inv() && FailedSome(all, w, W())
        invariant c.reliable ==> state == w.state
        invariant forall j :: 0 <= j < i ==> Remarked(W(), roots[j])
        invariant c.reliable ==> fx.marked == w.fx.marked + LivesOf(w.state, IdSet(roots[..i]))
        invariant fx.landed == w.fx.landed
      {
        assert roots[..i + 1] == roots[..i] + [roots[i]];
        ghost var w1 := W();
        FailedKeys(all, w, w1);
        RemarkOne(roots[i]);
        FailedOn(all, {roots[i]}, w, w1, W());
        forall j | 0 <= j < i ensures Remarked(W(), roots[j]) { RemarkedLater({roots[i]}, w1, W(), roots[j]); }
      }
      assert roots[..|roots|] == roots;
    }

    method RemarkOne(id: Id)
      requires Inv() && id in state
      modifies this
      ensures fx.landed == old(fx.landed)
      ensures Inv() && FailedSome({id}, old(W()), W()) && (c.reliable ==> state == old(state)) && Remarked(W(), id)
      ensures c.reliable ==> fx.marked == old(fx.marked) + {Life(id, old(state)[id].occ)}
    {
      hide Good, Queue, FailedSome;
      ghost var w := W();
      var ok := CallFor(fx, fx.(marked := fx.marked + {Life(id, state[id].occ)}));
      if ok {
        AcksGood(w, fx);
        FailedNone({id}, w);
        FailedOn({id}, {}, w, w, W());
      } else {
        ghost var _ := Fail(id);
      }
    }

    /** Every root's checks, for the batched query. */
    method AllChecks(roots: seq<Id>, driftCheck: map<Id, seq<Check>>) returns (all: seq<Check>)
      requires forall r :: r in roots ==> r in driftCheck
      ensures forall k :: k in all <==> exists r :: r in roots && k in driftCheck[r]
    {
      all := [];
      for i := 0 to |roots|
        invariant forall k :: k in all <==> exists r :: r in roots[..i] && k in driftCheck[r]
      {
        assert roots[..i + 1] == roots[..i] + [roots[i]];
        all := all + driftCheck[roots[i]];
      }
      assert roots[..|roots|] == roots;
    }

    /** The narrowing queries: the roots to re-mark, and whether one of them
        confirmed a change. A query that fails re-marks its root. */
    method Narrow(
        roots: seq<Id>, driftCheck: map<Id, seq<Check>>, news: map<Resource, nat>, vanish: bool, ok: bool,
        drifted: bool)
      returns (remark: seq<Id>, confirmed: bool, ghost later: map<Id, map<Resource, nat>>)
      requires (c.reliable ==> !dead) && forall i, j :: 0 <= i < j < |roots| ==> roots[i] != roots[j]
      requires
        && (forall r :: r in roots ==> r in driftCheck)
        && (ok && |roots| == 1 ==> (drifted <==> Changed(news, driftCheck[roots[0]])))
      modifies this`dead
      ensures c.reliable ==> !dead
      ensures (forall r :: r in remark ==> r in roots) && (confirmed ==> remark != [])
      ensures !vanish || |roots| == 1 ==> forall r :: r in roots && Changed(news, driftCheck[r]) ==> r in remark
      ensures c.reliable && |roots| > 1 ==>
        && later.Keys == IdSet(roots) && (confirmed <==> remark != [])
        && IdSet(remark) == Narrowed(IdSet(roots), driftCheck, later)
    {
      hide Changed;
      remark, confirmed, later := [], false, map[];
      for i := 0 to |roots|
        invariant forall r :: r in remark ==> r in roots
        invariant confirmed ==> remark != []
        invariant !vanish || |roots| == 1 ==>
          forall j :: 0 <= j < i && Changed(news, driftCheck[roots[j]]) ==> roots[j] in remark
        invariant c.reliable ==> !dead
        invariant |roots| > 1 ==> later.Keys == IdSet(roots[..i])
        invariant c.reliable && |roots| > 1 ==>
          && (confirmed <==> remark != [])
          && forall r :: r in remark <==> r in roots[..i] && Changed(later[r], driftCheck[r])
      {
        assert roots[..i + 1] == roots[..i] + [roots[i]];
        var perOk, per := ok, drifted;
        if |roots| > 1 {
          var rows := LaterNews(news, vanish);
          perOk, per := AnyChangedSince(driftCheck[roots[i]], rows);
          if !vanish && Changed(news, driftCheck[roots[i]]) { StillChanged(news, rows, driftCheck[roots[i]]); }
          later := later[roots[i] := rows];
        }
        if !perOk || per {
          remark := remark + [roots[i]];
        }
        confirmed := confirmed || (perOk && per);
      }
      assert roots[..|roots|] == roots;
    }

    /** The roots to re-mark after a batched query that failed or found a change:
        the narrowed ones, and all when no narrowing query confirms one. */
    method Choose(
        roots: seq<Id>, driftCheck: map<Id, seq<Check>>, news: map<Resource, nat>, vanish: bool, ok: bool,
        drifted: bool)
      returns (remark: seq<Id>, ghost later: map<Id, map<Resource, nat>>)
      requires (c.reliable ==> !dead && ok) && forall i, j :: 0 <= i < j < |roots| ==> roots[i] != roots[j]
      requires roots != [] && (forall r :: r in roots ==> r in driftCheck) && (!ok || drifted)
      requires ok ==> (drifted <==> exists r :: r in roots && Changed(news, driftCheck[r]))
      modifies this`dead
      ensures (c.reliable ==> !dead) && (forall r :: r in remark ==> r in roots) && (drifted ==> remark != [])
      ensures !vanish || |roots| == 1 ==> forall r :: r in roots && Changed(news, driftCheck[r]) ==> r in remark
      ensures c.reliable && |roots| > 1 ==>
        later.Keys == IdSet(roots) && IdSet(remark) == ToRemark(IdSet(roots), driftCheck, news, later)
    {
      hide Changed, ToRemark, Narrowed;
      var confirmed;
      remark, confirmed, later := Narrow(roots, driftCheck, news, vanish, ok, drifted);
      if c.reliable && |roots| > 1 {
        ghost var narrowed := Narrowed(IdSet(roots), driftCheck, later);
        assert remark != [] ==> remark[0] in IdSet(remark);
        SomeToRemark(roots, driftCheck, news, later, confirmed);
      }
      if drifted && !confirmed {
        remark := roots;
      }
    }

    /** The drift check. `news` are the rows as the batched query sees them: a
        root with a checked resource that changed since the root's start is
        re-marked, or failed; only where rows vanish between the queries may
        the narrowing miss one, and even then a hit re-marks some root. With
        every query answered, exactly ToRemark's roots are re-marked. */
    method CheckDrift(roots: seq<Id>, driftCheck: map<Id, seq<Check>>, ghost items: set<Item>)
      returns (
        ghost hit: bool, ghost news: map<Resource, nat>, ghost vanish: bool, ghost later: map<Id, map<Resource, nat>>)
      requires forall i, j :: 0 <= i < j < |roots| ==> roots[i] != roots[j]
      requires
        && Inv()
        && forall r :: r in roots ==> r in driftCheck && r in state && !state[r].failed && state[r].settled == Unsettled
      requires Follows(W(), roots, driftCheck, items)
      modifies this
      ensures fx.landed == old(fx.landed)
      ensures Inv() && FailedSome(IdSet(roots), old(W()), W())
      ensures c.reliable ==> state == old(state)
      ensures state.Keys == old(state).Keys
      ensures !vanish || |roots| == 1 ==> forall r :: r in roots && Changed(news, driftCheck[r]) ==> Remarked(W(), r)
      ensures !vanish || |roots| == 1 ==> RootsDue(old(W()), roots, driftCheck, news) <= fx.due
      ensures hit ==> exists r :: r in roots && Remarked(W(), r)
      ensures c.reliable ==> (hit <==> exists r :: r in roots && Changed(news, driftCheck[r]))
      ensures c.reliable && |roots| > 1 ==>
        && later.Keys == IdSet(roots)
        && fx.marked == old(fx.marked) + LivesOf(old(state), ToRemark(IdSet(roots), driftCheck, news, later))
      ensures items <= fx.checked && RootsAsked(old(W()), roots, driftCheck) <= fx.rooted
    {
      hide Good, FailedSome, Queue, Remarked, Changed, RootsAsked, RootsDue, Follows, ToRemark, LivesOf;
      var seen: map<Resource, nat> := *;
      var gone: bool := *;
      news, vanish, hit, later := seen, gone, false, map r | r in roots :: seen;
      if roots == [] {
        Quiet(roots, driftCheck, news, later, items);
        return;
      }
      var all := AllChecks(roots, driftCheck);
      var ok, drifted := AnyChangedSince(all, seen);
      hit := drifted;
      AnyOf(roots, driftCheck, news, all);
      if ok && !drifted {
        Quiet(roots, driftCheck, news, later, items);
        return;
      }
      later := Heed(roots, driftCheck, seen, gone, ok, drifted, items);
    }

    /** Records a drift check that found nothing. */
    ghost method Quiet(
        roots: seq<Id>, driftCheck: map<Id, seq<Check>>, news: map<Resource, nat>, later: map<Id, map<Resource, nat>>,
        items: set<Item>)
      requires Inv() && later.Keys == IdSet(roots)
      requires
        forall r :: r in roots ==> r in driftCheck && r in state && !state[r].failed && state[r].settled == Unsettled
      requires forall r :: r in roots ==> !Changed(news, driftCheck[r])
      modifies this`fx
      ensures fx.landed == old(fx.landed)
      ensures Inv() && FailedSome(IdSet(roots), old(W()), W())
      ensures RootsDue(old(W()), roots, driftCheck, news) <= fx.due
      ensures fx.marked == old(fx.marked) + LivesOf(old(state), ToRemark(IdSet(roots), driftCheck, news, later))
      ensures items <= fx.checked && RootsAsked(old(W()), roots, driftCheck) <= fx.rooted
    {
      hide Good, FailedSome, Remarked, Changed, RootsAsked, RootsDue, ToRemark, LivesOf;
      FailedNone(IdSet(roots), W());
      NoneToRemark(roots, driftCheck, news, later, state);
      Record(W(), roots, driftCheck, news, true, items);
    }

    /** The part of a drift check after a batched query that failed or found a
        change. */
    method Heed(
        roots: seq<Id>, driftCheck: map<Id, seq<Check>>, news: map<Resource, nat>, vanish: bool, ok: bool,
        drifted: bool, ghost items: set<Item>)
      returns (ghost later: map<Id, map<Resource, nat>>)
      requires Inv() && (c.reliable ==> ok) && forall i, j :: 0 <= i < j < |roots| ==> roots[i] != roots[j]
      requires
        forall r :: r in roots ==> r in driftCheck && r in state && !state[r].failed && state[r].settled == Unsettled
      requires roots != [] && (!ok || drifted)
      requires ok ==> (drifted <==> exists r :: r in roots && Changed(news, driftCheck[r]))
      modifies this
      ensures fx.landed == old(fx.landed)
      ensures Inv() && FailedSome(IdSet(roots), old(W()), W()) && state.Keys == old(state).Keys
      ensures c.reliable ==> state == old(state)
      ensures !vanish || |roots| == 1 ==> forall r :: r in roots && Changed(news, driftCheck[r]) ==> Remarked(W(), r)
      ensures !vanish || |roots| == 1 ==> RootsDue(old(W()), roots, driftCheck, news) <= fx.due
      ensures drifted ==> exists r :: r in roots && Remarked(W(), r)
      ensures c.reliable && |roots| > 1 ==>
        && later.Keys == IdSet(roots)
        && fx.marked == old(fx.marked) + LivesOf(old(state), ToRemark(IdSet(roots), driftCheck, news, later))
      ensures items <= fx.checked && RootsAsked(old(W()), roots, driftCheck) <= fx.rooted
    {
      hide Good, FailedSome, Queue, Without, FailWorld, Remarked, Changed, RootsAsked, RootsDue, ToRemark, LivesOf,
        CheckEffects;
      ghost var w0 := W();
      var remark;
      remark, later := Choose(roots, driftCheck, news, vanish, ok, drifted);
      assert drifted ==> remark[0] in roots;
      Remark(remark);
      FailedNone(IdSet(roots), w0);
      FailedOn(IdSet(roots), IdSet(remark), w0, w0, W());
      FailedKeys(IdSet(remark), w0, W());
      assert drifted ==> remark[0] in remark;
      Record(w0, roots, driftCheck, news, !vanish || |roots| == 1, items);
      assert drifted ==> remark[0] in roots && Remarked(W(), remark[0]);
    }

    /** Records a drift check: what it followed, and the roots it found out of
        date, each of them re-marked or failed by now. */
    ghost method Record(
        w0: World, roots: seq<Id>, driftCheck: map<Id, seq<Check>>, news: map<Resource, nat>, certain: bool,
        items: set<Item>)
      requires Inv() && Good(w0) && FailedSome(IdSet(roots), w0, W())
      requires forall r ::
        r in roots ==> r in driftCheck && r in w0.state && !w0.state[r].failed && w0.state[r].settled == Unsettled
      requires certain ==> forall r :: r in roots && Changed(news, driftCheck[r]) ==> Remarked(W(), r)
      modifies this`fx
      ensures fx.landed == old(fx.landed)
      ensures Inv() && FailedSome(IdSet(roots), w0, W())
      ensures items <= fx.checked && RootsAsked(w0, roots, driftCheck) <= fx.rooted
      ensures certain ==> RootsDue(w0, roots, driftCheck, news) <= fx.due
      ensures forall r :: old(Remarked(W(), r)) ==> Remarked(W(), r)
      ensures fx.marked == old(fx.marked)
    {
      hide Good, FailedSome, Changed, RootsAsked;
      ghost var due := if certain then RootsDue(w0, roots, driftCheck, news) else {};
      CheckGood(w0, W(), roots, driftCheck, news, items, due);
      fx := CheckEffects(fx, items, RootsAsked(w0, roots, driftCheck), due);
    }

    /** Records how a resource settled, or drops its entry. */
    method Settle(id: Id, how: Settlement, ghost but: set<Id>)
      requires Inv() && Ready(W(), id) && MaySettle(state, hist, id, how, c.mayDelete, fx)
      modifies this`state, this`hist, this`fx
      ensures fx.landed == old(fx.landed) && fx.rooted == old(fx.rooted)
      ensures Inv() && W() == SettleWorld(old(W()), id, how)
      ensures Moves(old(W()), W()) && (old(IdleBut(but, W())) ==> IdleBut(but, W()))
      ensures Others(id, old(state), state) && Others(id, old(hist), hist)
      ensures id in state ==> state[id].settled != Unsettled
      ensures SameFound(old(W()), W()) && (c.keepSettled ==> hist == old(hist))
    {
      hide Good, Grows, Moves, IdleBut, Served, Queue, Others;
      ghost var w := W();
      SettleGood(w, id, how);
      SameKeys(w);
      SettledMoves(w, id, how);
      if IdleBut(but, w) { SettledIdle(but, w, id, how); }
      fx := SettleEffects(fx, Life(id, state[id].occ), hist[id]);
      hist := SettlingHist(hist, id, c.keepSettled);
      if c.keepSettled {
        state := state[id := state[id].(settled := how)];
      } else {
        state := state - {id};
      }
    }

    /** Completes a resource: clears its mark, guarded by the stale_seq its
        begin captured, and settles it. A failed clear leaves the mark. */
    method Complete(id: Id, ghost but: set<Id>)
      requires Inv() && Ready(W(), id) && hist[id].docs != {} && Applied(id, state[id].occ, hist[id].nils, fx)
      requires WatchedOne(id, state[id], fx) && RootChecked(Life(id, state[id].occ), fx)
      modifies this
      ensures fx.landed == old(fx.landed) && fx.rooted == old(fx.rooted)
      ensures Inv() && Moves(old(W()), W()) && (old(IdleBut(but, W())) ==> IdleBut(but, W()))
      ensures Others(id, old(state), state) && Others(id, old(hist), hist) && queue == old(queue)
      ensures id in state ==> state[id].settled != Unsettled
      ensures SameFound(old(W()), W()) && (c.keepSettled ==> hist == old(hist))
    {
      hide Good, Moves, IdleBut, Queue, FailedSome, Others;
      ghost var w := W();
      ghost var cleared := fx.(cleared := fx.cleared + {Guarded(Life(id, state[id].occ), state[id].staleSeq)});
      var _ := CallFor(cleared, cleared);
      ghost var w1 := W();
      AcksGood(w, fx);
      FailedMovesGood({}, but, w, w1);
      ReadyAnswered(w1, id);
      Settle(id, Completed, but);
      MovesOn(w, w1, W());
    }

    /** Completes a resource on its last nil, its documents flushed: applies
        the nils, checks a walk's root for drift and completes it. */
    method CompleteOnNil(id: Id)
      requires Inv() && Ready(W(), id) && hist[id].docs != {} && IdleBut({id}, W()) && WatchedOne(id, state[id], fx)
      modifies this
      ensures fx.landed == old(fx.landed) && (!old(state)[id].checkRoot ==> fx.rooted == old(fx.rooted))
      ensures Inv() && Moves(old(W()), W()) && Idle(W()) && (c.keepSettled ==> hist == old(hist))
    {
      hide Good, Moves, IdleBut, Queue, FailedSome, Others;
      ghost var w := W();
      var checkRoot := state[id].checkRoot;
      DropNils(id);
      ghost var w1 := W();
      FailedMovesGood({id}, {id}, w, w1);
      if state[id].failed {
        IdleAll({id}, w1);
        return;
      }
      ReadyLater(w, w1, id, {id});
      WatchedLater(w, w1, {id}, id);
      ReadyAnswered(w1, id);
      if checkRoot {
        ghost var _, _, _, _ := CheckDrift([id], map[id := [Check(Root(c, id), state[id].start)]], {});
        FailedMovesGood(IdSet([id]), {id}, w1, W());
        MovesOn(w, w1, W());
        if state[id].failed {
          IdleAll({id}, W());
          return;
        }
        ReadyLater(w1, W(), id, IdSet([id]));
        AppliedGrows(w1, W(), IdSet([id]), id);
        WatchedLater(w1, W(), IdSet([id]), id);
        ReadyAnswered(W(), id);
      }
      ghost var w2 := W();
      Complete(id, {id});
      MovesOn(w, w2, W());
      IdleAll({id}, W());
    }

    /** Leaves a resource every plan found gone to the sweep: applies the nils
        and marks it. */
    method LeaveGone(id: Id)
      requires Inv() && Ready(W(), id) && hist[id].docs == {} && IdleBut({id}, W()) && !c.mayDelete
      modifies this
      ensures fx.landed == old(fx.landed) && fx.rooted == old(fx.rooted)
      ensures Inv() && Moves(old(W()), W()) && Idle(W()) && (c.keepSettled ==> hist == old(hist))
    {
      hide Good, Moves, IdleBut, Queue, FailedSome, Others;
      ghost var w := W();
      DropNils(id);
      ghost var w1 := W();
      FailedMovesGood({id}, {id}, w, w1);
      if state[id].failed {
        IdleAll({id}, w1);
        return;
      }
      ReadyLater(w, w1, id, {id});
      var ok := CallFor(fx, fx.(marked := fx.marked + {Life(id, state[id].occ)}));
      if !ok {
        ghost var _ := Fail(id);
        FailedMovesGood({id}, {id}, w1, W());
        MovesOn(w, w1, W());
        IdleAll({id}, W());
        return;
      }
      ghost var w2 := W();
      AcksGood(w1, fx);
      FailedMovesGood({}, {id}, w1, w2);
      MovesOn(w, w1, w2);
      ReadyAnswered(w2, id);
      Settle(id, Deleted, {id});
      MovesOn(w, w2, W());
      IdleAll({id}, W());
    }

    /** Deletes a resource every plan found gone: all its documents and edges
        at its Build Sequence, then, unless a walk's root drifted, its row. */
    method RemoveGone(id: Id)
      requires Inv() && Ready(W(), id) && hist[id].docs == {} && IdleBut({id}, W()) && c.mayDelete
      requires Heeded(Life(id, state[id].occ), fx)
      modifies this
      ensures fx.landed == old(fx.landed) && (!old(state)[id].checkRoot ==> fx.rooted == old(fx.rooted))
      ensures Inv() && Moves(old(W()), W()) && Idle(W()) && (c.keepSettled ==> hist == old(hist))
    {
      hide Good, Moves, IdleBut, Queue, FailedSome, Others;
      ghost var w := W();
      ReadyAnswered(w, id);
      fx := EraseWorld(w, id).fx;
      EraseGood(w, id);
      ghost var w1 := W();
      FailedMovesGood({}, {id}, w, w1);
      var ok := HandleDelete(id);
      ghost var w2 := W();
      if !ok {
        FailedMovesGood({}, {id}, w1, w2);
        MovesOn(w, w1, w2);
        ghost var _ := Fail(id);
        FailedMovesGood({id}, {id}, w2, W());
        MovesOn(w, w2, W());
        IdleAll({id}, W());
        return;
      }
      FailedMovesGood({}, {id}, w1, w2);
      MovesOn(w, w1, w2);
      FinishGone(id);
      MovesOn(w, w2, W());
    }

    /** handleDelete: every version's document in turn, then the edge sets. A
        call that fails stops it there, with the documents before it gone. */
    method HandleDelete(id: Id) returns (ok: bool)
      requires Inv() && id in state
      modifies this`dead, this`fx
      ensures fx.landed == old(fx.landed) && fx.rooted == old(fx.rooted)
      ensures Inv() && FailedSome({}, old(W()), W()) && (c.reliable ==> ok)
      ensures exists n ::
        && 0 <= n <= |c.versions| && (ok ==> n == |c.versions|)
        && fx.dropped == old(fx.dropped) + set v | v in c.versions[..n] :: Doc(id, v, state[id].occ)
      ensures fx.erased == if ok then old(fx.erased) + {Life(id, state[id].occ)} else old(fx.erased)
      ensures fx.due == old(fx.due) && fx.marked == old(fx.marked)
    {
      hide Good, FailedSome;
      ghost var w := W();
      FailedNone({}, w);
      for i := 0 to |c.versions|
        invariant Inv() && FailedSome({}, w, W()) && fx.erased == w.fx.erased
        invariant fx.due == w.fx.due && fx.marked == w.fx.marked && fx.landed == w.fx.landed && fx.rooted == w.fx.rooted
        invariant fx.dropped == w.fx.dropped + set v | v in c.versions[..i] :: Doc(id, v, state[id].occ)
      {
        assert c.versions[..i + 1] == c.versions[..i] + [c.versions[i]];
        ghost var w1 := W();
        ok := CallFor(fx, fx.(dropped := fx.dropped + {Doc(id, c.versions[i], state[id].occ)}));
        if !ok {
          return;
        }
        AcksGood(w1, fx);
        FailedOn({}, {}, w, w1, W());
      }
      assert c.versions[..|c.versions|] == c.versions;
      ghost var w1 := W();
      ok := CallFor(fx, fx.(erased := fx.erased + {Life(id, state[id].occ)}));
      if ok {
        AcksGood(w1, fx);
        FailedOn({}, {}, w, w1, W());
      }
    }

    method FinishGone(id: Id)
      requires Inv() && Ready(W(), id) && hist[id].docs == {} && IdleBut({id}, W()) && c.mayDelete
      requires Life(id, state[id].occ) in fx.erased && Heeded(Life(id, state[id].occ), fx)
      modifies this
      ensures fx.landed == old(fx.landed) && (!old(state)[id].checkRoot ==> fx.rooted == old(fx.rooted))
      ensures Inv() && Moves(old(W()), W()) && Idle(W()) && (c.keepSettled ==> hist == old(hist))
    {
      hide Good, Moves, IdleBut, Queue, FailedSome, Others, Settling, SettlingHist, SettleEffects, Stored, Applied;
      ghost var w := W();
      SameKeys(w);
      MovesNot(w);
      ReadyAnswered(w, id);
      if state[id].checkRoot {
        ghost var _, _, _, _ := CheckDrift([id], map[id := [Check(Root(c, id), state[id].start)]], {});
        FailedMovesGood(IdSet([id]), {id}, w, W());
        if state[id].failed {
          IdleAll({id}, W());
          return;
        }
        ReadyLater(w, W(), id, IdSet([id]));
        ErasedGrows(w, W(), IdSet([id]), Life(id, state[id].occ));
        HeededLater(w, W(), IdSet([id]), id);
        ReadyAnswered(W(), id);
      }
      ghost var w1 := W();
      RemoveRow(id);
      MovesOn(w, w1, W());
    }

    /** Removes the row of an erased resource, guarded by the stale_seq its begin
        captured: one re-marked since keeps its row. */
    method RemoveRow(id: Id)
      requires Inv() && Ready(W(), id) && hist[id].docs == {} && IdleBut({id}, W()) && c.mayDelete
      requires Life(id, state[id].occ) in fx.erased && RootChecked(Life(id, state[id].occ), fx)
      modifies this
      ensures fx.landed == old(fx.landed) && fx.rooted == old(fx.rooted)
      ensures Inv() && Moves(old(W()), W()) && Idle(W()) && (c.keepSettled ==> hist == old(hist))
    {
      hide Good, Moves, IdleBut, Queue, FailedSome, Others, Settling, SettlingHist, SettleEffects, Stored, Applied;
      ghost var w := W();
      var ok := CallFor(fx, fx.(rows := fx.rows + {Guarded(Life(id, state[id].occ), state[id].staleSeq)}));
      if !ok {
        ghost var _ := Fail(id);
        FailedMovesGood({id}, {id}, w, W());
        IdleAll({id}, W());
        return;
      }
      ghost var w1 := W();
      AcksGood(w, fx);
      FailedMovesGood({}, {id}, w, w1);
      ReadyAnswered(w1, id);
      Settle(id, Deleted, {id});
      MovesOn(w, w1, W());
      IdleAll({id}, W());
    }

    /** Registers a resource after its BeginBuild. */
    method Begin(
        id: Id, occ: nat, staleSeq: nat, start: nat, checkRoot: bool, expected: nat, partial: bool,
        ghost versions: set<Version>)
      requires Valid() && |versions| == expected
      requires MayBegin(W(), id, Begun(occ, staleSeq, start, checkRoot, expected, partial), versions)
      modifies this`state, this`hist, this`fx
      ensures fx.landed == old(fx.landed)
      ensures
        Valid() && W() == BeginWorld(old(W()), id, Begun(occ, staleSeq, start, checkRoot, expected, partial), versions)
    {
      hide Good, IdleBut, Queue;
      ghost var e := Begun(occ, staleSeq, start, checkRoot, expected, partial);
      BoundedOf(W());
      BeginIdle(W(), id, e, versions);
      BeginGood(W(), id, e, versions);
      hist, fx := BeginWorld(W(), id, e, versions).hist, BeginWorld(W(), id, e, versions).fx;
      state := state[id := Begun(occ, staleSeq, start, checkRoot, expected, partial)];
    }

    /** Fails a resource one version's plan listed both with and without data. */
    method Contradicts(id: Id, ghost v: Version, ghost doc: bool, ghost rels: seq<Resource>)
      requires Valid() && Clashes(W(), id, v, doc)
      modifies this
      ensures fx.landed == old(fx.landed)
      ensures Valid() && Sees(old(W()), W(), id, v, doc, rels) && |pending| <= |old(pending)| && hist == old(hist)
    {
      hide Good, IdleBut, FailedSome, Sees, Moves;
      ghost var w := W();
      ClashGood(w, id, v, doc);
      fx := ClashWorld(w, id).fx;
      ghost var w1 := W();
      ghost var _ := Fail(id);
      FailedMovesGood({id}, {}, w1, W());
      FailedKeys({id}, w1, W());
      ClashSees(w, W(), id, v, doc, rels);
    }

    method IsQueued(id: Id) returns (queued: bool)
      ensures queued <==> Queue(pending, id) != []
    {
      QueueEmpty(pending, id);
      queued := false;
      for i := 0 to |pending|
        invariant queued <==> exists j :: 0 <= j < i && pending[j].id == id
      {
        queued := queued || pending[i].id == id;
      }
    }

    /** Takes a plan's nil as that version's answer, and settles the resource
        when it is the last answer expected. */
    method Gone(id: Id, version: Version)
      requires Valid() && InOrder(W(), id, version)
      modifies this
      ensures fx.landed == old(fx.landed)
      ensures Valid() && Sees(old(W()), W(), id, version, false, [])
      ensures c.keepSettled && old(Uncounted(W())) ==> Uncounted(W())
    {
      hide Good, IdleBut, FailedSome, Sees, Moves, Queue, InOrder;
      ghost var w := W();
      SameKeys(w);
      if id !in state || state[id].failed {
        SeesNothing(w, id, version, false, []);
        return;
      }
      LastDoc(w, id, version);
      if state[id].lastDoc == version {
        Contradicts(id, version, false, []);
        return;
      }
      if state[id].settled != Unsettled || version in state[id].nils {
        if state[id].settled != Unsettled { SettledSaid(w, id, version); }
        SeesNothing(w, id, version, false, []);
        return;
      }
      NewNilOf(w, id, version);
      NilRemains(w, id, version);
      NilGood(w, id, version);
      NilSees(w, id, version);
      NilIdle(w, id, version);
      var p := state[id].(nils := state[id].nils + [version], remaining := state[id].remaining - 1);
      state := state[id := p];
      hist := NilWorld(w, id, version).hist;
      ghost var w1 := W();
      if p.remaining > 0 {
        IdleAll({id}, w1);
        return;
      }
      LastOutcome(id);
      SeesOn(w, w1, W(), id, version, false, []);
    }

    /** What becomes of a resource whose last expected outcome was a nil. */
    method LastOutcome(id: Id)
      requires
        && Inv()
        && IdleBut({id}, W())
        && id in state
        && !state[id].failed
        && state[id].settled == Unsettled
        && state[id].remaining == 0
      requires id in hist && WatchedOne(id, state[id], fx)
      modifies this
      ensures fx.landed == old(fx.landed)
      ensures Valid() && Moves(old(W()), W()) && (c.keepSettled ==> hist == old(hist))
    {
      hide Good, IdleBut, FailedSome, Moves, Queue;
      ghost var w := W();
      SameKeys(w);
      MovesNot(w);
      QueueIs(w, {id});
      if state[id].partial {
        ghost var _ := Fail(id);
        FailedMovesGood({id}, {id}, w, W());
        IdleAll({id}, W());
        return;
      }
      var queued := IsQueued(id);
      if queued {
        QueuedAwaits(w, id);
      }
      if !queued { ReadyAnswered(w, id); }
      if state[id].lastDoc != 0 {
        if !queued {
          CompleteOnNil(id);
        }
      } else {
        QueuedSaw(w, id);
        if !c.mayDelete {
          LeaveGone(id);
        } else {
          RemoveGone(id);
        }
      }
    }

    /** The bulk write of a chunk. A request-level failure leaves nothing
        assumed written; otherwise what no failure rejects has landed. */
    method BulkUpsert(chunk: seq<Item>) returns (ok: bool, failures: seq<DocKey>, ghost items: set<Item>)
      requires Inv() && chunk == queue && Sendable(W()) && Landable(W(), set it | it in chunk)
      modifies this`dead, this`fx
      ensures Inv() && FailedSome({}, LandWorld(old(W()), items), W()) && Good(LandWorld(old(W()), items))
      ensures c.reliable ==> ok && failures == []
      ensures items == if ok then set it | it in chunk && !Rejected(failures, chunk, it) else {}
    {
      hide Good, FailedSome, Sendable, Rejected, Queue;
      ghost var w := W();
      SendGood(w);
      fx := SendWorld(w).fx;
      ghost var w1 := W();
      ok := Call();
      failures := [];
      if ok && !c.reliable {
        failures := *;
      }
      items := if ok then set it | it in chunk && !Rejected(failures, chunk, it) else {};
      fx := LandWorld(w1, items).fx;
      LandSome(w, w1, (set it | it in chunk), items);
      LandGood(w, items);
      LandGood(w1, items);
      LandSent(w, items);
    }

    function ChecksOf(relations: seq<Resource>, start: nat): (checks: seq<Check>)
      ensures forall k :: k in checks <==> k.start == start && k.res in relations
    {
      if relations == [] then []
      else [Check(relations[0], start)] + ChecksOf(relations[1..], start)
    }

    /** Whether a failure rejects a document of the chunk. */
    method IsRejected(failures: seq<DocKey>, chunk: seq<Item>, it: Item) returns (rejected: bool)
      ensures rejected <==> Rejected(failures, chunk, it)
    {
      rejected := DocKey(it.id, it.version) in failures;
      for i := 0 to |failures|
        invariant rejected <==>
          (DocKey(it.id, it.version) in failures || exists k :: k in failures[..i] && k.id == it.id && Stray(chunk, k))
      {
        var k := failures[i];
        var named := false;
        for j := 0 to |chunk|
          invariant named <==> exists o :: o in chunk[..j] && DocKey(o.id, o.version) == k
        {
          named := named || DocKey(chunk[j].id, chunk[j].version) == k;
        }
        assert chunk[..|chunk|] == chunk;
        assert !named <==> Stray(chunk, k);
        assert failures[..i + 1] == failures[..i] + [k];
        rejected := rejected || (k.id == it.id && !named);
      }
      assert failures[..|failures|] == failures;
    }

    /** Groups the landed documents per resource, in order of first appearance,
        and notes the resources with a rejected one. Every queued document's
        resource still stands, so no document is skipped. */
    method Group(chunk: seq<Item>, failures: seq<DocKey>)
      returns (order: seq<Id>, landed: map<Id, seq<Item>>, hasRejected: set<Id>)
      ensures forall id :: id in order <==> exists it :: it in chunk && it.id == id
      ensures forall i, j :: 0 <= i < j < |order| ==> order[i] != order[j]
      ensures
        forall id :: id in hasRejected ==> exists it :: it in chunk && it.id == id && Rejected(failures, chunk, it)
      ensures forall it :: it in chunk && it.id !in hasRejected ==> !Rejected(failures, chunk, it)
      ensures forall id :: id in order && id !in hasRejected ==> id in landed && landed[id] == ItemsOf(chunk, id)
      ensures forall id :: id in landed ==> forall it :: it in landed[id] ==> it in chunk && it.id == id
    {
      hide Grouped, Rejected;
      order, landed, hasRejected := [], map[], {};
      GroupNone(chunk, failures);
      for i := 0 to |chunk|
        invariant Grouped(chunk, failures, i, order, landed, hasRejected)
      {
        var it := chunk[i];
        var rejected := IsRejected(failures, chunk, it);
        GroupMore(chunk, failures, i, order, landed, hasRejected, rejected);
        if it.id !in landed && it.id !in hasRejected {
          order := order + [it.id];
        }
        if rejected {
          hasRejected := hasRejected + {it.id};
        } else {
          landed := landed[it.id := (if it.id in landed then landed[it.id] else []) + [it]];
        }
      }
      GroupAll(chunk, failures, order, landed, hasRejected);
    }

    /** Stores the edge set of every landed document; an id whose write fails
        is failed. */
    method StoreLanded(order: seq<Id>, landed: map<Id, seq<Item>>)
      requires Inv() && (forall id :: id in order ==> Storable(W(), id, landed))
      requires forall i, j :: 0 <= i < j < |order| ==> order[i] != order[j]
      requires forall id :: id in landed ==> forall it :: it in landed[id] ==> it.id == id
      modifies this
      ensures fx.landed == old(fx.landed)
      ensures Inv() && FailedSome(IdSet(order), old(W()), W())
      ensures c.reliable ==> state == old(state)
      ensures forall id :: id in order && id in landed ==> EdgesKept(W(), id, landed[id])
    {
      hide Good, Queue, FailedSome, EdgesKept, Storable;
      ghost var w := W();
      ghost var all := IdSet(order);
      FailedNone(all, w);
      for i := 0 to |order|
        invariant Inv() && FailedSome(all, w, W())
        invariant c.reliable ==> state == w.state
        invariant forall j :: i <= j < |order| ==> Storable(W(), order[j], landed)
        invariant forall j :: 0 <= j < i && order[j] in landed ==> EdgesKept(W(), order[j], landed[order[j]])
        invariant fx.landed == w.fx.landed
      {
        var id := order[i];
        ghost var w1 := W();
        if id in landed {
          StoreOne(id, landed);
          FailedOn(all, {id}, w, w1, W());
          forall j | 0 <= j < i && order[j] in landed ensures EdgesKept(W(), order[j], landed[order[j]]) {
            EdgesKeptLater({id}, w1, W(), order[j], landed[order[j]]);
          }
          forall j | i < j < |order| ensures Storable(W(), order[j], landed) {
            StorableLater({id}, w1, W(), order[j], landed);
          }
        }
      }
    }

    /** Stores the edge sets of one id's landed documents, each version's with
        the children of its last document, or fails the id. */
    method StoreOne(id: Id, landed: map<Id, seq<Item>>)
      requires Inv() && Storable(W(), id, landed) && id in landed
      modifies this
      ensures fx.landed == old(fx.landed)
      ensures Inv() && FailedSome({id}, old(W()), W()) && (c.reliable ==> state == old(state))
      ensures EdgesKept(W(), id, landed[id])
    {
      hide Good, Queue, FailedSome, Storable, SetsHold, MayStore, OfQueue, Stores;
      ghost var w := W();
      StorableStands(w, id, landed);
      var sets, source := EdgeSets(landed[id]);
      ghost var add := Stores(landed[id], sets, source);
      var ok := ReplaceEdges(sets, landed[id], source);
      if ok {
        StoresMay(w, id, landed, sets, source, add);
        EdgeGood(w, id, add);
      } else {
        ghost var _ := Fail(id);
      }
    }

    /** Replaces a resource's edge sets by these. */
    method ReplaceEdges(sets: seq<EdgeSet>, ghost docs: seq<Item>, ghost source: seq<nat>) returns (ok: bool)
      requires c.reliable ==> !dead
      requires SetsOf(docs, sets, source) && forall i, j :: 0 <= i < j < |sets| ==> sets[i].version != sets[j].version
      modifies this`dead, this`fx
      ensures c.reliable ==> ok && !dead
      ensures fx == if ok then old(fx).(edged := old(fx).edged + Stores(docs, sets, source)) else old(fx)
    {
      hide SetsOf;
      ok := CallFor(fx, fx.(edged := fx.edged + Stores(docs, sets, source)));
    }

    /** The edge sets of a resource's landed documents: one per version, and a
        version listed twice has its later document's, the one the bulk write
        left in place. */
    method EdgeSets(docs: seq<Item>) returns (sets: seq<EdgeSet>, ghost source: seq<nat>)
      ensures SetsOf(docs, sets, source)
      ensures forall i, j :: 0 <= i < j < |sets| ==> sets[i].version != sets[j].version
    {
      hide SetsSo, SetsOf;
      sets, source := [], [];
      var at: map<Version, nat> := map[];
      NoSets(docs);
      for n := 0 to |docs|
        invariant SetsSo(docs, n, sets, source, at)
      {
        var it := docs[n];
        PutSet(docs, n, sets, source, at);
        if it.version in at {
          sets, source := sets[at[it.version] := EdgeSetOf(it)], source[at[it.version] := n];
        } else {
          at := at[it.version := |sets|];
          sets, source := sets + [EdgeSetOf(it)], source + [n];
        }
      }
      AllSets(docs, sets, source, at);
    }

    /** Fails the resources with a rejected document. */
    method FailRejected(order: seq<Id>, hasRejected: set<Id>)
      requires Inv() && (forall id :: id in order ==> id in state) && (c.reliable ==> hasRejected == {})
      modifies this
      ensures fx.landed == old(fx.landed)
      ensures Inv() && FailedSome(IdSet(order), old(W()), W())
      ensures c.reliable ==> state == old(state)
      ensures forall id :: id in order && id in hasRejected ==> id in state && state[id].failed
      ensures fx.edged == old(fx.edged)
    {
      hide Good, Queue, Trimmed, Dropped, OtherEdges;
      ghost var w := W();
      ghost var all := IdSet(order);
      FailedNone(all, w);
      for i := 0 to |order|
        invariant Inv() && FailedSome(all, w, W())
        invariant c.reliable ==> state == w.state
        invariant forall j :: 0 <= j < i && order[j] in hasRejected ==> state[order[j]].failed
        invariant fx.edged == w.fx.edged
      {
        var id := order[i];
        ghost var w1 := W();
        assert id in all;
        if id in hasRejected {
          ghost var _ := Fail(id);
          FailedOn(all, {id}, w, w1, W());
        }
      }
    }

    /** Counts a resource's landed documents, in the order they were queued, and
        lists their checks: the root's once in a walk, and each child's. */
    method CountDocs(id: Id, e: Entry, docs: seq<Item>, ghost h: Hist)
      returns (e': Entry, checks: seq<Check>, ghost h': Hist)
      requires Tied(e, h, Versions(docs), c.plans) && !e.failed && e.settled == Unsettled
      ensures Tied(e', h', [], c.plans) && Counted(e, e') && SameSightings(h, h')
      ensures h'.counted == h.counted + set v | v in Versions(docs)
      ensures forall k :: k in checks <==> Asked(id, e, docs, k)
    {
      hide Tied;
      e', checks, h' := e, [], h;
      assert Versions(docs)[0..] == Versions(docs);
      for i := 0 to |docs|
        invariant Tied(e', h', Versions(docs)[i..], c.plans) && Counted(e, e') && SameSightings(h, h')
        invariant h'.counted == h.counted + set v | v in Versions(docs)[..i]
        invariant forall k :: k in checks <==> Asked(id, e, docs[..i], k)
      {
        CountTied(e', h', Versions(docs)[i..], c.plans);
        assert Versions(docs)[i..][1..] == Versions(docs)[i + 1..];
        assert Versions(docs)[..i + 1] == Versions(docs)[..i] + [docs[i].version];
        assert docs[..i + 1] == docs[..i] + [docs[i]];
        e' := CountEntry(e', docs[i].version);
        h' := CountHist(h', docs[i].version);
        if e.checkRoot && i == 0 {
          checks := checks + [Check(Root(c, id), e.start)];
        }
        checks := checks + ChecksOf(docs[i].relations, e.start);
      }
      assert Versions(docs)[..|docs|] == Versions(docs) && Versions(docs)[|docs|..] == [];
      assert docs[..|docs|] == docs;
    }

    /** What the landed documents of an id ask after. */
    ghost predicate Asked(id: Id, e: Entry, docs: seq<Item>, k: Check) {
      && k.start == e.start
      && ((e.checkRoot && docs != [] && k.res == Root(c, id)) || exists it :: it in docs && k.res in it.relations)
    }

    /** Records that an id's landed documents need no drift check. */
    ghost method NoCheck(id: Id, docs: seq<Item>)
      requires Inv() && id in state && forall it :: it in docs ==> it.relations == []
      modifies this`fx
      ensures fx.landed == old(fx.landed)
      ensures Inv() && fx == old(fx).(checked := old(fx).checked + set it | it in docs) && FailedSome({}, old(W()), W())
    {
      hide Good, FailedSome;
      ghost var w := W();
      fx := fx.(checked := fx.checked + set it | it in docs);
      AcksGood(w, fx);
    }

    /** Counts every standing resource's landed documents, and lists the checks
        of each that has any: a walk's root, and the children it fetched. */
    method CountLanded(order: seq<Id>, landed: map<Id, seq<Item>>, ghost chunk: seq<Item>)
      returns (roots: seq<Id>, driftCheck: map<Id, seq<Check>>)
      requires Inv() && Queued(state, queue)
      requires forall i, j :: 0 <= i < j < |order| ==> order[i] != order[j]
      requires
        forall j :: 0 <= j < |order| ==> Countable(W(), order[j], landed) && Fetched(W(), order[j], landed, chunk)
      requires forall it :: it in queue ==> it.id in order
      modifies this`state, this`hist, this`queue, this`fx
      ensures fx.landed == old(fx.landed)
      ensures Inv() && Flushes(IdSet(order), old(W()), W()) && SameFound(old(W()), W()) && queue == []
      ensures forall id ::
        id in order ==>
          id in state && (state[id].failed || state[id].settled == Unsettled) && DueCheck(W(), id, chunk, driftCheck)
      ensures (forall r :: r in roots ==> r in order) && driftCheck.Keys == IdSet(roots)
      ensures forall i, j :: 0 <= i < j < |roots| ==> roots[i] != roots[j]
    {
      hide Good, Flushes, Queued, Countable, Queue, QueueStored, Tied, Clean, KeptOne, Stored, Versions, Without,
        DueCheck, Fetched, CountWorld, MayCount;
      ghost var w := W();
      ghost var all := IdSet(order);
      roots, driftCheck := [], map[];
      FailedNone({}, w);
      FailedFlushes(all, {}, w, w);
      for i := 0 to |order|
        invariant Inv() && Flushes(all, w, W()) && SameFound(w, W()) && Queued(state, queue)
        invariant
          forall j :: i <= j < |order| ==> Countable(W(), order[j], landed) && Fetched(W(), order[j], landed, chunk)
        invariant forall it :: it in queue ==> it.id in order[i..]
        invariant forall j ::
          0 <= j < i ==> order[j] in state && (state[order[j]].failed || state[order[j]].settled == Unsettled)
        invariant forall j :: 0 <= j < i ==> DueCheck(W(), order[j], chunk, driftCheck)
        invariant (forall r :: r in roots ==> r in order[..i]) && driftCheck.Keys == IdSet(roots)
        invariant forall a, b :: 0 <= a < b < |roots| ==> roots[a] != roots[b]
      {
        var id := order[i];
        assert id in all && order[i..] == [id] + order[i + 1..] && order[..i + 1] == order[..i] + [id];
        CountableOf(W(), id, landed);
        if state[id].failed {
          FailedUnqueued(W(), id);
          FailedDue(W(), id, chunk, driftCheck);
          continue;
        }
        ghost var was := W();
        var checks := CountOne(order, i, landed, driftCheck, chunk);
        if checks != [] {
          roots, driftCheck := roots + [id], driftCheck[id := checks];
        }
        FlushesOn(all, w, was, W());
      }
      assert order[..|order|] == order;
      HasMember(queue);
    }

    /** Counts one resource's landed documents, and lists its checks. */
    method CountOne(
        order: seq<Id>, i: nat, landed: map<Id, seq<Item>>, driftCheck: map<Id, seq<Check>>, ghost chunk: seq<Item>)
      returns (checks: seq<Check>)
      requires Inv() && Queued(state, queue) && i < |order|
      requires forall a, b :: 0 <= a < b < |order| ==> order[a] != order[b]
      requires
        forall j :: i <= j < |order| ==> Countable(W(), order[j], landed) && Fetched(W(), order[j], landed, chunk)
      requires order[i] in state && !state[order[i]].failed && order[i] !in driftCheck
      requires forall it :: it in queue ==> it.id in order[i..]
      requires forall j :: 0 <= j < i ==> DueCheck(W(), order[j], chunk, driftCheck)
      modifies this`state, this`hist, this`queue, this`fx
      ensures fx.landed == old(fx.landed)
      ensures Inv() && Flushes(IdSet(order), old(W()), W()) && SameFound(old(W()), W()) && Queued(state, queue)
      ensures forall j :: i < j < |order| ==> Countable(W(), order[j], landed) && Fetched(W(), order[j], landed, chunk)
      ensures forall it :: it in queue ==> it.id in order[i + 1..]
      ensures forall j ::
        0 <= j <= i ==>
          DueCheck(W(), order[j], chunk, if checks == [] then driftCheck else driftCheck[order[i] := checks])
      ensures
        forall x :: x != order[i] ==> (x in state <==> x in old(state)) && (x in state ==> state[x] == old(state)[x])
      ensures order[i] in state && state[order[i]].settled == Unsettled
    {
      hide Good, Flushes, Queued, Countable, Queue, QueueStored, Tied, Clean, KeptOne, Stored, Versions, Without,
        DueCheck, Fetched, MayCount, Grows, Asked, EdgedOne, AsksAfter, AsksRoot;
      var id := order[i];
      ghost var all := IdSet(order);
      assert id in all && order[i..] == [id] + order[i + 1..] && order[..i + 1] == order[..i] + [id];
      ghost var w0 := W();
      CountableOf(w0, id, landed);
      var e';
      ghost var h';
      Standing(w0, id);
      e', checks, h' := CountDocs(id, state[id], landed[id], hist[id]);
      FetchedAsks(w0, id, landed, chunk, checks);
      if checks == [] {
        NoCheck(id, landed[id]);
      }
      ghost var now := if checks == [] then driftCheck else driftCheck[id := checks];
      ghost var w1 := W();
      CountStart(order, i, landed, driftCheck, chunk, w0, w1, all);
      CountAll(order, i, landed, driftCheck, now, chunk, w1, e', h');
      state := state[id := e'];
      hist, queue := hist[id := h'], Without(queue, id);
      assert W() == CountWorld(w1, id, e', h');
      FlushesOn(all, w0, w1, W());
    }

    /** The checks listed ask after every child, and the root if it is due; with
        none listed, there is no child and no root to ask after. */
    lemma FetchedAsks(w: World, id: Id, landed: map<Id, seq<Item>>, chunk: seq<Item>, checks: seq<Check>)
      requires
        && id in w.state
        && id in w.hist
        && !w.state[id].failed
        && Fetched(w, id, landed, chunk)
        && id in landed
        && w.c == c
      requires forall k :: k in checks <==> Asked(id, w.state[id], landed[id], k)
      ensures w.state[id].checkRoot ==> AsksRoot(w.c, id, w.state[id].start, checks)
      ensures forall it :: it in landed[id] ==> AsksAfter(it, w.state[id].start, checks)
      ensures checks == [] ==> forall it :: it in landed[id] ==> it.relations == []
    {
      var e := w.state[id];
      forall it, r | it in landed[id] && r in it.relations ensures Check(r, e.start) in checks {
        assert Asked(id, e, landed[id], Check(r, e.start));
      }
      if e.checkRoot { assert Asked(id, e, landed[id], Check(Root(c, id), e.start)); }
      forall it | it in landed[id] ensures it.relations == [] || checks != [] { ChildAsked(it, e.start, checks); }
    }

    /** Applies the nils of every resource this flush settles. */
    method DropSettling(order: seq<Id>)
      requires Inv() && forall id :: id in order ==> id in state
      modifies this
      ensures fx.landed == old(fx.landed)
      ensures Inv() && FailedSome(IdSet(order), old(W()), W())
      ensures c.reliable ==> state == old(state)
      ensures forall id :: id in order ==> id in state && NilsApplied(W(), id)
    {
      hide Good, Queue, Trimmed, Dropped, NilsApplied, Grows, Applied;
      ghost var w := W();
      ghost var all := IdSet(order);
      FailedNone(all, w);
      for i := 0 to |order|
        invariant Inv() && FailedSome(all, w, W())
        invariant c.reliable ==> state == w.state
        invariant forall j :: 0 <= j < i ==> NilsApplied(W(), order[j])
      {
        var id := order[i];
        ghost var w1 := W();
        assert id in all;
        if !(state[id].failed || state[id].settled != Unsettled || state[id].remaining > 0 || state[id].partial) {
          DropNils(id);
          FailedOn(all, {id}, w, w1, W());
          forall j | 0 <= j < i ensures NilsApplied(W(), order[j]) {
            NilsAppliedLater({id}, w1, W(), order[j]);
          }
        }
        SameKeys(W());
        NilsAppliedNow(id);
      }
    }

    lemma NilsAppliedNow(id: Id)
      requires id in state && id in hist
      requires Due(W(), id) ==> Applied(id, state[id].occ, hist[id].nils, fx)
      ensures NilsApplied(W(), id)
    {
    }

    /** Settles every resource of the chunk whose outcomes have all arrived: a
        partial one fails, any other completes. */
    method CompleteChunk(chunk: seq<Item>, ghost ids: set<Id>)
      requires Inv() && IdleBut(ids, W()) && pending == []
      requires forall it ::
        it in chunk ==> NilsApplied(W(), it.id) && SawDocs(W(), it.id) && Looked(W(), it.id) && it.id in ids
      requires forall id :: id in ids ==> exists it :: it in chunk && it.id == id
      modifies this
      ensures fx.landed == old(fx.landed)
      ensures Valid() && Moves(old(W()), W()) && pending == []
    {
      hide Good, Queue, NilsApplied, SawDocs, IdleBut, Moves, FailedSome, Others, Applied, Looked;
      ghost var w := W();
      SameKeys(w);
      MovesNot(w);
      for i := 0 to |chunk|
        invariant Inv() && IdleBut(ids, W()) && Moves(w, W()) && pending == [] && fx.landed == w.fx.landed
        invariant forall it ::
          it in chunk ==> NilsApplied(W(), it.id) && SawDocs(W(), it.id) && Looked(W(), it.id) && it.id in ids
        invariant forall it ::
          it in chunk[..i] && it.id in state ==>
            state[it.id].failed || state[it.id].settled != Unsettled || state[it.id].remaining > 0
      {
        var id := chunk[i].id;
        assert chunk[i] in chunk && chunk[..i + 1] == chunk[..i] + [chunk[i]];
        ghost var w1 := W();
        if id !in state || state[id].failed || state[id].settled != Unsettled || state[id].remaining > 0 {
          continue;
        }
        QueueIs(w1, ids);
        SameKeys(w1);
        if state[id].partial {
          ghost var _ := Fail(id);
          FailedMovesGood({id}, ids, w1, W());
          FailedRest(chunk, w1, W(), id);
        } else {
          SettleReady(chunk, ids, w1, id);
          Complete(id, ids);
          QueueIs(W(), ids);
          SettledRest(chunk, w1, W(), id);
        }
        MovesOn(w, w1, W());
      }
      assert chunk[..|chunk|] == chunk;
      AllLooked(chunk, ids, W());
      IdleAll(ids, W());
    }

    /** The standing ids of `roots`: a root that failed since is not checked. */
    method StandingOf(roots: seq<Id>) returns (kept: seq<Id>)
      requires forall i, j :: 0 <= i < j < |roots| ==> roots[i] != roots[j]
      ensures forall r :: r in kept <==> r in roots && r in state && !state[r].failed
      ensures forall i, j :: 0 <= i < j < |kept| ==> kept[i] != kept[j]
    {
      kept := [];
      for i := 0 to |roots|
        invariant forall r :: r in kept <==> r in roots[..i] && r in state && !state[r].failed
        invariant forall a, b :: 0 <= a < b < |kept| ==> kept[a] != kept[b]
      {
        assert roots[..i + 1] == roots[..i] + [roots[i]];
        if roots[i] in state && !state[roots[i]].failed {
          kept := kept + [roots[i]];
        }
      }
      assert roots[..|roots|] == roots;
    }

    /** Writes the pending chunk, stores the edge sets of what landed, counts it
        and settles every resource whose outcomes have all arrived. `err` is a
        request-level failure, after which nothing can be assumed written. */
    method Flush() returns (err: bool, flushed: bool)
      requires Valid()
      modifies this
      ensures Inv() && Moves(old(W()), W()) && pending == []
      ensures !err ==> Valid() && (flushed <==> old(pending) != [])
      ensures err ==> !c.reliable && !flushed && old(pending) != []
      ensures old(pending) == [] ==> W() == old(W())
    {
      hide Good, Queue, Moves, FailedSome, Flushes, Sendable;
      err, flushed := false, false;
      ghost var w := W();
      SameKeys(w);
      MovesNot(w);
      if pending == [] {
        return;
      }
      var chunk := pending;
      pending := [];
      PendingFree(w, []);
      QueuedSendable(w);
      SendableLater(w, W());
      ChunkLandable(w, chunk);
      var ok, failures;
      ghost var items;
      ok, failures, items := BulkUpsert(chunk);
      ghost var w1 := W();
      FailedMovesGood({}, {}, Taken(w, items), w1);
      MovesFrom(w, items, w1);
      if !ok {
        err := true;
        return;
      }
      FlushLanded(chunk, failures, w, items);
      flushed := true;
    }

    /** The part of a flush after its bulk write: stores, rejections, counts. */
    method FlushLanded(chunk: seq<Item>, failures: seq<DocKey>, ghost w: World, ghost items: set<Item>)
      requires Inv() && Good(w) && Idle(w) && w.pending == chunk && pending == [] && (c.reliable ==> failures == [])
      requires Good(Taken(w, items)) && FailedSome({}, Taken(w, items), W()) && Moves(w, W())
      requires items == set it | it in chunk && !Rejected(failures, chunk, it)
      modifies this
      ensures fx.landed == old(fx.landed)
      ensures Valid() && Moves(w, W()) && pending == []
    {
      hide Good, Queue, Moves, FailedSome, Flushes, Rejected, IdleBut, Countable, ItemsOf, SawDocs, GroupStored, Queued,
        Fetched, DueCheck, Taken, Storable;
      var order, landed, hasRejected := Group(chunk, failures);
      ghost var all := IdSet(order);
      ghost var p0 := Taken(w, items);
      ghost var w1 := W();
      FailedNone(all, p0);
      FailedOn(all, {}, p0, p0, w1);
      TakenKeys(w, items, {}, w1);
      ChunkStands(w, w1, chunk);
      ChunkStorable(w, items, w1, chunk, order, landed);
      StoreLanded(order, landed);
      ghost var w2 := W();
      FailedOn(all, all, p0, w1, w2);
      TakenKeys(w, items, all, w2);
      if c.reliable { NoneRejected(chunk, hasRejected); }
      FailRejected(order, hasRejected);
      ghost var w3 := W();
      FailedOn(all, all, p0, w2, w3);
      TakenKeys(w, items, all, w3);
      GroupStoredNow(chunk, order, landed, hasRejected, failures, w1, w2, w3);
      AllCountable(chunk, order, landed, hasRejected, items, w, w3);
      AllFetched(chunk, order, landed, hasRejected, items, w, w3);
      var roots, driftCheck := CountLanded(order, landed, chunk);
      ghost var w4 := W();
      CountedIdle(order, chunk, items, w, w3, w4);
      SettleChunk(chunk, order, roots, driftCheck, w4);
      MovesOn(w, w4, W());
    }

    /** The part of a flush after its count: nils, drift checks, settlement. */
    method SettleChunk(
        chunk: seq<Item>, order: seq<Id>, roots: seq<Id>, driftCheck: map<Id, seq<Check>>, ghost w: World)
      requires Inv() && W() == w && IdleBut(IdSet(order), w) && pending == []
      requires forall id :: id in order <==> exists it :: it in chunk && it.id == id
      requires forall id :: id in order ==> id in state && SawDocs(W(), id) && DueCheck(W(), id, chunk, driftCheck)
      requires forall id :: id in order ==> state[id].failed || state[id].settled == Unsettled
      requires (forall r :: r in roots ==> r in order) && driftCheck.Keys == IdSet(roots)
      requires forall i, j :: 0 <= i < j < |roots| ==> roots[i] != roots[j]
      modifies this
      ensures fx.landed == old(fx.landed)
      ensures Valid() && Moves(w, W()) && pending == []
    {
      hide Good, Queue, Moves, FailedSome, Flushes, IdleBut, SawDocs, NilsApplied, Looked, DueCheck, Ripe, DueItems,
        RootsAsked, RootsDue, Changed;
      ghost var all := IdSet(order);
      DropSettling(order);
      ghost var w1 := W();
      FailedMovesGood(all, all, w, w1);
      FailedKeys(all, w, w1);
      var standing := StandingOf(roots);
      StandingUnsettled(w, w1, all, standing);
      ghost var items := DueItems(w1, chunk, standing, driftCheck);
      DueFollows(w1, chunk, standing, driftCheck);
      ghost var _, _, _, _ := CheckDrift(standing, driftCheck, items);
      ghost var w2 := W();
      FailedMovesGood(IdSet(standing), all, w1, w2);
      FailedKeys(IdSet(standing), w1, w2);
      MovesOn(w, w1, w2);
      forall it | it in chunk ensures NilsApplied(w2, it.id) && SawDocs(w2, it.id) && Looked(w2, it.id) {
        NilsAppliedLater(IdSet(standing), w1, w2, it.id);
        SawDocsMoves(w, w2, it.id);
        DueLater(w, w1, all, it.id, chunk, driftCheck);
        LookedNow(w1, w2, it.id, chunk, driftCheck, standing);
      }
      CompleteChunk(chunk, all);
      MovesOn(w, w2, W());
    }

    /** Queues one plan document of a resource, and flushes at the chunk bound. */
    method Add(id: Id, version: Version, relations: seq<Resource>) returns (err: bool, flushed: bool)
      requires Valid() && InOrder(W(), id, version)
      modifies this
      ensures Inv() && Sees(old(W()), W(), id, version, true, relations)
      ensures !err ==> Valid() && (flushed ==> pending == [])
      ensures err ==> !c.reliable && !flushed
      ensures !err && !flushed ==> fx.landed == old(fx.landed)
      ensures !err && chunkSize <= 1 && old(pending) == [] ==> pending == []
      ensures c.keepSettled && !err && !flushed && old(Uncounted(W())) ==> Uncounted(W())
      ensures flushed ==> |old(pending)| + 1 >= chunkSize
    {
      hide Good, IdleBut, Sees, Moves, Queue, InOrder;
      err, flushed := false, false;
      ghost var w := W();
      SameKeys(w);
      if id !in state || state[id].failed {
        SeesNothing(w, id, version, true, relations);
        return;
      }
      LastDoc(w, id, version);
      if version in state[id].nils {
        Contradicts(id, version, true, relations);
        return;
      }
      if state[id].settled != Unsettled {
        SettledSaid(w, id, version);
        SeesNothing(w, id, version, true, relations);
        return;
      }
      DocGood(w, id, version, relations);
      DocSees(w, id, version, relations);
      DocIdle(w, id, version, relations);
      var it := Item(id, version, state[id].occ, relations);
      state := state[id := state[id].(lastDoc := version)];
      pending := pending + [it];
      hist, queue := DocWorld(w, id, version, relations).hist, DocWorld(w, id, version, relations).queue;
      ghost var w1 := W();
      if |pending| >= chunkSize {
        err, flushed := Flush();
        SeesOn(w, w1, W(), id, version, true, relations);
      }
    }

    /** Flushes the remainder and marks every resource that never received
        every expected plan's outcome. `w1` is the state after that flush. */
    method Finish() returns (err: bool, ghost w1: World)
      requires Valid()
      modifies this
      ensures Moves(old(W()), w1) && Good(w1) && (old(pending) == [] ==> w1 == old(W()))
      ensures err ==> Inv() && W() == w1 && !c.reliable
      ensures !err ==>
        && Idle(w1) && w1.pending == [] && state == map[]
        && Grows(w1.fx, fx) && fx.settled == w1.fx.settled && fx.begun == w1.fx.begun
        && fx.failedIds == w1.fx.failedIds + Incomplete(w1.state)
        && Closed(fx, failed, markFailed) && NoClash(fx) && AllServed(c.mayDelete, fx)
        && (markFailed ==> failed > 0 && !c.reliable)
        && fx.landed == w1.fx.landed && (c.reliable ==> !dead)
    {
      hide Good, IdleBut, Moves, Queue, Grows, AllServed, NoClash;
      ghost var w := W();
      var e, _ := Flush();
      err, w1 := e, W();
      if err {
        return;
      }
      MarkIncomplete(w1);
    }

    /** finish's loop: an unsettled resource is counted and marked. */
    method MarkIncomplete(ghost w1: World)
      requires Inv() && W() == w1
      modifies this
      ensures fx.landed == old(fx.landed)
      ensures state == map[]
      ensures Grows(w1.fx, fx) && fx.settled == w1.fx.settled && fx.begun == w1.fx.begun
      ensures fx.failedIds == w1.fx.failedIds + Incomplete(w1.state)
      ensures Closed(fx, failed, markFailed) && NoClash(fx) && AllServed(c.mayDelete, fx)
      ensures markFailed ==> failed > 0 && !c.reliable
      ensures c.reliable ==> !dead
    {
      hide Good, FinishInv, Closed, Grows, NoClash, AllServed, FinishEffects, Incomplete;
      FinishStart(w1);
      ghost var done: set<Id> := {};
      while state != map[]
        invariant done !! state.Keys && done + state.Keys == w1.state.Keys
        invariant forall id :: id in state ==> state[id] == w1.state[id]
        invariant FinishInv(w1, fx, done, failed, markFailed) && fx.landed == w1.fx.landed
        invariant c.reliable ==> !dead && !markFailed
        decreases |state|
      {
        var id :| id in state;
        MarkOne(id, w1, done);
        done := done + {id};
      }
      FinishClosed(w1, fx, done, failed, markFailed);
    }

    method MarkOne(id: Id, ghost w1: World, ghost done: set<Id>)
      requires
        && id in state
        && id in w1.state
        && w1.state[id] == state[id]
        && id !in done
        && (c.reliable ==> !dead && !markFailed)
      requires Good(w1) && FinishInv(w1, fx, done, failed, markFailed)
      modifies this`state, this`failed, this`markFailed, this`dead, this`fx
      ensures fx.landed == old(fx.landed)
      ensures
        && state == old(state) - {id}
        && FinishInv(w1, fx, done + {id}, failed, markFailed)
        && (c.reliable ==> !dead && !markFailed)
    {
      hide Good, FinishInv, FinishEffects;
      var p := state[id];
      state := state - {id};
      if p.failed || p.settled != Unsettled {
        FinishSkip(w1, fx, done, id, failed, markFailed);
        return;
      }
      ghost var was, life := fx, Life(id, p.occ);
      var ok := CallFor(FinishEffects(was, life, false), FinishEffects(was, life, true));
      FinishMarksOnly(was, life, ok);
      FinishMark(w1, was, done, id, ok, failed, markFailed);
      failed := failed + 1;
      if !ok {
        markFailed := true;
      }
    }

    /** Marks every unsettled resource after an abort. */
    method Salvage()
      requires Inv()
      modifies this
      ensures fx.landed == old(fx.landed)
      ensures state == map[] && Grows(old(fx), fx) && fx.begun == old(fx).begun && fx.settled == old(fx).settled
      ensures fx.failedIds == old(fx).failedIds && failed == old(failed)
      ensures Closed(fx, failed, markFailed) && NoClash(fx) && AllServed(c.mayDelete, fx)
      ensures old(markFailed) ==> markFailed
      ensures markFailed && !old(markFailed) ==>
        && !c.reliable && fx == old(fx)
        && exists id :: id in old(state) && !old(state)[id].failed && old(state)[id].settled == Unsettled
    {
      hide Good, IdleBut, Queue, Grows, AllServed, NoClash;
      ghost var w := W();
      SalvageParts(w);
      var roots: seq<Id> := [];
      var rest := state.Keys;
      while rest != {}
        invariant rest <= state.Keys
        invariant forall id ::
          id in roots <==> id in state && id !in rest && !state[id].failed && state[id].settled == Unsettled
        decreases |rest|
      {
        var id :| id in rest;
        rest := rest - {id};
        if !state[id].failed && state[id].settled == Unsettled {
          roots := roots + [id];
        }
      }
      state := map[];
      if roots == [] {
        SalvageClosed(w, roots, true, fx, markFailed);
        return;
      }
      assert roots[0] in roots;
      var ok := CallFor(fx, fx.(marked := fx.marked + set id | id in roots :: Life(id, w.state[id].occ)));
      if !ok {
        markFailed := true;
      }
      SalvageClosed(w, roots, ok, fx, markFailed);
    }

    /** The rebuild's error once the flusher has finished. */
    method ErrorIfFailed() returns (r: RebuildError)
      requires Closed(fx, failed, markFailed)
      ensures r == NoError <==> fx.failedIds == {}
      ensures r.MarkedFailures? ==>
        r.count == |fx.failedIds| > 0 && forall id :: id in fx.failedIds ==> exists occ :: Life(id, occ) in fx.marked
      ensures r.MarkedFailures? ==> forall life :: life in fx.begun ==> life in fx.settled || life in fx.marked
      ensures r.UnmarkedFailures? <==> fx.failedIds != {} && markFailed
    {
      if failed == 0 {
        return NoError;
      }
      if markFailed {
        return UnmarkedFailures(failed);
      }
      return MarkedFailures(failed);
    }
  }
}
