// The resumable walk of a single plan, and series of attempts of it.

module Checkpoint {
  import opened Common
  import opened Wrappers
  import opened Rows
  import opened FlusherModel
  import opened FlusherEffects
  import opened FlusherState
  import opened FlusherSightings
  import opened FlushModel
  import opened FlusherClass
  import opened WalkModel
  import opened Walks

  type Page = seq<Sighting>

  /** The id is listed on a page from `from` up to but not including `to`. */
  ghost predicate Listed(pages: seq<Page>, from: nat, to: nat, id: Id) {
    id != "" && exists p, n :: from <= p < to && p < |pages| && 0 <= n < |pages[p]| && pages[p][n].id == id
  }

  /** As Listed, up to the n-th item of page `to`. */
  ghost predicate ListedTo(pages: seq<Page>, from: nat, to: nat, n: nat, id: Id) {
    || Listed(pages, from, to, id)
    || (id != "" && from <= to < |pages| && exists i :: 0 <= i < n && i < |pages[to]| && pages[to][i].id == id)
  }

  ghost predicate Touched(fx: Effects, id: Id) {
    exists occ: nat :: Life(id, occ) in fx.begun
  }

  /** Every life of the id settled or is durably marked. */
  ghost predicate KeptId(fx: Effects, id: Id) {
    && Touched(fx, id)
    && forall occ: nat {:trigger Life(id, occ)} ::
         Life(id, occ) in fx.begun ==> Life(id, occ) in fx.settled || Life(id, occ) in fx.marked
  }

  /** What a cursor promises of the pages the attempt walked before it: an id
      that no later page lists again is kept. */
  ghost predicate Safe(pages: seq<Page>, start: nat, cursor: nat, fx: Effects) {
    forall id {:trigger KeptId(fx, id)} {:trigger Listed(pages, start, cursor, id)} ::
      Listed(pages, start, cursor, id) && !Listed(pages, cursor, |pages|, id) ==> KeptId(fx, id)
  }

  /** The ids begun are those listed so far. */
  ghost predicate Covers(pages: seq<Page>, start: nat, p: nat, n: nat, fx: Effects) {
    && (forall id {:trigger Touched(fx, id)} :: ListedTo(pages, start, p, n, id) ==> Touched(fx, id))
    && (forall life {:trigger life in fx.begun} :: life in fx.begun ==> ListedTo(pages, start, p, n, life.id))
  }

  /** In a single-plan walk every standing entry has its plan's outcome. */
  ghost predicate Solo(v: Version, w: World) {
    && w.hist.Keys == w.state.Keys
    && forall id {:trigger w.state[id]} {:trigger w.hist[id]} :: id in w.state && !w.state[id].failed ==>
         w.hist[id].expected == {v} && (w.hist[id].docs != {} || w.hist[id].nils != {})
  }

  /** Right after a flush, everything begun has settled or failed: the reason a
      page boundary is safe to resume from. */
  lemma SoloFlushed(v: Version, w: World)
    requires Good(w) && Idle(w) && w.pending == [] && Solo(v, w) && !w.c.keepSettled && !w.markFailed
    ensures forall life :: life in w.fx.begun ==> life in w.fx.settled || life in w.fx.marked
  {
    hide Good, Idle, Queue, Tied, Clean, Stored;
    OwedOf(w);
    forall life | life in w.fx.begun ensures life in w.fx.settled || life in w.fx.marked {
      if life !in w.fx.settled {
        assert Open(w.state, life);
        Standing(w, life.id);
        if !w.state[life.id].failed { SoloFailed(v, w, life.id); }
      }
    }
  }

  lemma SoloFailed(v: Version, w: World, id: Id)
    requires Good(w) && Idle(w) && w.pending == [] && Solo(v, w) && !w.c.keepSettled
    requires id in w.state
    ensures w.state[id].failed
  {
    hide Good, Queue, Clean, Stored;
    Standing(w, id);
    if !w.state[id].failed {
      QueueEmpty(w.queue, id);
      var e, h := w.state[id], w.hist[id];
      assert Awaiting(e, h, Queue(w.queue, id));
      SoloAnswered(e, h, w.c.plans, v);
      assert false;
    }
  }

  lemma SoloAnswered(e: Entry, h: Hist, plans: seq<Version>, v: Version)
    requires Tied(e, h, [], plans) && !e.failed && h.expected == {v} && (h.docs != {} || h.nils != {})
    ensures e.remaining == 0
  {
    var none: seq<Version> := [];
    assert Flows(h, none, plans);
    assert forall u :: u in h.docs <==> u in h.counted || u in none;
    assert h.docs == h.counted;
    Remaining(h.nils, h.counted, h.expected);
    if h.nils != {} {
      var u :| u in h.nils;
      assert u == v;
      SubsetSize({v}, h.nils);
    } else {
      var u :| u in h.docs;
      assert u == v;
      SubsetSize({v}, h.counted);
    }
  }

  lemma SoloMoves(v: Version, w: World, w': World)
    requires Solo(v, w) && Moves(w, w')
    ensures Solo(v, w')
  {
    hide Grows;
    forall id | id in w'.state && !w'.state[id].failed
      ensures w'.hist[id].expected == {v} && (w'.hist[id].docs != {} || w'.hist[id].nils != {})
    {
      assert Later(w.state[id], w'.state[id]) && SameSightings(w.hist[id], w'.hist[id]);
    }
  }

  /** An item keeps the entries answered, whether its id was tracked or begun. */
  lemma SoloSees(v: Version, w: World, w': World, id: Id, doc: bool, rels: seq<Resource>)
    requires w.hist.Keys == w.state.Keys && Sees(w, w', id, v, doc, rels)
    requires forall j :: j in w.state && !w.state[j].failed ==>
      w.hist[j].expected == {v} && (j != id ==> w.hist[j].docs != {} || w.hist[j].nils != {})
    ensures Solo(v, w')
  {
    hide Grows;
    forall j | j in w'.state && !w'.state[j].failed
      ensures w'.hist[j].expected == {v} && (w'.hist[j].docs != {} || w'.hist[j].nils != {})
    {
      assert Later(w.state[j], w'.state[j]);
      assert
        SameSightings(
          if j == id && !w.state[j].failed && !Clashes(w, id, v, doc) then
            SeenBy(w.state[j], w.hist[j], v, doc, rels)
          else w.hist[j],
          w'.hist[j]);
      if j == id { assert v in w'.hist[j].docs || v in w'.hist[j].nils; }
    }
  }

  lemma SoloInOrder(v: Version, w: World, id: Id)
    requires Good(w) && Solo(v, w)
    ensures InOrder(w, id, v)
  {
    hide Good, Clean, Stored;
    Standing(w, id);
  }

  // ------------------------------------------------------- pages and coverage

  lemma ListedStep(pages: seq<Page>, start: nat, p: nat, n: nat, id: Id)
    requires start <= p < |pages| && n < |pages[p]|
    ensures
      ListedTo(pages, start, p, n + 1, id) <==> ListedTo(pages, start, p, n, id) || (id != "" && pages[p][n].id == id)
  {
  }

  lemma ListedPage(pages: seq<Page>, start: nat, p: nat, id: Id)
    requires start <= p < |pages|
    ensures ListedTo(pages, start, p, |pages[p]|, id) <==> ListedTo(pages, start, p + 1, 0, id)
    ensures ListedTo(pages, start, p, 0, id) <==> Listed(pages, start, p, id)
  {
    if ListedTo(pages, start, p, |pages[p]|, id) {
      if !Listed(pages, start, p, id) {
        var i :| 0 <= i < |pages[p]| && pages[p][i].id == id;
        assert Listed(pages, start, p + 1, id);
      } else {
        var q, i :| start <= q < p && q < |pages| && 0 <= i < |pages[q]| && pages[q][i].id == id;
        assert Listed(pages, start, p + 1, id);
      }
    }
  }

  lemma CoversPage(pages: seq<Page>, start: nat, p: nat, fx: Effects)
    requires start <= p < |pages| && Covers(pages, start, p, |pages[p]|, fx)
    ensures Covers(pages, start, p + 1, 0, fx)
  {
    hide ListedTo, Touched;
    forall id ensures ListedTo(pages, start, p, |pages[p]|, id) <==> ListedTo(pages, start, p + 1, 0, id) {
      ListedPage(pages, start, p, id);
    }
  }

  lemma CoversSame(pages: seq<Page>, start: nat, p: nat, n: nat, fx: Effects, fx': Effects)
    requires Covers(pages, start, p, n, fx) && fx'.begun == fx.begun
    ensures Covers(pages, start, p, n, fx')
  {
    forall id | ListedTo(pages, start, p, n, id) ensures Touched(fx', id) {
      assert Touched(fx, id);
    }
  }

  lemma CoversItem(pages: seq<Page>, start: nat, p: nat, n: nat, fx: Effects, fx': Effects, occ: nat)
    requires start <= p < |pages| && n < |pages[p]| && pages[p][n].id != "" && Covers(pages, start, p, n, fx)
    requires fx'.begun == fx.begun + {Life(pages[p][n].id, occ)}
    ensures Covers(pages, start, p, n + 1, fx')
  {
    forall id | ListedTo(pages, start, p, n + 1, id) ensures Touched(fx', id) {
      ListedStep(pages, start, p, n, id);
      if id == pages[p][n].id {
        assert Life(id, occ) in fx'.begun;
      } else {
        assert Touched(fx, id);
      }
    }
    forall life | life in fx'.begun ensures ListedTo(pages, start, p, n + 1, life.id) {
      ListedStep(pages, start, p, n, life.id);
    }
  }

  lemma CoversSkip(pages: seq<Page>, start: nat, p: nat, n: nat, fx: Effects)
    requires start <= p < |pages| && n < |pages[p]| && pages[p][n].id == "" && Covers(pages, start, p, n, fx)
    ensures Covers(pages, start, p, n + 1, fx)
  {
    hide ListedTo, Touched;
    forall id ensures ListedTo(pages, start, p, n + 1, id) ==> ListedTo(pages, start, p, n, id) || id == "" {
      ListedStep(pages, start, p, n, id);
    }
    forall id ensures ListedTo(pages, start, p, n, id) ==> ListedTo(pages, start, p, n + 1, id) && id != "" {
      ListedStep(pages, start, p, n, id);
      NotEmpty(pages, start, p, n, id);
    }
    NotEmpty(pages, start, p, n + 1, "");
  }

  lemma NotEmpty(pages: seq<Page>, start: nat, p: nat, n: nat, id: Id)
    ensures ListedTo(pages, start, p, n, id) ==> id != ""
  {
  }

  /** A later begin belongs to a page from the cursor on. */
  lemma SafeItem(pages: seq<Page>, start: nat, cursor: nat, p: nat, n: nat, fx: Effects, fx': Effects, occ: nat)
    requires start <= cursor <= p < |pages| && n < |pages[p]| && pages[p][n].id != ""
    requires Safe(pages, start, cursor, fx) && Grows(fx, fx') && fx'.begun <= fx.begun + {Life(pages[p][n].id, occ)}
    ensures Safe(pages, start, cursor, fx')
  {
    forall id | Listed(pages, start, cursor, id) && !Listed(pages, cursor, |pages|, id) ensures KeptId(fx', id) {
      assert KeptId(fx, id);
      assert Listed(pages, cursor, |pages|, pages[p][n].id);
      var o: nat :| Life(id, o) in fx.begun;
      assert Life(id, o) in fx'.begun;
    }
  }

  lemma SafeGrows(pages: seq<Page>, start: nat, cursor: nat, fx: Effects, fx': Effects)
    requires Safe(pages, start, cursor, fx) && Grows(fx, fx') && fx'.begun == fx.begun
    ensures Safe(pages, start, cursor, fx')
  {
    forall id | Listed(pages, start, cursor, id) && !Listed(pages, cursor, |pages|, id) ensures KeptId(fx', id) {
      assert KeptId(fx, id);
      var o: nat :| Life(id, o) in fx.begun;
      assert Life(id, o) in fx'.begun;
    }
  }

  /** With everything begun kept, any boundary behind the walk is safe. */
  lemma SafeReport(pages: seq<Page>, start: nat, cursor: nat, p: nat, n: nat, fx: Effects)
    requires start <= cursor <= p && Covers(pages, start, p, n, fx)
    requires forall life :: life in fx.begun ==> life in fx.settled || life in fx.marked
    ensures Safe(pages, start, cursor, fx)
  {
    forall id | Listed(pages, start, cursor, id) ensures KeptId(fx, id) {
      assert Listed(pages, start, p, id);
      assert ListedTo(pages, start, p, n, id);
      assert Touched(fx, id);
    }
  }

  lemma SafeStart(pages: seq<Page>, start: nat, fx: Effects)
    ensures Safe(pages, start, start, fx)
  {
    forall id ensures !Listed(pages, start, start, id) {}
  }

  // ----------------------------------------------------------------- the walk

  /** What a resumable walk knows before the n-th item of page p. */
  ghost predicate Walking(pages: seq<Page>, start: nat, p: nat, n: nat, v: Version, cursor: nat, w: World) {
    && start <= cursor <= p && p <= |pages|
    && w.c.plans == [v] && v != 0 && !w.c.keepSettled
    && Solo(v, w)
    && Covers(pages, start, p, n, w.fx)
    && Safe(pages, start, cursor, w.fx)
  }

  lemma WalkingMoves(pages: seq<Page>, start: nat, p: nat, n: nat, v: Version, cursor: nat, w: World, w': World)
    requires Walking(pages, start, p, n, v, cursor, w) && Moves(w, w')
    ensures Walking(pages, start, p, n, v, cursor, w')
  {
    hide Solo, Covers, Safe, Grows;
    SoloMoves(v, w, w');
    CoversSame(pages, start, p, n, w.fx, w'.fx);
    SafeGrows(pages, start, cursor, w.fx, w'.fx);
  }

  /** The last page boundary passed before page p that the walk can resume from. */
  ghost predicate Passed(marks: set<nat>, start: nat, p: nat, end: nat, completed: Option<nat>) {
    && (completed.Some? ==> completed.value in marks && start < completed.value <= p && completed.value < end)
    && forall b :: b in marks && start < b <= p && b < end ==> completed.Some? && b <= completed.value
  }

  /** The cursor does not lag: once a document listed from a resumable boundary
      on only has landed, it is at that boundary or past it. */
  ghost predicate Prompt(pages: seq<Page>, start: nat, marks: set<nat>, cursor: nat, fx: Effects) {
    forall it, b {:trigger it in fx.landed, b in marks} ::
      it in fx.landed && b in marks && start < b < |pages| && !Listed(pages, start, b, it.id) ==> b <= cursor
  }

  lemma PromptNow(
      pages: seq<Page>, start: nat, marks: set<nat>, p: nat, n: nat, completed: Option<nat>, cursor: nat, w: World)
    requires Good(w) && Covers(pages, start, p, n, w.fx) && Passed(marks, start, p, |pages|, completed)
    requires completed.Some? ==> cursor == completed.value
    ensures Prompt(pages, start, marks, cursor, w.fx)
  {
    LandedBegun(w);
    hide Good;
    forall it, b | it in w.fx.landed && b in marks && start < b < |pages| && !Listed(pages, start, b, it.id)
      ensures b <= cursor
    {
      assert LifeOf(it) in w.fx.begun;
      assert ListedTo(pages, start, p, n, LifeOf(it).id);
    }
  }

  lemma PromptSame(pages: seq<Page>, start: nat, marks: set<nat>, cursor: nat, fx: Effects, fx': Effects)
    requires Prompt(pages, start, marks, cursor, fx) && fx'.landed == fx.landed
    ensures Prompt(pages, start, marks, cursor, fx')
  {
  }

  /** afterFlush: reports the last completed page boundary, unless a mark of the
      walk has failed or the process is gone. */
  method AfterFlush(
      fl: Flusher, completed: Option<nat>, cursor: nat, ghost pages: seq<Page>, ghost start: nat, ghost p: nat,
      ghost n: nat, ghost v: Version, ghost marks: set<nat>)
    returns (cursor': nat)
    requires Passed(marks, start, p, |pages|, completed)
    ensures !fl.markFailed && !fl.dead ==> Prompt(pages, start, marks, cursor', fl.fx)
    requires fl.Valid() && fl.pending == [] && Walking(pages, start, p, n, v, cursor, fl.W())
    requires completed.Some? ==> cursor <= completed.value <= p
    ensures Walking(pages, start, p, n, v, cursor', fl.W())
    ensures cursor' == if completed.Some? && !fl.markFailed && !fl.dead then completed.value else cursor
  {
    hide Good, Idle, Solo, Covers, Safe, Prompt, Passed;
    cursor' := cursor;
    PromptNow(pages, start, marks, p, n, completed, if completed.Some? then completed.value else cursor, fl.W());
    if completed.Some? && !fl.markFailed && !fl.dead {
      cursor' := completed.value;
      SoloFlushed(v, fl.W());
      SafeReport(pages, start, cursor', p, n, fl.fx);
    }
  }

  /** One item of a page: its entry, and a report if it filled the chunk. */
  method WalkItem1(
      pages: seq<Page>, p: nat, n: nat, v: Version, fl: Flusher, base: nat, clock: nat, completed: Option<nat>,
      cursor: nat, ghost start: nat, ghost marks: set<nat>)
    returns (stopped: bool, flushed: bool, clock': nat, cursor': nat)
    requires Passed(marks, start, p, |pages|, completed)
    requires fl.c.reliable ==> Prompt(pages, start, marks, cursor, fl.fx)
    requires p < |pages| && n < |pages[p]| && pages[p][n].id != ""
    requires fl.Valid() && fl.fx.top <= clock && Walking(pages, start, p, n, v, cursor, fl.W())
    requires completed.Some? ==> cursor <= completed.value <= p
    modifies fl
    ensures fl.Inv() && (flushed ==> fl.pending == []) && (stopped ==> !fl.c.reliable)
    ensures !stopped && fl.c.reliable ==> Prompt(pages, start, marks, cursor', fl.fx)
    ensures !stopped ==>
      cursor' == if flushed && completed.Some? && !fl.markFailed && !fl.dead then completed.value else cursor
    ensures !stopped ==> fl.Valid() && fl.fx.top <= clock' && Walking(pages, start, p, n + 1, v, cursor', fl.W())
    ensures stopped ==> cursor' == cursor && Safe(pages, start, cursor, fl.fx) && TouchedOn(pages, start, fl.fx)
  {
    hide Good, IdleBut, Solo, Covers, Safe, Sees, Queue, FailWorld, TouchedOn, Prompt, Passed;
    ghost var w := fl.W();
    cursor' := cursor;
    SoloInOrder(v, w, pages[p][n].id);
    ghost var began, mid, ok;
    stopped, flushed, clock', began, mid, ok := Sight(fl, v, pages[p][n], 1, false, base, clock, {v});
    if began {
      BeganWalks(pages, start, p, n, v, cursor, w, mid, fl.W());
    } else {
      FailedWalks(pages, start, p, n, v, cursor, w, ok);
    }
    if stopped {
      CoversTouched(pages, start, p, n + 1, fl.fx);
      return;
    }
    if flushed {
      cursor' := AfterFlush(fl, completed, cursor, pages, start, p, n + 1, v, marks);
    } else if fl.c.reliable {
      PromptSame(pages, start, marks, cursor, w.fx, fl.fx);
    }
  }

  /** Only ids listed from the start on were begun. */
  ghost predicate TouchedOn(pages: seq<Page>, start: nat, fx: Effects) {
    forall id {:trigger Touched(fx, id)} :: Touched(fx, id) ==> Listed(pages, start, |pages|, id)
  }

  lemma CoversTouched(pages: seq<Page>, start: nat, p: nat, n: nat, fx: Effects)
    requires Covers(pages, start, p, n, fx) && start <= p <= |pages|
    ensures TouchedOn(pages, start, fx)
  {
    forall id | Touched(fx, id) ensures Listed(pages, start, |pages|, id) {
      var o: nat :| Life(id, o) in fx.begun;
      assert ListedTo(pages, start, p, n, Life(id, o).id);
    }
  }

  lemma FailedWalks(pages: seq<Page>, start: nat, p: nat, n: nat, v: Version, cursor: nat, w: World, ok: bool)
    requires p < |pages| && n < |pages[p]| && pages[p][n].id != "" && Walking(pages, start, p, n, v, cursor, w)
    requires pages[p][n].id !in w.state
    ensures Walking(pages, start, p, n + 1, v, cursor, FailWorld(w, pages[p][n].id, ok))
  {
    var id := pages[p][n].id;
    var w' := FailWorld(w, id, ok);
    hide Covers, Safe, Without;
    CoversItem(pages, start, p, n, w.fx, w'.fx, 0);
    SafeItem(pages, start, cursor, p, n, w.fx, w'.fx, 0);
  }

  lemma BeganWalks(
      pages: seq<Page>, start: nat, p: nat, n: nat, v: Version, cursor: nat, w: World, mid: World, w': World)
    requires p < |pages| && n < |pages[p]| && pages[p][n].id != "" && Walking(pages, start, p, n, v, cursor, w)
    requires Good(w)
    requires pages[p][n].id in w.state ==> mid == w
    requires pages[p][n].id !in w.state ==>
      exists occ: nat, stale: nat, base: nat ::
        occ > w.fx.top && mid == BeginWorld(w, pages[p][n].id, Begun(occ, stale, base, true, 1, false), {v})
    requires Sees(mid, w', pages[p][n].id, v, pages[p][n].doc, pages[p][n].relations)
    ensures Walking(pages, start, p, n + 1, v, cursor, w')
  {
    hide Good, Covers, Safe, Queue;
    var id := pages[p][n].id;
    var occ: nat;
    if id in w.state {
      Standing(w, id);
      occ := w.state[id].occ;
      GrowsSame(w.fx);
    } else {
      var o: nat, stale: nat, base: nat :|
        o > w.fx.top && mid == BeginWorld(w, id, Begun(o, stale, base, true, 1, false), {v});
      occ := o;
    }
    BeganSolo(v, w, mid, w', id, pages[p][n].doc, pages[p][n].relations);
    SeesGrows(w, mid, w', id, v, pages[p][n].doc, pages[p][n].relations);
    CoversItem(pages, start, p, n, w.fx, w'.fx, occ);
    SafeItem(pages, start, cursor, p, n, w.fx, w'.fx, occ);
  }

  lemma BeganSolo(v: Version, w: World, mid: World, w': World, id: Id, doc: bool, rels: seq<Resource>)
    requires Solo(v, w) && Sees(mid, w', id, v, doc, rels)
    requires id in w.state ==> mid == w
    requires id !in w.state ==>
      exists occ: nat, stale: nat, base: nat ::
        occ > w.fx.top && mid == BeginWorld(w, id, Begun(occ, stale, base, true, 1, false), {v})
    ensures Solo(v, w')
  {
    hide Sees;
    forall j | j in mid.state && !mid.state[j].failed
      ensures mid.hist[j].expected == {v} && (j != id ==> mid.hist[j].docs != {} || mid.hist[j].nils != {})
    {
      if j != id { assert j in w.state && mid.hist[j] == w.hist[j]; }
    }
    SoloSees(v, mid, w', id, doc, rels);
  }

  lemma SeesGrows(w: World, mid: World, w': World, id: Id, v: Version, doc: bool, rels: seq<Resource>)
    requires Good(w) && Sees(mid, w', id, v, doc, rels)
    requires
      || mid == w
      || exists occ: nat, stale: nat, base: nat ::
           occ > w.fx.top && mid == BeginWorld(w, id, Begun(occ, stale, base, true, 1, false), {v})
    ensures Grows(w.fx, w'.fx) && w'.fx.begun == mid.fx.begun && w'.c == w.c
  {
    hide AllTied, AllEdged, Failures, Owed, NoClash, AllClean, AllServed, Bounded, Kept, Blamed, Grows;
    GrowsSame(w.fx);
    if mid != w {
      var occ: nat, stale: nat, base: nat :|
        occ > w.fx.top && mid == BeginWorld(w, id, Begun(occ, stale, base, true, 1, false), {v});
      BeginGrows(w, id, Begun(occ, stale, base, true, 1, false), {v});
    }
    GrowsOn(w.fx, mid.fx, w'.fx);
  }

  /** The items of page p, and, on a paced walk, flushes among them. */
  method WalkPage(
      pages: seq<Page>, p: nat, v: Version, fl: Flusher, base: nat, clock: nat, completed: Option<nat>, cursor: nat,
      ghost start: nat, ghost marks: set<nat>)
    returns (stopped: bool, clock': nat, cursor': nat)
    requires Passed(marks, start, p, |pages|, completed)
    requires fl.c.reliable ==> Prompt(pages, start, marks, cursor, fl.fx)
    requires p < |pages|
    requires fl.Valid() && fl.fx.top <= clock && Walking(pages, start, p, 0, v, cursor, fl.W())
    requires completed.Some? ==> cursor <= completed.value <= p
    modifies fl
    ensures fl.Inv() && (completed.Some? ==> cursor' <= completed.value) && (stopped ==> !fl.c.reliable)
    ensures (cursor' == cursor || (cursor' in marks && cursor' < |pages|))
    ensures !stopped && fl.c.reliable ==> Prompt(pages, start, marks, cursor', fl.fx)
    ensures !stopped ==> fl.Valid() && fl.fx.top <= clock' && Walking(pages, start, p + 1, 0, v, cursor', fl.W())
    ensures
      stopped ==> start <= cursor' <= |pages| && Safe(pages, start, cursor', fl.fx) && TouchedOn(pages, start, fl.fx)
  {
    hide Good, IdleBut, Solo, Covers, Safe, Queue, TouchedOn, Moves, Prompt;
    stopped, clock', cursor' := false, clock, cursor;
    for n := 0 to |pages[p]|
      invariant fl.Valid() && fl.fx.top <= clock' && Walking(pages, start, p, n, v, cursor', fl.W())
      invariant completed.Some? ==> cursor' <= completed.value <= p
      invariant fl.c.reliable ==> Prompt(pages, start, marks, cursor', fl.fx)
      invariant (cursor' == cursor || (cursor' in marks && cursor' < |pages|))
    {
      var ended: bool := *;
      if ended && !fl.c.reliable {
        CoversTouched(pages, start, p, n, fl.fx);
        return true, clock', cursor';
      }
      if pages[p][n].id == "" {
        CoversSkip(pages, start, p, n, fl.fx);
        continue;
      }
      var flushed;
      stopped, flushed, clock', cursor' := WalkItem1(pages, p, n, v, fl, base, clock', completed, cursor', start,
        marks);
      if stopped {
        return;
      }
    }
    CoversPage(pages, start, p, fl.fx);
  }

  /** One attempt of a resumable walk from page `start` to the listing's end.
      `marks` are the pages whose token can be resumed from; in a reliable one no
      call fails and the context does not end. `cursor` is the last one it
      reported, or its start; `done` is an attempt whose error is none or the
      one that is not retried. */
  method Attempt(
      typ: string, versions: seq<Version>, pages: seq<Page>, start: nat, v: Version, chunkSize: nat, mayDelete: bool,
      marks: set<nat>, reliable: bool)
    returns (done: bool, cursor: nat, ghost fx: Effects)
    requires start <= |pages| && v != 0
    ensures start <= cursor <= |pages| && (cursor == start || (cursor in marks && cursor < |pages|))
    ensures reliable ==> done && Prompt(pages, start, marks, cursor, fx)
    ensures Safe(pages, start, cursor, fx) && TouchedOn(pages, start, fx)
    ensures done ==> forall id :: Listed(pages, start, |pages|, id) ==> KeptId(fx, id)
    ensures NoClash(fx) && AllServed(mayDelete, fx)
  {
    hide Good, IdleBut, Solo, Safe, Queue, TouchedOn, Moves, Closed, NoClash, AllServed, KeptId, Covers, Prompt;
    var fl := new Flusher(Config(typ, versions, [v], false, mayDelete, reliable), chunkSize);
    var clock := 0;
    done, cursor := false, start;
    var completed: Option<nat> := None;
    StartWalks(pages, start, v, fl.W());
    NoneLanded(pages, start, marks, cursor, fl.fx);
    var drawn;
    drawn, clock := WalkStart(fl, clock);
    if drawn.Err? {
      CoversTouched(pages, start, start, 0, fl.fx);
      fx := Abandon(pages, start, cursor, fl);
      return;
    }
    for p := start to |pages|
      invariant fl.Valid() && fl.fx.top <= clock && fl.c == Config(typ, versions, [v], false, mayDelete, reliable)
      invariant Walking(pages, start, p, 0, v, cursor, fl.W())
      invariant completed.Some? ==> cursor <= completed.value <= p
      invariant
        Passed(marks, start, p, |pages|, completed) && (cursor == start || (cursor in marks && cursor < |pages|))
      invariant reliable ==> Prompt(pages, start, marks, cursor, fl.fx)
    {
      var stopped;
      stopped, clock, cursor := WalkPage(pages, p, v, fl, drawn.value, clock, completed, cursor, start, marks);
      if !stopped {
        if p + 1 in marks && p + 1 < |pages| {
          completed := Some(p + 1);
        }
        var paced: bool := *;
        if paced && p + 1 < |pages| {
          stopped, cursor := FlushAndReport(pages, start, p + 1, v, fl, completed, cursor, marks);
        }
      }
      if stopped {
        fx := Abandon(pages, start, cursor, fl);
        return;
      }
    }
    var stopped;
    stopped, cursor := FlushAndReport(pages, start, |pages|, v, fl, completed, cursor, marks);
    if stopped {
      fx := Abandon(pages, start, cursor, fl);
      return;
    }
    ghost var was := fl.fx;
    done, fx := End(pages, start, v, fl, cursor);
    if reliable { PromptSame(pages, start, marks, cursor, was, fx); }
  }

  lemma NoneLanded(pages: seq<Page>, start: nat, marks: set<nat>, cursor: nat, fx: Effects)
    requires fx.landed == {}
    ensures Prompt(pages, start, marks, cursor, fx)
  {
  }

  lemma StartWalks(pages: seq<Page>, start: nat, v: Version, w: World)
    requires start <= |pages| && v != 0 && w.c.plans == [v] && !w.c.keepSettled
    requires w.state == map[] && w.hist == map[] && w.fx == NoEffects
    ensures Walking(pages, start, start, 0, v, start, w)
  {
    SafeStart(pages, start, w.fx);
  }

  /** An aborted attempt marks what it left unsettled. */
  method Abandon(pages: seq<Page>, start: nat, cursor: nat, fl: Flusher) returns (ghost fx: Effects)
    requires fl.Inv() && Safe(pages, start, cursor, fl.fx) && TouchedOn(pages, start, fl.fx)
    modifies fl
    ensures
      Safe(pages, start, cursor, fx) && TouchedOn(pages, start, fx) && NoClash(fx) && AllServed(fl.c.mayDelete, fx)
  {
    hide Good, Safe, Closed, NoClash, AllServed, Grows;
    ghost var was := fl.fx;
    fl.Salvage();
    fx := fl.fx;
    SafeGrows(pages, start, cursor, was, fx);
    forall id | Touched(fx, id) ensures Listed(pages, start, |pages|, id) {
      assert Touched(was, id);
    }
  }

  method FlushAndReport(
      pages: seq<Page>, start: nat, p: nat, v: Version, fl: Flusher, completed: Option<nat>, cursor: nat,
      ghost marks: set<nat>)
    returns (stopped: bool, cursor': nat)
    requires Passed(marks, start, p, |pages|, completed)
    requires fl.c.reliable ==> Prompt(pages, start, marks, cursor, fl.fx)
    requires fl.Valid() && Walking(pages, start, p, 0, v, cursor, fl.W())
    requires completed.Some? ==> cursor <= completed.value <= p
    modifies fl
    ensures fl.Inv() && Walking(pages, start, p, 0, v, cursor', fl.W()) && fl.fx.top == old(fl.fx.top)
    ensures !stopped ==> fl.Valid() && fl.pending == []
    ensures (stopped ==> !fl.c.reliable)
    ensures !stopped && fl.c.reliable ==> Prompt(pages, start, marks, cursor', fl.fx)
    ensures !stopped ==>
      cursor' ==
        if old(fl.pending) != [] && completed.Some? && !fl.markFailed && !fl.dead then completed.value else cursor
    ensures stopped ==> cursor' == cursor && Safe(pages, start, cursor', fl.fx) && TouchedOn(pages, start, fl.fx)
  {
    hide Good, IdleBut, Solo, Safe, Queue, TouchedOn, Moves, Covers, Prompt, Passed;
    cursor' := cursor;
    ghost var w := fl.W();
    var flushed;
    stopped, flushed := fl.Flush();
    WalkingMoves(pages, start, p, 0, v, cursor, w, fl.W());
    MovesTop(w, fl.W());
    if stopped {
      CoversTouched(pages, start, p, 0, fl.fx);
      return;
    }
    if flushed {
      cursor' := AfterFlush(fl, completed, cursor, pages, start, p, 0, v, marks);
    }
  }

  /** The end of an attempt that walked its whole listing. */
  method End(pages: seq<Page>, start: nat, v: Version, fl: Flusher, cursor: nat) returns (done: bool, ghost fx: Effects)
    requires fl.Valid() && Walking(pages, start, |pages|, 0, v, cursor, fl.W()) && fl.pending == []
    modifies fl
    ensures fl.c.reliable ==> done && fx.landed == old(fl.fx.landed)
    ensures
      Safe(pages, start, cursor, fx) && TouchedOn(pages, start, fx) && NoClash(fx) && AllServed(fl.c.mayDelete, fx)
    ensures done ==> forall id :: Listed(pages, start, |pages|, id) ==> KeptId(fx, id)
  {
    hide Good, IdleBut, Solo, Safe, Queue, TouchedOn, Moves, Covers, Closed, NoClash, AllServed, Grows, KeptId;
    ghost var w := fl.W();
    var failed;
    ghost var w1;
    failed, w1 := fl.Finish();
    WalkingMoves(pages, start, |pages|, 0, v, cursor, w, w1);
    if failed {
      CoversTouched(pages, start, |pages|, 0, fl.fx);
      fx := Abandon(pages, start, cursor, fl);
      return false, fx;
    }
    fx := fl.fx;
    var error := fl.ErrorIfFailed();
    done := !error.UnmarkedFailures? && !fl.dead;
    ClosedSays(fx, fl.failed, fl.markFailed);
    CoversSame(pages, start, |pages|, 0, w1.fx, fx);
    CoversTouched(pages, start, |pages|, 0, fx);
    SafeGrows(pages, start, cursor, w1.fx, fx);
    if done {
      AllKept(pages, start, fx);
    }
  }

  lemma AllKept(pages: seq<Page>, start: nat, fx: Effects)
    requires start <= |pages| && Covers(pages, start, |pages|, 0, fx)
    requires forall life :: life in fx.begun ==> life in fx.settled || life in fx.marked
    ensures forall id :: Listed(pages, start, |pages|, id) ==> KeptId(fx, id)
  {
    forall id | Listed(pages, start, |pages|, id) ensures KeptId(fx, id) {
      assert ListedTo(pages, start, |pages|, 0, id);
      assert Touched(fx, id);
    }
  }

  // ------------------------------------------------------- chained attempts

  /** The ids that are kept once an attempt's effects are in: those it touched
      as it left them, the others as they were. */
  ghost function KeptAfter(kept: set<Id>, fx: Effects): set<Id> {
    (set id | id in kept && !Touched(fx, id)) + (set life | life in fx.begun && KeptId(fx, life.id) :: life.id)
  }

  /** Every id listed before the cursor and on no page from it on is kept. */
  ghost predicate Resumable(pages: seq<Page>, cursor: nat, kept: set<Id>) {
    forall id {:trigger id in kept} ::
      Listed(pages, 0, cursor, id) && !Listed(pages, cursor, |pages|, id) ==> id in kept
  }

  lemma KeptIn(kept: set<Id>, fx: Effects, id: Id)
    requires KeptId(fx, id)
    ensures id in KeptAfter(kept, fx)
  {
    var o: nat :| Life(id, o) in fx.begun;
    assert Life(id, o).id == id;
  }

  /** An attempt from a resumable position leaves its last cursor resumable. */
  lemma AttemptResumes(pages: seq<Page>, start: nat, cursor: nat, kept: set<Id>, fx: Effects)
    requires start <= cursor <= |pages| && Resumable(pages, start, kept)
    requires Safe(pages, start, cursor, fx) && TouchedOn(pages, start, fx)
    ensures Resumable(pages, cursor, KeptAfter(kept, fx))
  {
    forall id | Listed(pages, 0, cursor, id) && !Listed(pages, cursor, |pages|, id) ensures id in KeptAfter(kept, fx) {
      if Listed(pages, start, cursor, id) {
        assert KeptId(fx, id);
        KeptIn(kept, fx, id);
      } else {
        assert Listed(pages, 0, start, id) && !Listed(pages, start, |pages|, id);
        assert !Touched(fx, id);
      }
    }
  }

  lemma AttemptEnds(pages: seq<Page>, start: nat, kept: set<Id>, fx: Effects)
    requires start <= |pages| && Resumable(pages, start, kept) && TouchedOn(pages, start, fx)
    requires forall id :: Listed(pages, start, |pages|, id) ==> KeptId(fx, id)
    ensures forall id :: Listed(pages, 0, |pages|, id) ==> id in KeptAfter(kept, fx)
  {
    forall id | Listed(pages, 0, |pages|, id) ensures id in KeptAfter(kept, fx) {
      if Listed(pages, start, |pages|, id) {
        KeptIn(kept, fx, id);
      } else {
        assert Listed(pages, 0, start, id);
        assert !Touched(fx, id);
      }
    }
  }

  /** A series of attempts over a stable listing, each resumed at the last
      cursor, or from the head when its cursor cannot be used. A reliable one
      is done at the latest, and once one is done, no listed id is left both
      unsettled and unmarked. */
  method Attempts(
      typ: string, versions: seq<Version>, pages: seq<Page>, v: Version, chunkSize: nat, mayDelete: bool,
      marks: set<nat>, reliable: seq<bool>)
    returns (done: bool, ghost kept: set<Id>)
    requires v != 0
    ensures (exists i :: 0 <= i < |reliable| && reliable[i]) ==> done
    ensures done ==> forall id :: Listed(pages, 0, |pages|, id) ==> id in kept
  {
    hide Safe, TouchedOn, KeptId, NoClash, AllServed, KeptAfter, Resumable, Listed, Prompt;
    done, kept := false, {};
    var cursor := 0;
    NothingResumes(pages, {});
    for i := 0 to |reliable|
      invariant cursor <= |pages| && Resumable(pages, cursor, kept)
      invariant !done && forall j :: 0 <= j < i ==> !reliable[j]
    {
      var restart: bool := *;
      if restart {
        cursor := 0;
        NothingResumes(pages, kept);
      }
      ghost var start, fx := cursor, NoEffects;
      done, cursor, fx := Attempt(typ, versions, pages, cursor, v, chunkSize, mayDelete, marks, reliable[i]);
      if done {
        AttemptEnds(pages, start, kept, fx);
        kept := KeptAfter(kept, fx);
        return;
      }
      AttemptResumes(pages, start, cursor, kept, fx);
      kept := KeptAfter(kept, fx);
    }
  }

  lemma NothingResumes(pages: seq<Page>, kept: set<Id>)
    ensures Resumable(pages, 0, kept)
  {
  }
}
