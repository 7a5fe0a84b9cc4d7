// The flusher's whole state, what every step keeps of it, and what its steps
// may move.

module FlusherState {
  import opened Rows
  import opened FlusherModel
  import opened FlusherEffects

  // ---------------------------------------------------------- the whole state

  /** A rebuild of a type: every version its configuration has, the plans it
      runs, and whether its calls all succeed. */
  datatype Config = Config(
    typ: string,
    versions: seq<Version>,
    plans: seq<Version>,
    keepSettled: bool,
    mayDelete: bool,
    reliable: bool)

  /** The flusher's fields with the history and the effects behind them.
      `queue` are the documents queued and not yet counted: the pending ones,
      and during a flush its chunk. */
  datatype World = World(
    c: Config,
    state: map<Id, Entry>,
    pending: seq<Item>,
    failed: nat,
    markFailed: bool,
    hist: map<Id, Hist>,
    queue: seq<Item>,
    fx: Effects)

  /** What every step keeps. */
  ghost predicate Good(w: World) {
    && AllTied(w.state, w.hist, w.queue, w.c.plans)
    && Sound(w.state, w.hist, w.failed, w.markFailed, w.c.keepSettled, w.c.mayDelete, w.fx)
    && (w.c.reliable ==> Blamed(w.state, w.fx))
    && AllEdged(w.state, w.hist, w.queue, w.fx)
  }

  /** No flush is under way, and every entry but those of `but` that has
      nothing queued still awaits an outcome. */
  ghost predicate IdleBut(but: set<Id>, w: World) {
    && w.queue == w.pending
    && Queued(w.state, w.pending)
    && AwaitingBut(but, w.state, w.hist, w.queue)
    && WatchedBut(but, w.state, w.fx)
  }

  /** What holds between events. */
  ghost predicate Idle(w: World) {
    IdleBut({}, w)
  }

  /** Entries that failed, settled or await an outcome are no exception. */
  lemma IdleAll(but: set<Id>, w: World)
    requires IdleBut(but, w)
    requires forall id :: id in but && id in w.state ==>
      || w.state[id].failed
      || w.state[id].settled != Unsettled
      || (w.state[id].remaining > 0 && id in w.hist && WatchedOne(id, w.state[id], w.fx))
    ensures Idle(w)
  {
    hide Queue;
  }

  /** What failed since has nothing queued. */
  ghost predicate Dropped(was: map<Id, Entry>, now: map<Id, Entry>, queue: seq<Item>) {
    forall id {:trigger now[id]} {:trigger Queue(queue, id)} ::
      id in now && now[id].failed && (id in was ==> !was[id].failed) ==> Queue(queue, id) == []
  }

  /** Every change found since has marked or failed its id. */
  ghost predicate Alert(w: World, w': World) {
    forall life {:trigger life in w'.fx.due} :: life in w'.fx.due && life !in w.fx.due ==>
      life in w'.fx.marked || (life.id in w'.state && w'.state[life.id].failed)
  }

  /** Some of `ids` may have failed; the effects grew and nothing else moved. */
  ghost predicate FailedSome(ids: set<Id>, w: World, w': World) {
    && w'.c == w.c
    && w'.hist == w.hist
    && w'.fx.begun == w.fx.begun
    && w'.fx.top == w.fx.top
    && w'.fx.clashed == w.fx.clashed
    && SomeFailed(ids, w.state, w'.state)
    && Trimmed(w.queue, w'.queue, w'.state)
    && Dropped(w.state, w'.state, w'.queue)
    && (w.queue == w.pending ==> w'.queue == w'.pending)
    && |w'.pending| <= |w.pending|
    && Grows(w.fx, w'.fx)
    && w'.fx.landed == w.fx.landed && w'.fx.settled == w.fx.settled && Alert(w, w')
    && OtherEdges(ids, w.fx, w'.fx)
  }

  /** No stored edge set of an id outside `ids` changed. */
  ghost predicate OtherEdges(ids: set<Id>, a: Effects, b: Effects) {
    forall d {:trigger d in a.edged} :: d in a.edged && d.id !in ids ==> d in b.edged && b.edged[d] == a.edged[d]
  }

  lemma OtherEdgesOn(ids: set<Id>, more: set<Id>, a: Effects, b: Effects, c: Effects)
    requires OtherEdges(ids, a, b) && OtherEdges(more, b, c) && more <= ids
    ensures OtherEdges(ids, a, c)
  {
  }

  lemma FailedNone(ids: set<Id>, w: World)
    ensures FailedSome(ids, w, w)
  {
  }

  lemma FailedOn(ids: set<Id>, more: set<Id>, w: World, w': World, w'': World)
    requires FailedSome(ids, w, w') && FailedSome(more, w', w'') && more <= ids
    ensures FailedSome(ids, w, w'')
  {
    hide Grows, Trimmed, SomeFailed, Dropped, Alert, OtherEdges;
    OtherEdgesOn(ids, more, w.fx, w'.fx, w''.fx);
    AlertOn(ids, more, w, w', w'');
    DroppedOn(ids, more, w, w', w'');
    GrowsOn(w.fx, w'.fx, w''.fx);
    SomeFailedOn(ids, more, w.state, w'.state, w''.state);
    TrimmedOn(more, w.queue, w'.queue, w''.queue, w'.state, w''.state);
  }

  lemma AlertOn(ids: set<Id>, more: set<Id>, w: World, w': World, w'': World)
    requires FailedSome(ids, w, w') && FailedSome(more, w', w'')
    ensures Alert(w, w'')
  {
    hide Trimmed, Dropped;
  }

  lemma SomeFailedOn(ids: set<Id>, more: set<Id>, s: map<Id, Entry>, s': map<Id, Entry>, s'': map<Id, Entry>)
    requires SomeFailed(ids, s, s') && SomeFailed(more, s', s'') && more <= ids
    ensures SomeFailed(ids, s, s'')
  {
  }

  lemma TrimmedOn(more: set<Id>, q: seq<Item>, q': seq<Item>, q'': seq<Item>, s': map<Id, Entry>, s'': map<Id, Entry>)
    requires Trimmed(q, q', s') && Trimmed(q', q'', s'') && SomeFailed(more, s', s'')
    ensures Trimmed(q, q'', s'')
  {
    forall id {:trigger Queue(q'', id)} {:trigger Queue(q, id)}
      ensures Queue(q'', id) == Queue(q, id) || (Queue(q'', id) == [] && id in s'' && s''[id].failed)
    {
      assert Queue(q', id) == Queue(q, id) || (Queue(q', id) == [] && id in s' && s'[id].failed);
      assert id in s' ==> s''[id] == s'[id] || s''[id] == s'[id].(failed := true);
    }
  }

  lemma DroppedOn(ids: set<Id>, more: set<Id>, w: World, w': World, w'': World)
    requires FailedSome(ids, w, w') && FailedSome(more, w', w'')
    ensures Dropped(w.state, w''.state, w''.queue)
  {
    hide Grows, Queue;
    forall id | id in w''.state && w''.state[id].failed && (id in w.state ==> !w.state[id].failed)
      ensures Queue(w''.queue, id) == []
    {
      assert id in w'.state;
      if w'.state[id].failed { assert Queue(w'.queue, id) == []; }
    }
  }

  lemma FailedQueued(ids: set<Id>, w: World, w': World)
    requires FailedSome(ids, w, w') && Queued(w.state, w.queue)
    ensures Queued(w'.state, w'.queue)
  {
    hide Grows, Queue;
    forall it | it in w'.queue ensures it.id in w'.state && !w'.state[it.id].failed && it.occ == w'.state[it.id].occ {
      QueueMember(w'.queue, it.id, it.version);
      assert it in w.queue && Queue(w'.queue, it.id) != [];
    }
  }

  /** Failing ids keeps the rest queued and awaiting. */
  lemma FailedIdle(ids: set<Id>, but: set<Id>, w: World, w': World)
    requires FailedSome(ids, w, w') && IdleBut(but, w)
    ensures IdleBut(but, w')
  {
    hide Grows, Queue;
    FailedQueued(ids, w, w');
    forall id | id in w'.state && id !in but ensures Awaiting(w'.state[id], w'.hist[id], Queue(w'.queue, id)) {
      assert Awaiting(w.state[id], w.hist[id], Queue(w.queue, id));
    }
    FailedWatched(ids, but, w, w');
  }

  lemma FailedWatched(ids: set<Id>, but: set<Id>, w: World, w': World)
    requires FailedSome(ids, w, w') && WatchedBut(but, w.state, w.fx)
    ensures WatchedBut(but, w'.state, w'.fx)
  {
    hide Trimmed, Dropped;
    forall id | id in w'.state && id !in but ensures WatchedOne(id, w'.state[id], w'.fx) {
      assert WatchedOne(id, w.state[id], w.fx);
    }
  }

  /** The state after failing an id, its mark made or not. */
  ghost function FailWorld(w: World, id: Id, ok: bool): World {
    var s' := Failing(w.state, id);
    w.(state := s', hist := FailingHist(w.hist, id), pending := Without(w.pending, id),
       queue := Without(w.queue, id), failed := w.failed + 1,
       markFailed := w.markFailed || !ok, fx := FailEffects(w.fx, Life(id, s'[id].occ), ok))
  }

  lemma FailingHistOf(hist: map<Id, Hist>, id: Id)
    ensures id in hist ==> FailingHist(hist, id) == hist
    ensures id in FailingHist(hist, id)
  {
  }

  ghost predicate MayFail(w: World, id: Id) {
    w.c.reliable ==> id in w.state && (w.state[id].partial || id in w.fx.clashed)
  }

  lemma FailGood(w: World, id: Id, ok: bool)
    requires Good(w) && MayFail(w, id) && (id in w.state ==> !w.state[id].failed)
    ensures Good(FailWorld(w, id, ok))
    ensures id in w.state ==> FailedSome({id}, w, FailWorld(w, id, ok))
  {
    hide AllTied, Sound, Blamed, AllEdged, Grows, Trimmed, Tied, Clean, Stored;
    var w' := FailWorld(w, id, ok);
    FailKeepsEdged(w, id, ok);
    FailKeeps(w.state, w.hist, w.failed, w.markFailed, w.c.keepSettled, w.c.mayDelete, w.fx, id, ok);
    FailKeepsTied(w.state, w.hist, w.queue, w.c.plans, id);
    if w.c.reliable { FailKeepsBlame(w.state, w.fx, id, ok); }
    Standing(w, id);
    TrimmedWithout(w.queue, id, w'.state);
    WithoutQueue(w.queue, id, id);
  }

  lemma FailKeepsEdged(w: World, id: Id, ok: bool)
    requires AllEdged(w.state, w.hist, w.queue, w.fx)
    ensures
      AllEdged(FailWorld(w, id, ok).state, FailWorld(w, id, ok).hist, FailWorld(w, id, ok).queue,
        FailWorld(w, id, ok).fx)
  {
    hide Queue, LastQueued, Without;
    var w' := FailWorld(w, id, ok);
    forall j | j in w'.state ensures EdgedOne(j, w'.state[j], w'.hist[j], w'.queue, w'.fx) {
      if j != id {
        assert EdgedOne(j, w.state[j], w.hist[j], w.queue, w.fx);
        WithoutQueue(w.queue, id, j);
        forall v ensures LastQueued(w'.queue, j, v) == LastQueued(w.queue, j, v) { WithoutLast(w.queue, id, j, v); }
      }
    }
  }

  /** What a good state says of an id. */
  lemma Standing(w: World, id: Id)
    requires Good(w)
    ensures id in w.state <==> id in w.hist
    ensures id in w.state ==>
      && Life(id, w.state[id].occ) in w.fx.begun
      && (id in w.fx.failedIds <==> w.state[id].failed)
      && Tied(w.state[id], w.hist[id], Queue(w.queue, id), w.c.plans)
      && Clean(id, w.state[id], w.hist[id], w.fx)
      && KeptOne(id, w.state[id], w.hist[id], w.c.keepSettled, w.fx)
      && (!w.state[id].failed ==> Stored(id, w.state[id].occ, w.hist[id].counted, w.fx))
      && EdgedOne(id, w.state[id], w.hist[id], w.queue, w.fx)
  {
  }

  lemma AcksGood(w: World, fx: Effects)
    requires Good(w) && Acks(w.fx, fx)
    ensures
      Good(w.(fx := fx)) && (fx.clashed == w.fx.clashed && Alert(w, w.(fx := fx)) ==> FailedSome({}, w, w.(fx := fx)))
  {
    hide Sound, AllTied;
    EdgedSame(w.state, w.hist, w.queue, w.fx, fx);
    hide AllEdged;
    SoundAcks(w.state, w.hist, w.failed, w.markFailed, w.c.keepSettled, w.c.mayDelete, w.fx, fx);
  }

  // ------------------------------------------------------------- edge sets

  ghost function EdgeWorld(w: World, add: map<Doc, seq<Resource>>): World {
    w.(fx := w.fx.(edged := w.fx.edged + add))
  }

  /** A set of a standing, unsettled id: of a version it has queued documents
      of, or an empty one of its nil. */
  ghost predicate MayStoreOne(w: World, id: Id, d: Doc, children: seq<Resource>)
    requires id in w.state && id in w.hist
  {
    && LifeHas(id, w.state[id].occ, d)
    && (d.version in Queue(w.queue, id) || (d.version in w.hist[id].nils && children == []))
  }

  ghost predicate MayStore(w: World, id: Id, add: map<Doc, seq<Resource>>) {
    && id in w.state && id in w.hist && !w.state[id].failed && w.state[id].settled == Unsettled
    && forall d {:trigger d in add} :: d in add ==> MayStoreOne(w, id, d, add[d])
  }

  lemma EdgeGood(w: World, id: Id, add: map<Doc, seq<Resource>>)
    requires Good(w) && MayStore(w, id, add)
    ensures Good(EdgeWorld(w, add)) && FailedSome({id}, w, EdgeWorld(w, add))
  {
    hide AllTied, Failures, Owed, NoClash, AllClean, AllServed, Bounded, Kept, AllEdged, Grows, MayStore, FailedSome;
    EdgeEdged(w, id, add);
    EdgeServed(w, id, add);
    EdgeClean(w, id, add);
    EdgeRest(w, id, add);
    EdgeFailed(w, id, add);
  }

  lemma EdgeFailed(w: World, id: Id, add: map<Doc, seq<Resource>>)
    requires MayStore(w, id, add) && Grows(w.fx, EdgeWorld(w, add).fx)
    ensures FailedSome({id}, w, EdgeWorld(w, add))
  {
    hide Grows, Queue;
  }

  lemma EdgeEdged(w: World, id: Id, add: map<Doc, seq<Resource>>)
    requires Good(w) && MayStore(w, id, add)
    ensures AllEdged(w.state, w.hist, w.queue, EdgeWorld(w, add).fx)
  {
    hide Queue, LastQueued, Latest, Rests, Counts, Sound, Blamed, Clean, Stored;
    assert Tied(w.state[id], w.hist[id], Queue(w.queue, id), w.c.plans);
    hide AllTied;
    forall j | j in w.state ensures EdgedOne(j, w.state[j], w.hist[j], w.queue, EdgeWorld(w, add).fx) {
      assert EdgedOne(j, w.state[j], w.hist[j], w.queue, w.fx);
    }
  }

  lemma EdgeServed(w: World, id: Id, add: map<Doc, seq<Resource>>)
    requires Good(w) && MayStore(w, id, add)
    ensures AllServed(w.c.mayDelete, EdgeWorld(w, add).fx) && Grows(w.fx, EdgeWorld(w, add).fx)
  {
    hide Served, Queue, AllTied, Failures, Owed, NoClash, AllClean, Bounded, AllEdged, Blamed;
    assert KeptOne(id, w.state[id], w.hist[id], w.c.keepSettled, w.fx);
    hide Kept;
    var fx' := EdgeWorld(w, add).fx;
    forall life | life in fx'.settled ensures Served(life, fx'.settled[life], w.c.mayDelete, fx') {
      ServedGrows(life, w.fx.settled[life], w.c.mayDelete, w.fx, fx');
    }
  }

  lemma EdgeClean(w: World, id: Id, add: map<Doc, seq<Resource>>)
    requires Good(w) && MayStore(w, id, add)
    ensures AllClean(w.state, w.hist, EdgeWorld(w, add).fx)
    ensures Kept(w.state, w.hist, w.c.keepSettled, EdgeWorld(w, add).fx)
  {
    hide Queue, AllTied, Failures, Owed, NoClash, Bounded, AllEdged, AllServed, Blamed;
    var fx' := EdgeWorld(w, add).fx;
    forall j | j in w.state
      ensures Clean(j, w.state[j], w.hist[j], fx') && KeptOne(j, w.state[j], w.hist[j], w.c.keepSettled, fx')
      ensures !w.state[j].failed ==> Stored(j, w.state[j].occ, w.hist[j].counted, fx')
    {
      assert Clean(j, w.state[j], w.hist[j], w.fx) && KeptOne(j, w.state[j], w.hist[j], w.c.keepSettled, w.fx);
    }
  }

  lemma EdgeRest(w: World, id: Id, add: map<Doc, seq<Resource>>)
    requires Good(w) && MayStore(w, id, add)
    ensures
      && Failures(w.state, w.failed, w.markFailed, EdgeWorld(w, add).fx) && Owed(w.state, EdgeWorld(w, add).fx)
      && NoClash(EdgeWorld(w, add).fx) && Bounded(w.state, EdgeWorld(w, add).fx)
    ensures Blamed(w.state, w.fx) ==> Blamed(w.state, EdgeWorld(w, add).fx)
  {
    hide Queue, AllTied, AllClean, Kept, AllEdged, AllServed;
  }

  lemma EdgedSame(state: map<Id, Entry>, hist: map<Id, Hist>, queue: seq<Item>, fx: Effects, fx': Effects)
    requires AllEdged(state, hist, queue, fx) && fx'.edged == fx.edged
    ensures AllEdged(state, hist, queue, fx')
  {
    forall id | id in state ensures EdgedOne(id, state[id], hist[id], queue, fx') {
      assert EdgedOne(id, state[id], hist[id], queue, fx);
    }
  }

  ghost function AskWorld(w: World, id: Id, v: Version): World
    requires id in w.state
  {
    w.(fx := AskEffects(w.fx, Doc(id, v, w.state[id].occ)))
  }

  lemma AskGood(w: World, id: Id, v: Version)
    requires Good(w) && id in w.state && !w.state[id].failed && v in w.state[id].nils
    ensures Good(AskWorld(w, id, v)) && FailedSome({}, w, AskWorld(w, id, v))
  {
    hide Sound, AllTied, Grows;
    Standing(w, id);
    EdgedSame(w.state, w.hist, w.queue, w.fx, AskWorld(w, id, v).fx);
    hide AllEdged;
    AskKeeps(w.state, w.hist, w.failed, w.markFailed, w.c.keepSettled, w.c.mayDelete, w.fx, id, v);
  }

  ghost function EraseWorld(w: World, id: Id): World
    requires id in w.state
  {
    w.(fx := EraseEffects(w.fx, Life(id, w.state[id].occ)))
  }

  lemma EraseGood(w: World, id: Id)
    requires Good(w) && id in w.state && id in w.hist && !w.state[id].failed
    requires w.hist[id].docs == {} && w.hist[id].nils == w.hist[id].expected
    ensures Good(EraseWorld(w, id)) && FailedSome({}, w, EraseWorld(w, id))
  {
    hide Sound, AllTied, Grows;
    EdgedSame(w.state, w.hist, w.queue, w.fx, EraseWorld(w, id).fx);
    hide AllEdged;
    EraseKeeps(w.state, w.hist, w.failed, w.markFailed, w.c.keepSettled, w.c.mayDelete, w.fx, id);
  }

  ghost function SettleWorld(w: World, id: Id, how: Settlement): World
    requires id in w.state && id in w.hist
  {
    w.(state := Settling(w.state, id, how, w.c.keepSettled), hist := SettlingHist(w.hist, id, w.c.keepSettled),
       fx := SettleEffects(w.fx, Life(id, w.state[id].occ), w.hist[id]))
  }

  lemma SettleGood(w: World, id: Id, how: Settlement)
    requires Good(w) && MaySettle(w.state, w.hist, id, how, w.c.mayDelete, w.fx) && Queue(w.queue, id) == []
    ensures Good(SettleWorld(w, id, how)) && Grows(w.fx, SettleWorld(w, id, how).fx)
  {
    hide Sound, AllTied, Blamed, Grows, Served;
    Standing(w, id);
    SettleKeepsEdged(w, id, how);
    hide AllEdged;
    SettleKeepsTied(w.state, w.hist, w.queue, w.c.plans, id, how, w.c.keepSettled, w.c.mayDelete, w.fx);
    SettleKeeps(w.state, w.hist, w.failed, w.markFailed, w.c.keepSettled, w.c.mayDelete, w.fx, id, how);
  }

  lemma SettleKeepsEdged(w: World, id: Id, how: Settlement)
    requires AllEdged(w.state, w.hist, w.queue, w.fx) && id in w.state && id in w.hist && how != Unsettled
    ensures
      AllEdged(SettleWorld(w, id, how).state, SettleWorld(w, id, how).hist, w.queue, SettleWorld(w, id, how).fx)
  {
    hide Queue, LastQueued;
    var w' := SettleWorld(w, id, how);
    forall j | j in w'.state ensures EdgedOne(j, w'.state[j], w'.hist[j], w.queue, w'.fx) {
      assert EdgedOne(j, w.state[j], w.hist[j], w.queue, w.fx);
    }
  }

  // ------------------------------------------------------------ what may move

  /** An entry as later events may leave it. */
  ghost predicate Later(e: Entry, e': Entry) {
    && e'.occ == e.occ && e'.partial == e.partial && (e.failed ==> e'.failed)
    && (e.settled != Unsettled ==> e'.settled == e.settled)
  }

  ghost predicate SameSightings(h: Hist, h': Hist) {
    h'.docs == h.docs && h'.nils == h.nils && h'.expected == h.expected && h'.last == h.last
  }

  /** What landed is of a life that began. */
  lemma LandedBegun(w: World)
    requires Good(w)
    ensures forall it :: it in w.fx.landed ==> LifeOf(it) in w.fx.begun
  {
  }

  /** Entries fail, count or settle, and what the plans said stands. A
      multi-plan walk loses no entry. */
  ghost predicate Moves(w: World, w': World) {
    && w'.c == w.c
    && w'.fx.begun == w.fx.begun
    && w'.fx.top == w.fx.top
    && w'.fx.clashed == w.fx.clashed
    && Grows(w.fx, w'.fx)
    && w'.state.Keys <= w.state.Keys && w'.hist.Keys == w'.state.Keys && w.hist.Keys == w.state.Keys
    && (w.c.keepSettled ==> w'.state.Keys == w.state.Keys) && |w'.pending| <= |w.pending|
    && (forall id {:trigger w'.state[id]} {:trigger w.state[id]} :: id in w'.state ==> Later(w.state[id], w'.state[id]))
    && (forall id {:trigger w'.hist[id]} {:trigger w.hist[id]} ::
          id in w'.hist ==> SameSightings(w.hist[id], w'.hist[id]))
  }

  lemma MovesNot(w: World)
    requires w.hist.Keys == w.state.Keys
    ensures Moves(w, w)
  {
  }

  lemma MovesOn(w: World, w': World, w'': World)
    requires Moves(w, w') && Moves(w', w'')
    ensures Moves(w, w'')
  {
    GrowsOn(w.fx, w'.fx, w''.fx);
    hide Grows;
    forall id | id in w''.state ensures Later(w.state[id], w''.state[id]) {
      assert Later(w'.state[id], w''.state[id]) && Later(w.state[id], w'.state[id]);
    }
    forall id | id in w''.hist ensures SameSightings(w.hist[id], w''.hist[id]) {
      assert SameSightings(w'.hist[id], w''.hist[id]) && SameSightings(w.hist[id], w'.hist[id]);
    }
  }

  lemma FailedMoves(ids: set<Id>, w: World, w': World)
    requires FailedSome(ids, w, w') && w.hist.Keys == w.state.Keys
    ensures Moves(w, w') && w'.hist == w.hist
  {
    hide Grows, Trimmed, Dropped;
  }

  lemma FailedMovesGood(ids: set<Id>, but: set<Id>, w: World, w': World)
    requires Good(w) && FailedSome(ids, w, w')
    ensures Moves(w, w') && (IdleBut(but, w) ==> IdleBut(but, w')) && w'.hist == w.hist
  {
    hide FailedSome, IdleBut, Moves;
    SameKeys(w);
    FailedMoves(ids, w, w');
    if IdleBut(but, w) { FailedIdle(ids, but, w, w'); }
  }

  /** No document has been flushed. */
  ghost predicate Uncounted(w: World) {
    forall id {:trigger w.hist[id]} :: id in w.hist ==> w.hist[id].counted == {}
  }

  lemma BoundedOf(w: World)
    requires Good(w)
    ensures Bounded(w.state, w.fx)
  {
    hide AllTied, Blamed, Failures, Owed, NoClash, AllClean, AllServed, Bounded, Kept;
  }

  lemma SameKeys(w: World)
    requires Good(w)
    ensures w.hist.Keys == w.state.Keys
  {
  }

  /** Settling moves only its id. */
  lemma SettledMoves(w: World, id: Id, how: Settlement)
    requires id in w.state && id in w.hist && w.hist.Keys == w.state.Keys && how != Unsettled
    requires w.state[id].settled == Unsettled
    requires Grows(w.fx, SettleWorld(w, id, how).fx)
    ensures Moves(w, SettleWorld(w, id, how))
    ensures Others(id, w.state, SettleWorld(w, id, how).state) && Others(id, w.hist, SettleWorld(w, id, how).hist)
    ensures id in SettleWorld(w, id, how).state ==> SettleWorld(w, id, how).state[id].settled != Unsettled
  {
    hide Grows;
  }

  /** An id that settles has nothing queued, and the rest go on awaiting. */
  lemma SettledIdle(but: set<Id>, w: World, id: Id, how: Settlement)
    requires id in w.state && id in w.hist && Queue(w.queue, id) == [] && how != Unsettled
    requires IdleBut(but, w)
    ensures IdleBut(but, SettleWorld(w, id, how))
  {
    hide Queue;
    var w' := SettleWorld(w, id, how);
    forall it | it in w'.pending ensures it.id in w'.state && !w'.state[it.id].failed && it.occ == w'.state[it.id].occ {
      QueueMember(w.queue, it.id, it.version);
      assert it.id != id;
    }
    forall j | j in w'.state && j !in but
      ensures Awaiting(w'.state[j], w'.hist[j], Queue(w'.queue, j)) && WatchedOne(j, w'.state[j], w'.fx)
    {
      assert Awaiting(w.state[j], w.hist[j], Queue(w.queue, j)) && WatchedOne(j, w.state[j], w.fx);
    }
  }

  /** Every outcome has arrived and nothing is queued. */
  ghost predicate Ready(w: World, id: Id) {
    && id in w.state && id in w.hist && !w.state[id].failed && w.state[id].settled == Unsettled
    && w.state[id].remaining == 0 && !w.state[id].partial && Queue(w.queue, id) == []
  }

  lemma ReadyAnswered(w: World, id: Id)
    requires Good(w) && Ready(w, id)
    ensures w.hist[id].docs + w.hist[id].nils == w.hist[id].expected && w.hist[id].docs !! w.hist[id].nils
    ensures Stored(id, w.state[id].occ, w.hist[id].docs, w.fx)
    ensures w.state[id].lastDoc == 0 <==> w.hist[id].docs == {}
    ensures
      && Life(id, w.state[id].occ) in w.fx.captured
      && w.fx.captured[Life(id, w.state[id].occ)] == Base(w.state[id].staleSeq, w.state[id].checkRoot)
    ensures w.hist[id].docs == w.hist[id].counted
    ensures EdgesSaid(Life(id, w.state[id].occ), w.hist[id], w.fx)
  {
    hide Good;
    Standing(w, id);
    Answered(w.state[id], w.hist[id], w.c.plans);
  }

  lemma ReadyLater(w: World, w': World, id: Id, ids: set<Id>)
    requires Ready(w, id) && FailedSome(ids, w, w') && !w'.state[id].failed
    ensures Ready(w', id) && w'.state[id] == w.state[id] && w'.hist[id] == w.hist[id]
  {
    hide Grows, Dropped;
  }

  lemma AppliedGrows(w: World, w': World, ids: set<Id>, id: Id)
    requires
      FailedSome(ids, w, w') && id in w.state && id in w.hist && Applied(id, w.state[id].occ, w.hist[id].nils, w.fx)
    ensures Applied(id, w.state[id].occ, w.hist[id].nils, w'.fx)
  {
    hide Trimmed, Dropped;
  }

  lemma ErasedGrows(w: World, w': World, ids: set<Id>, life: Life)
    requires FailedSome(ids, w, w') && life in w.fx.erased
    ensures life in w'.fx.erased
  {
    hide Trimmed, Dropped;
  }

  lemma HeededLater(w: World, w': World, ids: set<Id>, id: Id)
    requires FailedSome(ids, w, w') && id in w.state && !w'.state[id].failed && Heeded(Life(id, w.state[id].occ), w.fx)
    ensures Heeded(Life(id, w.state[id].occ), w'.fx)
  {
    hide Trimmed, Dropped;
  }

  lemma WatchedLater(w: World, w': World, ids: set<Id>, id: Id)
    requires FailedSome(ids, w, w') && id in w.state && id in w.hist && WatchedOne(id, w.state[id], w.fx)
    ensures id in w'.state && id in w'.hist && WatchedOne(id, w'.state[id], w'.fx)
  {
    hide Trimmed, Dropped;
  }

}
