// A sighting, a begin and the start: how an id's history and entry take them.

module FlusherSightings {
  import opened Wrappers
  import opened Rows
  import opened FlusherModel
  import opened FlusherEffects
  import opened FlusherState

  // ------------------------------------------------------------ one entry moves

  /** An unsettled entry that stays at its Build Sequence, whose new history
      what was sent and asked still agrees with. */
  ghost predicate Revises(state: map<Id, Entry>, hist: map<Id, Hist>, id: Id, e': Entry, h': Hist, fx: Effects) {
    && id in state && id in hist && !state[id].failed && state[id].settled == Unsettled
    && e'.occ == state[id].occ
    && e'.staleSeq == state[id].staleSeq
    && e'.checkRoot == state[id].checkRoot
    && !e'.failed
    && e'.settled == Unsettled
    && Clean(id, e', h', fx) && Stored(id, e'.occ, h'.counted, fx)
  }

  lemma ReviseOwed(
      state: map<Id, Entry>, hist: map<Id, Hist>, failed: nat, markFailed: bool, fx: Effects, id: Id, e': Entry,
      h': Hist)
    requires
      && Failures(state, failed, markFailed, fx)
      && Owed(state, fx)
      && Bounded(state, fx)
      && Revises(state, hist, id, e', h', fx)
    ensures
      Failures(state[id := e'], failed, markFailed, fx) && Owed(state[id := e'], fx) && Bounded(state[id := e'], fx)
  {
    hide Clean, Stored;
    var s' := state[id := e'];
    forall life | life in fx.begun ensures life in fx.settled || Open(s', life) {
      assert life in fx.settled || Open(state, life);
    }
    forall j ensures j in fx.failedIds <==> j in s' && s'[j].failed {
      assert j in fx.failedIds <==> j in state && state[j].failed;
    }
  }

  lemma ReviseClean(
      state: map<Id, Entry>, hist: map<Id, Hist>, keepSettled: bool, fx: Effects, id: Id, e': Entry, h': Hist)
    requires AllClean(state, hist, fx) && Kept(state, hist, keepSettled, fx) && Revises(state, hist, id, e', h', fx)
    ensures AllClean(state[id := e'], hist[id := h'], fx) && Kept(state[id := e'], hist[id := h'], keepSettled, fx)
  {
    hide Clean, Stored;
    var s', h2 := state[id := e'], hist[id := h'];
    assert KeptOne(id, state[id], hist[id], keepSettled, fx);
    forall j | j in s'
      ensures Clean(j, s'[j], h2[j], fx) && (!s'[j].failed ==> Stored(j, s'[j].occ, h2[j].counted, fx))
    {
      if j != id { assert Clean(j, state[j], hist[j], fx); }
    }
  }

  lemma ReviseSound(w: World, id: Id, e': Entry, h': Hist)
    requires Sound(w.state, w.hist, w.failed, w.markFailed, w.c.keepSettled, w.c.mayDelete, w.fx)
    requires Revises(w.state, w.hist, id, e', h', w.fx)
    ensures Sound(w.state[id := e'], w.hist[id := h'], w.failed, w.markFailed, w.c.keepSettled, w.c.mayDelete, w.fx)
  {
    hide Failures, Owed, NoClash, AllClean, AllServed, Bounded, Kept, Revises;
    ReviseOwed(w.state, w.hist, w.failed, w.markFailed, w.fx, id, e', h');
    ReviseClean(w.state, w.hist, w.c.keepSettled, w.fx, id, e', h');
  }

  // ---------------------------------------------------------------- sightings

  /** A sighting of `v` is one the id's begin expects, and no later plan's
      document came before it: the walk meets its plans in order. */
  ghost predicate InOrder(w: World, id: Id, v: Version) {
    id in w.state && id in w.hist && !w.state[id].failed ==>
      && v in w.hist[id].expected
      && forall d {:trigger d in w.hist[id].docs} :: d in w.hist[id].docs ==> Pos(w.c.plans, d) <= Pos(w.c.plans, v)
  }

  /** The plan of `v` has said the opposite before. */
  ghost predicate Clashes(w: World, id: Id, v: Version, doc: bool) {
    id in w.state && id in w.hist && !w.state[id].failed && v in (if doc then w.hist[id].nils else w.hist[id].docs)
  }

  /** How a history takes a sighting that does not clash: a document with the
      children it fetched. */
  ghost function Seen(h: Hist, v: Version, doc: bool, rels: seq<Resource>): Hist {
    if doc then h.(docs := h.docs + {v}, last := h.last[v := rels]) else h.(nils := h.nils + {v})
  }

  /** A settled id's sightings are repeats and are ignored. */
  ghost function SeenBy(e: Entry, h: Hist, v: Version, doc: bool, rels: seq<Resource>): Hist {
    if e.settled == Unsettled then Seen(h, v, doc, rels)
    else if doc then h.(docs := h.docs + {v}) else h.(nils := h.nils + {v})
  }

  /** A sighting enters its id's history, or contradicts it; nothing else any
      plan said changes. */
  ghost predicate Sees(w: World, w': World, id: Id, v: Version, doc: bool, rels: seq<Resource>) {
    && w'.c == w.c && w'.fx.begun == w.fx.begun && w'.fx.top == w.fx.top && Grows(w.fx, w'.fx)
    && w'.fx.clashed == (if Clashes(w, id, v, doc) then w.fx.clashed + {id} else w.fx.clashed)
    && w'.state.Keys <= w.state.Keys && w'.hist.Keys == w'.state.Keys && w.hist.Keys == w.state.Keys
    && (w.c.keepSettled ==> w'.state.Keys == w.state.Keys)
    && (Clashes(w, id, v, doc) && id in w'.state ==> w'.state[id].failed)
    && |w'.pending| <= |w.pending| + (if doc && !Clashes(w, id, v, doc) then 1 else 0)
    && (forall j {:trigger w'.state[j]} {:trigger w.state[j]} :: j in w'.state ==> Later(w.state[j], w'.state[j]))
    && (forall j {:trigger w'.hist[j]} {:trigger w.hist[j]} :: j in w'.hist ==>
          SameSightings(
            if j == id && !w.state[j].failed && !Clashes(w, id, v, doc) then SeenBy(w.state[j], w.hist[j], v, doc, rels)
            else w.hist[j],
            w'.hist[j]))
  }

  lemma SeesOn(w: World, w': World, w'': World, id: Id, v: Version, doc: bool, rels: seq<Resource>)
    requires Sees(w, w', id, v, doc, rels) && Moves(w', w'')
    ensures Sees(w, w'', id, v, doc, rels)
  {
    GrowsOn(w.fx, w'.fx, w''.fx);
    hide Grows, Clashes;
    forall j | j in w''.state ensures Later(w.state[j], w''.state[j]) {
      assert Later(w'.state[j], w''.state[j]) && Later(w.state[j], w'.state[j]);
    }
    forall j | j in w''.hist
      ensures
        SameSightings(
          if j == id && !w.state[j].failed && !Clashes(w, id, v, doc) then SeenBy(w.state[j], w.hist[j], v, doc, rels)
            else w.hist[j],
          w''.hist[j])
    {
      assert SameSightings(w'.hist[j], w''.hist[j]);
    }
  }

  /** A sighting that tells nothing new. */
  lemma SeesNothing(w: World, id: Id, v: Version, doc: bool, rels: seq<Resource>)
    requires w.hist.Keys == w.state.Keys && !Clashes(w, id, v, doc)
    requires id in w.state && !w.state[id].failed ==>
      v in (if doc then w.hist[id].docs else w.hist[id].nils) && (doc ==> w.state[id].settled != Unsettled)
    ensures Sees(w, w, id, v, doc, rels)
  {
    if id in w.state && !w.state[id].failed { assert SeenBy(w.state[id], w.hist[id], v, doc, rels) == w.hist[id]; }
  }

  ghost function ClashWorld(w: World, id: Id): World {
    w.(fx := w.fx.(clashed := w.fx.clashed + {id}))
  }

  lemma ClashGood(w: World, id: Id, v: Version, doc: bool)
    requires Good(w) && Clashes(w, id, v, doc)
    ensures Good(ClashWorld(w, id)) && (Idle(w) ==> Idle(ClashWorld(w, id)))
  {
    hide AllTied, Sound;
    AcksGood(w, ClashWorld(w, id).fx);
  }

  lemma ClashSees(w: World, w': World, id: Id, v: Version, doc: bool, rels: seq<Resource>)
    requires
      && Good(w)
      && Clashes(w, id, v, doc)
      && FailedSome({id}, ClashWorld(w, id), w')
      && id in w'.state
      && w'.state[id].failed
    ensures Sees(w, w', id, v, doc, rels)
  {
    hide Good, Trimmed, Dropped;
    SameKeys(w);
    GrowsOn(w.fx, ClashWorld(w, id).fx, w'.fx);
    hide Grows;
  }

  /** What a settled id's plans may still say. */
  lemma SettledSaid(w: World, id: Id, v: Version)
    requires
      && Good(w)
      && id in w.state
      && id in w.hist
      && !w.state[id].failed
      && w.state[id].settled != Unsettled
      && InOrder(w, id, v)
    ensures v in w.hist[id].docs || v in w.hist[id].nils
  {
    hide Good;
    Standing(w, id);
    Answered(w.state[id], w.hist[id], w.c.plans);
  }

  /** In plan order, a version whose document came is the last one's. */
  lemma LastDoc(w: World, id: Id, v: Version)
    requires Good(w) && id in w.state && id in w.hist && !w.state[id].failed && InOrder(w, id, v)
    ensures v != 0 && (w.state[id].lastDoc == v <==> v in w.hist[id].docs)
    ensures forall u :: u in w.hist[id].nils <==> u in w.state[id].nils
  {
    hide Good;
    Standing(w, id);
    if v in w.hist[id].docs {
      PosInjective(w.c.plans, v, w.state[id].lastDoc);
    }
  }

  ghost function NilWorld(w: World, id: Id, v: Version): World
    requires id in w.state && id in w.hist && w.state[id].remaining > 0
  {
    w.(state := w.state[id := w.state[id].(nils := w.state[id].nils + [v], remaining := w.state[id].remaining - 1)],
       hist := w.hist[id := Seen(w.hist[id], v, false, [])])
  }

  ghost predicate NewNil(w: World, id: Id, v: Version) {
    && id in w.state && id in w.hist && !w.state[id].failed && w.state[id].settled == Unsettled
    && v in w.hist[id].expected && v !in w.hist[id].docs && v !in w.hist[id].nils
  }

  lemma NilRemains(w: World, id: Id, v: Version)
    requires Good(w) && NewNil(w, id, v)
    ensures w.state[id].remaining > 0
  {
    hide Good;
    Standing(w, id);
    var h := w.hist[id];
    Remaining(h.nils, h.counted, h.expected);
    assert v in h.expected && v !in h.nils + h.counted;
  }

  lemma NilTied(e: Entry, h: Hist, q: seq<Version>, plans: seq<Version>, v: Version)
    requires Tied(e, h, q, plans) && !e.failed && e.settled == Unsettled && e.remaining > 0
    requires v in h.expected && v !in h.docs && v !in h.nils
    ensures Tied(e.(nils := e.nils + [v], remaining := e.remaining - 1), Seen(h, v, false, []), q, plans)
  {
  }

  lemma NilGood(w: World, id: Id, v: Version)
    requires Good(w) && NewNil(w, id, v) && w.state[id].remaining > 0
    ensures Good(NilWorld(w, id, v))
  {
    hide Tied, Failures, NoClash, AllServed;
    var w' := NilWorld(w, id, v);
    NilTied(w.state[id], w.hist[id], Queue(w.queue, id), w.c.plans, v);
    NilSound(w, id, v);
    NilKeepsEdged(w, id, v);
    hide AllEdged;
    forall j | j in w'.state ensures Tied(w'.state[j], w'.hist[j], Queue(w'.queue, j), w'.c.plans) {
      assert Tied(w.state[j], w.hist[j], Queue(w.queue, j), w.c.plans);
    }
    hide Sound;
  }

  lemma NilSound(w: World, id: Id, v: Version)
    requires Sound(w.state, w.hist, w.failed, w.markFailed, w.c.keepSettled, w.c.mayDelete, w.fx)
    requires NewNil(w, id, v) && w.state[id].remaining > 0
    ensures
      Sound(NilWorld(w, id, v).state, NilWorld(w, id, v).hist, w.failed, w.markFailed, w.c.keepSettled, w.c.mayDelete,
        w.fx)
  {
    var w' := NilWorld(w, id, v);
    assert Clean(id, w.state[id], w.hist[id], w.fx);
    assert Revises(w.state, w.hist, id, w'.state[id], w'.hist[id], w.fx);
    hide Failures, Owed, NoClash, AllClean, AllServed, Bounded, Kept, Revises;
    ReviseSound(w, id, w'.state[id], w'.hist[id]);
  }

  lemma NilKeepsEdged(w: World, id: Id, v: Version)
    requires AllEdged(w.state, w.hist, w.queue, w.fx) && NewNil(w, id, v) && w.state[id].remaining > 0
    ensures AllEdged(NilWorld(w, id, v).state, NilWorld(w, id, v).hist, w.queue, w.fx)
  {
    hide Queue, LastQueued;
    var w' := NilWorld(w, id, v);
    forall j | j in w'.state ensures EdgedOne(j, w'.state[j], w'.hist[j], w.queue, w.fx) {
      assert EdgedOne(j, w.state[j], w.hist[j], w.queue, w.fx);
    }
  }

  lemma NilSees(w: World, id: Id, v: Version)
    requires NewNil(w, id, v) && w.state[id].remaining > 0 && w.hist.Keys == w.state.Keys
    ensures Sees(w, NilWorld(w, id, v), id, v, false, [])
  {
    GrowsSame(w.fx);
    hide Grows;
  }

  lemma NilIdle(w: World, id: Id, v: Version)
    requires NewNil(w, id, v) && w.state[id].remaining > 0 && Idle(w)
    ensures IdleBut({id}, NilWorld(w, id, v))
    ensures WatchedOne(id, NilWorld(w, id, v).state[id], NilWorld(w, id, v).fx)
  {
    hide Queue;
  }

  ghost function DocWorld(w: World, id: Id, v: Version, rels: seq<Resource>): World
    requires id in w.state && id in w.hist
  {
    var it := Item(id, v, w.state[id].occ, rels);
    w.(state := w.state[id := w.state[id].(lastDoc := v)], hist := w.hist[id := Seen(w.hist[id], v, true, rels)],
       pending := w.pending + [it], queue := w.queue + [it])
  }

  ghost predicate Queueable(w: World, id: Id, v: Version) {
    && id in w.state && id in w.hist && !w.state[id].failed && w.state[id].settled == Unsettled
    && v !in w.hist[id].nils && InOrder(w, id, v)
  }

  lemma DocTied(e: Entry, h: Hist, q: seq<Version>, plans: seq<Version>, v: Version, rels: seq<Resource>)
    requires Tied(e, h, q, plans) && !e.failed && e.settled == Unsettled
    requires v in h.expected && v !in h.nils && forall d :: d in h.docs ==> Pos(plans, d) <= Pos(plans, v)
    ensures Tied(e.(lastDoc := v), Seen(h, v, true, rels), q + [v], plans)
  {
    hide Pos, Flows;
    DocFlows(h, q, plans, v, rels);
  }

  lemma DocFlows(h: Hist, q: seq<Version>, plans: seq<Version>, v: Version, rels: seq<Resource>)
    requires Flows(h, q, plans) && h.counted <= h.docs && forall d :: d in h.docs ==> Pos(plans, d) <= Pos(plans, v)
    ensures Flows(Seen(h, v, true, rels), q + [v], plans)
  {
    hide Pos;
    var h', q' := Seen(h, v, true, rels), q + [v];
    forall i | 0 <= i < |q| ensures q'[i] == q[i] && q[i] in h.docs { assert q[i] in q; }
    forall u ensures u in h'.docs <==> u in h'.counted || u in q' {
      assert u in h.docs <==> u in h.counted || u in q;
    }
  }

  lemma DocGood(w: World, id: Id, v: Version, rels: seq<Resource>)
    requires Good(w) && Queueable(w, id, v)
    ensures Good(DocWorld(w, id, v, rels))
  {
    hide Tied, Sound, Blamed, AllEdged;
    var w' := DocWorld(w, id, v, rels);
    DocKeepsEdged(w, id, v, rels);
    DocTied(w.state[id], w.hist[id], Queue(w.queue, id), w.c.plans, v, rels);
    DocSound(w, id, v, rels);
    if w.c.reliable { DocBlamed(w, id, v, rels); }
    forall j | j in w'.state ensures Tied(w'.state[j], w'.hist[j], Queue(w'.queue, j), w'.c.plans) {
      QueueAppend(w.queue, Item(id, v, w.state[id].occ, rels), j);
      assert Queue(w'.queue, j) == if j == id then Queue(w.queue, id) + [v] else Queue(w.queue, j);
      assert Tied(w.state[j], w.hist[j], Queue(w.queue, j), w.c.plans);
    }
  }

  lemma DocKeepsEdged(w: World, id: Id, v: Version, rels: seq<Resource>)
    requires AllEdged(w.state, w.hist, w.queue, w.fx) && Queueable(w, id, v)
    ensures
      AllEdged(DocWorld(w, id, v, rels).state, DocWorld(w, id, v, rels).hist, DocWorld(w, id, v, rels).queue, w.fx)
  {
    hide Queue, LastQueued;
    var w', it := DocWorld(w, id, v, rels), Item(id, v, w.state[id].occ, rels);
    forall j | j in w'.state ensures EdgedOne(j, w'.state[j], w'.hist[j], w'.queue, w.fx) {
      assert EdgedOne(j, w.state[j], w.hist[j], w.queue, w.fx);
      QueueAppend(w.queue, it, j);
      forall u ensures LastQueued(w'.queue, j, u) ==
                       if j == id && u == v then Some(rels) else LastQueued(w.queue, j, u)
      {
        LastQueuedAppend(w.queue, it, j, u);
      }
    }
  }

  lemma DocBlamed(w: World, id: Id, v: Version, rels: seq<Resource>)
    requires id in w.state && id in w.hist && Blamed(w.state, w.fx)
    ensures Blamed(DocWorld(w, id, v, rels).state, w.fx)
  {
  }

  lemma DocSound(w: World, id: Id, v: Version, rels: seq<Resource>)
    requires Sound(w.state, w.hist, w.failed, w.markFailed, w.c.keepSettled, w.c.mayDelete, w.fx)
    requires Queueable(w, id, v)
    ensures
      Sound(DocWorld(w, id, v, rels).state, DocWorld(w, id, v, rels).hist, w.failed, w.markFailed, w.c.keepSettled,
        w.c.mayDelete, w.fx)
  {
    var w' := DocWorld(w, id, v, rels);
    assert Clean(id, w.state[id], w.hist[id], w.fx);
    assert Revises(w.state, w.hist, id, w'.state[id], w'.hist[id], w.fx);
    hide Failures, Owed, NoClash, AllClean, AllServed, Bounded, Kept, Revises;
    ReviseSound(w, id, w'.state[id], w'.hist[id]);
  }

  lemma DocSees(w: World, id: Id, v: Version, rels: seq<Resource>)
    requires Queueable(w, id, v) && w.hist.Keys == w.state.Keys
    ensures Sees(w, DocWorld(w, id, v, rels), id, v, true, rels)
  {
    GrowsSame(w.fx);
    hide Grows;
  }

  lemma DocIdle(w: World, id: Id, v: Version, rels: seq<Resource>)
    requires Queueable(w, id, v) && Idle(w)
    ensures Idle(DocWorld(w, id, v, rels))
  {
    hide Queue;
    var w' := DocWorld(w, id, v, rels);
    forall j | j in w'.state ensures Awaiting(w'.state[j], w'.hist[j], Queue(w'.queue, j)) {
      QueueAppend(w.queue, Item(id, v, w.state[id].occ, rels), j);
      if j != id { assert Awaiting(w.state[j], w.hist[j], Queue(w.queue, j)); }
    }
  }

  lemma NewNilOf(w: World, id: Id, v: Version)
    requires Good(w) && id in w.state && id in w.hist && !w.state[id].failed && w.state[id].settled == Unsettled
    requires InOrder(w, id, v) && v !in w.state[id].nils && v != w.state[id].lastDoc
    ensures NewNil(w, id, v)
  {
    hide Good;
    LastDoc(w, id, v);
  }

  lemma QueueIs(w: World, but: set<Id>)
    requires IdleBut(but, w)
    ensures w.queue == w.pending
  {
  }

  lemma QueuedAwaits(w: World, id: Id)
    requires IdleBut({id}, w) && Queue(w.queue, id) != []
    requires id in w.state ==> id in w.hist && WatchedOne(id, w.state[id], w.fx)
    ensures Idle(w)
  {
    hide Queue;
  }

  lemma HasMember<T>(q: seq<T>)
    ensures q == [] || exists x :: x in q
  {
    if q != [] { assert q[0] in q; }
  }

  /** An id with a queued document saw a document. */
  lemma QueuedSaw(w: World, id: Id)
    requires Good(w) && id in w.state && !w.state[id].failed && w.state[id].lastDoc == 0
    ensures Queue(w.queue, id) == []
  {
    hide Good, Queue;
    Standing(w, id);
    var q := Queue(w.queue, id);
    HasMember(q);
  }

  // ------------------------------------------------------------------- begin

  ghost function BeginWorld(w: World, id: Id, e: Entry, expected: set<Version>): World {
    w.(state := w.state[id := e], hist := w.hist[id := NoHist.(expected := expected)],
       fx :=
         w.fx.(begun := w.fx.begun + {Life(id, e.occ)},
           captured := w.fx.captured[Life(id, e.occ) := Base(e.staleSeq, e.checkRoot)], top := e.occ))
  }

  ghost predicate MayBegin(w: World, id: Id, e: Entry, expected: set<Version>) {
    && id !in w.state && e.occ > w.fx.top
    && e == Begun(e.occ, e.staleSeq, e.start, e.checkRoot, |expected|, e.partial)
    && forall v {:trigger v in expected} :: v in expected ==> v in w.c.plans && v != 0
  }

  lemma BeginGood(w: World, id: Id, e: Entry, expected: set<Version>)
    requires Good(w) && MayBegin(w, id, e, expected) && Queue(w.queue, id) == []
    ensures Good(BeginWorld(w, id, e, expected))
  {
    hide Sound, Queue, AllEdged;
    BoundedOf(w);
    BeginEdged(w, id, e, expected);
    BeginSound(w, id, e, expected);
    var w' := BeginWorld(w, id, e, expected);
    assert Tied(e, NoHist.(expected := expected), [], w.c.plans);
    hide Tied;
    forall j | j in w'.state ensures Tied(w'.state[j], w'.hist[j], Queue(w'.queue, j), w'.c.plans) {
      if j != id { assert Tied(w.state[j], w.hist[j], Queue(w.queue, j), w.c.plans); }
    }
  }

  lemma BeginEdged(w: World, id: Id, e: Entry, expected: set<Version>)
    requires MayBegin(w, id, e, expected) && AllEdged(w.state, w.hist, w.queue, w.fx) && Bounded(w.state, w.fx)
    ensures
      AllEdged(BeginWorld(w, id, e, expected).state, BeginWorld(w, id, e, expected).hist, w.queue,
        BeginWorld(w, id, e, expected).fx)
  {
    hide Queue, LastQueued;
    var w' := BeginWorld(w, id, e, expected);
    assert Life(id, e.occ) !in w.fx.begun;
    forall j | j in w'.state ensures EdgedOne(j, w'.state[j], w'.hist[j], w.queue, w'.fx) {
      if j != id { assert EdgedOne(j, w.state[j], w.hist[j], w.queue, w.fx); }
    }
  }

  lemma BeginGrows(w: World, id: Id, e: Entry, expected: set<Version>)
    requires Bounded(w.state, w.fx) && e.occ > w.fx.top
    ensures Grows(w.fx, BeginWorld(w, id, e, expected).fx)
  {
  }

  lemma BeginOwed(w: World, id: Id, e: Entry, expected: set<Version>)
    requires Failures(w.state, w.failed, w.markFailed, w.fx) && Owed(w.state, w.fx) && Bounded(w.state, w.fx)
    requires MayBegin(w, id, e, expected)
    ensures Failures(BeginWorld(w, id, e, expected).state, w.failed, w.markFailed, BeginWorld(w, id, e, expected).fx)
    ensures Owed(BeginWorld(w, id, e, expected).state, BeginWorld(w, id, e, expected).fx)
    ensures Bounded(BeginWorld(w, id, e, expected).state, BeginWorld(w, id, e, expected).fx)
  {
    var w' := BeginWorld(w, id, e, expected);
    forall life | life in w'.fx.begun ensures life in w'.fx.settled || Open(w'.state, life) {
      if life in w.fx.begun { assert life in w.fx.settled || Open(w.state, life); }
    }
    forall j ensures j in w'.fx.failedIds <==> j in w'.state && w'.state[j].failed {
      assert j in w.fx.failedIds <==> j in w.state && w.state[j].failed;
    }
  }

  lemma BeginClean(w: World, id: Id, e: Entry, expected: set<Version>)
    requires AllClean(w.state, w.hist, w.fx) && Kept(w.state, w.hist, w.c.keepSettled, w.fx) && Bounded(w.state, w.fx)
    requires MayBegin(w, id, e, expected)
    ensures
      AllClean(BeginWorld(w, id, e, expected).state, BeginWorld(w, id, e, expected).hist,
        BeginWorld(w, id, e, expected).fx)
    ensures
      Kept(BeginWorld(w, id, e, expected).state, BeginWorld(w, id, e, expected).hist, w.c.keepSettled,
        BeginWorld(w, id, e, expected).fx)
  {
    var w' := BeginWorld(w, id, e, expected);
    forall j | j in w'.state
      ensures
        && Clean(j, w'.state[j], w'.hist[j], w'.fx)
        && (!w'.state[j].failed ==> Stored(j, w'.state[j].occ, w'.hist[j].counted, w'.fx))
    {
      if j != id { assert Clean(j, w.state[j], w.hist[j], w.fx); }
    }
    forall j | j in w'.state ensures KeptOne(j, w'.state[j], w'.hist[j], w.c.keepSettled, w'.fx) {
      if j != id { assert KeptOne(j, w.state[j], w.hist[j], w.c.keepSettled, w.fx); }
    }
  }

  lemma BeginSound(w: World, id: Id, e: Entry, expected: set<Version>)
    requires
      && Sound(w.state, w.hist, w.failed, w.markFailed, w.c.keepSettled, w.c.mayDelete, w.fx)
      && MayBegin(w, id, e, expected)
    ensures Sound(BeginWorld(w, id, e, expected).state, BeginWorld(w, id, e, expected).hist, w.failed, w.markFailed,
                  w.c.keepSettled, w.c.mayDelete, BeginWorld(w, id, e, expected).fx)
  {
    hide Failures, Owed, AllClean, Bounded, Kept, Grows;
    BeginGrows(w, id, e, expected);
    BeginOwed(w, id, e, expected);
    BeginClean(w, id, e, expected);
    var w' := BeginWorld(w, id, e, expected);
    forall life | life in w'.fx.settled ensures Served(life, w'.fx.settled[life], w.c.mayDelete, w'.fx) {
      assert life in w.fx.settled;
      ServedGrows(life, w.fx.settled[life], w.c.mayDelete, w.fx, w'.fx);
    }
  }

  lemma BeginIdle(w: World, id: Id, e: Entry, expected: set<Version>)
    requires MayBegin(w, id, e, expected) && Idle(w) && Bounded(w.state, w.fx)
    ensures Idle(BeginWorld(w, id, e, expected)) && Queue(w.queue, id) == []
  {
    BeginAwaits(w, id, e, expected);
    BeginWatched(w, id, e, expected);
    hide Bounded, WatchedBut, AwaitingBut;
  }

  lemma BeginAwaits(w: World, id: Id, e: Entry, expected: set<Version>)
    requires MayBegin(w, id, e, expected) && Queued(w.state, w.queue) && AwaitingBut({}, w.state, w.hist, w.queue)
    ensures Queue(w.queue, id) == []
    ensures AwaitingBut({}, BeginWorld(w, id, e, expected).state, BeginWorld(w, id, e, expected).hist, w.queue)
  {
    QueueEmpty(w.queue, id);
    hide Queue;
    var w' := BeginWorld(w, id, e, expected);
    forall j | j in w'.state ensures Awaiting(w'.state[j], w'.hist[j], Queue(w'.queue, j)) {
      if j != id { assert Awaiting(w.state[j], w.hist[j], Queue(w.queue, j)); }
    }
  }

  /** Nothing has landed or been found of a life that only now begins. */
  lemma BeginWatched(w: World, id: Id, e: Entry, expected: set<Version>)
    requires MayBegin(w, id, e, expected) && WatchedBut({}, w.state, w.fx) && Bounded(w.state, w.fx)
    ensures WatchedBut({}, BeginWorld(w, id, e, expected).state, BeginWorld(w, id, e, expected).fx)
  {
    BeginNew(w, id, e);
    hide Bounded;
    forall j | j in w.state ensures WatchedOne(j, w.state[j], BeginWorld(w, id, e, expected).fx) {
      assert WatchedOne(j, w.state[j], w.fx);
    }
  }

  lemma BeginNew(w: World, id: Id, e: Entry)
    requires e.occ > w.fx.top && Bounded(w.state, w.fx)
    ensures forall it :: it in w.fx.landed ==> LifeOf(it) != Life(id, e.occ)
    ensures Life(id, e.occ) !in w.fx.due
  {
  }

  // ---------------------------------------------------------------- the start

  lemma NothingYet(plans: seq<Version>)
    ensures AllTied(map[], map[], [], plans) && AllEdged(map[], map[], [], NoEffects)
    ensures Blamed(map[], NoEffects) && Queued(map[], []) && AwaitingBut({}, map[], map[], [])
  {
  }

  lemma NothingDone(keepSettled: bool, mayDelete: bool)
    ensures Sound(map[], map[], 0, false, keepSettled, mayDelete, NoEffects)
  {
    hide Failures, Owed, NoClash, AllClean, AllServed, Bounded, Kept;
    NothingOwed();
    NothingServed(keepSettled, mayDelete);
  }

  lemma NothingOwed()
    ensures Failures(map[], 0, false, NoEffects) && Owed(map[], NoEffects) && NoClash(NoEffects)
  {
  }

  lemma NothingServed(keepSettled: bool, mayDelete: bool)
    ensures AllClean(map[], map[], NoEffects) && AllServed(mayDelete, NoEffects)
    ensures Bounded(map[], NoEffects) && Kept(map[], map[], keepSettled, NoEffects)
  {
  }
}
