// The rebuild flusher: a streaming, chunked state machine over the documents
// and nils a rebuild's plans list. The entry of each id follows the history of
// its sightings; the effects it had on the store and the backend are kept as
// sets, which only grow.

module FlusherModel {
  import opened Wrappers
  import opened Common
  import opened Rows

  type Id = string

  datatype Settlement = Unsettled | Completed | Deleted

  /** The flusher's entry for one resource. `start` is the Change Sequence value
      its drift checks measure from, taken before its fetch. `lastCounted` and `lastDoc` are 0
      for none: Schema Versions start at 1. */
  datatype Entry = Entry(
    occ: nat,
    staleSeq: nat,
    start: nat,
    checkRoot: bool,
    partial: bool,
    remaining: nat,
    lastCounted: Version,
    lastDoc: Version,
    nils: seq<Version>,
    settled: Settlement,
    failed: bool)

  function Begun(occ: nat, staleSeq: nat, start: nat, checkRoot: bool, expected: nat, partial: bool): Entry {
    Entry(occ, staleSeq, start, checkRoot, partial, expected, 0, 0, [], Unsettled, false)
  }

  /** A document awaiting a bulk flush, at its resource's Build Sequence, with
      the relations its plan discovered. */
  datatype Item = Item(id: Id, version: Version, occ: nat, relations: seq<Resource>)

  /** A document's place in the backend, and what a bulk failure names. */
  datatype DocKey = DocKey(id: Id, version: Version)

  /** One document at one Build Sequence. */
  datatype Doc = Doc(id: Id, version: Version, occ: nat)

  function DocOf(it: Item): Doc {
    Doc(it.id, it.version, it.occ)
  }

  /** A drift check's question: did the resource change after the start? */
  datatype Check = Check(res: Resource, start: nat)

  /** One life of an id: from its begin at a Build Sequence until it settles
      or the walk ends. A resource that failed before it was begun has 0. */
  datatype Life = Life(id: Id, occ: nat)

  function LifeOf(it: Item): Life {
    Life(it.id, it.occ)
  }

  /** What a begin fixes: the stale_seq it captured, and whether the root's own
      drift check is due, as it is in a walk. */
  datatype Base = Base(staleSeq: nat, checkRoot: bool)

  /** A clear or a row removal, guarded by a captured stale_seq. */
  datatype Guarded = Guarded(life: Life, staleSeq: nat)

  /** What an id's plans have said so far: the versions listed with a document
      and without one, those its begin expected, those whose document has
      flushed and counted, and what each version's last document fetched, until
      the id settles. */
  datatype Hist = Hist(
    docs: set<Version>,
    nils: set<Version>,
    expected: set<Version>,
    counted: set<Version>,
    last: map<Version, seq<Resource>>)

  const NoHist: Hist := Hist({}, {}, {}, {}, map[])

  /** Everything the flusher did outside itself. `sent`, `asked` and
      `askedAll` are the bulk writes, version deletes and whole deletes it
      issued; `landed`, `edged`, `dropped`, `erased`, `rows` and `marked` are
      acknowledged calls, `edged` with the children last stored; `cleared` are issued clears. `captured` is each
      life's begin. `checked` are the landed documents whose every child a drift
      check has followed, `rooted` the lives whose root was checked after their
      nils or their removal, and `due` those of which a check asked after a
      resource that had changed since their start. `clashed` are the ids whose
      plan contradicted itself. */
  datatype Effects = Effects(
    begun: set<Life>,
    sent: set<Doc>,
    landed: set<Item>,
    edged: map<Doc, seq<Resource>>,
    asked: set<Doc>,
    dropped: set<Doc>,
    askedAll: set<Life>,
    erased: set<Life>,
    rows: set<Guarded>,
    cleared: set<Guarded>,
    captured: map<Life, Base>,
    checked: set<Item>,
    rooted: set<Life>,
    due: set<Life>,
    marked: set<Life>,
    settled: map<Life, Hist>,
    failedIds: set<Id>,
    clashed: set<Id>,
    top: nat)

  const NoEffects: Effects := Effects({}, {}, {}, map[], {}, {}, {}, {}, {}, {}, map[], {}, {}, {}, {}, map[], {}, {},
    0)

  // ---------------------------------------------------------------- helpers

  /** Where a version's plan stands in the walk. */
  ghost function Pos(plans: seq<Version>, v: Version): nat {
    if plans == [] || plans[0] == v then 0 else 1 + Pos(plans[1..], v)
  }

  lemma {:induction false} PosFinds(plans: seq<Version>, v: Version)
    requires v in plans
    ensures Pos(plans, v) < |plans| && plans[Pos(plans, v)] == v
  {
    if plans[0] != v { PosFinds(plans[1..], v); }
  }

  lemma PosInjective(plans: seq<Version>, v: Version, w: Version)
    requires v in plans && w in plans && Pos(plans, v) == Pos(plans, w)
    ensures v == w
  {
    PosFinds(plans, v);
    PosFinds(plans, w);
  }

  lemma {:induction false} PosOf(plans: seq<Version>, k: nat)
    requires k < |plans| && forall i, j :: 0 <= i < j < |plans| ==> plans[i] != plans[j]
    ensures Pos(plans, plans[k]) == k
  {
    if k > 0 {
      assert plans[0] != plans[k];
      assert plans[1..][k - 1] == plans[k];
      PosOf(plans[1..], k - 1);
    }
  }

  /** The versions of an id's queued documents, in the order they were queued. */
  ghost function Queue(items: seq<Item>, id: Id): (q: seq<Version>) {
    if items == [] then []
    else
      var last := items[|items| - 1];
      Queue(items[..|items| - 1], id) + if last.id == id then [last.version] else []
  }

  lemma QueueAppend(items: seq<Item>, it: Item, id: Id)
    ensures Queue(items + [it], id) == Queue(items, id) + if it.id == id then [it.version] else []
  {
    assert (items + [it])[..|items|] == items;
  }

  lemma {:induction false} QueueMember(items: seq<Item>, id: Id, v: Version)
    ensures v in Queue(items, id) <==> exists it :: it in items && it.id == id && it.version == v
  {
    if items != [] {
      var n := |items| - 1;
      QueueMember(items[..n], id, v);
      assert items == items[..n] + [items[n]];
    }
  }

  lemma {:induction false} QueueEmpty(items: seq<Item>, id: Id)
    ensures Queue(items, id) == [] <==> forall it :: it in items ==> it.id != id
  {
    if items != [] {
      var n := |items| - 1;
      QueueEmpty(items[..n], id);
      assert items == items[..n] + [items[n]];
      assert items[n] in items;
    }
  }

  /** dropPending's result. */
  ghost function Without(items: seq<Item>, id: Id): (kept: seq<Item>)
    ensures |kept| <= |items|
  {
    if items == [] then []
    else
      var last := items[|items| - 1];
      Without(items[..|items| - 1], id) + if last.id != id then [last] else []
  }

  lemma {:induction false} WithoutMember(items: seq<Item>, id: Id, it: Item)
    ensures it in Without(items, id) <==> it in items && it.id != id
  {
    if items != [] {
      var n := |items| - 1;
      WithoutMember(items[..n], id, it);
      assert items == items[..n] + [items[n]];
    }
  }

  lemma {:induction false} WithoutQueue(items: seq<Item>, id: Id, other: Id)
    ensures Queue(Without(items, id), other) == if other == id then [] else Queue(items, other)
  {
    if items != [] {
      var n := |items| - 1;
      WithoutQueue(items[..n], id, other);
      if items[n].id != id {
        QueueAppend(Without(items[..n], id), items[n], other);
      } else {
        assert Without(items, id) == Without(items[..n], id);
      }
    }
  }

  /** The children of the last queued document of an id's version. */
  ghost function LastQueued(items: seq<Item>, id: Id, v: Version): Option<seq<Resource>> {
    if items == [] then None
    else
      var last := items[|items| - 1];
      if last.id == id && last.version == v then Some(last.relations) else LastQueued(items[..|items| - 1], id, v)
  }

  lemma LastQueuedAppend(items: seq<Item>, it: Item, id: Id, v: Version)
    ensures LastQueued(items + [it], id, v) ==
            if it.id == id && it.version == v then Some(it.relations) else LastQueued(items, id, v)
  {
    assert (items + [it])[..|items|] == items;
  }

  lemma {:induction false} LastQueuedIn(items: seq<Item>, id: Id, v: Version)
    ensures LastQueued(items, id, v).Some? <==> v in Queue(items, id)
  {
    if items != [] { LastQueuedIn(items[..|items| - 1], id, v); }
  }

  lemma {:induction false} WithoutLast(items: seq<Item>, id: Id, other: Id, v: Version)
    ensures other != id ==> LastQueued(Without(items, id), other, v) == LastQueued(items, other, v)
  {
    if items != [] {
      var n := |items| - 1;
      WithoutLast(items[..n], id, other, v);
      if items[n].id != id {
        LastQueuedAppend(Without(items[..n], id), items[n], other, v);
      } else {
        assert Without(items, id) == Without(items[..n], id);
      }
    }
  }

  /** Outcomes and the count of those still expected: with an expected version
      unanswered some remain, and with none remaining all have answered. */
  lemma Remaining(nils: set<Version>, counted: set<Version>, expected: set<Version>)
    requires nils <= expected && counted <= expected && nils !! counted
    ensures |nils| + |counted| <= |expected|
    ensures |nils| + |counted| == |expected| ==> nils + counted == expected
  {
    assert |nils + counted| == |nils| + |counted|;
    SubsetSize(nils + counted, expected);
  }

  // -------------------------------------------------------------- invariants

  ghost predicate HistOk(h: Hist, plans: seq<Version>) {
    && h.docs !! h.nils
    && h.docs <= h.expected && h.nils <= h.expected && h.counted <= h.docs
    && forall v {:trigger v in h.expected} :: v in h.expected ==> v in plans && v != 0
  }

  ghost predicate Counts(e: Entry, h: Hist) {
    && e.remaining == |h.expected| - |h.nils| - |h.counted|
    && forall v {:trigger v in h.nils} {:trigger v in e.nils} :: v in e.nils <==> v in h.nils
  }

  /** `last` is the latest of `vs` in plan order, 0 when there is none. */
  ghost predicate Latest(last: Version, vs: set<Version>, plans: seq<Version>) {
    && (last == 0 <==> vs == {})
    && (last != 0 ==> last in vs)
    && forall v {:trigger v in vs} :: v in vs ==> Pos(plans, v) <= Pos(plans, last)
  }

  /** The documents of an id are those counted and those queued, in plan order. */
  ghost predicate Flows(h: Hist, q: seq<Version>, plans: seq<Version>) {
    && (forall v {:trigger v in q} {:trigger v in h.docs} :: v in h.docs <==> v in h.counted || v in q)
    && (forall i, j {:trigger q[i], q[j]} :: 0 <= i < j < |q| ==> Pos(plans, q[i]) <= Pos(plans, q[j]))
    && (forall v, i {:trigger v in h.counted, q[i]} ::
          v in h.counted && 0 <= i < |q| ==> Pos(plans, v) <= Pos(plans, q[i]))
  }

  ghost predicate Rests(e: Entry, h: Hist, q: seq<Version>) {
    e.settled != Unsettled ==> q == [] && e.remaining == 0 && !e.partial && (e.settled == Completed <==> h.docs != {})
  }

  /** A standing entry says exactly what its id's history says. */
  ghost predicate Tied(e: Entry, h: Hist, q: seq<Version>, plans: seq<Version>) {
    !e.failed ==>
      && HistOk(h, plans)
      && Counts(e, h)
      && Latest(e.lastDoc, h.docs, plans)
      && Latest(e.lastCounted, h.counted, plans)
      && Flows(h, q, plans)
      && Rests(e, h, q)
  }

  ghost predicate AllTied(state: map<Id, Entry>, hist: map<Id, Hist>, queue: seq<Item>, plans: seq<Version>) {
    && hist.Keys == state.Keys
    && forall id {:trigger state[id]} {:trigger hist[id]} {:trigger Queue(queue, id)} ::
         id in state ==> Tied(state[id], hist[id], Queue(queue, id), plans)
  }

  /** Each failed id is counted once, and marked unless a mark failed. */
  ghost predicate Failures(state: map<Id, Entry>, failed: nat, markFailed: bool, fx: Effects) {
    && failed == |fx.failedIds| && (markFailed ==> failed > 0)
    && (forall id {:trigger id in fx.failedIds} {:trigger state[id]} ::
          id in fx.failedIds <==> id in state && state[id].failed)
    && (!markFailed ==>
          forall id {:trigger id in fx.failedIds} :: id in fx.failedIds ==> Life(id, state[id].occ) in fx.marked)
  }

  ghost predicate Open(state: map<Id, Entry>, life: Life) {
    life.id in state && state[life.id].occ == life.occ && (state[life.id].failed || state[life.id].settled == Unsettled)
  }

  /** No life is forgotten. */
  ghost predicate Owed(state: map<Id, Entry>, fx: Effects) {
    && (forall life {:trigger life in fx.begun} :: life in fx.begun ==> life in fx.settled || Open(state, life))
    && (forall id {:trigger state[id]} :: id in state ==> Life(id, state[id].occ) in fx.begun)
  }

  /** No document is both written and deleted at one Build Sequence. */
  ghost predicate NoClash(fx: Effects) {
    forall d {:trigger d in fx.sent} :: d in fx.sent ==> d !in fx.asked && Life(d.id, d.occ) !in fx.askedAll
  }

  /** What has been sent and asked at a standing entry's Build Sequence. */
  ghost predicate Clean(id: Id, e: Entry, h: Hist, fx: Effects) {
    !e.failed ==>
      && (forall d {:trigger d in fx.sent} :: d in fx.sent && d.id == id && d.occ == e.occ ==> d.version in h.docs)
      && (forall d {:trigger d in fx.asked} :: d in fx.asked && d.id == id && d.occ == e.occ ==> d.version in h.nils)
      && (Life(id, e.occ) in fx.askedAll ==> h.docs == {} && h.nils == h.expected)
  }

  ghost predicate Landed(d: Doc, fx: Effects) {
    exists it :: it in fx.landed && DocOf(it) == d
  }

  /** A counted document landed and its edge set is stored. */
  ghost predicate Stored(id: Id, occ: nat, vs: set<Version>, fx: Effects) {
    forall v {:trigger v in vs} :: v in vs ==> Landed(Doc(id, v, occ), fx) && Doc(id, v, occ) in fx.edged
  }

  ghost predicate Applied(id: Id, occ: nat, vs: set<Version>, fx: Effects) {
    forall v {:trigger v in vs} :: v in vs ==> Doc(id, v, occ) in fx.dropped && Doc(id, v, occ) in fx.edged
  }

  ghost predicate AllClean(state: map<Id, Entry>, hist: map<Id, Hist>, fx: Effects) {
    hist.Keys == state.Keys &&
    forall id {:trigger state[id]} {:trigger hist[id]} :: id in state ==>
      Clean(id, state[id], hist[id], fx) && (!state[id].failed ==> Stored(id, state[id].occ, hist[id].counted, fx))
  }

  ghost predicate LifeHas(id: Id, occ: nat, d: Doc) {
    d.id == id && d.occ == occ
  }

  /** The set a version has once its queue is stored. */
  ghost function EdgeAt(queue: seq<Item>, d: Doc, fx: Effects): Option<seq<Resource>> {
    if d.version in Queue(queue, d.id) then LastQueued(queue, d.id, d.version)
    else if d in fx.edged then Some(fx.edged[d])
    else None
  }

  /** The edge sets of an unsettled, standing entry: a version with no document
      queued has the children of its last one stored, and what else is stored at
      its Build Sequence is a nil's empty set. */
  ghost predicate EdgedOne(id: Id, e: Entry, h: Hist, queue: seq<Item>, fx: Effects) {
    !e.failed && e.settled == Unsettled ==>
      && (forall v {:trigger v in h.docs} ::
            v in h.docs ==> v in h.last && EdgeAt(queue, Doc(id, v, e.occ), fx) == Some(h.last[v]))
      && (forall d {:trigger d in fx.edged} :: d in fx.edged && LifeHas(id, e.occ, d) ==>
            d.version in h.docs || (d.version in h.nils && fx.edged[d] == []))
  }

  ghost predicate AllEdged(state: map<Id, Entry>, hist: map<Id, Hist>, queue: seq<Item>, fx: Effects) {
    hist.Keys == state.Keys &&
    forall id {:trigger state[id]} {:trigger hist[id]} ::
      id in state ==> EdgedOne(id, state[id], hist[id], queue, fx)
  }

  /** The edge sets a life ends with: each document version's holds the children
      of its last document, and any stored for a nil is empty. */
  ghost predicate EdgesSaid(life: Life, h: Hist, fx: Effects) {
    && (forall v {:trigger v in h.docs} :: v in h.docs ==>
          v in h.last && Doc(life.id, v, life.occ) in fx.edged && fx.edged[Doc(life.id, v, life.occ)] == h.last[v])
    && (forall v {:trigger v in h.nils} :: v in h.nils ==>
          Doc(life.id, v, life.occ) in fx.edged ==> fx.edged[Doc(life.id, v, life.occ)] == [])
  }

  /** How a life settled: completed on documents, with every expected version
      answered, its documents and their edge sets stored and its nils applied
      and the mark's clear issued; or on nils alone, erased with its row, or
      left with its versions deleted and a mark. */
  ghost predicate Served(life: Life, h: Hist, mayDelete: bool, fx: Effects) {
    && h.docs + h.nils == h.expected && h.docs !! h.nils
    && Stored(life.id, life.occ, h.docs, fx) && EdgesSaid(life, h, fx)
    && if h.docs != {} then
         && Applied(life.id, life.occ, h.nils, fx)
         && GuardedBy(life, fx.cleared, fx)
         && Checked(life, fx)
         && RootChecked(life, fx)
       else if mayDelete then
         life in fx.erased && GuardedBy(life, fx.rows, fx) && RootChecked(life, fx)
       else
         Applied(life.id, life.occ, h.nils, fx) && life in fx.marked
  }

  /** A drift check of its children followed each document that landed. */
  ghost predicate Checked(life: Life, fx: Effects) {
    forall it {:trigger it in fx.landed} :: it in fx.landed && LifeOf(it) == life ==> it in fx.checked
  }

  /** A change found is a mark made. */
  ghost predicate Heeded(life: Life, fx: Effects) {
    life in fx.due ==> life in fx.marked
  }

  /** A walk's root was checked against its own start, and every change that its
      checks found marked it. */
  ghost predicate RootChecked(life: Life, fx: Effects) {
    life in fx.captured && (fx.captured[life].checkRoot ==> life in fx.rooted) && Heeded(life, fx)
  }

  /** The call was guarded by the stale_seq the life's begin captured. */
  ghost predicate GuardedBy(life: Life, calls: set<Guarded>, fx: Effects) {
    life in fx.captured && Guarded(life, fx.captured[life].staleSeq) in calls
  }

  ghost predicate AllServed(mayDelete: bool, fx: Effects) {
    forall life {:trigger life in fx.settled} :: life in fx.settled ==> Served(life, fx.settled[life], mayDelete, fx)
  }

  /** Build Sequences in use stay at or below `top`. */
  ghost predicate Bounded(state: map<Id, Entry>, fx: Effects) {
    && (forall d {:trigger d in fx.sent} :: d in fx.sent ==> d.occ <= fx.top)
    && (forall d {:trigger d in fx.asked} :: d in fx.asked ==> d.occ <= fx.top)
    && (forall life {:trigger life in fx.askedAll} :: life in fx.askedAll ==> life.occ <= fx.top)
    && (forall life {:trigger life in fx.begun} :: life in fx.begun ==> life.occ <= fx.top)
    && (forall life {:trigger life in fx.settled} :: life in fx.settled ==> life in fx.begun)
    && (forall life {:trigger life in fx.captured} :: life in fx.captured ==> life in fx.begun)
    && (forall life {:trigger life in fx.due} :: life in fx.due ==> life in fx.begun)
    && (forall it {:trigger it in fx.landed} :: it in fx.landed ==> LifeOf(it) in fx.begun)
    && (forall d {:trigger d in fx.edged} :: d in fx.edged ==> Life(d.id, d.occ) in fx.begun)
    && (forall id {:trigger state[id]} :: id in state ==> state[id].occ <= fx.top)
  }

  /** A kept settled entry settled at its life, with its history, and an
      unsettled one has not. */
  ghost predicate KeptOne(id: Id, e: Entry, h: Hist, keepSettled: bool, fx: Effects) {
    !e.failed ==>
      Life(id, e.occ) in fx.captured && fx.captured[Life(id, e.occ)] == Base(e.staleSeq, e.checkRoot) &&
      if e.settled == Unsettled then Life(id, e.occ) !in fx.settled
      else keepSettled && Life(id, e.occ) in fx.settled && fx.settled[Life(id, e.occ)] == h
  }

  ghost predicate Kept(state: map<Id, Entry>, hist: map<Id, Hist>, keepSettled: bool, fx: Effects) {
    hist.Keys == state.Keys &&
    forall id {:trigger state[id]} {:trigger hist[id]} ::
      id in state ==> KeptOne(id, state[id], hist[id], keepSettled, fx)
  }

  /** In a run whose calls all succeed an id fails only for its own history. */
  ghost predicate Blamed(state: map<Id, Entry>, fx: Effects) {
    forall id {:trigger state[id]} :: id in state && state[id].failed ==> state[id].partial || id in fx.clashed
  }

  /** A queued document belongs to a standing entry, at its Build Sequence. */
  ghost predicate Queued(state: map<Id, Entry>, pending: seq<Item>) {
    forall it {:trigger it in pending} ::
      it in pending ==> it.id in state && !state[it.id].failed && it.occ == state[it.id].occ
  }

  /** A standing entry with nothing queued still awaits an outcome. */
  ghost predicate Awaiting(e: Entry, h: Hist, q: seq<Version>) {
    !e.failed && e.settled == Unsettled && q == [] && h.expected != {} ==> e.remaining > 0
  }

  ghost predicate AwaitingBut(but: set<Id>, state: map<Id, Entry>, hist: map<Id, Hist>, queue: seq<Item>) {
    hist.Keys == state.Keys &&
    forall id {:trigger state[id]} {:trigger hist[id]} {:trigger Queue(queue, id)} ::
      id in state && id !in but ==> Awaiting(state[id], hist[id], Queue(queue, id))
  }

  /** An unsettled, standing entry's landed documents have been checked, and any
      change found marked it. */
  ghost predicate WatchedOne(id: Id, e: Entry, fx: Effects) {
    !e.failed && e.settled == Unsettled ==> Checked(Life(id, e.occ), fx) && Heeded(Life(id, e.occ), fx)
  }

  ghost predicate WatchedBut(but: set<Id>, state: map<Id, Entry>, fx: Effects) {
    forall id {:trigger state[id]} :: id in state && id !in but ==> WatchedOne(id, state[id], fx)
  }

  // ------------------------------------------------------------------ frames

  /** Effects only accumulate. */
  ghost predicate Grows(a: Effects, b: Effects) {
    && a.begun <= b.begun && a.sent <= b.sent && a.landed <= b.landed && a.edged.Keys <= b.edged.Keys
    && a.asked <= b.asked && a.dropped <= b.dropped && a.askedAll <= b.askedAll && a.erased <= b.erased
    && a.rows <= b.rows && a.cleared <= b.cleared && a.marked <= b.marked
    && a.checked <= b.checked && a.rooted <= b.rooted && a.due <= b.due
    && a.failedIds <= b.failedIds && a.clashed <= b.clashed && a.top <= b.top
    && (forall life {:trigger life in a.settled} ::
          life in a.settled ==> life in b.settled && b.settled[life] == a.settled[life])
    && (forall life {:trigger life in a.captured} ::
          life in a.captured ==> life in b.captured && b.captured[life] == a.captured[life])
  }

  /** Nothing but `id` moved. */
  ghost predicate Others<T(!new)>(id: Id, a: map<Id, T>, b: map<Id, T>) {
    forall j {:trigger a[j]} {:trigger b[j]} {:trigger j in a} {:trigger j in b} ::
      j != id ==> (j in a <==> j in b) && (j in a ==> a[j] == b[j])
  }

  /** An entry after fail. */
  ghost function Failing(state: map<Id, Entry>, id: Id): map<Id, Entry> {
    state[id := (if id in state then state[id] else Begun(0, 0, 0, false, 0, false)).(failed := true)]
  }

  ghost function FailingHist(hist: map<Id, Hist>, id: Id): map<Id, Hist> {
    if id in hist then hist else hist[id := NoHist]
  }

  /** All of the invariant that speaks of effects. */
  ghost predicate Sound(
      state: map<Id, Entry>, hist: map<Id, Hist>, failed: nat, markFailed: bool, keepSettled: bool, mayDelete: bool,
      fx: Effects)
  {
    && Failures(state, failed, markFailed, fx)
    && Owed(state, fx)
    && NoClash(fx)
    && AllClean(state, hist, fx)
    && AllServed(mayDelete, fx)
    && Bounded(state, fx)
    && Kept(state, hist, keepSettled, fx)
  }

  /** Only acknowledgements were added. */
  ghost predicate Acks(a: Effects, b: Effects) {
    && Grows(a, b)
    && b.begun == a.begun && b.sent == a.sent && b.asked == a.asked && b.askedAll == a.askedAll
    && b.settled == a.settled && b.captured == a.captured && b.failedIds == a.failedIds && b.top == a.top
    && b.landed == a.landed && b.edged == a.edged
    && forall life {:trigger life in b.due} ::
         life in b.due ==> life in a.due || (life in a.begun && life !in a.settled)
  }

  /** What settled stays served, as long as it lands and learns no more. */
  lemma ServedGrows(life: Life, h: Hist, mayDelete: bool, a: Effects, b: Effects)
    requires Served(life, h, mayDelete, a) && Grows(a, b)
    requires life in b.due ==> life in a.due
    requires forall it {:trigger it in b.landed} :: it in b.landed && LifeOf(it) == life ==> it in a.landed
    requires forall d {:trigger d in b.edged} ::
               d in b.edged && LifeHas(life.id, life.occ, d) ==> d in a.edged && b.edged[d] == a.edged[d]
    ensures Served(life, h, mayDelete, b)
  {
  }

  lemma AllServedAcks(mayDelete: bool, a: Effects, b: Effects)
    requires AllServed(mayDelete, a) && Acks(a, b)
    ensures AllServed(mayDelete, b)
  {
    forall life | life in b.settled ensures Served(life, b.settled[life], mayDelete, b) {
      ServedGrows(life, a.settled[life], mayDelete, a, b);
    }
  }

  lemma AllCleanAcks(state: map<Id, Entry>, hist: map<Id, Hist>, a: Effects, b: Effects)
    requires AllClean(state, hist, a) && Acks(a, b)
    ensures AllClean(state, hist, b)
  {
    forall id | id in state
      ensures
        Clean(id, state[id], hist[id], b) && (!state[id].failed ==> Stored(id, state[id].occ, hist[id].counted, b))
    {
      assert Clean(id, state[id], hist[id], a);
    }
  }

  lemma SoundAcks(
      state: map<Id, Entry>, hist: map<Id, Hist>, failed: nat, markFailed: bool, keepSettled: bool, mayDelete: bool,
      a: Effects, b: Effects)
    requires Sound(state, hist, failed, markFailed, keepSettled, mayDelete, a) && Acks(a, b)
    ensures Sound(state, hist, failed, markFailed, keepSettled, mayDelete, b)
  {
    AllServedAcks(mayDelete, a, b);
    AllCleanAcks(state, hist, a, b);
  }
}
