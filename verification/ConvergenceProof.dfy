// The inductive invariant behind convergence. Each fact is a predicate of the
// parts of the state it speaks of, so a step that leaves those parts alone
// leaves the fact alone.

module ConvergenceProof {
  import opened Rows
  import opened ConvergenceModel

  type RowMap = map<Resource, Row>
  type SlotMap = map<Resource, map<Version, Slot>>
  type BuildMap = map<BuildId, Build>
  type RegMap = map<RegId, Reg>

  ghost predicate RowNum(n: nat, rows: RowMap, x: Resource) {
    RowOf(rows, x).staleSeq <= n && RowOf(rows, x).changeSeq <= n
  }

  ghost predicate BuildNum(n: nat, rows: RowMap, b: Build) {
    b.start <= n && b.idx <= n && b.staleSeq <= RowOf(rows, b.root).staleSeq
  }

  /** A held row has one holder and carries nothing above what it drew. */
  ghost predicate HoldNum(n: nat, rows: RowMap, regs: RegMap, g: RegId, x: Resource)
    requires g in regs
  {
    Holds(regs[g], x) ==>
      && x in regs[g].nums && regs[g].nums[x] <= n
      && RowOf(rows, x).staleSeq < regs[g].nums[x]
      && RowOf(rows, x).changeSeq < regs[g].nums[x]
      && forall h :: h in regs && h != g ==> !Holds(regs[h], x)
  }

  ghost predicate Numbers(n: nat, rows: RowMap, builds: BuildMap, regs: RegMap) {
    && (forall x :: RowNum(n, rows, x))
    && (forall b {:trigger BuildNum(n, rows, builds[b])} :: b in builds ==> BuildNum(n, rows, builds[b]))
    && (forall g, x {:trigger HoldNum(n, rows, regs, g, x)} :: g in regs ==> HoldNum(n, rows, regs, g, x))
  }

  /** Of two begun builds of a root, the later one captured the later mark. */
  ghost predicate Ordered(a: Build, b: Build) {
    (a.root == b.root && a.idx > 0 && b.idx > 0) ==>
      a.idx != b.idx && (a.idx < b.idx ==> a.staleSeq <= b.staleSeq)
  }

  ghost predicate Order(builds: BuildMap) {
    forall a, b {:trigger Ordered(builds[a], builds[b])} ::
      a in builds && b in builds && a != b ==> Ordered(builds[a], builds[b])
  }

  ghost predicate Shaped(c: Config, b: Build) {
    && Runs(c, b.kind, b.versions)
    && (b.idx == 0 ==> b.kind == Walk && b.docs == map[])
    && b.docs.Keys <= b.versions
    && b.edged <= b.docs.Keys && b.drifted <= b.edged && b.checked <= b.edged
    && (b.kind == Probe ==> OwnOnly(b.root, b.fetched) && OwnOnly(b.root, b.docs))
  }

  /** Nothing but the root was read. */
  ghost predicate OwnOnly(root: Resource, docs: map<Version, Seen>) {
    forall v :: v in docs ==> docs[v].Keys <= {root}
  }

  ghost predicate Shape(c: Config, builds: BuildMap) {
    forall b {:trigger Shaped(c, builds[b])} :: b in builds ==> Shaped(c, builds[b])
  }

  ghost predicate Sources(src: Seen, acc: Seen, regs: RegMap) {
    && (forall x :: AccOf(acc, x) <= SrcOf(src, x))
    && (forall g, x :: g in regs && x in regs[g].revs ==> regs[g].revs[x] <= SrcOf(src, x))
  }

  /** Build b read revision k of x. If an accepted change covers more, its
      number is above the build's start; and if x is the root and was begun
      before its fetch, its mark is above the captured one. A registration
      still holding x and covering more has drawn above the start. */
  ghost predicate ReadOk(rows: RowMap, acc: Seen, regs: RegMap, b: Build, x: Resource, k: nat) {
    && (k < AccOf(acc, x) ==>
          && b.start < RowOf(rows, x).changeSeq
          && ((x == b.root && b.kind != Walk) ==> b.staleSeq < RowOf(rows, x).staleSeq))
    && (forall g :: g in regs && Holds(regs[g], x) && x in regs[g].nums && k < regs[g].revs[x] ==>
          b.start < regs[g].nums[x])
  }

  ghost predicate SeenOk(rows: RowMap, acc: Seen, regs: RegMap, b: Build, seen: Seen) {
    forall x :: x in seen ==> ReadOk(rows, acc, regs, b, x, seen[x])
  }

  ghost predicate FetchOk(rows: RowMap, acc: Seen, regs: RegMap, b: Build) {
    && (forall v :: v in b.fetched ==> SeenOk(rows, acc, regs, b, b.fetched[v]))
    && (forall v :: v in b.docs ==> SeenOk(rows, acc, regs, b, b.docs[v]))
  }

  ghost predicate Fetches(rows: RowMap, acc: Seen, regs: RegMap, builds: BuildMap) {
    forall b {:trigger FetchOk(rows, acc, regs, builds[b])} :: b in builds ==> FetchOk(rows, acc, regs, builds[b])
  }

  ghost predicate SlotOk(slots: SlotMap, builds: BuildMap, r: Resource, v: Version) {
    v in SlotsOf(slots, r) ==>
      var sl := SlotsOf(slots, r)[v];
      sl.writer in builds && builds[sl.writer].root == r && builds[sl.writer].idx == sl.ver
      && v in builds[sl.writer].docs && builds[sl.writer].docs[v] == sl.seen
  }

  ghost predicate DocOk(slots: SlotMap, b: Build, v: Version) {
    v in b.docs ==> v in SlotsOf(slots, b.root) && b.idx <= SlotsOf(slots, b.root)[v].ver
  }

  ghost predicate Slots(slots: SlotMap, builds: BuildMap) {
    && (forall r, v :: SlotOk(slots, builds, r, v))
    && (forall b, v {:trigger DocOk(slots, builds[b], v)} :: b in builds ==> DocOk(slots, builds[b], v))
  }

  /** An edge set's stamp never exceeds its document's version. */
  ghost predicate StampOk(slots: SlotMap, edges: Edges, r: Resource, v: Version) {
    v in EdgesOf(edges, r) ==> v in SlotsOf(slots, r) && EdgesOf(edges, r)[v].stamp <= SlotsOf(slots, r)[v].ver
  }

  ghost predicate EdgedOk(edges: Edges, b: Build, v: Version) {
    v in b.edged ==>
      && v in b.docs && v in EdgesOf(edges, b.root)
      && b.idx <= EdgesOf(edges, b.root)[v].stamp
      && (b.idx == EdgesOf(edges, b.root)[v].stamp ==>
            EdgesOf(edges, b.root)[v].kids == b.docs[v].Keys - {b.root})
  }

  ghost predicate EdgeSets(slots: SlotMap, edges: Edges, builds: BuildMap) {
    && (forall r, v :: StampOk(slots, edges, r, v))
    && (forall b, v {:trigger EdgedOk(edges, builds[b], v)} :: b in builds ==> EdgedOk(edges, builds[b], v))
  }

  /** A mark past the one b captured was cleared only by a later build that
      wrote every watched version. */
  ghost predicate ClearedOk(rows: RowMap, slots: SlotMap, b: Build, v: Version) {
    (b.idx > 0 && b.staleSeq < RowOf(rows, b.root).staleSeq && !RowOf(rows, b.root).stale) ==>
      b.idx < VerOf(slots, b.root, v)
  }

  ghost predicate Cleared(w: set<Version>, rows: RowMap, slots: SlotMap, builds: BuildMap) {
    forall b, v {:trigger ClearedOk(rows, slots, builds[b], v)} ::
      b in builds && v in w ==> ClearedOk(rows, slots, builds[b], v)
  }

  /** Registration g of x past k has its second fanout of r still to come. */
  ghost predicate Owes(g: Reg, r: Resource, x: Resource, k: nat) {
    && x in g.accepted && x in g.revs && k < g.revs[x] && r !in g.accepted
    && ((g.phase == Committed && r !in g.parents) || (g.phase == Read && r in g.missed))
  }

  ghost predicate SomeOwes(regs: RegMap, r: Resource, x: Resource, k: nat) {
    exists g :: g in regs && Owes(regs[g], r, x, k)
  }

  /** A checked document of b that misses a change: the root was marked after
      b captured its mark, or a later build replaced the document, or the
      change's fanout will mark the root. */
  ghost predicate OwedOk(rows: RowMap, slots: SlotMap, acc: Seen, regs: RegMap, b: Build, v: Version, x: Resource) {
    (v in b.checked && v in b.docs && x in b.docs[v] && b.docs[v][x] < AccOf(acc, x)) ==>
      || b.staleSeq < RowOf(rows, b.root).staleSeq
      || b.idx < VerOf(slots, b.root, v)
      || SomeOwes(regs, b.root, x, b.docs[v][x])
  }

  ghost predicate Owed(rows: RowMap, slots: SlotMap, acc: Seen, regs: RegMap, builds: BuildMap) {
    forall b, v, x {:trigger OwedOk(rows, slots, acc, regs, builds[b], v, x)} ::
      b in builds ==> OwedOk(rows, slots, acc, regs, builds[b], v, x)
  }

  ghost predicate Inv(c: Config, w: set<Version>, s: State) {
    && Numbers(s.n, s.rows, s.builds, s.regs) && Order(s.builds) && Shape(c, s.builds)
    && Sources(s.src, s.acc, s.regs) && Fetches(s.rows, s.acc, s.regs, s.builds)
    && Slots(s.slots, s.builds) && EdgeSets(s.slots, s.edges, s.builds)
    && Cleared(w, s.rows, s.slots, s.builds) && Owed(s.rows, s.slots, s.acc, s.regs, s.builds)
  }

  /** Every build that clears a mark runs every watched version. */
  ghost predicate Covering(c: Config, w: set<Version>) {
    w <= c.live && forall V :: V in c.selections ==> w <= V
  }

  lemma InvConverges(c: Config, w: set<Version>, s: State, r: Resource, v: Version)
    requires Inv(c, w, s) && v in w
    ensures Converges(s, r, v)
  {
    forall x | Outdated(s, r, v, x)
      ensures
        || RowOf(s.rows, r).stale
        || CheckPending(s, r, v, x)
        || (x != r && FanoutPending(s, x, SlotsOf(s.slots, r)[v].seen[x]))
    {
      assert SlotOk(s.slots, s.builds, r, v);
      var b := s.builds[SlotsOf(s.slots, r)[v].writer];
      assert Shaped(c, b) && OwedOk(s.rows, s.slots, s.acc, s.regs, b, v, x) && ClearedOk(s.rows, s.slots, b, v);
      assert FetchOk(s.rows, s.acc, s.regs, b) && ReadOk(s.rows, s.acc, s.regs, b, x, b.docs[v][x]);
    }
  }

  // ----- Steps that move rows forward

  /** A changed stale_seq is fresh and marks the row, which is not held. */
  ghost predicate Forward(s: State, rows: RowMap, n: nat) {
    && s.n <= n
    && forall x {:trigger RowOf(rows, x)} ::
         var r, r' := RowOf(s.rows, x), RowOf(rows, x);
         && r'.changeSeq == r.changeSeq
         && (r'.staleSeq == r.staleSeq ==> r'.stale == r.stale)
         && (r'.staleSeq != r.staleSeq ==> s.n < r'.staleSeq <= n && r'.stale && Unlocked(s, x))
  }

  /** Reads stay in order when rows' numbers only grow. */
  lemma LaterRows(rows: RowMap, rows': RowMap, acc: Seen, regs: RegMap, builds: BuildMap)
    requires Fetches(rows, acc, regs, builds)
    requires forall x {:trigger RowOf(rows', x)} ::
               && RowOf(rows, x).staleSeq <= RowOf(rows', x).staleSeq
               && RowOf(rows, x).changeSeq <= RowOf(rows', x).changeSeq
    ensures Fetches(rows', acc, regs, builds)
  {
    forall b | b in builds ensures FetchOk(rows', acc, regs, builds[b]) {
      assert FetchOk(rows, acc, regs, builds[b]);
      forall x, k | ReadOk(rows, acc, regs, builds[b], x, k) ensures ReadOk(rows', acc, regs, builds[b], x, k) { }
    }
  }

  lemma ForwardInv(c: Config, w: set<Version>, s: State, rows: RowMap, n: nat)
    requires Inv(c, w, s) && Forward(s, rows, n)
    ensures Inv(c, w, s.(rows := rows, n := n))
  {
    forall x ensures RowNum(n, rows, x) && RowOf(s.rows, x).staleSeq <= RowOf(rows, x).staleSeq {
      assert RowNum(s.n, s.rows, x);
    }
    forall b | b in s.builds ensures BuildNum(n, rows, s.builds[b]) { assert BuildNum(s.n, s.rows, s.builds[b]); }
    forall g, x | g in s.regs ensures HoldNum(n, rows, s.regs, g, x) { assert HoldNum(s.n, s.rows, s.regs, g, x); }
    LaterRows(s.rows, rows, s.acc, s.regs, s.builds);
    forall b, v | b in s.builds && v in w ensures ClearedOk(rows, s.slots, s.builds[b], v) {
      assert ClearedOk(s.rows, s.slots, s.builds[b], v);
    }
    forall b, v, x | b in s.builds ensures OwedOk(rows, s.slots, s.acc, s.regs, s.builds[b], v, x) {
      assert OwedOk(s.rows, s.slots, s.acc, s.regs, s.builds[b], v, x);
    }
  }

  lemma MarkInv(c: Config, w: set<Version>, s: State, x: Resource, lease: bool, isExpired: bool)
    requires Inv(c, w, s) && Unlocked(s, x)
    ensures Inv(c, w, AfterMark(s, x, lease, isExpired))
  {
    var s' := AfterMark(s, x, lease, isExpired);
    assert RowNum(s.n, s.rows, x);
    ForwardInv(c, w, s, s'.rows, s'.n);
    assert s' == s.(rows := s'.rows, n := s'.n);
  }

  // ----- Steps of one build

  /** Documents' versions only grow. */
  ghost predicate Grows(slots: SlotMap, slots': SlotMap) {
    forall r, v {:trigger VerOf(slots', r, v)} ::
      && VerOf(slots, r, v) <= VerOf(slots', r, v)
      && (v in SlotsOf(slots, r) ==> v in SlotsOf(slots', r))
  }

  /** b's entry becomes b', and the documents and edge sets slots and edges. */
  lemma UpdateInv(c: Config, w: set<Version>, s: State, b: BuildId, b': Build, s': State)
    requires s' == s.(builds := s.builds[b := b'], slots := s'.slots, edges := s'.edges)
    requires Inv(c, w, s) && Shaped(c, b') && BuildNum(s.n, s.rows, b') && FetchOk(s.rows, s.acc, s.regs, b')
    requires Grows(s.slots, s'.slots)
    requires forall a {:trigger Ordered(s.builds[a], b')} ::
               a in s.builds && a != b ==> Ordered(s.builds[a], b') && Ordered(b', s.builds[a])
    requires forall r, v :: SlotOk(s'.slots, s'.builds, r, v) && StampOk(s'.slots, s'.edges, r, v)
    requires forall v :: DocOk(s'.slots, b', v)
    requires
      forall a, v {:trigger EdgedOk(s'.edges, s'.builds[a], v)} :: a in s'.builds ==> EdgedOk(s'.edges, s'.builds[a], v)
    requires forall v :: v in w ==> ClearedOk(s.rows, s'.slots, b', v)
    requires forall v, x :: OwedOk(s.rows, s'.slots, s.acc, s.regs, b', v, x)
    ensures Inv(c, w, s')
  {
    var builds := s'.builds;
    forall a | a in builds
      ensures Shaped(c, builds[a]) && BuildNum(s.n, s.rows, builds[a]) && FetchOk(s.rows, s.acc, s.regs, builds[a])
    {
      if a != b {
        assert
          Shaped(c, s.builds[a]) && BuildNum(s.n, s.rows, s.builds[a]) && FetchOk(s.rows, s.acc, s.regs, s.builds[a]);
      }
    }
    forall a, d | a in builds && d in builds && a != d ensures Ordered(builds[a], builds[d]) {
      if a != b && d != b { assert Ordered(s.builds[a], s.builds[d]); }
      if a != b && d == b { assert Ordered(s.builds[a], b'); }
      if a == b && d != b { assert Ordered(s.builds[d], b'); }
    }
    forall a, v | a in builds ensures DocOk(s'.slots, builds[a], v) {
      if a != b {
        assert
          DocOk(s.slots, s.builds[a], v) && VerOf(s.slots, builds[a].root, v) <= VerOf(s'.slots, builds[a].root, v);
      }
    }
    forall a, v | a in builds && v in w ensures ClearedOk(s.rows, s'.slots, builds[a], v) {
      if a != b { assert ClearedOk(s.rows, s.slots, s.builds[a], v); }
    }
    forall a, v, x | a in builds ensures OwedOk(s.rows, s'.slots, s.acc, s.regs, builds[a], v, x) {
      if a != b { assert OwedOk(s.rows, s.slots, s.acc, s.regs, s.builds[a], v, x); }
    }
  }

  /** Only what b fetched, found drifted, checked or finished changed. */
  ghost predicate SameCore(a: Build, b: Build) {
    a.(fetched := b.fetched, drifted := b.drifted, checked := b.checked, finished := b.finished) == b
  }

  lemma TouchInv(c: Config, w: set<Version>, s: State, b: BuildId, b': Build)
    requires Inv(c, w, s) && b in s.builds && SameCore(s.builds[b], b') && Shaped(c, b')
    requires FetchOk(s.rows, s.acc, s.regs, b')
    requires forall v, x :: OwedOk(s.rows, s.slots, s.acc, s.regs, b', v, x)
    ensures Inv(c, w, s.(builds := s.builds[b := b']))
  {
    var a := s.builds[b];
    assert BuildNum(s.n, s.rows, a);
    forall d | d in s.builds && d != b ensures Ordered(s.builds[d], b') && Ordered(b', s.builds[d]) {
      assert Ordered(s.builds[d], a) && Ordered(a, s.builds[d]);
    }
    var s' := s.(builds := s.builds[b := b']);
    forall r, v ensures SlotOk(s'.slots, s'.builds, r, v) && StampOk(s'.slots, s'.edges, r, v) {
      assert SlotOk(s.slots, s.builds, r, v) && StampOk(s.slots, s.edges, r, v);
    }
    forall v ensures DocOk(s.slots, b', v) { assert DocOk(s.slots, a, v); }
    forall d, v | d in s'.builds ensures EdgedOk(s'.edges, s'.builds[d], v) { assert EdgedOk(s.edges, s.builds[d], v); }
    forall v | v in w ensures ClearedOk(s.rows, s.slots, b', v) { assert ClearedOk(s.rows, s.slots, a, v); }
    UpdateInv(c, w, s, b, b', s');
  }

  lemma SameReads(rows: RowMap, acc: Seen, regs: RegMap, a: Build, b: Build, seen: Seen)
    requires SeenOk(rows, acc, regs, a, seen)
    requires a.start == b.start && a.root == b.root && a.kind == b.kind && (a.staleSeq == b.staleSeq || a.kind == Walk)
    ensures SeenOk(rows, acc, regs, b, seen)
  {
    forall x | x in seen
      ensures ReadOk(rows, acc, regs, b, x, seen[x])
    {
      assert ReadOk(rows, acc, regs, a, x, seen[x]);
    }
  }

  lemma SameFetch(rows: RowMap, acc: Seen, regs: RegMap, a: Build, b: Build)
    requires FetchOk(rows, acc, regs, a) && a.fetched == b.fetched && a.docs == b.docs
    requires a.start == b.start && a.root == b.root && a.kind == b.kind && (a.staleSeq == b.staleSeq || a.kind == Walk)
    ensures FetchOk(rows, acc, regs, b)
  {
    forall v | v in b.fetched
      ensures SeenOk(rows, acc, regs, b, b.fetched[v])
    {
      SameReads(rows, acc, regs, a, b, a.fetched[v]);
    }
    forall v | v in b.docs
      ensures SeenOk(rows, acc, regs, b, b.docs[v])
    {
      SameReads(rows, acc, regs, a, b, a.docs[v]);
    }
  }

  lemma FetchInv(c: Config, w: set<Version>, s: State, b: BuildId, vs: set<Version>, x: Resource)
    requires Inv(c, w, s) && b in s.builds && (s.builds[b].kind == Probe ==> x == s.builds[b].root)
    ensures Inv(c, w, AfterFetch(s, b, vs, x))
  {
    hide Order, Slots, EdgeSets, Cleared, Owed;
    var bd := s.builds[b];
    var bd' := AfterFetch(s, b, vs, x).builds[b];
    FetchShaped(c, s, b, vs, x);
    hide Shape, Shaped;
    assert FetchOk(s.rows, s.acc, s.regs, bd);
    assert ReadOk(s.rows, s.acc, s.regs, bd, x, SrcOf(s.src, x));
    FetchReads(s, b, vs, x);
    TouchKeeps(c, w, s, b, bd');
    TouchInv(c, w, s, b, bd');
  }

  /** Reading x, unless it was read before, keeps what a document read. */
  lemma ReadMore(rows: RowMap, acc: Seen, regs: RegMap, b: Build, seen: Seen, x: Resource, k: nat)
    requires SeenOk(rows, acc, regs, b, seen) && ReadOk(rows, acc, regs, b, x, k)
    ensures SeenOk(rows, acc, regs, b, map[x := k] + seen)
  {
    hide ReadOk;
    forall y | y in map[x := k] + seen ensures ReadOk(rows, acc, regs, b, y, (map[x := k] + seen)[y]) {
      if y in seen { assert ReadOk(rows, acc, regs, b, y, seen[y]); }
    }
  }

  lemma FetchReads(s: State, b: BuildId, vs: set<Version>, x: Resource)
    requires b in s.builds && FetchOk(s.rows, s.acc, s.regs, s.builds[b])
    requires ReadOk(s.rows, s.acc, s.regs, s.builds[b], x, SrcOf(s.src, x))
    ensures var bd' := AfterFetch(s, b, vs, x).builds[b];
            forall v :: v in bd'.fetched ==> SeenOk(s.rows, s.acc, s.regs, bd', bd'.fetched[v])
  {
    var bd, bd' := s.builds[b], AfterFetch(s, b, vs, x).builds[b];
    assert SeenOk(s.rows, s.acc, s.regs, bd, map[]);
    hide SeenOk, ReadOk;
    forall v | v in bd'.fetched ensures SeenOk(s.rows, s.acc, s.regs, bd', bd'.fetched[v]) {
      if v in vs { ReadMore(s.rows, s.acc, s.regs, bd, FetchedOf(bd, v), x, SrcOf(s.src, x)); }
      SameReads(s.rows, s.acc, s.regs, bd, bd', bd'.fetched[v]);
    }
  }

  lemma FetchShaped(c: Config, s: State, b: BuildId, vs: set<Version>, x: Resource)
    requires Shape(c, s.builds) && b in s.builds && (s.builds[b].kind == Probe ==> x == s.builds[b].root)
    ensures Shaped(c, AfterFetch(s, b, vs, x).builds[b])
  {
    assert Shaped(c, s.builds[b]);
  }

  lemma RefetchInv(c: Config, w: set<Version>, s: State, b: BuildId, v: Version)
    requires Inv(c, w, s) && b in s.builds
    ensures Inv(c, w, s.(builds := s.builds[b := s.builds[b].(fetched := s.builds[b].fetched[v := map[]])]))
  {
    var bd := s.builds[b];
    var bd' := bd.(fetched := bd.fetched[v := map[]]);
    assert Shaped(c, bd) && FetchOk(s.rows, s.acc, s.regs, bd);
    forall w | w in bd'.fetched ensures SeenOk(s.rows, s.acc, s.regs, bd', bd'.fetched[w]) {
      if w != v { SameReads(s.rows, s.acc, s.regs, bd, bd', bd.fetched[w]); }
    }
    TouchKeeps(c, w, s, b, bd');
    TouchInv(c, w, s, b, bd');
  }

  /** What a touch that checks nothing new keeps of b's documents. */
  lemma TouchKeeps(c: Config, w: set<Version>, s: State, b: BuildId, b': Build)
    requires Inv(c, w, s) && b in s.builds && SameCore(s.builds[b], b') && b'.checked <= s.builds[b].checked
    ensures forall v :: v in b'.docs ==> SeenOk(s.rows, s.acc, s.regs, b', b'.docs[v])
    ensures forall v, x :: OwedOk(s.rows, s.slots, s.acc, s.regs, b', v, x)
  {
    var a := s.builds[b];
    assert FetchOk(s.rows, s.acc, s.regs, a);
    forall v | v in b'.docs
      ensures SeenOk(s.rows, s.acc, s.regs, b', b'.docs[v])
    {
      SameReads(s.rows, s.acc, s.regs, a, b', a.docs[v]);
    }
    forall v, x
      ensures OwedOk(s.rows, s.slots, s.acc, s.regs, b', v, x)
    {
      assert OwedOk(s.rows, s.slots, s.acc, s.regs, a, v, x);
    }
  }

  lemma CheckInv(c: Config, w: set<Version>, s: State, b: BuildId, vs: set<Version>, force: bool)
    requires Inv(c, w, s) && Begun(s, b) && vs <= s.builds[b].edged
    ensures Inv(c, w, AfterCheck(s, b, vs, force))
  {
    var bd := s.builds[b];
    assert Shaped(c, bd) && FetchOk(s.rows, s.acc, s.regs, bd);
    if force || Drifts(s, bd, vs) {
      var bd' := bd.(drifted := bd.drifted + vs);
      SameFetch(s.rows, s.acc, s.regs, bd, bd');
      TouchKeeps(c, w, s, b, bd');
      TouchInv(c, w, s, b, bd');
    } else {
      ClearCheckInv(c, w, s, b, vs);
    }
  }

  lemma ClearCheckInv(c: Config, w: set<Version>, s: State, b: BuildId, vs: set<Version>)
    requires Inv(c, w, s) && Begun(s, b) && vs <= s.builds[b].edged && !Drifts(s, s.builds[b], vs)
    ensures Inv(c, w, s.(builds := s.builds[b := s.builds[b].(checked := s.builds[b].checked + vs)]))
  {
    var bd := s.builds[b];
    var bd' := bd.(checked := bd.checked + vs);
    assert Shaped(c, bd) && FetchOk(s.rows, s.acc, s.regs, bd);
    SameFetch(s.rows, s.acc, s.regs, bd, bd');
    forall v, x ensures OwedOk(s.rows, s.slots, s.acc, s.regs, bd', v, x) {
      if v in vs { NoDriftOwes(s, bd, vs, v, x); } else { assert OwedOk(s.rows, s.slots, s.acc, s.regs, bd, v, x); }
    }
    TouchInv(c, w, s, b, bd');
  }

  /** A check without a hit: the document misses no change, but for a change
      of a root begun before its fetch, which moved the mark. */
  lemma NoDriftOwes(s: State, b: Build, vs: set<Version>, v: Version, x: Resource)
    requires FetchOk(s.rows, s.acc, s.regs, b) && !Drifts(s, b, vs) && v in vs
    ensures OwedOk(s.rows, s.slots, s.acc, s.regs, b.(checked := b.checked + vs), v, x)
  {
    if v in b.docs && x in b.docs[v] {
      assert SeenOk(s.rows, s.acc, s.regs, b, b.docs[v]);
      assert ReadOk(s.rows, s.acc, s.regs, b, x, b.docs[v][x]);
    }
  }

  lemma RemarkInv(c: Config, w: set<Version>, s: State, b: BuildId, isExpired: bool)
    requires Inv(c, w, s) && Begun(s, b) && Unlocked(s, s.builds[b].root)
    ensures Inv(c, w, AfterRemark(s, b, isExpired))
  {
    var bd := s.builds[b];
    var s1 := AfterMark(s, bd.root, true, isExpired);
    MarkInv(c, w, s, bd.root, true, isExpired);
    assert BuildNum(s.n, s.rows, bd) && RowNum(s.n, s.rows, bd.root) && Shaped(c, bd);
    assert FetchOk(s1.rows, s1.acc, s1.regs, s1.builds[b]);
    var bd' := bd.(checked := bd.checked + bd.drifted, drifted := {});
    SameFetch(s1.rows, s1.acc, s1.regs, bd, bd');
    TouchInv(c, w, s1, b, bd');
  }

  /** A walk's entry for a root is opened, or a build takes its Build
      Sequence: it has no document yet and is numbered above every other. */
  lemma OpenInv(c: Config, w: set<Version>, s: State, b: BuildId, b': Build)
    requires Inv(c, w, s) && Shaped(c, b') && BuildNum(s.n, s.rows, b') && b'.docs == map[]
    requires b in s.builds ==> s.builds[b].docs == map[]
    requires b'.idx > 0 ==> b'.staleSeq == RowOf(s.rows, b'.root).staleSeq
    requires b'.idx > 0 ==> forall a :: a in s.builds && a != b ==> s.builds[a].idx < b'.idx
    requires forall v :: v in b'.fetched ==> SeenOk(s.rows, s.acc, s.regs, b', b'.fetched[v])
    ensures Inv(c, w, s.(builds := s.builds[b := b']))
  {
    var s' := s.(builds := s.builds[b := b']);
    forall a | a in s.builds && a != b ensures Ordered(s.builds[a], b') && Ordered(b', s.builds[a]) {
      assert BuildNum(s.n, s.rows, s.builds[a]);
    }
    forall r, v ensures SlotOk(s'.slots, s'.builds, r, v) && StampOk(s'.slots, s'.edges, r, v) {
      assert SlotOk(s.slots, s.builds, r, v) && StampOk(s.slots, s.edges, r, v);
    }
    forall a, v | a in s'.builds ensures EdgedOk(s'.edges, s'.builds[a], v) {
      if a != b { assert EdgedOk(s.edges, s.builds[a], v); }
    }
    UpdateInv(c, w, s, b, b', s');
  }

  lemma BeginInv(c: Config, w: set<Version>, s: State, b: BuildId, bd: Build)
    requires Inv(c, w, s) && Unlocked(s, bd.root) && bd.idx == 0 && Runs(c, bd.kind, bd.versions)
    requires
      if b in s.builds then bd == s.builds[b] else bd.kind != Walk && bd == NewBuild(bd.kind, bd.root, bd.versions, 0)
    ensures Inv(c, w, AfterBegin(s, b, bd))
  {
    var s' := AfterBegin(s, b, bd);
    var s1 := s.(rows := s'.rows, n := s'.n);
    ForwardInv(c, w, s, s'.rows, s'.n);
    var bd' := s'.builds[b];
    assert RowNum(s.n, s.rows, bd.root);
    if b in s.builds {
      assert Shaped(c, bd) && BuildNum(s.n, s.rows, bd) && FetchOk(s1.rows, s1.acc, s1.regs, s1.builds[b]);
      forall v | v in bd'.fetched ensures SeenOk(s1.rows, s1.acc, s1.regs, bd', bd'.fetched[v]) {
        SameReads(s1.rows, s1.acc, s1.regs, bd, bd', bd.fetched[v]);
      }
    }
    forall a | a in s.builds && a != b ensures s.builds[a].idx < bd'.idx { assert BuildNum(s.n, s.rows, s.builds[a]); }
    OpenInv(c, w, s1, b, bd');
    assert s' == s1.(builds := s1.builds[b := bd']);
  }

  lemma WriteInv(c: Config, w: set<Version>, s: State, b: BuildId, vs: set<Version>)
    requires Inv(c, w, s) && Begun(s, b) && vs <= s.builds[b].versions && vs <= s.builds[b].fetched.Keys
    ensures Inv(c, w, AfterWrite(s, b, vs))
  {
    var s' := AfterWrite(s, b, vs);
    var bd, bd' := s.builds[b], s'.builds[b];
    assert Shaped(c, bd) && FetchOk(s.rows, s.acc, s.regs, bd) && BuildNum(s.n, s.rows, bd);
    forall v | v in bd'.fetched ensures SeenOk(s.rows, s.acc, s.regs, bd', bd'.fetched[v]) {
      SameReads(s.rows, s.acc, s.regs, bd, bd', bd.fetched[v]);
    }
    forall v | v in bd'.docs ensures SeenOk(s.rows, s.acc, s.regs, bd', bd'.docs[v]) {
      SameReads(s.rows, s.acc, s.regs, bd, bd', bd'.docs[v]);
    }
    WriteGrows(s, b, vs);
    forall a | a in s.builds && a != b ensures Ordered(s.builds[a], bd') && Ordered(bd', s.builds[a]) {
      assert Ordered(s.builds[a], bd) && Ordered(bd, s.builds[a]);
    }
    forall r, v
      ensures SlotOk(s'.slots, s'.builds, r, v) && StampOk(s'.slots, s'.edges, r, v)
    {
      WriteSlot(c, w, s, b, vs, r, v);
    }
    forall v ensures DocOk(s'.slots, bd', v) { assert DocOk(s.slots, bd, v); }
    forall a, v | a in s'.builds ensures EdgedOk(s'.edges, s'.builds[a], v) { assert EdgedOk(s.edges, s.builds[a], v); }
    forall v | v in w ensures ClearedOk(s.rows, s'.slots, bd', v) { assert ClearedOk(s.rows, s.slots, bd, v); }
    forall v, x ensures OwedOk(s.rows, s'.slots, s.acc, s.regs, bd', v, x) {
      assert OwedOk(s.rows, s.slots, s.acc, s.regs, bd, v, x);
    }
    UpdateInv(c, w, s, b, bd', s');
  }

  lemma WriteGrows(s: State, b: BuildId, vs: set<Version>)
    requires b in s.builds && vs <= s.builds[b].fetched.Keys
    ensures Grows(s.slots, AfterWrite(s, b, vs).slots)
  {
  }

  lemma WriteSlot(c: Config, w: set<Version>, s: State, b: BuildId, vs: set<Version>, r: Resource, v: Version)
    requires Inv(c, w, s) && Begun(s, b) && vs <= s.builds[b].fetched.Keys
    ensures SlotOk(AfterWrite(s, b, vs).slots, AfterWrite(s, b, vs).builds, r, v)
    ensures StampOk(AfterWrite(s, b, vs).slots, AfterWrite(s, b, vs).edges, r, v)
  {
    var s' := AfterWrite(s, b, vs);
    assert SlotOk(s.slots, s.builds, r, v) && StampOk(s.slots, s.edges, r, v);
    if r == s.builds[b].root && v in vs && v in SlotsOf(s.slots, r) && s.builds[b].idx < SlotsOf(s.slots, r)[v].ver {
      assert SlotsOf(s'.slots, r)[v] == SlotsOf(s.slots, r)[v];
    }
  }

  lemma StoreEdgesInv(c: Config, w: set<Version>, s: State, b: BuildId, vs: set<Version>)
    requires Inv(c, w, s) && Begun(s, b) && vs <= s.builds[b].docs.Keys
    ensures Inv(c, w, AfterStoreEdges(s, b, vs))
  {
    var s' := AfterStoreEdges(s, b, vs);
    var bd, bd' := s.builds[b], s'.builds[b];
    assert Shaped(c, bd) && FetchOk(s.rows, s.acc, s.regs, bd) && BuildNum(s.n, s.rows, bd);
    SameFetch(s.rows, s.acc, s.regs, bd, bd');
    forall a | a in s.builds && a != b ensures Ordered(s.builds[a], bd') && Ordered(bd', s.builds[a]) {
      assert Ordered(s.builds[a], bd) && Ordered(bd, s.builds[a]);
    }
    forall r, v
      ensures SlotOk(s'.slots, s'.builds, r, v) && StampOk(s'.slots, s'.edges, r, v)
    {
      StoreStamp(c, w, s, b, vs, r, v);
    }
    forall v ensures DocOk(s'.slots, bd', v) { assert DocOk(s.slots, bd, v); }
    forall a, v | a in s'.builds ensures EdgedOk(s'.edges, s'.builds[a], v) { EdgedStep(c, w, s, b, vs, a, v); }
    forall v | v in w ensures ClearedOk(s.rows, s'.slots, bd', v) { assert ClearedOk(s.rows, s.slots, bd, v); }
    forall v, x ensures OwedOk(s.rows, s'.slots, s.acc, s.regs, bd', v, x) {
      assert OwedOk(s.rows, s.slots, s.acc, s.regs, bd, v, x);
    }
    UpdateInv(c, w, s, b, bd', s');
  }

  lemma StoreStamp(c: Config, w: set<Version>, s: State, b: BuildId, vs: set<Version>, r: Resource, v: Version)
    requires Inv(c, w, s) && Begun(s, b) && vs <= s.builds[b].docs.Keys
    ensures var s' := AfterStoreEdges(s, b, vs); SlotOk(s'.slots, s'.builds, r, v) && StampOk(s'.slots, s'.edges, r, v)
  {
    assert SlotOk(s.slots, s.builds, r, v) && StampOk(s.slots, s.edges, r, v) && DocOk(s.slots, s.builds[b], v);
  }

  lemma EdgedStep(c: Config, w: set<Version>, s: State, b: BuildId, vs: set<Version>, a: BuildId, v: Version)
    requires Inv(c, w, s) && Begun(s, b) && vs <= s.builds[b].docs.Keys && a in s.builds
    ensures EdgedOk(AfterStoreEdges(s, b, vs).edges, AfterStoreEdges(s, b, vs).builds[a], v)
  {
    var bd, s' := s.builds[b], AfterStoreEdges(s, b, vs);
    assert EdgedOk(s.edges, s.builds[a], v) && Shaped(c, s.builds[a]);
    if a != b { assert Ordered(s.builds[a], bd); }
    if s.builds[a].root == bd.root && v in s'.builds[a].edged {
      var stored, after := EdgesOf(s.edges, bd.root), EdgesOf(s'.edges, bd.root);
      if v in vs && (v in stored ==> stored[v].stamp <= bd.idx) {
        assert after[v] == EdgeSet(bd.idx, bd.docs[v].Keys - {bd.root});
      } else {
        assert v in stored && after[v] == stored[v];
      }
    }
  }

  /** A finish that clears the mark wrote every active version after every
      build that captured an earlier mark began. */
  lemma FinishInv(c: Config, w: set<Version>, s: State, b: BuildId, token: nat)
    requires
      && Inv(c, w, s)
      && Covering(c, w)
      && Begun(s, b)
      && s.builds[b].kind != Probe
      && s.builds[b].checked == s.builds[b].versions
    ensures Inv(c, w, AfterFinish(s, b, token))
  {
    var bd := s.builds[b];
    var s' := AfterFinish(s, b, token);
    var s1 := s.(rows := s'.rows);
    forall a, v | a in s.builds && v in w ensures ClearedOk(s'.rows, s.slots, s.builds[a], v) {
      assert ClearedOk(s.rows, s.slots, s.builds[a], v) && DocOk(s.slots, bd, v) && Shaped(c, bd);
      if a != b { assert Ordered(s.builds[a], bd) && Ordered(bd, s.builds[a]); }
    }
    SameSeqsInv(c, w, s, s'.rows);
    var bd' := bd.(finished := true);
    TouchKeeps(c, w, s1, b, bd');
    assert FetchOk(s1.rows, s1.acc, s1.regs, s1.builds[b]) && Shaped(c, s1.builds[b]);
    SameFetch(s1.rows, s1.acc, s1.regs, bd, bd');
    TouchInv(c, w, s1, b, bd');
    assert s' == s1.(builds := s1.builds[b := bd']);
  }

  lemma SameSeqsInv(c: Config, w: set<Version>, s: State, rows: RowMap)
    requires Inv(c, w, s) && Cleared(w, rows, s.slots, s.builds)
    requires forall x {:trigger RowOf(rows, x)} ::
               && RowOf(rows, x).staleSeq == RowOf(s.rows, x).staleSeq
               && RowOf(rows, x).changeSeq == RowOf(s.rows, x).changeSeq
    ensures Inv(c, w, s.(rows := rows))
  {
    forall x ensures RowNum(s.n, rows, x) { assert RowNum(s.n, s.rows, x); }
    forall a | a in s.builds ensures BuildNum(s.n, rows, s.builds[a]) { assert BuildNum(s.n, s.rows, s.builds[a]); }
    LaterRows(s.rows, rows, s.acc, s.regs, s.builds);
    forall g, x | g in s.regs ensures HoldNum(s.n, rows, s.regs, g, x) { assert HoldNum(s.n, s.rows, s.regs, g, x); }
    forall a, v, x | a in s.builds ensures OwedOk(rows, s.slots, s.acc, s.regs, s.builds[a], v, x) {
      assert OwedOk(s.rows, s.slots, s.acc, s.regs, s.builds[a], v, x);
    }
  }

  // ----- Steps of one registration

  lemma RegInv(c: Config, w: set<Version>, s: State, regs: RegMap)
    requires Inv(c, w, s) && Sources(s.src, s.acc, regs)
    requires forall g, x {:trigger HoldNum(s.n, s.rows, regs, g, x)} :: g in regs ==> HoldNum(s.n, s.rows, regs, g, x)
    requires Fetches(s.rows, s.acc, regs, s.builds) && Owed(s.rows, s.slots, s.acc, regs, s.builds)
    ensures Inv(c, w, s.(regs := regs))
  {
  }

  /** A registration that holds nothing more than before leaves every read in
      order. */
  lemma FewerHolds(s: State, regs: RegMap)
    requires Fetches(s.rows, s.acc, s.regs, s.builds)
    requires forall g, x :: g in regs && Holds(regs[g], x) ==> g in s.regs && s.regs[g] == regs[g]
    ensures Fetches(s.rows, s.acc, regs, s.builds)
  {
    forall b | b in s.builds ensures FetchOk(s.rows, s.acc, regs, s.builds[b]) {
      assert FetchOk(s.rows, s.acc, s.regs, s.builds[b]);
      forall x, k | ReadOk(s.rows, s.acc, s.regs, s.builds[b], x, k)
        ensures ReadOk(s.rows, s.acc, regs, s.builds[b], x, k)
      {
      }
    }
  }

  /** Registrations that owe a fanout still do. */
  lemma KeepsOwing(s: State, regs: RegMap)
    requires Owed(s.rows, s.slots, s.acc, s.regs, s.builds)
    requires forall g :: g in s.regs && s.regs[g].phase in {Committed, Read} ==> g in regs && regs[g] == s.regs[g]
    ensures Owed(s.rows, s.slots, s.acc, regs, s.builds)
  {
    forall b, v, x | b in s.builds ensures OwedOk(s.rows, s.slots, s.acc, regs, s.builds[b], v, x) {
      assert OwedOk(s.rows, s.slots, s.acc, s.regs, s.builds[b], v, x);
      forall r, k | SomeOwes(s.regs, r, x, k) ensures SomeOwes(regs, r, x, k) {
        var h :| h in s.regs && Owes(s.regs[h], r, x, k);
        assert Owes(regs[h], r, x, k);
      }
    }
  }

  lemma RegStartInv(c: Config, w: set<Version>, s: State, g: RegId, items: set<Resource>)
    requires Inv(c, w, s) && g !in s.regs
    ensures Inv(c, w, AfterRegStart(s, g, items))
  {
    var regs := AfterRegStart(s, g, items).regs;
    forall h, x | h in regs
      ensures HoldNum(s.n, s.rows, regs, h, x)
    {
      if h != g { assert HoldNum(s.n, s.rows, s.regs, h, x); }
    }
    FewerHolds(s, regs);
    KeepsOwing(s, regs);
    RegInv(c, w, s, regs);
  }

  /** What a registration draws is above every start. */
  lemma DrawReads(c: Config, w: set<Version>, s: State, g: RegId, nums: map<Resource, nat>, n': nat)
    requires Inv(c, w, s) && g in s.regs && s.regs[g].phase == Started && Draws(nums, s.regs[g].revs.Keys, s.n, n')
    ensures Fetches(s.rows, s.acc, AfterRegDraw(s, g, nums, n').regs, s.builds)
  {
    var regs := AfterRegDraw(s, g, nums, n').regs;
    forall b | b in s.builds ensures FetchOk(s.rows, s.acc, regs, s.builds[b]) {
      assert FetchOk(s.rows, s.acc, s.regs, s.builds[b]) && BuildNum(s.n, s.rows, s.builds[b]);
      forall x, k | ReadOk(s.rows, s.acc, s.regs, s.builds[b], x, k)
        ensures ReadOk(s.rows, s.acc, regs, s.builds[b], x, k)
      {
      }
    }
  }

  lemma RegDrawInv(c: Config, w: set<Version>, s: State, g: RegId, nums: map<Resource, nat>, n': nat)
    requires Inv(c, w, s) && g in s.regs && s.regs[g].phase == Started && Draws(nums, s.regs[g].revs.Keys, s.n, n')
    requires forall x :: x in s.regs[g].revs ==> Unlocked(s, x)
    ensures Inv(c, w, AfterRegDraw(s, g, nums, n'))
  {
    var s1 := s.(rows := s.rows, n := n');
    ForwardInv(c, w, s, s.rows, n');
    var regs := AfterRegDraw(s, g, nums, n').regs;
    forall h, x | h in regs ensures HoldNum(n', s.rows, regs, h, x) {
      assert HoldNum(s.n, s.rows, s.regs, h, x) && RowNum(s.n, s.rows, x);
    }
    DrawReads(c, w, s, g, nums, n');
    KeepsOwing(s, regs);
    RegInv(c, w, s1, regs);
  }

  /** The second fanout's read finds the root of every checked document that
      misses the change: its edges are the document's, or a later build
      replaced it. */
  lemma RegReadInv(c: Config, w: set<Version>, s: State, g: RegId)
    requires Inv(c, w, s) && g in s.regs && s.regs[g].phase == Committed
    ensures Inv(c, w, AfterRegRead(s, g))
  {
    var regs := AfterRegRead(s, g).regs;
    forall h, x | h in regs ensures HoldNum(s.n, s.rows, regs, h, x) { assert HoldNum(s.n, s.rows, s.regs, h, x); }
    FewerHolds(s, regs);
    forall b, v, x | b in s.builds ensures OwedOk(s.rows, s.slots, s.acc, regs, s.builds[b], v, x) {
      var bd := s.builds[b];
      assert OwedOk(s.rows, s.slots, s.acc, s.regs, bd, v, x);
      assert Shaped(c, bd) && EdgedOk(s.edges, bd, v) && StampOk(s.slots, s.edges, bd.root, v);
      if && v in bd.checked
         && x in bd.docs[v]
         && SomeOwes(s.regs, bd.root, x, bd.docs[v][x])
         && VerOf(s.slots, bd.root, v) <= bd.idx
      {
        var h :| h in s.regs && Owes(s.regs[h], bd.root, x, bd.docs[v][x]);
        if h == g {
          assert x in EdgesOf(s.edges, bd.root)[v].kids * s.regs[g].accepted;
          assert bd.root in ParentsIn(s.edges, s.regs[g].accepted);
        }
        assert Owes(regs[h], bd.root, x, bd.docs[v][x]);
      }
    }
    RegInv(c, w, s, regs);
  }

  lemma MarkAllRow(rows: RowMap, nums: map<Resource, nat>, expired: set<Resource>, x: Resource)
    ensures RowOf(MarkAll(rows, nums.Keys, nums, expired), x)
         == if x in nums then Mark(RowOf(rows, x), nums[x], true, x in expired) else RowOf(rows, x)
  {
  }

  lemma MarkAllForward(c: Config, w: set<Version>, s: State, nums: map<Resource, nat>, n': nat, expired: set<Resource>)
    requires Inv(c, w, s) && Draws(nums, nums.Keys, s.n, n') && forall p :: p in nums ==> Unlocked(s, p)
    ensures Forward(s, MarkAll(s.rows, nums.Keys, nums, expired), n')
  {
    var rows := MarkAll(s.rows, nums.Keys, nums, expired);
    forall x ensures && RowOf(rows, x).changeSeq == RowOf(s.rows, x).changeSeq
                     && (RowOf(rows, x).staleSeq == RowOf(s.rows, x).staleSeq ==>
                           RowOf(rows, x).stale == RowOf(s.rows, x).stale)
                     && (RowOf(rows, x).staleSeq != RowOf(s.rows, x).staleSeq ==>
                           s.n < RowOf(rows, x).staleSeq <= n' && RowOf(rows, x).stale && Unlocked(s, x))
    {
      MarkAllRow(s.rows, nums, expired, x);
      assert RowNum(s.n, s.rows, x);
    }
  }

  lemma RegMarkInv(
      c: Config, w: set<Version>, s: State, g: RegId, nums: map<Resource, nat>, n': nat, expired: set<Resource>)
    requires Inv(c, w, s) && g in s.regs && s.regs[g].phase == Read && Draws(nums, s.regs[g].missed, s.n, n')
    requires forall p :: p in nums ==> Unlocked(s, p)
    ensures Inv(c, w, AfterRegMark(s, g, nums, n', expired))
  {
    var s' := AfterRegMark(s, g, nums, n', expired);
    var s1 := s.(rows := s'.rows, n := n');
    MarkAllForward(c, w, s, nums, n', expired);
    ForwardInv(c, w, s, s'.rows, n');
    var regs := s'.regs;
    forall h, x | h in regs ensures HoldNum(n', s'.rows, regs, h, x) { assert HoldNum(n', s'.rows, s.regs, h, x); }
    FewerHolds(s1, regs);
    forall b, v, x | b in s.builds ensures OwedOk(s'.rows, s.slots, s.acc, regs, s.builds[b], v, x) {
      var bd := s.builds[b];
      assert OwedOk(s'.rows, s.slots, s.acc, s.regs, bd, v, x) && BuildNum(s.n, s.rows, bd);
      if v in bd.docs && x in bd.docs[v] && SomeOwes(s.regs, bd.root, x, bd.docs[v][x]) {
        var h :| h in s.regs && Owes(s.regs[h], bd.root, x, bd.docs[v][x]);
        if h != g {
          assert Owes(regs[h], bd.root, x, bd.docs[v][x]);
        } else {
          MarkAllRow(s.rows, nums, expired, bd.root);
          assert RowNum(s.n, s.rows, bd.root);
        }
      }
    }
    RegInv(c, w, s1, regs);
    assert s' == s1.(regs := regs);
  }

  /** What a commit leaves in row x. */
  ghost predicate CommitRow(s: State, s': State, g: RegId, accepted: set<Resource>, parents: set<Resource>, x: Resource)
    requires g in s.regs
  {
    var r, r' := RowOf(s.rows, x), RowOf(s'.rows, x);
    && (x !in accepted && x !in parents ==> r' == r)
    && (x in accepted || x in parents ==> r'.stale && r.staleSeq < r'.staleSeq <= s'.n && UnlockedBut(s, g, x))
    && (x in accepted ==>
          x in s.regs[g].nums && r'.changeSeq == s.regs[g].nums[x] == r'.staleSeq && r.changeSeq < r'.changeSeq)
    && (x !in accepted ==> r'.changeSeq == r.changeSeq)
  }

  ghost predicate Commits(s: State, s': State, g: RegId, accepted: set<Resource>, parents: set<Resource>) {
    && g in s.regs && s.regs[g].phase == Drawn && accepted <= s.regs[g].revs.Keys && s.n <= s'.n
    && s' == s.(n := s'.n, rows := s'.rows, acc := s'.acc,
                regs := s.regs[g := s.regs[g].(phase := Committed, accepted := accepted, parents := parents)])
    && (forall x :: CommitRow(s, s', g, accepted, parents, x))
    && (forall x :: AccOf(s'.acc, x) ==
          if x in accepted && AccOf(s.acc, x) < s.regs[g].revs[x] then s.regs[g].revs[x] else AccOf(s.acc, x))
  }

  lemma NumbersOf(c: Config, w: set<Version>, s: State, g: RegId, x: Resource)
    requires Inv(c, w, s) && g in s.regs
    ensures HoldNum(s.n, s.rows, s.regs, g, x) && RowNum(s.n, s.rows, x)
  {
    hide Order, Shape, Sources, Fetches, Slots, EdgeSets, Cleared, Owed;
  }

  /** What a commit leaves of one row. */
  lemma CommittedRow(
      s: State, g: RegId, accepted: set<Resource>, deleted: set<Resource>, nums: map<Resource, nat>, n': nat,
      expired: set<Resource>, x: Resource)
    requires CanCommit(s, g, accepted, nums, n')
    ensures var s', r := AfterRegCommit(s, g, accepted, deleted, nums, n', expired), RowOf(s.rows, x);
            && s'.n == n' && (x in accepted ==> x !in nums && x in s.regs[g].nums)
            && RowOf(s'.rows, x) ==
                 if x in nums then Mark(r, nums[x], true, x in expired)
                 else if x in accepted then Register(r, x in deleted, 0, s.regs[g].nums[x], x in expired)
                 else r
  {
    RegisterAllRow(s.rows, accepted, s.regs[g].nums, deleted, expired, x);
    MarkAllRow(RegisterAll(s.rows, accepted, s.regs[g].nums, deleted, expired), nums, expired, x);
    hide RegisterAll, MarkAll;
  }

  lemma RegCommitRow(
      c: Config, w: set<Version>, s: State, g: RegId, accepted: set<Resource>, deleted: set<Resource>,
      nums: map<Resource, nat>, n': nat, expired: set<Resource>, x: Resource)
    requires Inv(c, w, s) && CanCommit(s, g, accepted, nums, n')
    ensures CommitRow(s, AfterRegCommit(s, g, accepted, deleted, nums, n', expired), g, accepted, nums.Keys, x)
  {
    hide Inv, AfterRegCommit;
    NumbersOf(c, w, s, g, x);
    CommittedRow(s, g, accepted, deleted, nums, n', expired, x);
    if x in accepted { assert Holds(s.regs[g], x); }
  }

  lemma RegCommitRows(
      c: Config, w: set<Version>, s: State, g: RegId, accepted: set<Resource>, deleted: set<Resource>,
      nums: map<Resource, nat>, n': nat, expired: set<Resource>)
    requires Inv(c, w, s) && CanCommit(s, g, accepted, nums, n')
    ensures Commits(s, AfterRegCommit(s, g, accepted, deleted, nums, n', expired), g, accepted, nums.Keys)
  {
    var s' := AfterRegCommit(s, g, accepted, deleted, nums, n', expired);
    forall x ensures CommitRow(s, s', g, accepted, nums.Keys, x) {
      RegCommitRow(c, w, s, g, accepted, deleted, nums, n', expired, x);
    }
    CommitAcc(s, g, accepted, deleted, nums, n', expired);
  }

  lemma RegisterAllRow(
      rows: RowMap, items: set<Resource>, nums: map<Resource, nat>, deleted: set<Resource>, expired: set<Resource>,
      x: Resource)
    requires items <= nums.Keys
    ensures RowOf(RegisterAll(rows, items, nums, deleted, expired), x)
         == if x in items then Register(RowOf(rows, x), x in deleted, 0, nums[x], x in expired) else RowOf(rows, x)
  {
  }

  lemma CommitAcc(
      s: State, g: RegId, accepted: set<Resource>, deleted: set<Resource>, nums: map<Resource, nat>, n': nat,
      expired: set<Resource>)
    requires CanCommit(s, g, accepted, nums, n')
    ensures var s' := AfterRegCommit(s, g, accepted, deleted, nums, n', expired);
            forall x :: AccOf(s'.acc, x) ==
              if x in accepted && AccOf(s.acc, x) < s.regs[g].revs[x] then s.regs[g].revs[x] else AccOf(s.acc, x)
  {
  }

  lemma CommitReads(
      s: State, s': State, g: RegId, accepted: set<Resource>, parents: set<Resource>, b: Build, x: Resource, k: nat)
    requires Commits(s, s', g, accepted, parents) && BuildNum(s.n, s.rows, b) && ReadOk(s.rows, s.acc, s.regs, b, x, k)
    ensures ReadOk(s'.rows, s'.acc, s'.regs, b, x, k)
  {
    assert CommitRow(s, s', g, accepted, parents, x);
    if x in accepted { assert Holds(s.regs[g], x); }
  }

  lemma CommitFetches(
      c: Config, w: set<Version>, s: State, s': State, g: RegId, accepted: set<Resource>, parents: set<Resource>)
    requires Inv(c, w, s) && Commits(s, s', g, accepted, parents)
    ensures Fetches(s'.rows, s'.acc, s'.regs, s.builds)
  {
    forall b | b in s.builds ensures FetchOk(s'.rows, s'.acc, s'.regs, s.builds[b]) {
      assert BuildNum(s.n, s.rows, s.builds[b]) && FetchOk(s.rows, s.acc, s.regs, s.builds[b]);
      forall x, k | ReadOk(s.rows, s.acc, s.regs, s.builds[b], x, k)
        ensures ReadOk(s'.rows, s'.acc, s'.regs, s.builds[b], x, k)
      {
        CommitReads(s, s', g, accepted, parents, s.builds[b], x, k);
      }
    }
  }

  lemma CommitOwed(
      s: State, s': State, g: RegId, accepted: set<Resource>, parents: set<Resource>, b: Build, v: Version, x: Resource)
    requires
      && Commits(s, s', g, accepted, parents)
      && BuildNum(s.n, s.rows, b)
      && OwedOk(s.rows, s.slots, s.acc, s.regs, b, v, x)
    ensures OwedOk(s'.rows, s'.slots, s'.acc, s'.regs, b, v, x)
  {
    assert CommitRow(s, s', g, accepted, parents, b.root);
    if v in b.checked && v in b.docs && x in b.docs[v] && b.docs[v][x] < AccOf(s'.acc, x)
       && b.staleSeq == RowOf(s'.rows, b.root).staleSeq
    {
      if b.docs[v][x] < AccOf(s.acc, x) {
        if SomeOwes(s.regs, b.root, x, b.docs[v][x]) {
          var h :| h in s.regs && Owes(s.regs[h], b.root, x, b.docs[v][x]);
          assert Owes(s'.regs[h], b.root, x, b.docs[v][x]);
        }
      } else {
        assert Owes(s'.regs[g], b.root, x, b.docs[v][x]);
      }
    }
  }

  lemma CommitInv(
      c: Config, w: set<Version>, s: State, s': State, g: RegId, accepted: set<Resource>, parents: set<Resource>)
    requires Inv(c, w, s) && Commits(s, s', g, accepted, parents)
    ensures Inv(c, w, s')
  {
    forall x
      ensures RowNum(s'.n, s'.rows, x)
    {
      assert RowNum(s.n, s.rows, x) && CommitRow(s, s', g, accepted, parents, x);
    }
    forall b | b in s.builds ensures BuildNum(s'.n, s'.rows, s.builds[b]) {
      assert BuildNum(s.n, s.rows, s.builds[b]) && CommitRow(s, s', g, accepted, parents, s.builds[b].root);
    }
    forall h, x | h in s'.regs ensures HoldNum(s'.n, s'.rows, s'.regs, h, x) {
      assert HoldNum(s.n, s.rows, s.regs, h, x) && CommitRow(s, s', g, accepted, parents, x);
    }
    CommitFetches(c, w, s, s', g, accepted, parents);
    forall b, v | b in s.builds && v in w ensures ClearedOk(s'.rows, s.slots, s.builds[b], v) {
      assert ClearedOk(s.rows, s.slots, s.builds[b], v) && CommitRow(s, s', g, accepted, parents, s.builds[b].root);
    }
    forall b, v, x | b in s.builds ensures OwedOk(s'.rows, s.slots, s'.acc, s'.regs, s.builds[b], v, x) {
      assert BuildNum(s.n, s.rows, s.builds[b]) && OwedOk(s.rows, s.slots, s.acc, s.regs, s.builds[b], v, x);
      CommitOwed(s, s', g, accepted, parents, s.builds[b], v, x);
    }
  }

  lemma RegCommitInv(
      c: Config, w: set<Version>, s: State, g: RegId, accepted: set<Resource>, deleted: set<Resource>,
      nums: map<Resource, nat>, n': nat, expired: set<Resource>)
    requires Inv(c, w, s) && CanCommit(s, g, accepted, nums, n')
    ensures Inv(c, w, AfterRegCommit(s, g, accepted, deleted, nums, n', expired))
  {
    RegCommitRows(c, w, s, g, accepted, deleted, nums, n', expired);
    CommitInv(c, w, s, AfterRegCommit(s, g, accepted, deleted, nums, n', expired), g, accepted, nums.Keys);
  }

  // ----- Every step, every run

  lemma BuildStepInv(c: Config, w: set<Version>, s: State, st: Step)
    requires Inv(c, w, s) && Covering(c, w) && Enabled(c, s, st)
    requires st.StartWalk? || st.BeginFirst? || st.BeginWalk? || st.Fetch? || st.Refetch? || st.Write? || st.StoreEdges?
             || st.CheckDrift? || st.Remark? || st.FinishBuild?
    ensures Inv(c, w, Apply(c, s, st))
  {
    match st
    case StartWalk(b, root, versions, start) => OpenInv(c, w, s, b, NewBuild(Walk, root, versions, start));
    case BeginFirst(b, kind, root, versions) => BeginInv(c, w, s, b, NewBuild(kind, root, versions, 0));
    case BeginWalk(b) => assert Shaped(c, s.builds[b]); BeginInv(c, w, s, b, s.builds[b]);
    case Fetch(b, vs, x) => FetchInv(c, w, s, b, vs, x);
    case Refetch(b, v) => RefetchInv(c, w, s, b, v);
    case Write(b, vs) => WriteInv(c, w, s, b, vs);
    case StoreEdges(b, vs) => StoreEdgesInv(c, w, s, b, vs);
    case CheckDrift(b, vs, force) => CheckInv(c, w, s, b, vs, force);
    case Remark(b, isExpired) => RemarkInv(c, w, s, b, isExpired);
    case FinishBuild(b, token) => FinishInv(c, w, s, b, token);
  }

  lemma StepInv(c: Config, w: set<Version>, s: State, st: Step)
    requires Inv(c, w, s) && Covering(c, w) && Enabled(c, s, st)
    ensures Inv(c, w, Apply(c, s, st))
  {
    match st
    case SourceChange(x) =>
    case NextChangeSeq => ForwardInv(c, w, s, s.rows, s.n + 1);
    case MarkRow(x, lease, isExpired) => MarkInv(c, w, s, x, lease, isExpired);
    case RegStart(g, items) => RegStartInv(c, w, s, g, items);
    case RegDraw(g, nums, n') => RegDrawInv(c, w, s, g, nums, n');
    case RegCommit(g, accepted, deleted, nums, n',
      expired) => RegCommitInv(c, w, s, g, accepted, deleted, nums, n', expired);
    case RegRead(g) => RegReadInv(c, w, s, g);
    case RegMark(g, nums, n', expired) => RegMarkInv(c, w, s, g, nums, n', expired);
    case _ => BuildStepInv(c, w, s, st);
  }

  lemma {:induction false} RunInv(c: Config, w: set<Version>, s: State, run: seq<Step>)
    requires Inv(c, w, s) && Covering(c, w) && Valid(c, s, run)
    ensures Inv(c, w, Exec(c, s, run))
    decreases |run|
  {
    if run != [] {
      StepInv(c, w, s, run[0]);
      RunInv(c, w, Apply(c, s, run[0]), run[1..]);
    }
  }
}
