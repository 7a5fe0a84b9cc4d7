// The protocol that keeps documents in step with the source: builds, rebuild
// walks, probe passes, marks and registrations of any number of resources
// interleave, each step one atomic statement or one request. The source of a
// resource is a revision counter; a fetch reads the current one, and a
// registration covers every revision up to the one current when it started.
// Rows are never hard-deleted here (RowProtocol models deletes).

module ConvergenceModel {
  import opened Rows

  type BuildId = nat
  type RegId = nat

  /** The source revision a document embeds of each resource it was built from. */
  type Seen = map<Resource, nat>

  /** Live runs every active plan; ById and Walk run a rebuild's selection;
      Probe is the pass that decides one version of a listed row: it reads of the
      source only the row's own resource, writes a version without children and
      never checks for drift or finishes. Every kind but Walk begins a root
      before it fetches it. */
  datatype Kind = Live | ById | Walk | Probe

  datatype Build = Build(
    kind: Kind,
    root: Resource,
    versions: set<Version>,
    start: nat,                   // where the drift check measures from
    idx: nat,                     // Build Sequence; 0 until begun
    staleSeq: nat,                // captured at the begin
    fetched: map<Version, Seen>,
    docs: map<Version, Seen>,     // what was written last, per version
    edged: set<Version>,          // versions whose edge set was offered
    drifted: set<Version>,        // checked with a hit, the re-mark not yet made
    checked: set<Version>,        // drift check run, its re-mark made
    finished: bool)

  datatype Slot = Slot(ver: nat, writer: BuildId, seen: Seen)

  datatype EdgeSet = EdgeSet(stamp: nat, kids: set<Resource>)

  type Edges = map<Resource, map<Version, EdgeSet>>

  /** A registration's statement starts (and takes its snapshot), locks and
      draws, commits; then it reads the Parents its fanout missed and marks
      them. */
  datatype Phase = Started | Drawn | Committed | Read | Done

  datatype Reg = Reg(
    phase: Phase,
    revs: map<Resource, nat>,
    snapshot: Edges,
    nums: map<Resource, nat>,
    accepted: set<Resource>,
    parents: set<Resource>,
    missed: set<Resource>)

  datatype State = State(
    n: nat,                                   // last Change Sequence value drawn
    src: map<Resource, nat>,
    rows: map<Resource, Row>,
    slots: map<Resource, map<Version, Slot>>,
    edges: Edges,
    builds: map<BuildId, Build>,
    regs: map<RegId, Reg>,
    acc: map<Resource, nat>)                  // highest revision an accepted change covers

  const Init: State := State(0, map[], map[], map[], map[], map[], map[], map[])

  /** A deployment: the versions with an active plan, and the version
      selections its rebuilds run. */
  datatype Config = Config(live: set<Version>, selections: set<set<Version>>)

  function SrcOf(src: map<Resource, nat>, x: Resource): nat { if x in src then src[x] else 0 }

  function AccOf(acc: map<Resource, nat>, x: Resource): nat { if x in acc then acc[x] else 0 }

  function SlotsOf(
      slots: map<Resource, map<Version, Slot>>, r: Resource
      ): map<Version, Slot> { if r in slots then slots[r] else map[] }

  function EdgesOf(e: Edges, r: Resource): map<Version, EdgeSet> { if r in e then e[r] else map[] }

  function VerOf(slots: map<Resource, map<Version, Slot>>, r: Resource, v: Version): nat {
    if v in SlotsOf(slots, r) then SlotsOf(slots, r)[v].ver else 0
  }

  function FetchedOf(b: Build, v: Version): Seen { if v in b.fetched then b.fetched[v] else map[] }

  /** The Parents whose stored edges name one of the children. */
  function ParentsIn(e: Edges, children: set<Resource>): set<Resource> {
    set r | r in e && exists v :: v in e[r] && e[r][v].kids * children != {}
  }

  /** Between its draw and its commit a registration holds its items' rows. */
  predicate Holds(g: Reg, x: Resource) { g.phase == Drawn && x in g.revs }

  ghost predicate Unlocked(s: State, x: Resource) {
    forall g :: g in s.regs ==> !Holds(s.regs[g], x)
  }

  ghost predicate UnlockedBut(s: State, own: RegId, x: Resource) {
    forall g :: g in s.regs && g != own ==> !Holds(s.regs[g], x)
  }

  /** Fresh Change Sequence values for a set of rows, drawn after `n`. */
  predicate Draws(nums: map<Resource, nat>, targets: set<Resource>, n: nat, n': nat) {
    nums.Keys == targets && n <= n' && forall x :: x in nums ==> n < nums[x] <= n'
  }

  function MarkAll(
      rows: map<Resource, Row>, targets: set<Resource>, nums: map<Resource, nat>, expired: set<Resource>
      ): map<Resource, Row>
    requires targets <= nums.Keys
  {
    rows + map x | x in targets :: Mark(RowOf(rows, x), nums[x], true, x in expired)
  }

  function RegisterAll(
      rows: map<Resource, Row>, items: set<Resource>, nums: map<Resource, nat>, deleted: set<Resource>,
      expired: set<Resource>): map<Resource, Row>
    requires items <= nums.Keys
  {
    rows + map x | x in items :: Register(RowOf(rows, x), x in deleted, 0, nums[x], x in expired)
  }

  /** The drift check: a checked resource's change_seq exceeds the start. The
      root is checked only by a walk, which fetched it before its begin. */
  ghost predicate Drifts(s: State, b: Build, vs: set<Version>) {
    exists v, x :: v in vs && v in b.docs && x in b.docs[v] && (x != b.root || b.kind == Walk)
      && b.start < RowOf(s.rows, x).changeSeq
  }

  datatype Step =
    | SourceChange(x: Resource)
    | NextChangeSeq
    | StartWalk(b: BuildId, root: Resource, versions: set<Version>, start: nat)
    | BeginFirst(b: BuildId, kind: Kind, root: Resource, versions: set<Version>)
    | BeginWalk(b: BuildId)
    | Fetch(b: BuildId, vs: set<Version>, x: Resource)
    | Refetch(b: BuildId, v: Version)
    | Write(b: BuildId, vs: set<Version>)
    | StoreEdges(b: BuildId, vs: set<Version>)
    | CheckDrift(b: BuildId, vs: set<Version>, force: bool)
    | Remark(b: BuildId, isExpired: bool)
    | FinishBuild(b: BuildId, token: nat)
    | MarkRow(x: Resource, lease: bool, isExpired: bool)
    | RegStart(g: RegId, items: set<Resource>)
    | RegDraw(g: RegId, nums: map<Resource, nat>, n': nat)
    | RegCommit(g: RegId, accepted: set<Resource>, deleted: set<Resource>, nums: map<Resource, nat>,
                n': nat, expired: set<Resource>)
    | RegRead(g: RegId)
    | RegMark(g: RegId, nums: map<Resource, nat>, n': nat, expired: set<Resource>)

  ghost predicate Runs(c: Config, kind: Kind, versions: set<Version>) {
    match kind
    case Live => versions == c.live
    case ById => versions in c.selections
    case Walk => versions in c.selections
    case Probe => versions <= c.live
  }

  ghost predicate Begun(s: State, b: BuildId) {
    b in s.builds && s.builds[b].idx > 0 && !s.builds[b].finished
  }

  /** The statement marks the Parents its snapshot's edges name of the
      accepted items, but for accepted items themselves. */
  ghost predicate CanCommit(s: State, g: RegId, accepted: set<Resource>, nums: map<Resource, nat>, n': nat) {
    && g in s.regs && s.regs[g].phase == Drawn && accepted <= s.regs[g].revs.Keys
    && accepted <= s.regs[g].nums.Keys
    && Draws(nums, ParentsIn(s.regs[g].snapshot, accepted) - accepted, s.n, n')
    && forall p :: p in nums ==> UnlockedBut(s, g, p)
  }

  ghost predicate Enabled(c: Config, s: State, st: Step) {
    match st
    case SourceChange(_) => true
    case NextChangeSeq => true
    case StartWalk(b, root, versions, start) =>
      b !in s.builds && start <= s.n && Runs(c, Walk, versions)
    case BeginFirst(b, kind, root, versions) =>
      b !in s.builds && kind != Walk && Runs(c, kind, versions) && Unlocked(s, root)
    case BeginWalk(b) =>
      b in s.builds && s.builds[b].kind == Walk && s.builds[b].idx == 0 && Unlocked(s, s.builds[b].root)
    case Fetch(b, vs, x) =>
      b in s.builds && !s.builds[b].finished && vs <= s.builds[b].versions
      && (s.builds[b].kind == Probe ==> x == s.builds[b].root)
    case Refetch(b, v) =>
      b in s.builds && !s.builds[b].finished
    case Write(b, vs) =>
      Begun(s, b) && vs <= s.builds[b].versions && vs <= s.builds[b].fetched.Keys
      && forall v :: v in vs ==> s.builds[b].root in s.builds[b].fetched[v]
    case StoreEdges(b, vs) =>
      Begun(s, b) && vs <= s.builds[b].docs.Keys
    case CheckDrift(b, vs, force) =>
      Begun(s, b) && s.builds[b].kind != Probe && vs <= s.builds[b].edged
    case Remark(b, _) =>
      Begun(s, b) && s.builds[b].kind != Probe && Unlocked(s, s.builds[b].root)
    case FinishBuild(b, token) =>
      Begun(s, b) && s.builds[b].kind != Probe && s.builds[b].checked == s.builds[b].versions
      && Unlocked(s, s.builds[b].root)
    case MarkRow(x, _, _) =>
      Unlocked(s, x)
    case RegStart(g, items) =>
      g !in s.regs
    case RegDraw(g, nums, n') =>
      g in s.regs && s.regs[g].phase == Started && Draws(nums, s.regs[g].revs.Keys, s.n, n')
      && forall x :: x in s.regs[g].revs ==> Unlocked(s, x)
    case RegCommit(g, accepted, deleted, nums, n', _) =>
      CanCommit(s, g, accepted, nums, n')
    case RegRead(g) =>
      g in s.regs && s.regs[g].phase == Committed
    case RegMark(g, nums, n', _) =>
      g in s.regs && s.regs[g].phase == Read && Draws(nums, s.regs[g].missed, s.n, n')
      && forall p :: p in nums ==> Unlocked(s, p)
  }

  // ----- What each step leaves

  function AfterBegin(s: State, b: BuildId, bd: Build): State {
    var idx := s.n + 1;
    var row := RowOf(s.rows, bd.root);
    s.(n := idx, rows := s.rows[bd.root := Begin(row, idx)],
       builds := s.builds[b := bd.(idx := idx, staleSeq := row.staleSeq,
                                   start := if bd.kind == Walk then bd.start else idx)])
  }

  function NewBuild(kind: Kind, root: Resource, versions: set<Version>, start: nat): Build {
    Build(kind, root, versions, start, 0, 0, map[], map[], {}, {}, {}, false)
  }

  /** A resource two relations name is read twice; the document is as old as
      the older read. */
  function AfterFetch(s: State, b: BuildId, vs: set<Version>, x: Resource): State
    requires b in s.builds
  {
    var bd := s.builds[b];
    s.(
      builds := s.builds[
        b := bd.(fetched := bd.fetched + map v | v in vs :: map[x := SrcOf(s.src, x)] + FetchedOf(bd, v))])
  }

  /** The bulk write: each document replaces the kept one unless that one's
      version is higher. */
  function AfterWrite(s: State, b: BuildId, vs: set<Version>): State
    requires b in s.builds && vs <= s.builds[b].fetched.Keys
  {
    var bd := s.builds[b];
    var won := map v | v in vs && VerOf(s.slots, bd.root, v) <= bd.idx :: Slot(bd.idx, b, bd.fetched[v]);
    s.(slots := s.slots[bd.root := SlotsOf(s.slots, bd.root) + won],
       builds := s.builds[b := bd.(docs := bd.docs + map v | v in vs :: bd.fetched[v],
                                   edged := bd.edged - vs, drifted := bd.drifted - vs, checked := bd.checked - vs)])
  }

  /** ReplaceEdges: a set stamped above the build is left. */
  function AfterStoreEdges(s: State, b: BuildId, vs: set<Version>): State
    requires b in s.builds && vs <= s.builds[b].docs.Keys
  {
    var bd := s.builds[b];
    var stored := EdgesOf(s.edges, bd.root);
    var won :=
      map v | v in vs && (v in stored ==> stored[v].stamp <= bd.idx) :: EdgeSet(bd.idx, bd.docs[v].Keys - {bd.root});
    s.(edges := s.edges[bd.root := stored + won],
       builds := s.builds[b := bd.(edged := bd.edged + vs)])
  }

  ghost function AfterCheck(s: State, b: BuildId, vs: set<Version>, force: bool): State
    requires b in s.builds
  {
    var bd := s.builds[b];
    if force || Drifts(s, bd, vs) then
      s.(builds := s.builds[b := bd.(drifted := bd.drifted + vs)])
    else
      s.(builds := s.builds[b := bd.(checked := bd.checked + vs)])
  }

  function AfterMark(s: State, x: Resource, lease: bool, isExpired: bool): State {
    s.(n := s.n + 1, rows := s.rows[x := Mark(RowOf(s.rows, x), s.n + 1, lease, isExpired)])
  }

  function AfterRemark(s: State, b: BuildId, isExpired: bool): State
    requires b in s.builds
  {
    var bd := s.builds[b];
    AfterMark(s, bd.root, true,
      isExpired).(builds := s.builds[b := bd.(checked := bd.checked + bd.drifted, drifted := {})])
  }

  /** ClearStale, or FinishOwned for a build that holds a token: either clears
      the mark it captured; a moved mark stays, and only a finish that still
      holds the row takes it over. */
  function AfterFinish(s: State, b: BuildId, token: nat): (s': State)
    requires b in s.builds
    ensures s' == s.(rows := s'.rows, builds := s.builds[b := s.builds[b].(finished := true)])
    ensures var bd := s.builds[b];
            var r, r' := RowOf(s.rows, bd.root), RowOf(s'.rows, bd.root);
            && bd.root in s'.rows && s'.rows == s.rows[bd.root := r'] && SameMark(r, r')
            && (r'.stale <==> r.stale && r.staleSeq != bd.staleSeq)
            && (r.staleSeq == bd.staleSeq ==> r'.owner == 0 && NoBackoff(r'))
            && (r.staleSeq != bd.staleSeq && token == 0 ==> r'.owner == r.owner && NoBackoff(r'))
            && (r.staleSeq != bd.staleSeq && r.owner == token != 0 ==> r'.owner == r.staleSeq && NoBackoff(r'))
            && (r.staleSeq != bd.staleSeq && token != 0 && r.owner != token ==> r' == r)
  {
    var bd := s.builds[b];
    var row := RowOf(s.rows, bd.root);
    s.(rows := s.rows[bd.root := if token == 0 then Clear(row, bd.staleSeq) else Finish(row, bd.staleSeq, token).0],
       builds := s.builds[b := bd.(finished := true)])
  }

  function AfterRegStart(s: State, g: RegId, items: set<Resource>): State {
    s.(regs := s.regs[g := Reg(Started, map x | x in items :: SrcOf(s.src, x), s.edges, map[], {}, {}, {})])
  }

  function AfterRegDraw(s: State, g: RegId, nums: map<Resource, nat>, n': nat): State
    requires g in s.regs
  {
    s.(n := n', regs := s.regs[g := s.regs[g].(phase := Drawn, nums := nums)])
  }

  function AfterRegCommit(
      s: State, g: RegId, accepted: set<Resource>, deleted: set<Resource>, nums: map<Resource, nat>, n': nat,
      expired: set<Resource>): State
    requires g in s.regs && accepted <= s.regs[g].nums.Keys && accepted <= s.regs[g].revs.Keys
  {
    var rg := s.regs[g];
    s.(n := n',
       rows := MarkAll(RegisterAll(s.rows, accepted, rg.nums, deleted, expired), nums.Keys, nums, expired),
       regs := s.regs[g := rg.(phase := Committed, accepted := accepted, parents := nums.Keys)],
       acc := s.acc + map x | x in accepted :: if AccOf(s.acc, x) < rg.revs[x] then rg.revs[x] else AccOf(s.acc, x))
  }

  function AfterRegRead(s: State, g: RegId): State
    requires g in s.regs
  {
    var rg := s.regs[g];
    s.(regs := s.regs[g := rg.(phase := Read, missed := ParentsIn(s.edges, rg.accepted) - rg.accepted - rg.parents)])
  }

  function AfterRegMark(s: State, g: RegId, nums: map<Resource, nat>, n': nat, expired: set<Resource>): State
    requires g in s.regs
  {
    s.(n := n', rows := MarkAll(s.rows, nums.Keys, nums, expired), regs := s.regs[g := s.regs[g].(phase := Done)])
  }

  ghost function Apply(c: Config, s: State, st: Step): State
    requires Enabled(c, s, st)
  {
    match st
    case SourceChange(x) => s.(src := s.src[x := SrcOf(s.src, x) + 1])
    case NextChangeSeq => s.(n := s.n + 1)
    case StartWalk(b, root, versions, start) => s.(builds := s.builds[b := NewBuild(Walk, root, versions, start)])
    case BeginFirst(b, kind, root, versions) => AfterBegin(s, b, NewBuild(kind, root, versions, 0))
    case BeginWalk(b) => AfterBegin(s, b, s.builds[b])
    case Fetch(b, vs, x) => AfterFetch(s, b, vs, x)
    case Refetch(b, v) => s.(builds := s.builds[b := s.builds[b].(fetched := s.builds[b].fetched[v := map[]])])
    case Write(b, vs) => AfterWrite(s, b, vs)
    case StoreEdges(b, vs) => AfterStoreEdges(s, b, vs)
    case CheckDrift(b, vs, force) => AfterCheck(s, b, vs, force)
    case Remark(b, isExpired) => AfterRemark(s, b, isExpired)
    case FinishBuild(b, token) => AfterFinish(s, b, token)
    case MarkRow(x, lease, isExpired) => AfterMark(s, x, lease, isExpired)
    case RegStart(g, items) => AfterRegStart(s, g, items)
    case RegDraw(g, nums, n') => AfterRegDraw(s, g, nums, n')
    case RegCommit(g, accepted, deleted, nums, n', expired) =>
      AfterRegCommit(s, g, accepted, deleted, nums, n', expired)
    case RegRead(g) => AfterRegRead(s, g)
    case RegMark(g, nums, n', expired) => AfterRegMark(s, g, nums, n', expired)
  }

  /** A run is a list of steps, each enabled where it is taken. */
  ghost predicate Valid(c: Config, s: State, run: seq<Step>)
    decreases |run|
  {
    run == [] || (Enabled(c, s, run[0]) && Valid(c, Apply(c, s, run[0]), run[1..]))
  }

  ghost function Exec(c: Config, s: State, run: seq<Step>): State
    requires Valid(c, s, run)
    decreases |run|
  {
    if run == [] then s else Exec(c, Apply(c, s, run[0]), run[1..])
  }

  /** A registration of x past revision k has committed and its second fanout
      is not done. */
  ghost predicate FanoutPending(s: State, x: Resource, k: nat) {
    exists g :: g in s.regs && s.regs[g].phase in {Committed, Read} && x in s.regs[g].accepted
      && x in s.regs[g].revs && k < s.regs[g].revs[x]
  }

  /** The kept document of (r, v) misses an accepted change of x. */
  ghost predicate Outdated(s: State, r: Resource, v: Version, x: Resource) {
    v in SlotsOf(s.slots, r) && x in SlotsOf(s.slots, r)[v].seen && SlotsOf(s.slots, r)[v].seen[x] < AccOf(s.acc, x)
  }

  /** The build that wrote the kept document of (r, v) has a drift check that
      asks after x, and has not run it of this document to the end. It asks
      after its children and, in a walk, its root; a probe pass has none. */
  ghost predicate CheckPending(s: State, r: Resource, v: Version, x: Resource)
    requires v in SlotsOf(s.slots, r)
  {
    var w := SlotsOf(s.slots, r)[v].writer;
    && w in s.builds && v !in s.builds[w].checked
    && !s.builds[w].kind.Probe? && (s.builds[w].kind.Walk? || x != s.builds[w].root)
  }

  /** Convergence of one document: if it misses an accepted change of anything
      it embeds, its root is marked, or the build that wrote it has its drift
      check of that resource still to run, or it is a child's change whose
      registration has its second fanout still to run. So a root's own change
      leaves it marked at once, whatever kept the document but a walk, and
      then too but for the check still due. */
  ghost predicate Converges(s: State, r: Resource, v: Version) {
    forall x :: Outdated(s, r, v, x) ==>
      || RowOf(s.rows, r).stale
      || CheckPending(s, r, v, x)
      || (x != r && FanoutPending(s, x, SlotsOf(s.slots, r)[v].seen[x]))
  }
}
