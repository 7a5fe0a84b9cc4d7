// One resource's row under any interleaving of registrations, marks, builds,
// notified deletes, finishes, releases and sweeps, with its documents and
// edge sets. The sequence `regs`, the set `tombs`, `lastMark` and
// `regsAtClaim` are history: they record what happened and guard nothing but
// the start of a delete, which is only ever started at a mark the row carried
// as a tombstone.

module RowProtocol {
  import opened Wrappers
  import opened Rows

  type WorkId = nat

  /** A build, or a notified delete: `captured` is the stale_seq its finish is
      guarded by, `token` its ownership (0 for none), `idx` its Build Sequence
      (0 until begun). */
  datatype Work =
    | BuildWork(idx: nat, captured: nat, token: nat)
    | DeleteWork(idx: nat, captured: nat, token: nat, superseded: bool)

  /** A document slot keeps the highest version written or deleted at. */
  datatype Slot = Slot(ver: nat, writer: WorkId, live: bool)

  datatype EdgeSet = EdgeSet(stamp: nat, writer: WorkId)

  datatype Registered = Registered(num: nat, deleted: bool)

  datatype State = State(
    n: nat,
    row: Option<Row>,
    work: map<WorkId, Work>,
    slots: map<Version, Slot>,
    edges: map<Version, EdgeSet>,
    regs: seq<Registered>,
    tombs: set<nat>,
    lastMark: nat,
    regsAtClaim: nat)

  const Init: State := State(0, None, map[], map[], map[], [], {}, 0, 0)

  datatype Step =
    | RegisterChange(deleted: bool, version: nat, expired: bool)
    | MarkStale(lease: bool, expired: bool)
    | BeginBuild(w: WorkId, token: nat)
    | WriteDoc(w: WorkId, v: Version, live: bool)
    | StoreEdges(w: WorkId, v: Version)
    | RemoveEdges(w: WorkId)
    | FinishBuild(w: WorkId)
    | RemoveRow(w: WorkId)
    | StartDelete(w: WorkId, captured: nat, token: nat)
    | BeginDelete(w: WorkId)
    | ReleaseOwner(token: nat)
    | ReleaseFailedOwner(token: nat)
    | ListStale(due: bool, expired: bool)

  function RowOr(s: State): Row { if s.row.Some? then s.row.value else Fresh }

  /** Work that may write or delete: a build, or a delete that began. */
  predicate Running(s: State, w: WorkId) {
    w in s.work && s.work[w].idx > 0
  }

  ghost predicate Enabled(s: State, st: Step) {
    match st
    case RegisterChange(_, _, _) => true
    case MarkStale(_, _) => true
    case BeginBuild(w, _) => w !in s.work
    case WriteDoc(w, _, live) => Running(s, w) && (live ==> s.work[w].BuildWork?)
    case StoreEdges(w, v) => Running(s, w) && s.work[w].BuildWork? && v in s.slots && s.work[w].idx <= s.slots[v].ver
    case RemoveEdges(w) => Running(s, w)
    case FinishBuild(w) => Running(s, w) && s.work[w].BuildWork?
    case RemoveRow(w) => Running(s, w) || (w in s.work && s.work[w].DeleteWork? && s.work[w].superseded)
    case StartDelete(w, captured, _) => w !in s.work && captured in s.tombs
    case BeginDelete(w) => w in s.work && s.work[w].DeleteWork? && s.work[w].idx == 0 && !s.work[w].superseded
    case ReleaseOwner(_) => s.row.Some?
    case ReleaseFailedOwner(_) => s.row.Some?
    case ListStale(due, expired) => s.row.Some? && Listable(s.row.value, due, expired)
  }

  /** The row becomes r, whose mark, if the row is a tombstone, a delete may
      capture. */
  function WithRow(s: State, r: Row): State {
    s.(row := Some(r), tombs := if r.deleted && r.stale then s.tombs + {r.staleSeq} else s.tombs)
  }

  function AfterRegister(s: State, deleted: bool, version: nat, expired: bool): State {
    var m := s.n + 1;
    var r := RowOr(s);
    if !Accepts(r, deleted, version) then s.(n := m)
    else
      var r' := Register(r, deleted, version, m, expired);
      WithRow(s, r').(n := m, lastMark := m, regs := s.regs + [Registered(m, deleted)],
                      regsAtClaim := if r'.owner == m then |s.regs| + 1 else s.regsAtClaim)
  }

  function AfterMarkStale(s: State, lease: bool, expired: bool): State {
    var m := s.n + 1;
    var r' := Mark(RowOr(s), m, lease, expired);
    WithRow(s, r').(n := m, lastMark := m, regsAtClaim := if r'.owner == m then |s.regs| else s.regsAtClaim)
  }

  function AfterBeginBuild(s: State, w: WorkId, token: nat): State {
    var m := s.n + 1;
    s.(n := m, row := Some(Begin(RowOr(s), m)), work := s.work[w := BuildWork(m, RowOr(s).staleSeq, token)])
  }

  /** An ES write or delete at the work's Build Sequence: refused below the
      kept version. */
  function AfterWriteDoc(s: State, w: WorkId, v: Version, live: bool): State
    requires w in s.work
  {
    if v in s.slots && s.slots[v].ver > s.work[w].idx then s
    else s.(slots := s.slots[v := Slot(s.work[w].idx, w, live)])
  }

  /** ReplaceEdges of one version. */
  function AfterStoreEdges(s: State, w: WorkId, v: Version): State
    requires w in s.work
  {
    if v in s.edges && s.edges[v].stamp > s.work[w].idx then s
    else s.(edges := s.edges[v := EdgeSet(s.work[w].idx, w)])
  }

  /** RemoveResource: the sets stamped at or below the work's Build Sequence. */
  function AfterRemoveEdges(s: State, w: WorkId): State
    requires w in s.work
  {
    s.(edges := map v | v in s.edges && s.edges[v].stamp > s.work[w].idx :: s.edges[v])
  }

  function AfterFinishBuild(s: State, w: WorkId): State
    requires w in s.work
  {
    if s.row.None? then s
    else
      var k := s.work[w];
      if k.token == 0 then WithRow(s, Clear(s.row.value, k.captured))
      else
        var (r', fu) := Finish(s.row.value, k.captured, k.token);
        WithRow(s, r').(regsAtClaim := if fu.token != 0 then |s.regs| else s.regsAtClaim)
  }

  function AfterRemoveRow(s: State, w: WorkId): State
    requires w in s.work
  {
    if s.row.None? then s
    else
      var (r', fu) := DeleteIfSeq(s.row.value, s.work[w].captured, s.work[w].token);
      if r'.None? then s.(row := None)
      else WithRow(s, r'.value).(regsAtClaim := if fu.token != 0 then |s.regs| else s.regsAtClaim)
  }

  /** BeginDelete: superseded unless the row is still a tombstone. */
  function AfterBeginDelete(s: State, w: WorkId): State
    requires w in s.work && s.work[w].DeleteWork?
  {
    if s.row.Some? && s.row.value.deleted then
      s.(n := s.n + 1, row := Some(Begin(s.row.value, s.n + 1)), work := s.work[w := s.work[w].(idx := s.n + 1)])
    else
      s.(work := s.work[w := s.work[w].(superseded := true)])
  }

  ghost function Apply(s: State, st: Step): State
    requires Enabled(s, st)
  {
    match st
    case RegisterChange(deleted, version, expired) => AfterRegister(s, deleted, version, expired)
    case MarkStale(lease, expired) => AfterMarkStale(s, lease, expired)
    case BeginBuild(w, token) => AfterBeginBuild(s, w, token)
    case WriteDoc(w, v, live) => AfterWriteDoc(s, w, v, live)
    case StoreEdges(w, v) => AfterStoreEdges(s, w, v)
    case RemoveEdges(w) => AfterRemoveEdges(s, w)
    case FinishBuild(w) => AfterFinishBuild(s, w)
    case RemoveRow(w) => AfterRemoveRow(s, w)
    case StartDelete(w, captured, token) => s.(work := s.work[w := DeleteWork(0, captured, token, false)])
    case BeginDelete(w) => AfterBeginDelete(s, w)
    case ReleaseOwner(token) => s.(row := Some(Release(s.row.value, token)))
    case ReleaseFailedOwner(token) => s.(row := Some(ReleaseFailed(s.row.value, token)))
    case ListStale(_, _) => s.(row := Some(ListClaim(s.row.value)), regsAtClaim := |s.regs|)
  }

  ghost predicate Valid(s: State, run: seq<Step>)
    decreases |run|
  {
    run == [] || (Enabled(s, run[0]) && Valid(Apply(s, run[0]), run[1..]))
  }

  ghost function Exec(s: State, run: seq<Step>): State
    requires Valid(s, run)
    decreases |run|
  {
    if run == [] then s else Exec(Apply(s, run[0]), run[1..])
  }

  // ----- The invariant

  ghost predicate RowInv(s: State) {
    s.row.Some? ==>
      var r := s.row.value;
      && r.buildIdx <= s.n && (r.staleSeq == 0 || r.staleSeq == s.lastMark) && r.changeSeq <= r.staleSeq
      && (r.stale ==> r.staleSeq > 0) && (r.owner != 0 ==> r.stale && r.owner <= r.staleSeq)
      && (r.staleSeq in s.tombs ==> r.deleted)
      && (r.deleted && r.stale ==> r.staleSeq in s.tombs)
      && (r.deleted ==> s.regs != [] && s.regs[|s.regs| - 1].deleted)
      && (r.owner != 0 ==> (r.changeSeq > r.owner <==> |s.regs| > s.regsAtClaim))
  }

  ghost predicate History(s: State) {
    && s.lastMark <= s.n && 0 !in s.tombs && s.regsAtClaim <= |s.regs|
    && (forall t :: t in s.tombs ==> t <= s.lastMark)
    && (forall i :: 0 <= i < |s.regs| ==> s.regs[i].num <= s.lastMark)
    && (forall i, j :: 0 <= i < j < |s.regs| ==> s.regs[i].num < s.regs[j].num)
  }

  /** A begun delete was begun while the last registration was a delete: a
      recreate before it is followed by a newer delete, also before it. */
  ghost predicate BegunAsTombstone(regs: seq<Registered>, idx: nat) {
    forall i :: 0 <= i < |regs| && regs[i].num < idx && !regs[i].deleted ==> DeletedAgain(regs, i, idx)
  }

  ghost predicate DeletedAgain(regs: seq<Registered>, i: nat, idx: nat) {
    exists j :: i < j < |regs| && regs[j].num < idx && regs[j].deleted
  }

  ghost predicate WorkInv(s: State, w: WorkId)
    requires w in s.work
  {
    var k := s.work[w];
    && k.idx <= s.n && k.captured <= s.lastMark
    && (k.BuildWork? ==> k.idx > 0 && k.captured < k.idx)
    && (k.DeleteWork? ==>
          && k.captured in s.tombs
          && (k.idx > 0 ==> k.captured < k.idx && BegunAsTombstone(s.regs, k.idx) && !k.superseded)
          && (k.superseded && s.row.Some? ==> s.row.value.staleSeq != k.captured))
  }

  ghost predicate DocInv(s: State) {
    && (forall v :: v in s.edges ==> v in s.slots && s.edges[v].stamp <= s.slots[v].ver)
    && (forall v ::
          v in s.slots ==>
            s.slots[v].ver > 0 && s.slots[v].writer in s.work && s.work[s.slots[v].writer].idx == s.slots[v].ver)
    && (forall v ::
          v in s.edges ==>
            s.edges[v].stamp > 0 && s.edges[v].writer in s.work && s.work[s.edges[v].writer].idx == s.edges[v].stamp)
  }

  ghost predicate Inv(s: State) {
    RowInv(s) && History(s) && DocInv(s) && forall w :: w in s.work ==> WorkInv(s, w)
  }

  // ----- Every step keeps it

  lemma RegisterInv(s: State, deleted: bool, version: nat, expired: bool)
    requires RowInv(s) && History(s)
    ensures RowInv(AfterRegister(s, deleted, version, expired)) && History(AfterRegister(s, deleted, version, expired))
  {
    var s' := AfterRegister(s, deleted, version, expired);
    if Accepts(RowOr(s), deleted, version) {
      assert s'.row.value == Register(RowOr(s), deleted, version, s.n + 1, expired);
      assert |s'.regs| == |s.regs| + 1 && s'.regs[|s.regs|] == Registered(s.n + 1, deleted);
    }
  }

  lemma MarkInv(s: State, lease: bool, expired: bool)
    requires RowInv(s) && History(s)
    ensures RowInv(AfterMarkStale(s, lease, expired)) && History(AfterMarkStale(s, lease, expired))
  {
  }

  lemma FinishInv(s: State, w: WorkId)
    requires RowInv(s) && History(s) && w in s.work
    ensures RowInv(AfterFinishBuild(s, w)) && History(AfterFinishBuild(s, w))
  {
  }

  lemma RemoveRowInv(s: State, w: WorkId)
    requires RowInv(s) && History(s) && w in s.work
    ensures RowInv(AfterRemoveRow(s, w)) && History(AfterRemoveRow(s, w))
  {
  }

  lemma RowInvStep(s: State, st: Step)
    requires Inv(s) && Enabled(s, st)
    ensures RowInv(Apply(s, st)) && History(Apply(s, st))
  {
    match st
    case RegisterChange(deleted, version, expired) => RegisterInv(s, deleted, version, expired);
    case MarkStale(lease, expired) => MarkInv(s, lease, expired);
    case FinishBuild(w) => FinishInv(s, w);
    case RemoveRow(w) => RemoveRowInv(s, w);
    case ReleaseOwner(token) => ReleaseInv(s, token);
    case ReleaseFailedOwner(token) => ReleaseInv(s, token);
    case ListStale(due, expired) => ListInv(s, due, expired);
    case _ =>
  }

  lemma ReleaseInv(s: State, token: nat)
    requires RowInv(s) && History(s) && s.row.Some?
    ensures
      RowInv(s.(row := Some(Release(s.row.value, token)))) && History(s.(row := Some(Release(s.row.value, token))))
    ensures RowInv(s.(row := Some(ReleaseFailed(s.row.value, token))))
    ensures History(s.(row := Some(ReleaseFailed(s.row.value, token))))
  {
  }

  lemma ListInv(s: State, due: bool, expired: bool)
    requires RowInv(s) && History(s) && Enabled(s, ListStale(due, expired))
    ensures RowInv(Apply(s, ListStale(due, expired))) && History(Apply(s, ListStale(due, expired)))
  {
  }

  /** A later registration is numbered above every begun delete. */
  lemma TombstoneKept(regs: seq<Registered>, r: Registered, idx: nat)
    requires BegunAsTombstone(regs, idx) && idx < r.num
    ensures BegunAsTombstone(regs + [r], idx)
  {
    var regs' := regs + [r];
    forall i | 0 <= i < |regs'| && regs'[i].num < idx && !regs'[i].deleted ensures DeletedAgain(regs', i, idx) {
      assert DeletedAgain(regs, i, idx);
      var j :| i < j < |regs| && regs[j].num < idx && regs[j].deleted;
      assert regs'[j] == regs[j];
    }
  }

  lemma TombstoneBegun(s: State)
    requires Inv(s) && s.row.Some? && s.row.value.deleted
    ensures BegunAsTombstone(s.regs, s.n + 1)
  {
    forall i | 0 <= i < |s.regs| && !s.regs[i].deleted ensures DeletedAgain(s.regs, i, s.n + 1) {
      assert s.regs[|s.regs| - 1].deleted;
    }
  }

  /** Numbers and history only grow, and the row's stale_seq stays, or is a
      fresh row's, or is freshly drawn. */
  ghost predicate Later(s: State, s': State) {
    && s.n <= s'.n && s.lastMark <= s'.lastMark && s.tombs <= s'.tombs
    && (|| s'.regs == s.regs
        || s'.regs == s.regs + [Registered(s.n + 1, true)]
        || s'.regs == s.regs + [Registered(s.n + 1, false)])
    && (s'.row.Some? ==>
          || (s.row.Some? && s'.row.value.staleSeq == s.row.value.staleSeq)
          || s'.row.value.staleSeq == 0 || s'.row.value.staleSeq > s.n)
  }

  lemma WorkLater(s: State, s': State, w: WorkId)
    requires Later(s, s') && w in s.work && w in s'.work && s'.work[w] == s.work[w]
    requires History(s) && WorkInv(s, w)
    ensures WorkInv(s', w)
  {
    var k := s.work[w];
    if k.DeleteWork? && k.idx > 0 && s'.regs != s.regs {
      TombstoneKept(s.regs, Registered(s.n + 1, true), k.idx);
      TombstoneKept(s.regs, Registered(s.n + 1, false), k.idx);
    }
  }

  lemma RowStepLater(s: State, st: Step)
    requires Inv(s) && Enabled(s, st)
    ensures Later(s, Apply(s, st))
  {
    match st
    case RegisterChange(deleted, version, expired) => RegisterLater(s, deleted, version, expired);
    case FinishBuild(w) => FinishLater(s, w);
    case RemoveRow(w) => FinishLater(s, w);
    case _ =>
  }

  lemma RegisterLater(s: State, deleted: bool, version: nat, expired: bool)
    requires Inv(s)
    ensures Later(s, AfterRegister(s, deleted, version, expired))
  {
  }

  lemma FinishLater(s: State, w: WorkId)
    requires Inv(s) && w in s.work
    ensures Later(s, AfterFinishBuild(s, w)) && Later(s, AfterRemoveRow(s, w))
  {
  }

  lemma BeginDeleteWork(s: State, w: WorkId)
    requires Inv(s) && Enabled(s, BeginDelete(w))
    ensures WorkInv(AfterBeginDelete(s, w), w)
  {
    assert WorkInv(s, w);
    if s.row.Some? && s.row.value.deleted { TombstoneBegun(s); }
  }

  lemma WorkInvStep(s: State, st: Step)
    requires Inv(s) && Enabled(s, st)
    ensures forall w :: w in Apply(s, st).work ==> WorkInv(Apply(s, st), w)
  {
    var s' := Apply(s, st);
    RowStepLater(s, st);
    forall w | w in s'.work ensures WorkInv(s', w) {
      if w in s.work && s'.work[w] == s.work[w] {
        WorkLater(s, s', w);
      } else if st.BeginDelete? {
        BeginDeleteWork(s, w);
      }
    }
  }

  lemma DocInvStep(s: State, st: Step)
    requires Inv(s) && Enabled(s, st)
    ensures DocInv(Apply(s, st))
  {
    match st
    case WriteDoc(w, v, live) => WriteDocInv(s, w, v, live);
    case StoreEdges(w, v) => StoreEdgesInv(s, w, v);
    case RemoveEdges(w) => RemoveEdgesInv(s, w);
    case BeginBuild(w, _) => assert s.work.Keys !! {w};
    case BeginDelete(w) => BeginDeleteDocs(s, w);
    case _ =>
  }

  lemma RemoveEdgesInv(s: State, w: WorkId)
    requires DocInv(s) && w in s.work
    ensures DocInv(AfterRemoveEdges(s, w))
  {
  }

  lemma BeginDeleteDocs(s: State, w: WorkId)
    requires DocInv(s) && Enabled(s, BeginDelete(w))
    ensures DocInv(AfterBeginDelete(s, w))
  {
  }

  lemma WriteDocInv(s: State, w: WorkId, v: Version, live: bool)
    requires DocInv(s) && Running(s, w)
    ensures DocInv(AfterWriteDoc(s, w, v, live))
  {
  }

  lemma StoreEdgesInv(s: State, w: WorkId, v: Version)
    requires DocInv(s) && Running(s, w) && v in s.slots && s.work[w].idx <= s.slots[v].ver
    ensures DocInv(AfterStoreEdges(s, w, v))
  {
  }

  lemma StepInv(s: State, st: Step)
    requires Inv(s) && Enabled(s, st)
    ensures Inv(Apply(s, st))
  {
    RowInvStep(s, st);
    WorkInvStep(s, st);
    DocInvStep(s, st);
  }

  lemma {:induction false} RunInv(s: State, run: seq<Step>)
    requires Inv(s) && Valid(s, run)
    ensures Inv(Exec(s, run))
    decreases |run|
  {
    if run != [] {
      StepInv(s, run[0]);
      RunInv(Apply(s, run[0]), run[1..]);
    }
  }
}
