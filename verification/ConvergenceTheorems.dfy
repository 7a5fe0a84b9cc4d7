// Convergence over every run, and exactly which rebuild selections break it.

module ConvergenceTheorems {
  import opened Rows
  import opened ConvergenceModel
  import opened ConvergenceProof

  lemma RunFromInit(c: Config, w: set<Version>, run: seq<Step>)
    requires Covering(c, w) && Valid(c, Init, run)
    ensures Inv(c, w, Exec(c, Init, run))
  {
    assert Inv(c, w, Init);
    RunInv(c, w, Init, run);
  }

  /** In every run of a deployment whose rebuild selections all run version v,
      a kept document of v that misses an accepted change is marked, or its
      build's drift check of the changed resource is still to come, or the
      second fanout of a child's change. A document kept by a probe pass waits
      for nothing. */
  lemma RunConverges(c: Config, run: seq<Step>, r: Resource, v: Version)
    requires v in c.live && (forall V :: V in c.selections ==> v in V) && Valid(c, Init, run)
    ensures Converges(Exec(c, Init, run), r, v)
  {
    RunFromInit(c, {v}, run);
    InvConverges(c, {v}, Exec(c, Init, run), r, v);
  }

  /** Every build that wrote a document of (r, v) has offered its edge set. */
  ghost predicate AllEdged(s: State, r: Resource, v: Version) {
    forall b :: b in s.builds && s.builds[b].root == r && v in s.builds[b].docs ==> v in s.builds[b].edged
  }

  /** Edges follow documents: in every run an edge set's stamp is at most its
      document's version, and once every build has done both steps the set is
      that of the build whose document is kept. */
  lemma EdgesFollowDocuments(c: Config, run: seq<Step>, r: Resource, v: Version)
    requires Valid(c, Init, run)
    ensures var s := Exec(c, Init, run);
            && (v in EdgesOf(s.edges, r) ==>
                  v in SlotsOf(s.slots, r) && EdgesOf(s.edges, r)[v].stamp <= SlotsOf(s.slots, r)[v].ver)
            && (v in SlotsOf(s.slots, r) && AllEdged(s, r, v) ==>
                  v in EdgesOf(s.edges, r)
                  && EdgesOf(s.edges, r)[v] ==
                       EdgeSet(SlotsOf(s.slots, r)[v].ver, SlotsOf(s.slots, r)[v].seen.Keys - {r}))
            && (forall b :: b in s.builds && s.builds[b].root == r && v in s.builds[b].docs ==>
                  s.builds[b].idx <= VerOf(s.slots, r, v))
  {
    var s := Exec(c, Init, run);
    RunFromInit(c, {}, run);
    assert StampOk(s.slots, s.edges, r, v) && SlotOk(s.slots, s.builds, r, v);
    if v in SlotsOf(s.slots, r) {
      assert EdgedOk(s.edges, s.builds[SlotsOf(s.slots, r)[v].writer], v);
    }
    forall b | b in s.builds && s.builds[b].root == r && v in s.builds[b].docs
      ensures s.builds[b].idx <= VerOf(s.slots, r, v)
    {
      assert DocOk(s.slots, s.builds[b], v);
    }
  }

  // ----- A selection that leaves a version out

  ghost predicate Reachable(c: Config, s: State) {
    exists run :: Valid(c, Init, run) && Exec(c, Init, run) == s
  }

  lemma {:induction false} Extend(c: Config, s: State, run: seq<Step>, st: Step)
    requires Valid(c, s, run) && Enabled(c, Exec(c, s, run), st)
    ensures Valid(c, s, run + [st]) && Exec(c, s, run + [st]) == Apply(c, Exec(c, s, run), st)
    decreases |run|
  {
    if run == [] {
      assert run + [st] == [st];
      assert Valid(c, Apply(c, s, st), []);
    } else {
      Extend(c, Apply(c, s, run[0]), run[1..], st);
      assert (run + [st])[1..] == run[1..] + [st];
    }
  }

  lemma Take(c: Config, s: State, st: Step)
    requires Reachable(c, s) && Enabled(c, s, st)
    ensures Reachable(c, Apply(c, s, st))
  {
    var run :| Valid(c, Init, run) && Exec(c, Init, run) == s;
    Extend(c, Init, run, st);
  }

  const Root: Resource := Resource("product", "1")

  ghost predicate ReadsRoot(docs: map<Version, Seen>, vs: set<Version>, k: nat) {
    docs.Keys == vs && forall v :: v in vs ==> docs[v] == map[Root := k]
  }

  /** Only Root has edge sets, all empty. */
  ghost predicate Childless(e: Edges) {
    e.Keys <= {Root} && forall v :: v in EdgesOf(e, Root) ==> EdgesOf(e, Root)[v].kids == {}
  }

  /** Build b at idx wrote Root's documents of vs, where no later one was kept. */
  ghost predicate Wrote(
      slots: map<Version, Slot>, slots': map<Version, Slot>, b: BuildId, idx: nat, vs: set<Version>, k: nat)
  {
    && (forall v ::
          v in vs && (v in slots ==> slots[v].ver <= idx) ==> v in slots' && slots'[v] == Slot(idx, b, map[Root := k]))
    && (forall v :: v in slots && v !in vs ==> v in slots' && slots'[v] == slots[v])
  }

  ghost predicate NoneHeld(s: State) {
    forall g :: g in s.regs ==> s.regs[g].phase == Done
  }

  /** Build b of Root, begun and fetched, with nothing written yet. */
  ghost predicate Ready(s: State, b: BuildId, k: nat) {
    && b in s.builds && NoneHeld(s)
    && var bd := s.builds[b];
       bd.root == Root && bd.idx > 0 && !bd.finished && bd.kind != Probe && ReadsRoot(bd.fetched, bd.versions, k)
       && bd.edged == {} && bd.drifted == {} && bd.checked == {} && bd.docs == map[]
  }

  lemma FetchRoot(s: State, b: BuildId)
    requires b in s.builds && s.builds[b].fetched == map[]
    ensures
      ReadsRoot(AfterFetch(s, b, s.builds[b].versions, Root).builds[b].fetched, s.builds[b].versions,
        SrcOf(s.src, Root))
  {
  }

  lemma WriteAll(c: Config, s: State, b: BuildId, k: nat) returns (s': State)
    requires Reachable(c, s) && Ready(s, b, k)
    ensures Reachable(c, s') && b in s'.builds
    ensures s' == s.(slots := s'.slots, builds := s.builds[b := s.builds[b].(docs := s'.builds[b].docs)])
    ensures ReadsRoot(s'.builds[b].docs, s.builds[b].versions, k)
    ensures Wrote(SlotsOf(s.slots, Root), SlotsOf(s'.slots, Root), b, s.builds[b].idx, s.builds[b].versions, k)
  {
    Take(c, s, Write(b, s.builds[b].versions));
    s' := AfterWrite(s, b, s.builds[b].versions);
    assert {} - s.builds[b].versions == {};
  }

  lemma StoreAll(c: Config, s: State, b: BuildId, k: nat) returns (s': State)
    requires
      Reachable(c, s) && b in s.builds && s.builds[b].root == Root && s.builds[b].idx > 0 && !s.builds[b].finished
    requires ReadsRoot(s.builds[b].docs, s.builds[b].versions, k) && s.builds[b].edged == {} && Childless(s.edges)
    ensures
      && Reachable(c, s')
      && s' == s.(edges := s'.edges, builds := s.builds[b := s.builds[b].(edged := s.builds[b].versions)])
    ensures Childless(s'.edges)
  {
    Take(c, s, StoreEdges(b, s.builds[b].versions));
    s' := AfterStoreEdges(s, b, s.builds[b].versions);
    assert {} + s.builds[b].versions == s.builds[b].versions;
  }

  lemma CheckAll(c: Config, s: State, b: BuildId, k: nat) returns (s': State)
    requires
      Reachable(c, s) && b in s.builds && s.builds[b].root == Root && s.builds[b].idx > 0 && !s.builds[b].finished
    requires ReadsRoot(s.builds[b].docs, s.builds[b].versions, k) && s.builds[b].edged == s.builds[b].versions
    requires s.builds[b].kind != Probe
    requires
      s.builds[b].checked == {} && (s.builds[b].kind == Walk ==> RowOf(s.rows, Root).changeSeq <= s.builds[b].start)
    ensures Reachable(c, s') && s' == s.(builds := s.builds[b := s.builds[b].(checked := s.builds[b].versions)])
  {
    assert !Drifts(s, s.builds[b], s.builds[b].versions);
    Take(c, s, CheckDrift(b, s.builds[b].versions, false));
    s' := AfterCheck(s, b, s.builds[b].versions, false);
    assert {} + s.builds[b].versions == s.builds[b].versions;
  }

  /** A ready build of Root that finds no drift writes its versions and clears
      the mark it captured. */
  lemma Serves(c: Config, s: State, b: BuildId, k: nat) returns (s': State)
    requires Reachable(c, s) && Ready(s, b, k) && Childless(s.edges)
    requires s.builds[b].kind == Walk ==> RowOf(s.rows, Root).changeSeq <= s.builds[b].start
    requires RowOf(s.rows, Root).staleSeq == s.builds[b].staleSeq
    ensures Reachable(c, s') && b in s'.builds && s'.builds[b].checked == s.builds[b].versions && Childless(s'.edges)
    ensures s' == s.(slots := s'.slots, edges := s'.edges, rows := s'.rows, builds := s.builds[b := s'.builds[b]])
    ensures s'.rows == s.rows[Root := RowOf(s.rows, Root).(stale := false, owner := 0, attempts := 0, waits := false)]
    ensures Wrote(SlotsOf(s.slots, Root), SlotsOf(s'.slots, Root), b, s.builds[b].idx, s.builds[b].versions, k)
  {
    hide Reachable;
    var s2 := Stores(c, s, b, k);
    var s3 := CheckAll(c, s2, b, k);
    s' := ClearMark(c, s3, b);
  }

  lemma Stores(c: Config, s: State, b: BuildId, k: nat) returns (s': State)
    requires Reachable(c, s) && Ready(s, b, k) && Childless(s.edges)
    ensures Reachable(c, s') && b in s'.builds && Childless(s'.edges)
    ensures s' == s.(slots := s'.slots, edges := s'.edges, builds := s.builds[b := s'.builds[b]])
    ensures s'.builds[b] == s.builds[b].(docs := s'.builds[b].docs, edged := s.builds[b].versions)
    ensures ReadsRoot(s'.builds[b].docs, s.builds[b].versions, k)
    ensures Wrote(SlotsOf(s.slots, Root), SlotsOf(s'.slots, Root), b, s.builds[b].idx, s.builds[b].versions, k)
  {
    var s1 := WriteAll(c, s, b, k);
    s' := StoreAll(c, s1, b, k);
  }

  lemma ClearMark(c: Config, s: State, b: BuildId) returns (s': State)
    requires Reachable(c, s) && Begun(s, b) && s.builds[b].kind != Probe && s.builds[b].checked == s.builds[b].versions
    requires NoneHeld(s) && RowOf(s.rows, s.builds[b].root).staleSeq == s.builds[b].staleSeq
    ensures Reachable(c, s') && s' == s.(rows := s'.rows, builds := s.builds[b := s.builds[b].(finished := true)])
    ensures
      s'.rows ==
        s.rows[
          s.builds[
            b].root := RowOf(s.rows, s.builds[b].root).(stale := false, owner := 0, attempts := 0, waits := false)]
  {
    Take(c, s, FinishBuild(b, 0));
    s' := AfterFinish(s, b, 0);
  }

  lemma LiveFetched(c: Config) returns (s: State)
    ensures Reachable(c, s) && s == Init.(n := 1, rows := s.rows, builds := s.builds) && s.builds.Keys == {0}
    ensures s.rows == map[Root := Fresh.(buildIdx := 1)]
    ensures s.builds[0] == NewBuild(Live, Root, c.live, 1).(idx := 1, fetched := s.builds[0].fetched)
    ensures ReadsRoot(s.builds[0].fetched, c.live, 0)
  {
    assert Valid(c, Init, []);
    assert Reachable(c, Init);
    Take(c, Init, BeginFirst(0, Live, Root, c.live));
    var s1 := AfterBegin(Init, 0, NewBuild(Live, Root, c.live, 0));
    Take(c, s1, Fetch(0, c.live, Root));
    s := AfterFetch(s1, 0, c.live, Root);
    FetchRoot(s1, 0);
  }

  /** A live build writes every version and finishes. */
  lemma LiveBuild(c: Config) returns (s: State)
    ensures Reachable(c, s) && s.n == 1 && s.regs == map[] && s.src == map[] && s.acc == map[] && Childless(s.edges)
    ensures s.rows.Keys == {Root} && s.builds.Keys == {0} && s.builds[0].checked == c.live
    ensures
      forall v :: v in c.live ==> v in SlotsOf(s.slots, Root) && SlotsOf(s.slots, Root)[v] == Slot(1, 0, map[Root := 0])
  {
    var s2 := LiveFetched(c);
    s := Serves(c, s2, 0, 0);
  }

  lemma NoParents(e: Edges, children: set<Resource>)
    requires Childless(e)
    ensures ParentsIn(e, children) == {}
  {
    forall r, v | r in e && v in e[r] ensures e[r][v].kids == {} {
      assert r in {Root} && EdgesOf(e, r) == e[r];
    }
  }

  lemma ChangeStarted(c: Config, s0: State) returns (s: State)
    requires Reachable(c, s0) && s0.regs == map[] && s0.src == map[]
    ensures Reachable(c, s) && 0 in s.regs && s == s0.(src := map[Root := 1], regs := map[0 := s.regs[0]])
    ensures s.regs[0] == Reg(Started, map[Root := 1], s0.edges, map[], {}, {}, {})
  {
    Take(c, s0, SourceChange(Root));
    var s1 := s0.(src := s0.src[Root := 1]);
    Take(c, s1, RegStart(0, {Root}));
    s := AfterRegStart(s1, 0, {Root});
  }

  lemma ChangeDrawn(c: Config, s0: State) returns (s: State)
    requires Reachable(c, s0) && s0.n == 1 && s0.regs == map[] && s0.src == map[]
    ensures
      Reachable(c, s) && s == s0.(n := 2, src := s.src, regs := s.regs) && s.src == map[Root := 1] && s.regs.Keys == {0}
    ensures s.regs[0] == Reg(Drawn, map[Root := 1], s0.edges, map[Root := 2], {}, {}, {})
  {
    var s2 := ChangeStarted(c, s0);
    Take(c, s2, RegDraw(0, map[Root := 2], 2));
    s := AfterRegDraw(s2, 0, map[Root := 2], 2);
  }

  lemma CommitsRoot(s: State)
    requires s.acc == map[] && s.rows.Keys == {Root} && 0 in s.regs
    requires s.regs[0].revs == map[Root := 1] && s.regs[0].nums == map[Root := 2]
    ensures var s' := AfterRegCommit(s, 0, {Root}, {}, map[], 2, {});
            && s'.acc == map[Root := 1] && s'.rows == s.rows[Root := Register(s.rows[Root], false, 0, 2, false)]
  {
    var registered := RegisterAll(s.rows, {Root}, map[Root := 2], {}, {});
    assert registered == s.rows[Root := Register(s.rows[Root], false, 0, 2, false)];
    assert MarkAll(registered, {}, map[], {}) == registered;
  }

  lemma CommitRoot(c: Config, s: State) returns (s': State)
    requires Reachable(c, s) && s.n == 2 && s.acc == map[] && s.rows.Keys == {Root} && s.regs.Keys == {0}
    requires Childless(s.edges) && s.regs[0] == Reg(Drawn, map[Root := 1], s.edges, map[Root := 2], {}, {}, {})
    ensures Reachable(c, s') && s' == s.(rows := s'.rows, acc := map[Root := 1], regs := s'.regs) && s'.regs.Keys == {0}
    ensures s'.regs[0] == s.regs[0].(phase := Committed, accepted := {Root})
    ensures s'.rows.Keys == {Root} && s'.rows[Root].staleSeq == 2 && s'.rows[Root].changeSeq == 2
  {
    NoParents(s.edges, {Root});
    assert CanCommit(s, 0, {Root}, map[], 2);
    CommitsRoot(s);
    Take(c, s, RegCommit(0, {Root}, {}, map[], 2, {}));
    s' := AfterRegCommit(s, 0, {Root}, {}, map[], 2, {});
  }

  /** The root changes, and its registration runs to the end. */
  lemma ChangeRegistered(c: Config, s0: State) returns (s: State)
    requires Reachable(c, s0) && s0.n == 1 && s0.regs == map[] && s0.src == map[] && s0.acc == map[]
    requires s0.rows.Keys == {Root} && Childless(s0.edges)
    ensures Reachable(c, s) && s.builds == s0.builds && s.slots == s0.slots && s.edges == s0.edges && s.n == 2
    ensures s.acc == map[Root := 1] && s.src == map[Root := 1] && NoneHeld(s)
    ensures s.rows.Keys == {Root} && s.rows[Root].staleSeq == 2 && s.rows[Root].changeSeq == 2
  {
    var s3 := ChangeDrawn(c, s0);
    var s4 := CommitRoot(c, s3);
    Take(c, s4, RegRead(0));
    var s5 := AfterRegRead(s4, 0);
    NoParents(s4.edges, {Root});
    s := FanoutDone(c, s5);
  }

  lemma FanoutDone(c: Config, s: State) returns (s': State)
    requires Reachable(c, s) && s.n == 2 && s.regs.Keys == {0} && s.regs[0].phase == Read && s.regs[0].missed == {}
    ensures Reachable(c, s') && s' == s.(regs := s'.regs) && NoneHeld(s')
  {
    Take(c, s, RegMark(0, map[], 2, {}));
    s' := AfterRegMark(s, 0, map[], 2, {});
    assert s'.rows == s.rows;
  }

  lemma WalkFetched(c: Config, s0: State, V: set<Version>) returns (s: State)
    requires V in c.selections && Reachable(c, s0) && s0.n == 2 && s0.builds.Keys == {0}
    ensures
      Reachable(c, s) && s == s0.(n := 3, builds := s.builds) && s.builds.Keys == {0, 1} && s.builds[0] == s0.builds[0]
    ensures s.builds[1] == NewBuild(Walk, Root, V, 3).(fetched := s.builds[1].fetched)
    ensures ReadsRoot(s.builds[1].fetched, V, SrcOf(s0.src, Root))
  {
    var s2 := WalkStarted(c, s0, V);
    Take(c, s2, Fetch(1, V, Root));
    s := AfterFetch(s2, 1, V, Root);
    FetchRoot(s2, 1);
  }

  lemma WalkStarted(c: Config, s0: State, V: set<Version>) returns (s: State)
    requires V in c.selections && Reachable(c, s0) && s0.n == 2 && s0.builds.Keys == {0}
    ensures Reachable(c, s) && s == s0.(n := 3, builds := s0.builds[1 := NewBuild(Walk, Root, V, 3)])
  {
    Take(c, s0, NextChangeSeq);
    var s1 := s0.(n := 3);
    Take(c, s1, StartWalk(1, Root, V, 3));
    s := s1.(builds := s1.builds[1 := NewBuild(Walk, Root, V, 3)]);
  }

  /** A walk of selection V fetches the root and begins it. */
  lemma WalkBegun(c: Config, s0: State, V: set<Version>) returns (s: State)
    requires V in c.selections && Reachable(c, s0)
    requires s0.n == 2 && s0.builds.Keys == {0} && s0.src == map[Root := 1] && NoneHeld(s0)
    requires s0.rows.Keys == {Root} && s0.rows[Root].staleSeq == 2 && s0.rows[Root].changeSeq == 2
    ensures Reachable(c, s) && s == s0.(n := 4, rows := s.rows, builds := s.builds)
    ensures s.builds.Keys == {0, 1} && s.builds[0] == s0.builds[0] && s.builds[1].versions == V
    ensures Ready(s, 1, 1) && s.builds[1].kind == Walk && s.builds[1].start == 3 && s.builds[1].staleSeq == 2
    ensures s.rows.Keys == {Root} && s.rows[Root].staleSeq == 2 && s.rows[Root].changeSeq == 2
  {
    var s3 := WalkFetched(c, s0, V);
    Take(c, s3, BeginWalk(1));
    s := AfterBegin(s3, 1, s3.builds[1]);
  }

  /** The walk writes V's documents, finds no drift and clears the mark. */
  lemma SelectedWalk(c: Config, s0: State, V: set<Version>) returns (s: State)
    requires V in c.selections && Reachable(c, s0) && Childless(s0.edges)
    requires s0.n == 2 && s0.builds.Keys == {0} && s0.src == map[Root := 1] && NoneHeld(s0)
    requires s0.rows.Keys == {Root} && s0.rows[Root].staleSeq == 2 && s0.rows[Root].changeSeq == 2
    ensures Reachable(c, s) && s.acc == s0.acc && NoneHeld(s) && 0 in s.builds && s.builds[0] == s0.builds[0]
    ensures !RowOf(s.rows, Root).stale
    ensures forall v :: v in SlotsOf(s0.slots, Root) && v !in V ==>
              v in SlotsOf(s.slots, Root) && SlotsOf(s.slots, Root)[v] == SlotsOf(s0.slots, Root)[v]
  {
    var s1 := WalkBegun(c, s0, V);
    s := Serves(c, s1, 1, 1);
  }

  /** A rebuild of a selection without v clears the mark of a change that v's
      document has not seen. */
  lemma SelectionLosesMark(c: Config, V: set<Version>, v: Version)
    requires V in c.selections && v in c.live && v !in V
    ensures exists s :: Reachable(c, s) && !Converges(s, Root, v)
  {
    var s1 := LiveBuild(c);
    var s2 := ChangeRegistered(c, s1);
    var s4 := SelectedWalk(c, s2, V);
    assert Outdated(s4, Root, v, Root);
    assert !Converges(s4, Root, v);
  }

  /** Exactly the deployments whose every rebuild selection runs v keep v's
      documents converging: ClearStale of a rebuild that runs fewer than every
      active plan clears a mark its versions alone do not answer. */
  lemma ConvergesExactly(c: Config, v: Version)
    requires v in c.live
    ensures (forall s, r :: Reachable(c, s) ==> Converges(s, r, v)) <==> (forall V :: V in c.selections ==> v in V)
  {
    if forall V :: V in c.selections ==> v in V {
      forall s, r | Reachable(c, s) ensures Converges(s, r, v) {
        var run :| Valid(c, Init, run) && Exec(c, Init, run) == s;
        RunConverges(c, run, r, v);
      }
    } else {
      var V :| V in c.selections && v !in V;
      SelectionLosesMark(c, V, v);
    }
  }
}
