// What the row protocol guarantees over every run.

module RowTheorems {
  import opened Common
  import opened Rows
  import opened RowProtocol

  /** The state a run leads to, with the invariant of every reachable state. */
  ghost function After(run: seq<Step>): State
    requires Valid(Init, run)
  {
    Exec(Init, run)
  }

  lemma AfterInv(run: seq<Step>)
    requires Valid(Init, run)
    ensures Inv(After(run))
  {
    RunInv(Init, run);
  }

  /** The mark of a row is gone: cleared, or removed with the row. */
  ghost predicate Unmarked(s: State) {
    s.row.None? || !s.row.value.stale
  }

  ghost predicate Finishes(s: State, st: Step, w: WorkId) {
    w in s.work && ((st.FinishBuild? && st.w == w) || (st.RemoveRow? && st.w == w))
  }

  /** No mark is lost: in every run, a step that takes a mark away is the
      finish of work that captured exactly that mark's stale_seq and began
      after it; a delete takes only a tombstone's. Every other step leaves the
      row marked, at the same mark or a newer one, and a finish that the mark
      outran hands it on when it still holds the row. */
  lemma NoMarkLost(run: seq<Step>, st: Step)
    requires Valid(Init, run) && Enabled(After(run), st) && !Unmarked(After(run))
    ensures var s, s' := After(run), Apply(After(run), st);
            var r := s.row.value;
            if Unmarked(s') then
              exists w :: Finishes(s, st, w) && s.work[w].captured == r.staleSeq && r.staleSeq < s.work[w].idx
                          && (s.work[w].DeleteWork? ==> r.deleted)
            else
              && r.staleSeq <= s'.row.value.staleSeq
              && forall w :: Finishes(s, st, w) && s.work[w].token != 0 && s.work[w].token == r.owner ==>
                   s'.row.value.owner == r.staleSeq == s'.row.value.staleSeq
  {
    hide Inv, Apply, Enabled;
    AfterInv(run);
    MarkTaken(After(run), st);
    MarkStays(After(run), st);
  }

  lemma MarkTaken(s: State, st: Step)
    requires Inv(s) && Enabled(s, st) && !Unmarked(s)
    ensures Unmarked(Apply(s, st)) ==>
      exists w ::
        Finishes(s, st, w) && s.work[w].captured == s.row.value.staleSeq && s.row.value.staleSeq < s.work[w].idx
                  && (s.work[w].DeleteWork? ==> s.row.value.deleted)
  {
    if Unmarked(Apply(s, st)) {
      assert st.FinishBuild? || st.RemoveRow?;
      assert WorkInv(s, st.w);
      assert Finishes(s, st, st.w);
    }
  }

  lemma MarkStays(s: State, st: Step)
    requires Inv(s) && Enabled(s, st) && !Unmarked(s)
    ensures var r, s' := s.row.value, Apply(s, st);
            !Unmarked(s') ==>
              && r.staleSeq <= s'.row.value.staleSeq
              && forall w :: Finishes(s, st, w) && s.work[w].token != 0 && s.work[w].token == r.owner ==>
                   s'.row.value.owner == r.staleSeq == s'.row.value.staleSeq
  {
  }

  /** A delete that BeginDelete found superseded removes no row. */
  lemma SupersededRemovesNothing(run: seq<Step>, w: WorkId)
    requires Valid(Init, run) && w in After(run).work && After(run).work[w].DeleteWork? && After(run).work[w].superseded
    ensures Enabled(After(run), RemoveRow(w))
    ensures After(run).row.Some? ==> Apply(After(run), RemoveRow(w)).row.Some?
    ensures !Enabled(After(run), RemoveEdges(w)) && forall v, live :: !Enabled(After(run), WriteDoc(w, v, live))
  {
    AfterInv(run);
    assert WorkInv(After(run), w);
  }

  /** Registration i is a recreate (or any upsert) that no delete registered
      before Build Sequence idx follows. */
  ghost predicate Stands(regs: seq<Registered>, i: nat, idx: nat) {
    && i < |regs| && !regs[i].deleted
    && forall j :: i < j < |regs| && regs[j].num < idx ==> !regs[j].deleted
  }

  lemma StandsAfter(regs: seq<Registered>, i: nat, idx: nat)
    requires BegunAsTombstone(regs, idx) && Stands(regs, i, idx)
    ensures idx <= regs[i].num
  {
  }

  /** Delete versus recreate, the documents: whatever a delete step does, a
      document or edge set written above a recreate that stands against the
      delete stays as it is. */
  lemma DeleteSparesRecreated(run: seq<Step>, st: Step, w: WorkId, i: nat)
    requires Valid(Init, run) && Enabled(After(run), st)
    requires w in After(run).work && After(run).work[w].DeleteWork?
    requires (st.WriteDoc? && st.w == w) || (st.RemoveEdges? && st.w == w) || (st.RemoveRow? && st.w == w)
    requires Stands(After(run).regs, i, After(run).work[w].idx)
    ensures var s, s' := After(run), Apply(After(run), st);
            var recreated := s.regs[i].num;
            && (forall v :: v in s.slots && s.slots[v].ver > recreated ==> v in s'.slots && s'.slots[v] == s.slots[v])
            && (forall v :: v in s.edges && s.edges[v].stamp > recreated ==> v in s'.edges && s'.edges[v] == s.edges[v])
  {
    var s := After(run);
    AfterInv(run);
    assert WorkInv(s, w);
    if s.work[w].idx > 0 { StandsAfter(s.regs, i, s.work[w].idx); }
  }

  /** A row goes in two ways only. A delete takes it as a tombstone, its last
      mark the one the delete was started at. Or a build takes it whose plans
      found it gone, and of a row that was ever marked the build began after
      its last mark and after every registration. */
  lemma RowGoes(run: seq<Step>, st: Step)
    requires Valid(Init, run) && Enabled(After(run), st)
    requires After(run).row.Some? && Apply(After(run), st).row.None?
    ensures var s := After(run);
            && st.RemoveRow? && s.work[st.w].captured == s.row.value.staleSeq
            && (s.work[st.w].DeleteWork? ==>
                  && s.row.value.deleted && !s.work[st.w].superseded
                  && s.regs != [] && s.regs[|s.regs| - 1].deleted)
            && (s.work[st.w].BuildWork? ==>
                  && s.row.value.staleSeq < s.work[st.w].idx
                  && (s.row.value.staleSeq > 0 ==>
                        forall i :: 0 <= i < |s.regs| ==> s.regs[i].num < s.work[st.w].idx))
  {
    AfterInv(run);
    assert WorkInv(After(run), st.w);
  }

  /** Delete versus recreate, the row: while the last registration is not a
      delete, no delete removes the row, its mark standing or long cleared by
      the recreate's build, and whatever mark the delete captured. */
  lemma DeleteSparesRow(run: seq<Step>, w: WorkId)
    requires Valid(Init, run) && Enabled(After(run), RemoveRow(w)) && After(run).work[w].DeleteWork?
    requires After(run).regs == [] || !After(run).regs[|After(run).regs| - 1].deleted
    ensures After(run).row.Some? ==> Apply(After(run), RemoveRow(w)).row.Some?
    ensures !Unmarked(After(run)) ==> !Unmarked(Apply(After(run), RemoveRow(w)))
  {
    AfterInv(run);
    assert WorkInv(After(run), w);
  }

  /** Delete versus recreate, the mark: while the last registration is a
      recreate, the row's mark goes only with the finish of a build begun after
      the recreate that captured it, and so does a marked row. */
  lemma RecreateKept(run: seq<Step>, st: Step)
    requires Valid(Init, run) && Enabled(After(run), st)
    requires After(run).regs != [] && !After(run).regs[|After(run).regs| - 1].deleted
    requires !Unmarked(After(run))
    ensures var s, s' := After(run), Apply(After(run), st);
            var recreated := s.regs[|s.regs| - 1].num;
            Unmarked(s') ==>
              exists w :: Finishes(s, st, w) && s.work[w].BuildWork? && recreated < s.work[w].idx
                          && recreated <= s.work[w].captured == s.row.value.staleSeq
  {
    var s, s' := After(run), Apply(After(run), st);
    AfterInv(run);
    NoMarkLost(run, st);
    if Unmarked(s') {
      var w :| Finishes(s, st, w) && s.work[w].captured == s.row.value.staleSeq && s.row.value.staleSeq < s.work[w].idx
               && (s.work[w].DeleteWork? ==> s.row.value.deleted);
      assert s.work[w].BuildWork?;
    }
  }

  /** Ownership, in every reachable state: an owner implies a mark, the last
      change is not above the last mark, and a held row was registered since
      its claim exactly when change_seq is above the owner token, so a failed
      build backs its row off exactly when no registration came since. */
  lemma Ownership(run: seq<Step>)
    requires Valid(Init, run) && After(run).row.Some?
    ensures var s, r := After(run), After(run).row.value;
            && r.changeSeq <= r.staleSeq
            && (r.owner != 0 ==>
                  && r.stale
                  && (r.changeSeq > r.owner <==> |s.regs| > s.regsAtClaim)
                  && var left := Apply(s, ReleaseFailedOwner(r.owner)).row.value;
                     left.owner == 0 && left.stale && left.staleSeq == r.staleSeq
                     && (if |s.regs| > s.regsAtClaim then SameBackoff(r, left)
                         else
                           && left.waits
                           && left.attempts == if r.attempts < MAX_ATTEMPTS then r.attempts + 1 else MAX_ATTEMPTS))
  {
    AfterInv(run);
  }

  /** After a mark, owner_seq = stale_seq exactly when that mark claimed. */
  lemma ClaimReads(run: seq<Step>, st: Step)
    requires Valid(Init, run) && Enabled(After(run), st)
    requires (st.RegisterChange? && Accepts(RowOr(After(run)), st.deleted, st.version)) || (st.MarkStale? && st.lease)
    ensures var s, r' := After(run), Apply(After(run), st).row;
            && r'.Some? && r'.value.staleSeq == s.n + 1
            && (r'.value.owner == r'.value.staleSeq <==>
                  RowOr(s).owner == 0 || st.expired)
  {
    AfterInv(run);
  }

  /** Edge sets never run ahead of documents, deletes included: a set's stamp
      is at most the version its slot keeps. */
  lemma StampsFollowSlots(run: seq<Step>, v: Version)
    requires Valid(Init, run) && v in After(run).edges
    ensures v in After(run).slots && After(run).edges[v].stamp <= After(run).slots[v].ver
  {
    AfterInv(run);
  }

  // ----- The backoff

  function Pow2(n: nat): (p: nat)
    ensures p >= 1
  {
    if n == 0 then 1 else 2 * Pow2(n - 1)
  }

  /** ReleaseFailed's delay in microseconds after `attempts` earlier failures,
      the exponent held at 62. */
  function Delay(base: nat, max: nat, attempts: nat): nat {
    Min(base * Pow2(Min(attempts, 62)), max)
  }

  lemma {:induction false} Pow2Grows(a: nat, b: nat)
    requires a <= b
    ensures Pow2(a) <= Pow2(b)
    decreases b
  {
    if a < b { Pow2Grows(a, b - 1); }
  }

  lemma AtLeast(base: nat, p: nat)
    requires base >= 1
    ensures base * p >= p
  {
  }

  /** Holding the exponent changes no delay that a time.Duration can cap: the
      delay of attempt n is min(base * 2^(n-1), max) for every n. */
  lemma CappedExponent(base: nat, max: nat, n: nat)
    requires n >= 1 && max <= Pow2(62)
    ensures Delay(base, max, n - 1) == Min(base * Pow2(n - 1), max)
  {
    var held, free := Pow2(62), Pow2(n - 1);
    if n - 1 > 62 {
      Pow2Grows(62, n - 1);
      if base > 0 {
        AtLeast(base, held);
        AtLeast(base, free);
      }
    }
  }
}
