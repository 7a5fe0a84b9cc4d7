// Registrations, their second fanout and the hand-over of claims to the pool;
// and the notified delete.

module Register {
  import opened Rows
  import opened StoreModel
  import B = Batches

  /** What the indexer does besides the store's own statements: a mark that
      landed, a claim handed to the pool, as a delete or a build, one released. */
  datatype Act = Marked(rows: set<Resource>) | Submitted(o: B.Owned, deletes: bool) | Released(o: B.Owned)

  datatype Status = Accepted | Stale

  /** The claims handed on, to the pool or back. */
  ghost function Handed(log: seq<Act>): multiset<B.Owned> {
    if log == [] then multiset{}
    else Handed(log[..|log| - 1]) + if log[|log| - 1].Marked? then multiset{} else multiset{log[|log| - 1].o}
  }

  lemma HandedAppend(log: seq<Act>, a: Act)
    ensures Handed(log + [a]) == Handed(log) + if a.Marked? then multiset{} else multiset{a.o}
  {
    assert (log + [a])[..|log|] == log;
  }

  ghost function MarkedIn(log: seq<Act>): set<Resource> {
    set a, x | a in log && a.Marked? && x in a.rows :: x
  }

  /** No mark follows a submission or a release. */
  ghost predicate MarksFirst(log: seq<Act>) {
    forall i, j :: 0 <= i < j < |log| && log[j].Marked? ==> log[i].Marked?
  }

  /** The claimed of a list: an entry without a token was not claimed. */
  ghost function Claimed(owned: seq<B.Owned>): multiset<B.Owned> {
    if owned == [] then multiset{}
    else
      Claimed(owned[..|owned| - 1]) + if owned[|owned| - 1].token == 0 then multiset{} else multiset{owned[|owned| - 1]}
  }

  lemma {:induction false} ClaimedCounts(owned: seq<B.Owned>, o: B.Owned)
    ensures Claimed(owned)[o] == if o.token != 0 then multiset(owned)[o] else 0
  {
    if owned != [] {
      var n := |owned| - 1;
      ClaimedCounts(owned[..n], o);
      assert owned == owned[..n] + [owned[n]];
    }
  }

  lemma BatchesClaimed(owned: seq<B.Owned>)
    ensures multiset(B.ByTypes(owned, B.TypesOf(owned))) == Claimed(owned)
  {
    forall o ensures multiset(B.ByTypes(owned, B.TypesOf(owned)))[o] == Claimed(owned)[o] {
      ClaimedCounts(owned, o);
      B.BatchesKeepEvery(owned, o);
    }
  }

  class Indexer {
    const store: Store
    const batchSize: nat
    ghost var log: seq<Act>
    /** The versions whose documents a delete took. */
    ghost var gone: seq<Version>
    /** A call has failed. */
    ghost var broken: bool

    constructor (store: Store, batchSize: nat)
      requires batchSize > 0
      ensures this.store == store && this.batchSize == batchSize && log == [] && gone == [] && !broken
    {
      this.store, this.batchSize, log, gone, broken := store, batchSize, [], [], false;
    }

    /** Whether a call to the store or the backend succeeds. */
    method Call() returns (ok: bool)
      modifies this`broken
      ensures broken <==> old(broken) || !ok
    {
      ok := *;
      broken := broken || !ok;
    }

    /** Hands one task's claims to the pool, or releases them if it refuses. */
    method SubmitOwned(owned: seq<B.Owned>, deletes: bool) returns (accepted: bool)
      requires store.Valid()
      modifies this`log, store`rows
      ensures
        && store.Valid()
        && store.n == old(store.n)
        && store.sets == old(store.sets)
        && store.rows.Keys == old(store.rows.Keys)
      ensures Handed(log) == Handed(old(log)) + multiset(owned) && MarkedIn(log) == MarkedIn(old(log))
      ensures MarksFirst(old(log)) ==> MarksFirst(log)
      ensures log == old(log) + ActsOf(owned, accepted, deletes)
      ensures LetGo(old(store.rows), store.rows, owned, ActsOf(owned, accepted, deletes))
    {
      hide Handed, MarkedIn, MarksFirst, ReleasedRow, RowsOk, LetGo;
      accepted := *;
      if !accepted {
        store.Release(owned, false);
      }
      for i := 0 to |owned|
        invariant Handed(log) == Handed(old(log)) + multiset(owned[..i]) && MarkedIn(log) == MarkedIn(old(log))
        invariant MarksFirst(old(log)) ==> MarksFirst(log)
        invariant log == old(log) + ActsOf(owned[..i], accepted, deletes)
      {
        assert owned[..i + 1] == owned[..i] + [owned[i]];
        ghost var act := if accepted then Submitted(owned[i], deletes) else Released(owned[i]);
        HandOne(log, act);
        log := log + [act];
      }
      assert owned[..|owned|] == owned;
      if accepted {
        AllKept(store.rows, owned, deletes);
      } else {
        AllLetGo(old(store.rows), store.rows, owned, deletes);
      }
    }

    /** Submits claims as owned builds, one task per batch. */
    method SubmitBuildBatches(owned: seq<B.Owned>)
      requires store.Valid() && batchSize > 0
      modifies this`log, store`rows
      ensures store.Valid() && store.n == old(store.n) && store.sets == old(store.sets)
      ensures Handed(log) == Handed(old(log)) + Claimed(owned) && MarkedIn(log) == MarkedIn(old(log))
      ensures MarksFirst(old(log)) ==> MarksFirst(log)
      ensures old(log) <= log && LetGo(old(store.rows), store.rows, owned, log[|old(log)|..])
      ensures Builds(log[|old(log)|..], owned)
    {
      hide MarksFirst, Handed, MarkedIn, B.Flatten, LetGo, ActsOf, Builds, RowsOk, Claimed;
      var batches := B.OwnedBatches(owned, map[], batchSize);
      BatchesClaimed(owned);
      B.FlattenNone();
      NoneLetGo(store.rows, owned);
      assert log[|log|..] == [];
      for i := 0 to |batches|
        invariant old(log) <= log && LetGo(old(store.rows), store.rows, owned, log[|old(log)|..])
        invariant Builds(log[|old(log)|..], owned)
        invariant store.Valid() && store.n == old(store.n) && store.sets == old(store.sets)
        invariant
          Handed(log) == Handed(old(log)) + multiset(B.Flatten(batches[..i])) && MarkedIn(log) == MarkedIn(old(log))
        invariant MarksFirst(old(log)) ==> MarksFirst(log)
      {
        BatchMore(batches, i);
        ghost var rows, was := store.rows, log;
        var accepted := SubmitOwned(batches[i], false);
        BatchIn(owned, batches, i);
        ghost var acts := ActsOf(batches[i], accepted, false);
        LetGoOn(old(store.rows), rows, store.rows, owned, batches[i], was[|old(log)|..], acts);
        BuildsOn(was[|old(log)|..], owned, batches[i], accepted);
        assert log[|old(log)|..] == was[|old(log)|..] + acts;
      }
      assert batches[..|batches|] == batches;
    }

    /** scheduleBuild: marks the roots, then submits the ones it claimed. */
    method ScheduleBuild(roots: seq<Resource>, expired: set<Resource>) returns (ok: bool, ghost claims: seq<B.Owned>)
      requires store.Valid() && batchSize > 0
      modifies this`log, this`broken, store`rows, store`n
      ensures store.Valid() && store.sets == old(store.sets) && store.n >= old(store.n)
      ensures broken <==> old(broken) || !ok
      ensures roots == [] ==> ok && log == old(log) && store.rows == old(store.rows)
      ensures ok ==>
        Handed(log) == Handed(old(log)) + Claimed(claims) && MarkedIn(log) == MarkedIn(old(log)) + (set x | x in roots)
      ensures !ok ==> log == old(log) && store.rows == old(store.rows)
      ensures ok ==>
        Scheduled(old(store.rows), store.rows, (set x | x in roots), expired, claims, log, old(store.n), store.n)
      ensures (forall a :: a in old(log) ==> a.Marked?) ==> MarksFirst(log)
      ensures old(log) <= log && Builds(log[|old(log)|..], claims)
    {
      hide Handed, MarkedIn, MarksFirst, RowsOk, Scheduled, LetGo, Marks, Claims, Drawn, Claimed, Builds;
      claims := [];
      NoneScheduled(store.rows, expired, log, store.n);
      if roots == [] {
        assert (set x | x in roots) == {};
        return true, claims;
      }
      ok := Call();
      if !ok {
        return;
      }
      var owned;
      ghost var nums;
      owned, nums := store.MarkStale(roots, true, expired);
      DrawnUp(nums, old(store.n), store.n);
      claims := owned;
      ghost var all := set x | x in roots;
      MarkAppend(log, all);
      log := log + [Marked(all)];
      ghost var rows, was := store.rows, log;
      SubmitBuildBatches(owned);
      forall a | a in log[|was|..] ensures a in log {}
      BuildsMarked(log[|was|..], owned, all);
      assert log[|old(log)|..] == [Marked(all)] + log[|was|..];
      ScheduledRows(old(store.rows), rows, store.rows, nums, owned, expired, old(store.n), store.n, log[|was|..], log);
    }

    /** Other statements run meanwhile. */
    method Others()
      requires store.Valid()
      modifies store`rows, store`n, store`sets
      ensures store.Valid() && store.n >= old(store.n)
    {
      assert RowsOk(store.rows, store.n);
      var rows: map<Resource, Row>, n: nat :| RowsOk(rows, n) && n >= store.n;
      var sets: map<SetKey, Stored> := *;
      store.rows, store.n, store.sets := rows, n, sets;
    }

    /** One ES delete. */
    method DeleteDoc(v: Version) returns (ok: bool)
      modifies this`gone, this`broken
      ensures broken <==> old(broken) || !ok
      ensures gone == if ok then old(gone) + [v] else old(gone)
    {
      ok := Call();
      if ok {
        gone := gone + [v];
      }
    }

    /** One ES delete per configured version at the sequence, up to the first
        that fails. */
    method DeleteDocs(versions: seq<Version>) returns (ok: bool)
      modifies this`gone, this`broken
      ensures old(gone) <= gone && gone[|old(gone)|..] <= versions
      ensures (ok <==> gone == old(gone) + versions) && (broken <==> old(broken) || !ok)
    {
      for i := 0 to |versions|
        invariant gone == old(gone) + versions[..i] && broken == old(broken)
      {
        ok := DeleteDoc(versions[i]);
        if !ok {
          return;
        }
      }
      assert versions[..|versions|] == versions;
      ok := true;
    }

    /** A delete's begin, and everything of the resource deleted at the sequence
        it drew, unless it is superseded. */
    method BeginAndErase(x: Resource, versions: seq<Version>) returns (ok: bool, superseded: bool, idx: nat)
      requires store.Valid() && gone == [] && !broken
      modifies this`gone, this`broken, store`rows, store`n, store`sets
      ensures store.Valid() && (broken <==> !ok) && gone <= versions
      ensures ok ==> (superseded <==> !(x in old(store.rows) && old(store.rows)[x].deleted))
      ensures
        || (store.rows == old(store.rows) && gone == [] && store.sets == old(store.sets))
        || (&& x in old(store.rows) && old(store.rows)[x].deleted && idx == old(store.n) + 1
            && store.rows == old(store.rows)[x := Begin(old(store.rows)[x], idx)])
      ensures store.sets == old(store.sets) || (store.sets == RemovedSets(old(store.sets), x, idx) && gone == versions)
      ensures ok ==> gone == if superseded then [] else versions
      ensures ok ==> store.sets == if superseded then old(store.sets) else RemovedSets(old(store.sets), x, idx)
    {
      hide RowsOk, RemovedSets;
      superseded, idx := false, 0;
      ok := Call();
      if !ok {
        return;
      }
      superseded, idx := store.BeginDelete(x);
      if superseded {
        return;
      }
      ok := DeleteDocs(versions);
      if ok {
        ok := Call();
      }
      if ok {
        store.RemoveResource(x, idx);
      }
    }

    /** deleteOne: a delete begins only on a tombstone, and everything it
        deletes carries the sequence it drew there; a superseded one deletes
        nothing and only finishes. The finish is guarded by the tombstone's
        mark, and a failure releases the ownership. */
    method DeleteOne(x: Resource, captured: nat, token: nat, versions: seq<Version>)
      returns (done: bool, superseded: bool, idx: nat, fu: FollowUp)
      requires store.Valid() && gone == [] && !broken
      modifies this`log, this`gone, this`broken, store`rows, store`n, store`sets
      ensures
        && store.Valid()
        && (gone != [] || store.sets != old(store.sets) ==>
              x in old(store.rows) && old(store.rows)[x].deleted && idx == old(store.n) + 1)
      ensures done ==> (superseded <==> !(x in old(store.rows) && old(store.rows)[x].deleted))
      ensures gone <= versions && (done ==> gone == if superseded then [] else versions)
      ensures done <==> !broken
      ensures store.sets == old(store.sets) || (store.sets == RemovedSets(old(store.sets), x, idx) && gone == versions)
      ensures done ==> store.sets == if superseded then old(store.sets) else RemovedSets(old(store.sets), x, idx)
      ensures
        done && x in old(store.rows) && old(store.rows)[x].staleSeq == captured ==> x !in store.rows && fu == NoFollowUp
      ensures done && x in old(store.rows) && old(store.rows)[x].staleSeq != captured ==>
        x in store.rows && MarkStands(old(store.rows)[x], store.rows[x], x, token, log)
      ensures !done && x in old(store.rows) ==>
        && x in store.rows
        && (store.rows[x].buildIdx == old(store.rows)[x].buildIdx || store.rows[x].buildIdx == idx)
        && Dropped(old(store.rows)[x].(buildIdx := store.rows[x].buildIdx), store.rows[x],
                   old(store.rows)[x].owner == token != 0, true)
      ensures OtherRows(old(store.rows), store.rows, x)
      ensures x !in old(store.rows) ==> store.rows == old(store.rows)
      ensures Handed(log) == Handed(old(log)) + Claimed([B.Owned(x, if done then fu.token else token)])
    {
      hide Handed, ReleasedRow, RowsOk, Claimed, MarkStands, Dropped, RemovedSets;
      done, idx, fu, superseded := false, 0, NoFollowUp, false;
      var ok;
      ok, superseded, idx := BeginAndErase(x, versions);
      if ok {
        ok := Call();
      }
      ghost var begun := store.rows;
      if !ok {
        FailDelete(x, token);
        if x in store.rows { DroppedAs(old(store.rows)[x], begun[x], store.rows[x], token, idx); }
        return;
      }
      fu := FinishDelete(x, captured, token);
      done := true;
      if x in store.rows { StandsAs(old(store.rows)[x], begun[x], store.rows[x], x, token, log); }
    }

    /** The finish of a delete, and the hand-over of what it re-claimed. */
    method FinishDelete(x: Resource, captured: nat, token: nat) returns (fu: FollowUp)
      requires store.Valid()
      modifies this`log, store`rows
      ensures store.Valid() && OtherRows(old(store.rows), store.rows, x)
      ensures x in store.rows <==> x in old(store.rows) && old(store.rows)[x].staleSeq != captured
      ensures x in store.rows ==> MarkStands(old(store.rows)[x], store.rows[x], x, token, log)
      ensures x !in store.rows ==> fu == NoFollowUp
      ensures x !in old(store.rows) ==> store.rows == old(store.rows)
      ensures Handed(log) == Handed(old(log)) + Claimed([B.Owned(x, fu.token)])
    {
      hide Handed, Claimed, LetGo, MarkedIn, MarksFirst, ActsOf;
      assert x in store.rows ==> RowOk(store.rows[x], store.n);
      hide RowsOk;
      fu := store.DeleteResourceIfSeq(x, captured, token);
      ClaimedOne(x, fu.token);
      ghost var rows, was := store.rows, log;
      if fu.token != 0 {
        var accepted := SubmitOwned([B.Owned(x, fu.token)], fu.deleted);
        OneLetGo(rows, store.rows, x, fu.token, fu.deleted, accepted, log[|was|..], log);
      }
    }

    /** A delete that failed drops its ownership with a backoff. */
    method FailDelete(x: Resource, token: nat)
      requires store.Valid()
      modifies this`log, store`rows
      ensures store.Valid() && store.rows.Keys == old(store.rows).Keys && OtherRows(old(store.rows), store.rows, x)
      ensures
        x in store.rows ==> Dropped(old(store.rows)[x], store.rows[x], old(store.rows)[x].owner == token != 0, true)
      ensures Handed(log) == Handed(old(log)) + Claimed([B.Owned(x, token)])
    {
      hide Handed, RowsOk, Claimed;
      ClaimedOne(x, token);
      if token != 0 {
        ReleaseFailedClaims([B.Owned(x, token)]);
        assert B.Owned(x, token) in [B.Owned(x, token)];
      }
    }

    /** releaseFailed, for work that failed. */
    method ReleaseFailedClaims(owned: seq<B.Owned>)
      requires store.Valid()
      modifies this`log, store`rows
      ensures store.Valid() && Handed(log) == Handed(old(log)) + multiset(owned)
      ensures store.rows.Keys == old(store.rows).Keys && log == old(log) + ActsOf(owned, false, false)
      ensures forall x :: x in store.rows ==>
        Dropped(old(store.rows)[x], store.rows[x], HeldBy(old(store.rows)[x], x, owned), true)
    {
      hide Handed, MarkedIn, MarksFirst, ReleasedRow, RowsOk;
      store.Release(owned, true);
      for i := 0 to |owned|
        invariant Handed(log) == Handed(old(log)) + multiset(owned[..i])
        invariant log == old(log) + ActsOf(owned[..i], false, false)
      {
        assert owned[..i + 1] == owned[..i] + [owned[i]];
        HandOne(log, Released(owned[i]));
        log := log + [Released(owned[i])];
      }
      assert owned[..|owned|] == owned;
    }

    /** registrations: every type known, no resource named twice. */
    method Validate(items: seq<Registration>, known: set<string>) returns (ok: bool)
      ensures ok <==> Proper(items, known)
    {
      var seen: set<Resource> := {};
      for i := 0 to |items|
        invariant Proper(items[..i], known) && seen == set k | 0 <= k < i :: items[k].res
      {
        assert items[..i + 1] == items[..i] + [items[i]];
        if items[i].res.typ !in known || items[i].res in seen {
          ImproperAt(items, i, known);
          return false;
        }
        seen := seen + {items[i].res};
      }
      assert items[..|items|] == items;
      ok := true;
    }

    /** The second fanout: marks every Parent the stored edges of the accepted
        items now name that the statement did not mark. `second` is what the
        edges were when it read them. */
    method MarkMissedParents(accepted: set<Resource>, marked: set<Resource>, expired: set<Resource>)
      returns (fanned: bool, ghost second: map<SetKey, Stored>, ghost claims: seq<B.Owned>)
      requires store.Valid() && batchSize > 0 && forall a :: a in log ==> a.Marked?
      modifies this`log, this`broken, store`rows, store`n
      ensures (fanned ==> broken == old(broken)) && (!fanned ==> broken)
      ensures store.Valid() && MarksFirst(log) && second == old(store.sets)
      ensures fanned ==> ParentsIn(second, accepted) - marked <= MarkedIn(log)
      ensures store.sets == old(store.sets) && store.n >= old(store.n)
      ensures !fanned ==> store.rows == old(store.rows) && claims == []
      ensures fanned ==> Scheduled(old(store.rows), store.rows, ParentsIn(second, accepted) - marked, expired, claims,
        log, old(store.n), store.n)
      ensures MarkedIn(old(log)) <= MarkedIn(log) && Handed(log) == Handed(old(log)) + Claimed(claims)
      ensures old(log) <= log && Builds(log[|old(log)|..], claims)
    {
      hide Handed, MarkedIn, MarksFirst, ParentsIn, Scheduled;
      second, claims := store.sets, [];
      AllMarks(log);
      if accepted == {} {
        fanned := true;
        NoParents(second);
        NoneScheduled(store.rows, expired, log, store.n);
        assert ParentsIn(second, accepted) - marked == {};
        return;
      }
      fanned := Call();
      if !fanned {
        return;
      }
      var parents := store.ParentsOf(accepted);
      var missed := ListOf(parents - marked);
      fanned, claims := ScheduleBuild(missed, expired);
      if !fanned {
        assert log[|old(log)|..] == [];
        claims := [];
      }
    }

    /** core's RegisterChanges: one statement, the second fanout, and then every
        claim goes to the pool, the deletes one by one, the builds in batches. */
    method RegisterChanges(items: seq<Registration>, known: set<string>, expired: set<Resource>)
      returns (ok: bool, statuses: seq<Status>, fanned: bool, ghost accepted: set<Resource>,
        ghost second: map<SetKey, Stored>, ghost claims: seq<B.Owned>, ghost landed: map<Resource, Row>,
        ghost drawn: nat)
      requires store.Valid() && batchSize > 0 && log == [] && !broken
      modifies this`log, this`broken, store`rows, store`n, store`sets
      ensures store.Valid() && (ok <==> Proper(items, known))
      ensures
        !ok ==> log == [] && store.rows == old(store.rows) && store.n == old(store.n) && store.sets == old(store.sets)
      ensures ok ==> |statuses| == |items| && forall i :: 0 <= i < |items| ==>
        (statuses[i] == Accepted <==> Accepts(RowOf(old(store.rows), items[i].res), items[i].deleted, items[i].version))
      ensures ok ==> accepted == (set i | 0 <= i < |items| && statuses[i] == Accepted :: items[i].res)
      ensures ok ==> accepted + ParentsIn(old(store.sets), accepted) <= MarkedIn(log)
      ensures ok && fanned ==> ParentsIn(second, accepted) <= MarkedIn(log)
      ensures ok ==> old(store.n) <= drawn <= store.n
      ensures ok ==>
        Landed(old(store.rows), landed, items, accepted, accepted + ParentsIn(old(store.sets), accepted), expired,
          old(store.n), drawn)
      ensures ok ==> forall x :: x in accepted + ParentsIn(old(store.sets), accepted) ==>
        RowOf(old(store.rows), x).owner == 0 || x in expired ==> B.Owned(x, landed[x].staleSeq) in claims
      ensures ok && fanned ==>
        forall x :: x in ParentsIn(second, accepted) - accepted - ParentsIn(old(store.sets), accepted) ==>
          && x in store.rows && store.rows[x].stale && drawn < store.rows[x].staleSeq <= store.n
          && (store.rows[x].owner == store.rows[x].staleSeq ==> B.Owned(x, store.rows[x].staleSeq) in claims)
      ensures ok ==> forall o :: o in claims && o.token != 0 ==>
        || (&& o.res in accepted + ParentsIn(old(store.sets), accepted) && o.token == landed[o.res].staleSeq
            && (RowOf(old(store.rows), o.res).owner == 0 || o.res in expired))
        || (fanned && o.res in ParentsIn(second, accepted) && o.token == RowOf(store.rows, o.res).staleSeq)
      ensures MarksFirst(log) && Handed(log) == Claimed(claims) && DeletesOnly(log, DeletedOf(items))
      ensures ok ==> (fanned <==> !broken)
    {
      hide Handed, MarkedIn, MarksFirst, ParentsIn, RowsOk, Claimed, ItemClaims, Landed, Tokens, Scheduled, LetGo,
        DeletesOnly, Builds, DeletedOf;
      accepted, second, claims, statuses, fanned := {}, map[], [], [], false;
      landed, drawn := store.rows, store.n;
      AllMarks(log);
      ok := Validate(items, known);
      if !ok || items == [] {
        NoneHanded();
        NoParents(store.sets);
        NoParents(second);
        OnlyMarked({}, DeletedOf(items));
        NoneLanded(store.rows, items, expired, store.n);
        assert accepted + ParentsIn(store.sets, accepted) == {};
        fanned := true;
        return;
      }
      var results, parentClaims, took, marked := Commit(items, expired);
      accepted, landed, drawn := took, store.rows, store.n;
      statuses := StatusesOf(results);
      SameAccepted(items, results, statuses);
      Others();
      ghost var more;
      ghost var between, middle := store.rows, store.n;
      fanned, second, more := MarkMissedParents(took, marked, expired);
      ghost var rows, was := store.rows, log;
      ghost var deleted := DeletedOf(items);
      HandOn(items, results, parentClaims);
      claims := more + (ItemClaims(items, results) + parentClaims);
      ClaimedJoin(more, ItemClaims(items, results) + parentClaims);
      TokensAre(old(store.rows), landed, ItemClaims(items, results) + parentClaims, marked, expired);
      ghost var missed := ParentsIn(second, accepted) - marked;
      assert fanned || more == [];
      if fanned {
        MissedStay(between, rows, store.rows, missed, expired, more, was, drawn, middle, store.n,
          ItemClaims(items, results) + parentClaims, log[|was|..]);
      }
      assert DeletesOnly([Marked(marked)], deleted) by { OnlyMarked(marked, deleted); }
      BuildsOnly([Marked(marked)], was[1..], more, deleted);
      assert was == [Marked(marked)] + was[1..] && log == was + log[|was|..];
      DeletesJoin(was, log[|was|..], deleted);
    }

    /** The statement, and the mark it landed. */
    method Commit(items: seq<Registration>, expired: set<Resource>)
      returns (results: seq<Registered>, claims: seq<B.Owned>, accepted: set<Resource>, marked: set<Resource>)
      requires store.Valid() && log == [] && forall i, j :: 0 <= i < j < |items| ==> items[i].res != items[j].res
      modifies this`log, store`rows, store`n
      ensures store.Valid() && |results| == |items| && accepted == AcceptedOf(items, results)
      ensures forall i ::
        0 <= i < |items| ==>
          (results[i].accepted <==> Accepts(RowOf(old(store.rows), items[i].res), items[i].deleted, items[i].version))
      ensures marked == accepted + ParentsIn(store.sets, accepted) && store.sets == old(store.sets)
      ensures store.n >= old(store.n)
        && Landed(old(store.rows), store.rows, items, accepted, marked, expired, old(store.n), store.n)
      ensures forall x :: x in marked ==> x in store.rows
      ensures DeletedOf(items) <= accepted && forall o :: o in claims ==> o.res !in accepted
      ensures Tokens(old(store.rows), store.rows, ItemClaims(items, results) + claims, marked, expired)
      ensures log == [Marked(marked)] && MarkedIn(log) == marked && Handed(log) == multiset{}
    {
      hide Handed, MarkedIn, ParentsIn, Registers, Marks, Claims, RowsOk, Landed, Tokens, ItemClaims;
      var parents;
      ghost var middle, nums;
      results, parents, claims, middle, nums := store.RegisterChanges(items, expired);
      AcceptedSo(old(store.rows), middle, items, results, expired, old(store.n));
      Lands(old(store.rows), middle, store.rows, items, results, claims, nums, expired, old(store.n), store.n);
      accepted := AcceptedList(items, results);
      DeletedAccepted(old(store.rows), items, results);
      ClaimsOf(claims, middle, nums, expired);
      marked := accepted + set p | p in parents;
      MarkAppend(log, marked);
      NoneHanded();
      NoParents(store.sets);
      log := log + [Marked(marked)];
    }

    /** After the fanouts: the deletes' claims one by one, then the builds'. */
    method HandOn(items: seq<Registration>, results: seq<Registered>, parentClaims: seq<B.Owned>)
      requires store.Valid() && |results| == |items| && batchSize > 0
      requires forall i, j :: 0 <= i < j < |items| ==> items[i].res != items[j].res
      requires forall o :: o in parentClaims && o.token != 0 ==> o.res !in DeletedOf(items)
      modifies this`log, store`rows
      ensures old(log) <= log && DeletesOnly(log[|old(log)|..], DeletedOf(items))
      ensures store.Valid() && MarkedIn(log) == MarkedIn(old(log)) && (MarksFirst(old(log)) ==> MarksFirst(log))
      ensures Handed(log) == Handed(old(log)) + Claimed(ItemClaims(items, results) + parentClaims)
      ensures store.n == old(store.n) && store.sets == old(store.sets)
      ensures LetGo(old(store.rows), store.rows, ItemClaims(items, results) + parentClaims, log[|old(log)|..])
    {
      hide Handed, MarkedIn, MarksFirst, Claimed, ItemClaims, RowsOk, LetGo, DeletesOnly, Builds, DeletedOf;
      var builds := SubmitDeletes(items, results);
      ghost var middle, rows := log, store.rows;
      SubmitBuildBatches(builds + parentClaims);
      LetGoMore(old(store.rows), rows, ItemClaims(items, results), parentClaims, middle[|old(log)|..]);
      LetGoOn(old(store.rows), rows, store.rows, ItemClaims(items, results) + parentClaims, builds + parentClaims,
        middle[|old(log)|..], log[|middle|..]);
      BuildsOnly(middle[|old(log)|..], log[|middle|..], builds + parentClaims, DeletedOf(items));
      assert log[|old(log)|..] == middle[|old(log)|..] + log[|middle|..];
      ClaimedJoin(builds, parentClaims);
      ClaimedJoin(ItemClaims(items, results), parentClaims);
      Regroup(Handed(middle), Claimed(builds), Claimed(parentClaims));
      Regroup(Handed(old(log)), Claimed(ItemClaims(items, results)), Claimed(parentClaims));
    }

    /** Submits each accepted delete's claim, and keeps the builds'. */
    method SubmitDeletes(items: seq<Registration>, results: seq<Registered>) returns (builds: seq<B.Owned>)
      requires store.Valid() && |results| == |items|
      requires forall i, j :: 0 <= i < j < |items| ==> items[i].res != items[j].res
      modifies this`log, store`rows
      ensures old(log) <= log && DeletesOnly(log[|old(log)|..], DeletedOf(items))
      ensures store.Valid() && MarkedIn(log) == MarkedIn(old(log)) && (MarksFirst(old(log)) ==> MarksFirst(log))
      ensures Handed(log) + Claimed(builds) == Handed(old(log)) + Claimed(ItemClaims(items, results))
      ensures store.n == old(store.n) && store.sets == old(store.sets)
      ensures LetGo(old(store.rows), store.rows, ItemClaims(items, results), log[|old(log)|..])
      ensures forall o :: o in builds ==> o in ItemClaims(items, results) && o.res !in DeletedOf(items)
    {
      hide Handed, MarkedIn, MarksFirst, Claimed, ItemClaims, RowsOk, LetGo;
      builds := [];
      NoClaims(items, results);
      NoneLetGo(store.rows, ItemClaims(items, results));
      ItemClaimsAre(items, results);
      assert log[|log|..] == [];
      for i := 0 to |items|
        invariant store.Valid() && MarkedIn(log) == MarkedIn(old(log)) && (MarksFirst(old(log)) ==> MarksFirst(log))
        invariant Handed(log) + Claimed(builds) == Handed(old(log)) + Claimed(ItemClaims(items[..i], results[..i]))
        invariant old(log) <= log && store.n == old(store.n) && store.sets == old(store.sets)
        invariant LetGo(old(store.rows), store.rows, ItemClaims(items, results), log[|old(log)|..])
        invariant DeletesOnly(log[|old(log)|..], DeletedOf(items))
        invariant forall o :: o in builds ==> o in ItemClaims(items, results) && o.res !in DeletedOf(items)
      {
        ItemClaimsMore(items, results, i);
        if !results[i].accepted {
          continue;
        }
        var o := B.Owned(items[i].res, results[i].token);
        assert o == ItemClaim(items, results, i);
        ClaimedMore(ItemClaims(items[..i], results[..i]), o);
        ClaimedMore(builds, o);
        ghost var one := if o.token == 0 then multiset{} else multiset{o};
        Regroup(Handed(log), Claimed(builds), one);
        Regroup(Handed(old(log)), Claimed(ItemClaims(items[..i], results[..i])), one);
        if items[i].deleted {
          if o.token != 0 {
            ghost var rows, was := store.rows, log;
            var accepted := SubmitOwned([o], true);
            ghost var acts := ActsOf([o], accepted, true);
            LetGoOn(old(store.rows), rows, store.rows, ItemClaims(items, results), [o], was[|old(log)|..], acts);
            assert log[|old(log)|..] == was[|old(log)|..] + acts;
          }
          continue;
        }
        builds := builds + [o];
      }
      assert items[..|items|] == items && results[..|results|] == results;
    }
  }

  ghost function ActsOf(owned: seq<B.Owned>, accepted: bool, deletes: bool): seq<Act> {
    seq(|owned|, i requires 0 <= i < |owned| => if accepted then Submitted(owned[i], deletes) else Released(owned[i]))
  }

  /** What handing claims over does to the rows: each row stands, or one of the
      claims held it and was released, its mark kept; and a released claim holds
      its row no more. */
  ghost predicate LetGo(was: map<Resource, Row>, now: map<Resource, Row>, owned: seq<B.Owned>, acts: seq<Act>) {
    && now.Keys == was.Keys
    && (forall x {:trigger now[x]} {:trigger was[x]} ::
          x in now ==> now[x] == was[x] || Lost(was[x], now[x], x, owned, acts))
    && forall o {:trigger Released(o)} :: Released(o) in acts ==> !Holds(now, o)
  }

  /** The row's owner was one of the claims, released. */
  ghost predicate Lost(was: Row, now: Row, x: Resource, owned: seq<B.Owned>, acts: seq<Act>) {
    && was.owner != 0
    && now == was.(owner := 0)
    && B.Owned(x, was.owner) in owned
    && Released(B.Owned(x, was.owner)) in acts
  }

  /** Every claim submitted is of the list, for a build. */
  ghost predicate Builds(acts: seq<Act>, owned: seq<B.Owned>) {
    forall a {:trigger a in acts} :: a in acts && a.Submitted? ==> !a.deletes && a.o in owned && a.o.token != 0
  }

  lemma BuildsOn(acts: seq<Act>, owned: seq<B.Owned>, batch: seq<B.Owned>, accepted: bool)
    requires Builds(acts, owned) && forall o :: o in batch ==> o in owned && o.token != 0
    ensures Builds(acts + ActsOf(batch, accepted, false), owned)
  {
    forall a | a in ActsOf(batch, accepted, false)
      ensures !a.Marked? && a.o in batch && (a.Submitted? ==> !a.deletes)
    {
    }
  }

  lemma OnlyMarked(rows: set<Resource>, deleted: set<Resource>)
    ensures DeletesOnly([Marked(rows)], deleted) && DeletesOnly([], deleted)
  {
  }

  lemma BuildsMarked(acts: seq<Act>, owned: seq<B.Owned>, rows: set<Resource>)
    requires Builds(acts, owned)
    ensures Builds([Marked(rows)] + acts, owned)
  {
    forall a | a in [Marked(rows)] + acts && a.Submitted? ensures a in acts {}
  }

  lemma DeletesJoin(a: seq<Act>, b: seq<Act>, deleted: set<Resource>)
    requires DeletesOnly(a, deleted) && DeletesOnly(b, deleted)
    ensures DeletesOnly(a + b, deleted)
  {
    assert forall x :: x in a + b <==> x in a || x in b;
  }

  lemma DeletedAccepted(was: map<Resource, Row>, items: seq<Registration>, results: seq<Registered>)
    requires |results| == |items|
    requires forall i :: 0 <= i < |items| ==>
      (results[i].accepted <==> Accepts(RowOf(was, items[i].res), items[i].deleted, items[i].version))
    ensures DeletedOf(items) <= AcceptedOf(items, results)
  {
    forall i | 0 <= i < |items| && items[i].deleted ensures results[i].accepted {}
  }

  /** A claim is submitted as a delete exactly for one of these resources. */
  ghost predicate DeletesOnly(acts: seq<Act>, deleted: set<Resource>) {
    forall a {:trigger a in acts} :: a in acts && a.Submitted? ==> (a.deletes <==> a.o.res in deleted)
  }

  lemma BuildsOnly(acts: seq<Act>, more: seq<Act>, owned: seq<B.Owned>, deleted: set<Resource>)
    requires DeletesOnly(acts, deleted) && Builds(more, owned)
    requires forall o :: o in owned && o.token != 0 ==> o.res !in deleted
    ensures DeletesOnly(acts + more, deleted)
  {
    assert forall a :: a in acts + more <==> a in acts || a in more;
  }

  ghost function DeletedOf(items: seq<Registration>): set<Resource> {
    set i | 0 <= i < |items| && items[i].deleted :: items[i].res
  }

  lemma NoneLetGo(rows: map<Resource, Row>, owned: seq<B.Owned>)
    ensures LetGo(rows, rows, owned, []) && Builds([], owned)
  {
  }

  lemma AllKept(rows: map<Resource, Row>, owned: seq<B.Owned>, deletes: bool)
    ensures LetGo(rows, rows, owned, ActsOf(owned, true, deletes))
  {
  }

  lemma AllLetGo(was: map<Resource, Row>, now: map<Resource, Row>, owned: seq<B.Owned>, deletes: bool)
    requires now.Keys == was.Keys
    requires forall x :: x in now ==> Dropped(was[x], now[x], HeldBy(was[x], x, owned), false)
    ensures LetGo(was, now, owned, ActsOf(owned, false, deletes))
  {
    var acts := ActsOf(owned, false, deletes);
    forall o | o in owned ensures Released(o) in acts {
      var i :| 0 <= i < |owned| && owned[i] == o;
      assert acts[i] == Released(o);
    }
    forall x | x in now ensures now[x] == was[x] || Lost(was[x], now[x], x, owned, acts) {
      if HeldBy(was[x], x, owned) {
        var o :| o in owned && o.res == x && o.token != 0 && o.token == was[x].owner;
        assert o == B.Owned(x, was[x].owner);
      }
    }
    forall o | Released(o) in acts ensures !Holds(now, o) {
      assert o in owned;
      if Holds(was, o) { assert HeldBy(was[o.res], o.res, owned); }
    }
  }

  lemma LetGoMore(
      was: map<Resource, Row>, now: map<Resource, Row>, owned: seq<B.Owned>, others: seq<B.Owned>, acts: seq<Act>)
    requires LetGo(was, now, owned, acts)
    ensures LetGo(was, now, owned + others, acts)
  {
  }

  lemma LetGoOn(
      a: map<Resource, Row>, b: map<Resource, Row>, c: map<Resource, Row>, owned: seq<B.Owned>, batch: seq<B.Owned>,
      acts: seq<Act>, more: seq<Act>)
    requires LetGo(a, b, owned, acts) && LetGo(b, c, batch, more) && forall o :: o in batch ==> o in owned
    ensures LetGo(a, c, owned, acts + more)
  {
    forall x | x in c ensures c[x] == a[x] || Lost(a[x], c[x], x, owned, acts + more) {
      assert b[x] == a[x] || Lost(a[x], b[x], x, owned, acts);
      assert c[x] == b[x] || Lost(b[x], c[x], x, batch, more);
    }
    forall o | Released(o) in acts + more ensures !Holds(c, o) {
      if Released(o) in acts { assert !Holds(b, o); }
    }
  }

  lemma BatchMore(batches: seq<seq<B.Owned>>, i: nat)
    requires i < |batches|
    ensures B.Flatten(batches[..i + 1]) == B.Flatten(batches[..i]) + batches[i]
    ensures multiset(B.Flatten(batches[..i + 1])) == multiset(B.Flatten(batches[..i])) + multiset(batches[i])
  {
    assert batches[..i + 1] == batches[..i] + [batches[i]];
    B.FlattenAppend(batches[..i], batches[i]);
  }

  lemma BatchIn(owned: seq<B.Owned>, batches: seq<seq<B.Owned>>, i: nat)
    requires i < |batches| && B.Flatten(batches) == B.ByTypes(owned, B.TypesOf(owned))
    ensures forall o :: o in batches[i] ==> o in owned && o.token != 0
  {
    forall o | o in batches[i] ensures o in owned && o.token != 0 {
      B.FlattenHas(batches, i, o);
      B.BatchesKeepEvery(owned, o);
      assert multiset(B.ByTypes(owned, B.TypesOf(owned)))[o] > 0;
    }
  }

  /** A row marked between two values of the sequence: nothing else about it
      moved but its owner. */
  ghost predicate MarkedAt(was: Row, now: Row, after: nat, upto: nat) {
    SameChange(was, now) && SameBackoff(was, now) && now.stale && after < now.staleSeq <= upto
  }

  /** The claim of a mark: at its number, held, or released to the sweep. */
  ghost predicate Granted(now: map<Resource, Row>, x: Resource, claims: seq<B.Owned>, log: seq<Act>)
    requires x in now
  {
    var o := B.Owned(x, now[x].staleSeq);
    o in claims && (now[x].owner == o.token || (now[x].owner == 0 && Released(o) in log))
  }

  /** What scheduling the roots leaves: each is marked at a number drawn then,
      exactly those without a live owner are claimed at it, and no other row
      moved. */
  ghost predicate Scheduled(
      was: map<Resource, Row>, now: map<Resource, Row>, roots: set<Resource>, expired: set<Resource>,
      claims: seq<B.Owned>, log: seq<Act>, after: nat, upto: nat)
  {
    && (forall x {:trigger now[x]} {:trigger x in roots} ::
          x in roots ==> x in now && MarkedAt(RowOf(was, x), now[x], after, upto))
    && (forall x {:trigger SameRow(was, now, x)} {:trigger x in roots} :: x !in roots ==> SameRow(was, now, x))
    && (forall x {:trigger now[x]} {:trigger x in roots} :: x in roots ==>
          if RowOf(was, x).owner == 0 || x in expired then Granted(now, x, claims, log)
          else now[x].owner == RowOf(was, x).owner)
    && forall o {:trigger o in claims} :: o in claims ==>
         o.res in roots && o.token == now[o.res].staleSeq && (RowOf(was, o.res).owner == 0 || o.res in expired)
  }

  lemma NoneScheduled(rows: map<Resource, Row>, expired: set<Resource>, log: seq<Act>, n: nat)
    ensures Scheduled(rows, rows, {}, expired, [], log, n, n)
    ensures Claimed([]) == multiset{} && Builds(log[|log|..], [])
    ensures (forall a :: a in log ==> a.Marked?) ==> MarksFirst(log)
  {
  }

  lemma ScheduledRow(
      was: map<Resource, Row>, marked: map<Resource, Row>, now: map<Resource, Row>, nums: map<Resource, nat>,
      owned: seq<B.Owned>, expired: set<Resource>, after: nat, upto: nat, acts: seq<Act>, log: seq<Act>, x: Resource)
    requires marked == Marks(was, nums, true, expired) && Drawn(nums, after, upto) && Claims(owned, was, nums, expired)
    requires LetGo(marked, now, owned, acts) && forall a :: a in acts ==> a in log
    ensures x in nums ==> x in now && now[x].staleSeq == nums[x] && MarkedAt(RowOf(was, x), now[x], after, upto)
    ensures x in nums ==>
      if RowOf(was, x).owner == 0 || x in expired then Granted(now, x, owned, log)
      else now[x].owner == RowOf(was, x).owner
    ensures x !in nums ==> SameRow(was, now, x)
  {
    if x in now { assert now[x] == marked[x] || Lost(marked[x], now[x], x, owned, acts); }
  }

  lemma ScheduledRows(
      was: map<Resource, Row>, marked: map<Resource, Row>, now: map<Resource, Row>, nums: map<Resource, nat>,
      owned: seq<B.Owned>, expired: set<Resource>, after: nat, upto: nat, acts: seq<Act>, log: seq<Act>)
    requires marked == Marks(was, nums, true, expired) && Drawn(nums, after, upto) && Claims(owned, was, nums, expired)
    requires LetGo(marked, now, owned, acts) && forall a :: a in acts ==> a in log
    ensures Scheduled(was, now, nums.Keys, expired, owned, log, after, upto)
  {
    forall o | o in owned
      ensures o.res in nums && o.token == nums[o.res] && (RowOf(was, o.res).owner == 0 || o.res in expired)
    {
      assert o == B.Owned(o.res, nums[o.res]);
    }
    hide Marks, Drawn, Claims, LetGo, MarkedAt, Granted, SameRow;
    forall x
      ensures x in nums ==> x in now && now[x].staleSeq == nums[x] && MarkedAt(RowOf(was, x), now[x], after, upto)
      ensures x in nums ==>
        if RowOf(was, x).owner == 0 || x in expired then Granted(now, x, owned, log)
        else now[x].owner == RowOf(was, x).owner
      ensures x !in nums ==> SameRow(was, now, x)
    {
      ScheduledRow(was, marked, now, nums, owned, expired, after, upto, acts, log, x);
    }
  }

  /** An accepted item's row: registered at one number, its backoff gone, and
      claimed at it without a live owner. */
  ghost predicate RegisteredAs(was: Row, now: Row, it: Registration, expired: bool) {
    && now.changeSeq == now.staleSeq && now.stale && now.attempts == 0 && !now.waits && now.buildIdx == was.buildIdx
    && now.deleted == it.deleted
    && now.version == (if it.deleted then 0 else if it.version == 0 then was.version else it.version)
    && now.owner == if was.owner != 0 && !expired then was.owner else now.staleSeq
  }

  /** The rows the statement leaves: the accepted items registered, every other
      row it marks marked only, each at a number of its own drawn then, and no
      other row moved. */
  ghost predicate Landed(
      was: map<Resource, Row>, now: map<Resource, Row>, items: seq<Registration>, accepted: set<Resource>,
      marked: set<Resource>, expired: set<Resource>, after: nat, upto: nat)
  {
    && (forall i {:trigger items[i]} :: 0 <= i < |items| && items[i].res in accepted ==>
          && items[i].res in now
          && RegisteredAs(RowOf(was, items[i].res), now[items[i].res], items[i], items[i].res in expired))
    && (forall x {:trigger now[x]} {:trigger x in marked} ::
          x in marked ==> x in now && after < now[x].staleSeq <= upto)
    && (forall x {:trigger now[x]} {:trigger x in marked} :: x in marked && x !in accepted ==>
          && MarkedAt(RowOf(was, x), now[x], after, upto)
          && now[x].owner == if RowOf(was, x).owner == 0 || x in expired then now[x].staleSeq else RowOf(was, x).owner)
    && forall x {:trigger SameRow(was, now, x)} {:trigger x in marked} :: x !in marked ==> SameRow(was, now, x)
  }

  /** The claims of the statement: of exactly the marked rows without a live
      owner, each at its mark. */
  ghost predicate Tokens(
      was: map<Resource, Row>, now: map<Resource, Row>, claims: seq<B.Owned>, marked: set<Resource>,
      expired: set<Resource>)
    requires forall x :: x in marked ==> x in now
  {
    && (forall x {:trigger x in marked} :: x in marked && (RowOf(was, x).owner == 0 || x in expired) ==>
          B.Owned(x, now[x].staleSeq) in claims)
    && forall o {:trigger o in claims} :: o in claims && o.token != 0 ==>
         && o.res in marked && o.token == now[o.res].staleSeq && (RowOf(was, o.res).owner == 0 || o.res in expired)
  }

  lemma ClaimsOf(claims: seq<B.Owned>, rows: map<Resource, Row>, nums: map<Resource, nat>, expired: set<Resource>)
    requires Claims(claims, rows, nums, expired)
    ensures forall o :: o in claims ==> o.res in nums
  {
  }

  lemma Lands(
      was: map<Resource, Row>, middle: map<Resource, Row>, now: map<Resource, Row>, items: seq<Registration>,
      results: seq<Registered>, claims: seq<B.Owned>, nums: map<Resource, nat>, expired: set<Resource>, after: nat,
      upto: nat)
    requires Registers(was, middle, items, results, expired, after) && RowsOk(now, upto)
    requires now == Marks(middle, nums, true, expired) && Claims(claims, middle, nums, expired)
    requires nums.Keys !! AcceptedOf(items, results) && forall p :: p in nums ==> nums[p] > after
    requires forall a, b :: 0 <= a < b < |items| ==> items[a].res != items[b].res
    ensures
      Landed(was, now, items, AcceptedOf(items, results), AcceptedOf(items, results) + nums.Keys, expired, after, upto)
    ensures forall x :: x in AcceptedOf(items, results) + nums.Keys ==> x in now
    ensures Tokens(was, now, ItemClaims(items, results) + claims, AcceptedOf(items, results) + nums.Keys, expired)
  {
    var accepted := AcceptedOf(items, results);
    forall x | x !in accepted ensures SameRow(was, middle, x) {
      OthersStand(was, middle, items, results, expired, after, x);
    }
    LandedTokens(was, middle, now, items, results, claims, nums, expired, after);
    forall i | 0 <= i < |items| && items[i].res in accepted
      ensures items[i].res in now && now[items[i].res].staleSeq > after
      ensures RegisteredAs(RowOf(was, items[i].res), now[items[i].res], items[i], items[i].res in expired)
    {
      ItemLands(was, middle, now, items, results, nums, expired, after, i);
    }
    hide Registers, Claims, Tokens, ItemClaims, RegisteredAs, AcceptedOf, RowsOk, RowOk, Marks, MarkedAt, SameRow,
      RowOf;
    forall x | x in accepted ensures now[x].staleSeq > after {
      AcceptedAt(items, results, x);
    }
    MarksLand(was, middle, now, accepted, nums, expired, after, upto);
  }

  lemma MarksLand(
      was: map<Resource, Row>, middle: map<Resource, Row>, now: map<Resource, Row>, accepted: set<Resource>,
      nums: map<Resource, nat>, expired: set<Resource>, after: nat, upto: nat)
    requires now == Marks(middle, nums, true, expired) && RowsOk(now, upto)
    requires nums.Keys !! accepted && forall p :: p in nums ==> nums[p] > after
    requires forall x :: x !in accepted ==> SameRow(was, middle, x)
    ensures forall x :: x in now ==> now[x].staleSeq <= upto
    ensures forall x :: x in nums ==>
      && x in now
      && MarkedAt(RowOf(was, x), now[x], after, upto)
      && now[x].owner == if RowOf(was, x).owner == 0 || x in expired then now[x].staleSeq else RowOf(was, x).owner
    ensures forall x :: x !in accepted + nums.Keys ==> SameRow(was, now, x)
  {
    forall x | x in now ensures now[x].staleSeq <= upto { assert RowOk(now[x], upto); }
    hide RowsOk, RowOk;
    forall x | x !in accepted ensures SameRow(was, middle, x) {}
  }

  lemma AcceptedAt(items: seq<Registration>, results: seq<Registered>, x: Resource)
    requires |results| == |items| && x in AcceptedOf(items, results)
    ensures exists i :: 0 <= i < |items| && items[i].res == x
  {
  }

  lemma OthersStand(
      was: map<Resource, Row>, middle: map<Resource, Row>, items: seq<Registration>, results: seq<Registered>,
      expired: set<Resource>, n: nat, x: Resource)
    requires Registers(was, middle, items, results, expired, n) && x !in AcceptedOf(items, results)
    ensures SameRow(was, middle, x)
  {
    if IsItem(items, x) {
      var i :| 0 <= i < |items| && items[i].res == x;
      assert RegistersItem(was, middle, items[i], results[i], expired, n + i + 1);
    }
  }

  lemma ItemLands(
      was: map<Resource, Row>, middle: map<Resource, Row>, now: map<Resource, Row>, items: seq<Registration>,
      results: seq<Registered>, nums: map<Resource, nat>, expired: set<Resource>, n: nat, i: nat)
    requires Registers(was, middle, items, results, expired, n) && now == Marks(middle, nums, true, expired)
    requires nums.Keys !! AcceptedOf(items, results) && i < |items| && items[i].res in AcceptedOf(items, results)
    requires forall a, b :: 0 <= a < b < |items| ==> items[a].res != items[b].res
    ensures items[i].res in now && now[items[i].res].staleSeq > n
    ensures RegisteredAs(RowOf(was, items[i].res), now[items[i].res], items[i], items[i].res in expired)
  {
    assert RegistersItem(was, middle, items[i], results[i], expired, n + i + 1);
  }

  lemma LandedTokens(
      was: map<Resource, Row>, middle: map<Resource, Row>, now: map<Resource, Row>, items: seq<Registration>,
      results: seq<Registered>, claims: seq<B.Owned>, nums: map<Resource, nat>, expired: set<Resource>, after: nat)
    requires Registers(was, middle, items, results, expired, after)
    requires now == Marks(middle, nums, true, expired) && Claims(claims, middle, nums, expired)
    requires nums.Keys !! AcceptedOf(items, results)
    requires forall x :: x !in AcceptedOf(items, results) ==> SameRow(was, middle, x)
    ensures forall x :: x in AcceptedOf(items, results) + nums.Keys ==> x in now
    ensures Tokens(was, now, ItemClaims(items, results) + claims, AcceptedOf(items, results) + nums.Keys, expired)
  {
    var accepted, all := AcceptedOf(items, results), ItemClaims(items, results) + claims;
    ItemClaimsAre(items, results);
    hide ItemClaims;
    forall x | x in accepted ensures x in now {
      var i :| 0 <= i < |items| && results[i].accepted && items[i].res == x;
      assert RegistersItem(was, middle, items[i], results[i], expired, after + i + 1);
    }
    forall x | x in accepted + nums.Keys && (RowOf(was, x).owner == 0 || x in expired)
      ensures B.Owned(x, now[x].staleSeq) in all
    {
      if x in accepted {
        var i :| 0 <= i < |items| && results[i].accepted && items[i].res == x;
        assert RegistersItem(was, middle, items[i], results[i], expired, after + i + 1);
        assert ItemClaim(items, results, i) in ItemClaims(items, results);
      } else {
        assert SameRow(was, middle, x);
        assert B.Owned(x, nums[x]) in claims;
      }
    }
    forall o | o in all && o.token != 0
      ensures o.res in accepted + nums.Keys && o.token == now[o.res].staleSeq
      ensures RowOf(was, o.res).owner == 0 || o.res in expired
    {
      if o in claims {
        assert o.res in nums && o.token == nums[o.res] && SameRow(was, middle, o.res);
        assert o == B.Owned(o.res, nums[o.res]);
      } else {
        var i :| 0 <= i < |items| && results[i].accepted && o == ItemClaim(items, results, i);
        assert RegistersItem(was, middle, items[i], results[i], expired, after + i + 1);
        assert items[i].res in accepted;
      }
    }
  }

  ghost function ItemClaim(items: seq<Registration>, results: seq<Registered>, i: nat): B.Owned
    requires |results| == |items| && i < |items|
  {
    B.Owned(items[i].res, results[i].token)
  }

  lemma {:induction false} ItemClaimsAre(items: seq<Registration>, results: seq<Registered>)
    requires |results| == |items|
    ensures forall o ::
      o in ItemClaims(items, results) <==>
        exists i :: 0 <= i < |items| && results[i].accepted && o == ItemClaim(items, results, i)
  {
    if items != [] {
      var n := |items| - 1;
      ItemClaimsAre(items[..n], results[..n]);
      forall o ensures o in ItemClaims(items, results) <==>
        exists i :: 0 <= i < |items| && results[i].accepted && o == ItemClaim(items, results, i)
      {
        if o in ItemClaims(items[..n], results[..n]) {
          var i :| 0 <= i < n && results[..n][i].accepted && o == ItemClaim(items[..n], results[..n], i);
          assert o == ItemClaim(items, results, i);
        } else if results[n].accepted && o == B.Owned(items[n].res, results[n].token) {
          assert o == ItemClaim(items, results, n);
        }
        if i :| 0 <= i < |items| && results[i].accepted && o == ItemClaim(items, results, i) {
          if i < n { assert o == ItemClaim(items[..n], results[..n], i); }
        }
      }
    }
  }

  lemma NoneLanded(rows: map<Resource, Row>, items: seq<Registration>, expired: set<Resource>, n: nat)
    ensures Landed(rows, rows, items, {}, {}, expired, n, n)
  {
  }

  lemma TokensAre(
      was: map<Resource, Row>, now: map<Resource, Row>, claims: seq<B.Owned>, marked: set<Resource>,
      expired: set<Resource>)
    requires forall x :: x in marked ==> x in now
    requires Tokens(was, now, claims, marked, expired)
    ensures forall x :: x in marked ==>
      RowOf(was, x).owner == 0 || x in expired ==> B.Owned(x, now[x].staleSeq) in claims
    ensures forall o :: o in claims && o.token != 0 ==>
      o.res in marked && o.token == now[o.res].staleSeq && (RowOf(was, o.res).owner == 0 || o.res in expired)
  {
  }

  /** Handing claims over leaves a scheduled root marked, and its ownership, if
      it still stands, is among the claims. */
  lemma MissedStay(
      was: map<Resource, Row>, marked: map<Resource, Row>, now: map<Resource, Row>, roots: set<Resource>,
      expired: set<Resource>, claims: seq<B.Owned>, log: seq<Act>, drawn: nat, after: nat, upto: nat,
      owned: seq<B.Owned>, acts: seq<Act>)
    requires Scheduled(was, marked, roots, expired, claims, log, after, upto) && LetGo(marked, now, owned, acts)
    requires drawn <= after && RowsOk(was, after)
    ensures forall x :: x in roots ==>
      && x in now && now[x].stale && drawn < now[x].staleSeq <= upto
      && (now[x].owner == now[x].staleSeq ==> B.Owned(x, now[x].staleSeq) in claims)
    ensures forall o :: o in claims ==> o.res in roots && o.token == RowOf(now, o.res).staleSeq
  {
    forall o | o in claims ensures o.res in roots && o.token == RowOf(now, o.res).staleSeq {
      assert now[o.res] == marked[o.res] || Lost(marked[o.res], now[o.res], o.res, owned, acts);
    }
    forall x | x in roots
      ensures x in now && now[x].stale && drawn < now[x].staleSeq <= upto
      ensures now[x].owner == now[x].staleSeq ==> B.Owned(x, now[x].staleSeq) in claims
    {
      assert x in marked;
      assert now[x] == marked[x] || Lost(marked[x], now[x], x, owned, acts);
      assert x in was ==> RowOk(was[x], after);
    }
  }

  /** A row whose mark a delete's finish found moved: the mark stands, the
      backoff is gone, and the ownership of a finish that still held the row
      goes on at that mark, handed to the pool or released. */
  ghost predicate MarkStands(was: Row, now: Row, x: Resource, token: nat, log: seq<Act>) {
    && SameMark(was.(buildIdx := now.buildIdx), now) && now.stale == was.stale && now.attempts == 0 && !now.waits
    && (was.owner == token != 0 ==>
          || (now.owner == now.staleSeq && Submitted(B.Owned(x, now.staleSeq), now.deleted) in log)
          || (now.owner == 0 && Released(B.Owned(x, now.staleSeq)) in log))
    && (!(was.owner == token != 0) ==> now.owner == was.owner)
  }

  lemma DroppedAs(was: Row, begun: Row, now: Row, token: nat, idx: nat)
    requires begun == was || begun == was.(buildIdx := idx)
    requires Dropped(begun, now, was.owner == token != 0, true)
    ensures now.buildIdx == was.buildIdx || now.buildIdx == idx
    ensures Dropped(was.(buildIdx := now.buildIdx), now, was.owner == token != 0, true)
  {
  }

  lemma StandsAs(was: Row, begun: Row, now: Row, x: Resource, token: nat, log: seq<Act>)
    requires MarkStands(begun, now, x, token, log) && begun == was.(buildIdx := begun.buildIdx)
    ensures MarkStands(was, now, x, token, log)
  {
  }

  lemma OneLetGo(
      was: map<Resource, Row>, now: map<Resource, Row>, x: Resource, token: nat, deletes: bool, accepted: bool,
      acts: seq<Act>, log: seq<Act>)
    requires acts == ActsOf([B.Owned(x, token)], accepted, deletes) && forall a :: a in acts ==> a in log
    requires LetGo(was, now, [B.Owned(x, token)], acts) && x in was && was[x].owner == token != 0
    ensures OtherRows(was, now, x)
    ensures
      || (now[x] == was[x] && Submitted(B.Owned(x, token), deletes) in log)
      || (now[x] == was[x].(owner := 0) && Released(B.Owned(x, token)) in log)
  {
    assert acts[0] in acts;
  }

  ghost predicate Proper(items: seq<Registration>, known: set<string>) {
    && (forall i :: 0 <= i < |items| ==> items[i].res.typ in known)
    && forall i, j :: 0 <= i < j < |items| ==> items[i].res != items[j].res
  }

  lemma ImproperAt(items: seq<Registration>, i: nat, known: set<string>)
    requires i < |items| && (items[i].res.typ !in known || exists k :: 0 <= k < i && items[k].res == items[i].res)
    ensures !Proper(items, known)
  {
  }

  lemma ClaimedOne(x: Resource, token: nat)
    ensures Claimed([B.Owned(x, token)]) == if token == 0 then multiset{} else multiset([B.Owned(x, token)])
  {
    assert [B.Owned(x, token)][..0] == [];
  }

  lemma AllMarks(log: seq<Act>)
    ensures (forall a :: a in log ==> a.Marked?) ==> MarksFirst(log)
  {
  }

  lemma NoParents(sets: map<SetKey, Stored>)
    ensures ParentsIn(sets, {}) == {} && MarkedIn([]) == {}
  {
  }

  lemma NoneHanded()
    ensures Handed([]) == multiset{} && Claimed([]) == multiset{}
  {
  }

  lemma SameAccepted(items: seq<Registration>, results: seq<Registered>, statuses: seq<Status>)
    requires
      && |results| == |items| == |statuses|
      && forall i :: 0 <= i < |results| ==> (statuses[i] == Accepted <==> results[i].accepted)
    ensures AcceptedOf(items, results) == set i | 0 <= i < |items| && statuses[i] == Accepted :: items[i].res
  {
  }

  method AcceptedList(items: seq<Registration>, results: seq<Registered>) returns (took: set<Resource>)
    requires |results| == |items|
    ensures took == AcceptedOf(items, results)
  {
    took := set i | 0 <= i < |items| && results[i].accepted :: items[i].res;
  }

  method StatusesOf(results: seq<Registered>) returns (statuses: seq<Status>)
    ensures
      |statuses| == |results| && forall i :: 0 <= i < |results| ==> (statuses[i] == Accepted <==> results[i].accepted)
  {
    statuses := [];
    for i := 0 to |results|
      invariant |statuses| == i && forall k :: 0 <= k < i ==> (statuses[k] == Accepted <==> results[k].accepted)
    {
      statuses := statuses + [if results[i].accepted then Accepted else Stale];
    }
  }

  lemma AcceptedSo(
      was: map<Resource, Row>, now: map<Resource, Row>, items: seq<Registration>, results: seq<Registered>,
      expired: set<Resource>, n: nat)
    requires Registers(was, now, items, results, expired, n)
    ensures |results| == |items|
    ensures forall i ::
      0 <= i < |items| ==>
        (results[i].accepted <==> Accepts(RowOf(was, items[i].res), items[i].deleted, items[i].version))
  {
    forall i | 0 <= i < |items|
      ensures results[i].accepted <==> Accepts(RowOf(was, items[i].res), items[i].deleted, items[i].version)
    {
      assert RegistersItem(was, now, items[i], results[i], expired, n + i + 1);
    }
  }

  /** The accepted items' claims, in order, the unclaimed with token 0. */
  ghost function ItemClaims(items: seq<Registration>, results: seq<Registered>): seq<B.Owned>
    requires |results| == |items|
  {
    if items == [] then []
    else
      var n := |items| - 1;
      ItemClaims(items[..n], results[..n]) +
        if results[n].accepted then [B.Owned(items[n].res, results[n].token)] else []
  }

  lemma NoClaims(items: seq<Registration>, results: seq<Registered>)
    requires |results| == |items|
    ensures ItemClaims(items[..0], results[..0]) == [] && Claimed([]) == multiset{}
  {
  }

  lemma ItemClaimsMore(items: seq<Registration>, results: seq<Registered>, i: nat)
    requires |results| == |items| && i < |items|
    ensures ItemClaims(items[..i + 1], results[..i + 1]) ==
            if results[i].accepted then
              ItemClaims(items[..i], results[..i]) + [B.Owned(items[i].res, results[i].token)]
            else
              ItemClaims(items[..i], results[..i])
  {
    assert items[..i + 1][..i] == items[..i] && results[..i + 1][..i] == results[..i];
  }

  lemma ClaimedMore(owned: seq<B.Owned>, o: B.Owned)
    ensures Claimed(owned + [o]) == Claimed(owned) + if o.token == 0 then multiset{} else multiset{o}
    ensures o.token != 0 ==> multiset([o]) == multiset{o}
  {
    assert (owned + [o])[..|owned|] == owned;
  }

  lemma {:induction false} ClaimedJoin(a: seq<B.Owned>, b: seq<B.Owned>)
    ensures Claimed(a + b) == Claimed(a) + Claimed(b)
  {
    if b == [] {
      assert a + b == a;
    } else {
      var n := |b| - 1;
      ClaimedJoin(a, b[..n]);
      ClaimedLast(a, b);
    }
  }

  lemma ClaimedLast(a: seq<B.Owned>, b: seq<B.Owned>)
    requires b != [] && Claimed(a + b[..|b| - 1]) == Claimed(a) + Claimed(b[..|b| - 1])
    ensures Claimed(a + b) == Claimed(a) + Claimed(b)
  {
    hide Claimed;
    var n := |b| - 1;
    var one := if b[n].token == 0 then multiset{} else multiset{b[n]};
    ClaimedMore(a + b[..n], b[n]);
    ClaimedMore(b[..n], b[n]);
    assert a + b == (a + b[..n]) + [b[n]] && b == b[..n] + [b[n]];
    Regroup(Claimed(a), Claimed(b[..n]), one);
  }

  lemma Regroup<T>(x: multiset<T>, y: multiset<T>, z: multiset<T>)
    ensures (x + y) + z == x + (y + z) && (x + z) + y == (x + y) + z
  {
  }

  lemma HandOne(log: seq<Act>, a: Act)
    requires !a.Marked?
    ensures Handed(log + [a]) == Handed(log) + multiset{a.o} && MarkedIn(log + [a]) == MarkedIn(log)
    ensures MarksFirst(log) ==> MarksFirst(log + [a])
  {
    HandedAppend(log, a);
    assert forall x :: x in log + [a] <==> x in log || x == a;
  }

  lemma DrawnUp(nums: map<Resource, nat>, was: nat, now: nat)
    requires Drawn(nums, was, now)
    ensures was <= now
  {
  }

  lemma MarkAppend(log: seq<Act>, rows: set<Resource>)
    ensures Handed(log + [Marked(rows)]) == Handed(log)
    ensures MarkedIn(log + [Marked(rows)]) == MarkedIn(log) + rows
    ensures (forall a :: a in log ==> a.Marked?) ==> MarksFirst(log + [Marked(rows)])
  {
    HandedAppend(log, Marked(rows));
    var now := log + [Marked(rows)];
    assert forall a :: a in now <==> a in log || a == Marked(rows);
    forall x ensures x in MarkedIn(now) <==> x in MarkedIn(log) || x in rows {
      if x in rows { assert Marked(rows) in now; }
    }
  }
}
