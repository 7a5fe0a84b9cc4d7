// The store: its statements as methods that update the rows, the edge sets and
// the Change Sequence in place. Each method is one statement, or one
// transaction, of the database.

module StoreModel {
  import opened Wrappers
  import opened Rows
  import B = Batches
  import L = Locks

  /** One stored edge set: the stamp of the build that wrote it, its children. */
  datatype Stored = Stored(stamp: nat, children: set<Resource>)

  datatype SetKey = SetKey(res: Resource, version: Version)

  /** One registered item, and what became of it. */
  datatype Registration = Registration(res: Resource, deleted: bool, version: nat)
  datatype Registered = Registered(accepted: bool, staleSeq: nat, token: nat)

  /** In every state the statements can reach, no number a row carries is above
      the sequence, a change is never above the mark, and an owner holds a mark
      at or above its claim. */
  predicate RowOk(r: Row, n: nat) {
    r.changeSeq <= r.staleSeq <= n && r.buildIdx <= n && (r.owner != 0 ==> r.stale && r.owner <= r.staleSeq)
  }

  predicate RowsOk(rows: map<Resource, Row>, n: nat) {
    forall x {:trigger rows[x]} :: x in rows ==> RowOk(rows[x], n)
  }

  lemma FreshOk(n: nat)
    ensures RowOk(Fresh, n)
  {
  }

  /** Marks each listed resource at its number. */
  ghost function Marks(
      rows: map<Resource, Row>, nums: map<Resource, nat>, lease: bool, expired: set<Resource>): map<Resource, Row>
  {
    map x | x in rows.Keys + nums.Keys ::
      if x in nums then Mark(RowOf(rows, x), nums[x], lease, x in expired) else rows[x]
  }

  /** The numbers of one statement: each drawn by it, none twice. */
  ghost predicate Drawn(nums: map<Resource, nat>, was: nat, now: nat) {
    && was <= now
    && (forall x {:trigger nums[x]} :: x in nums ==> was < nums[x] <= now)
    && forall x, y {:trigger nums[x], nums[y]} :: x in nums && y in nums && x != y ==> nums[x] != nums[y]
  }

  /** The row has no live owner. */
  predicate Claimable(r: Row, expired: bool): (yes: bool)
    ensures yes ==> r.owner != 0 ==> expired
    ensures r.owner == 0 || expired ==> yes
  {
    r.owner == 0 || expired
  }

  /** The claims of a marking statement: of exactly the rows without a live
      owner, each at its mark's number. */
  ghost predicate Claims(
      owned: seq<B.Owned>, rows: map<Resource, Row>, nums: map<Resource, nat>, expired: set<Resource>)
  {
    && (forall i, j :: 0 <= i < j < |owned| ==> owned[i].res != owned[j].res)
    && (forall o {:trigger o in owned} :: o in owned ==> o.res in nums && o.token == nums[o.res])
    && forall x {:trigger nums[x]} ::
         x in nums ==> (B.Owned(x, nums[x]) in owned <==> RowOf(rows, x).owner == 0 || x in expired)
  }

  /** The Parents whose stored edges name one of the children. */
  ghost function ParentsIn(sets: map<SetKey, Stored>, children: set<Resource>): set<Resource> {
    set k | k in sets && sets[k].children * children != {} :: k.res
  }

  /** Every row but x's is as it was. */
  ghost predicate OtherRows(was: map<Resource, Row>, now: map<Resource, Row>, x: Resource) {
    now.Keys + {x} == was.Keys + {x} && forall y :: y in now && y != x ==> now[y] == was[y]
  }

  /** What ReplaceEdges leaves: each offered set that no newer stamp outranks,
      and no stored set of an undeclared version at or below the stamp. */
  ghost function Replaced(
      sets: map<SetKey, Stored>, res: Resource, stamp: nat, offered: map<Version, set<Resource>>,
      declared: Option<set<Version>>): map<SetKey, Stored>
  {
    map k |
        k in sets.Keys + (set v | v in offered :: SetKey(res, v)) && Survives(sets, res, stamp, offered, declared, k) ::
      if k.res == res && k.version in offered && !(k in sets && sets[k].stamp > stamp) then
        Stored(stamp, offered[k.version])
      else
        sets[k]
  }

  /** The set is offered, outranks the stamp, or is not for this call to drop. */
  ghost predicate Survives(
      sets: map<SetKey, Stored>, res: Resource, stamp: nat, offered: map<Version, set<Resource>>,
      declared: Option<set<Version>>, k: SetKey)
  {
    || k.res != res
    || k.version in offered
    || (k in sets && sets[k].stamp > stamp)
    || declared.None?
    || k.version in declared.value
  }

  /** What RemoveResource leaves. */
  ghost function RemovedSets(sets: map<SetKey, Stored>, res: Resource, stamp: nat): map<SetKey, Stored> {
    map k | k in sets && (k.res != res || sets[k].stamp > stamp) :: sets[k]
  }

  /** What a replace leaves of one version's set: a set above the stamp as it
      was, and otherwise the offered set, none when undeclared. */
  ghost function After(
      was: Option<Stored>, stamp: nat, offered: map<Version, set<Resource>>, declared: Option<set<Version>>, v: Version
      ): Option<Stored>
  {
    if was.Some? && was.value.stamp > stamp then was
    else if v in offered then Some(Stored(stamp, offered[v]))
    else if declared.Some? && v !in declared.value then None
    else was
  }

  lemma ReplacedAt(
      sets: map<SetKey, Stored>, res: Resource, stamp: nat, offered: map<Version, set<Resource>>,
      declared: Option<set<Version>>, k: SetKey)
    ensures Get(Replaced(sets, res, stamp, offered, declared), k) ==
            if k.res == res then After(Get(sets, k), stamp, offered, declared, k.version) else Get(sets, k)
  {
    if k.res == res { assert SetKey(res, k.version) == k; }
  }

  /** The older build's replace runs second and leaves a set the newer build,
      run first, had no word on: it offers a version the newer one neither
      offers nor declares, and no set of that version outranks the newer. */
  ghost predicate LeftOver(
      sets: map<SetKey, Stored>, res: Resource, b: nat, as_: map<Version, set<Resource>>,
      bs: map<Version, set<Resource>>, bd: Option<set<Version>>, v: Version)
  {
    && v in as_ && v !in bs && bd.Some? && v !in bd.value
    && !(SetKey(res, v) in sets && sets[SetKey(res, v)].stamp > b)
  }

  /** Two builds' replaces of one resource, the second begun later. Whichever
      order they ran in, the newer one's offered sets stand unless a still
      newer stamp outranks them; and the two orders leave the same sets exactly
      when the older build offers no version that the newer one drops. */
  lemma ReplacesCommute(
      sets: map<SetKey, Stored>, res: Resource, a: nat, b: nat, as_: map<Version, set<Resource>>,
      bs: map<Version, set<Resource>>, ad: Option<set<Version>>, bd: Option<set<Version>>)
    requires a < b
    ensures var ab := Replaced(Replaced(sets, res, a, as_, ad), res, b, bs, bd);
            var ba := Replaced(Replaced(sets, res, b, bs, bd), res, a, as_, ad);
            && (ab == ba <==> forall v :: !LeftOver(sets, res, b, as_, bs, bd, v))
            && (forall v ::
                  v in bs ==>
                    Get(ab, SetKey(res, v)) == Get(ba, SetKey(res, v)) ==
                      Some(NewerSet(sets, SetKey(res, v), b, bs[v])))
  {
    var older, newer := Replaced(sets, res, a, as_, ad), Replaced(sets, res, b, bs, bd);
    var ab, ba := Replaced(older, res, b, bs, bd), Replaced(newer, res, a, as_, ad);
    forall k { BothAt(sets, res, a, b, as_, bs, ad, bd, k); }
    hide *;
    SameSets(ab, ba);
    if ab == ba {
      forall v
        ensures !LeftOver(sets, res, b, as_, bs, bd, v)
      {
        BothAt(sets, res, a, b, as_, bs, ad, bd, SetKey(res, v));
      }
    }
    forall v | v in bs
      ensures Get(ab, SetKey(res, v)) == Get(ba, SetKey(res, v)) == Some(NewerSet(sets, SetKey(res, v), b, bs[v]))
    {
      BothAt(sets, res, a, b, as_, bs, ad, bd, SetKey(res, v));
    }
  }

  lemma BothAt(
      sets: map<SetKey, Stored>, res: Resource, a: nat, b: nat, as_: map<Version, set<Resource>>,
      bs: map<Version, set<Resource>>, ad: Option<set<Version>>, bd: Option<set<Version>>, k: SetKey)
    requires a < b
    ensures var ab := Replaced(Replaced(sets, res, a, as_, ad), res, b, bs, bd);
            var ba := Replaced(Replaced(sets, res, b, bs, bd), res, a, as_, ad);
            && (Get(ab, k) == Get(ba, k) <==> !(k.res == res && LeftOver(sets, res, b, as_, bs, bd, k.version)))
            && (k.res == res && k.version in bs ==>
                  Get(ab, k) == Get(ba, k) == Some(NewerSet(sets, k, b, bs[k.version])))
  {
    ReplacedAt(sets, res, a, as_, ad, k);
    ReplacedAt(sets, res, b, bs, bd, k);
    ReplacedAt(Replaced(sets, res, a, as_, ad), res, b, bs, bd, k);
    ReplacedAt(Replaced(sets, res, b, bs, bd), res, a, as_, ad, k);
    hide Replaced;
    if k.res == res { assert SetKey(res, k.version) == k; }
  }

  /** A newer build's set of a version, unless a still newer one outranks it. */
  ghost function NewerSet(sets: map<SetKey, Stored>, k: SetKey, newer: nat, children: set<Resource>): Stored {
    if k in sets && sets[k].stamp > newer then sets[k] else Stored(newer, children)
  }

  lemma SameSets(a: map<SetKey, Stored>, b: map<SetKey, Stored>)
    ensures a == b <==> forall k :: Get(a, k) == Get(b, k)
  {
    if forall k :: Get(a, k) == Get(b, k) {
      forall k ensures k in a <==> k in b { assert Get(a, k) == Get(b, k); }
      forall k | k in a ensures a[k] == b[k] { assert Get(a, k) == Get(b, k); }
    }
  }

  /** A removal and a newer build's replace leave the same sets in either
      order, and among them what the newer build offered. */
  lemma RemovalSparesNewer(
      sets: map<SetKey, Stored>, res: Resource, stamp: nat, newer: nat, offered: map<Version, set<Resource>>,
      declared: Option<set<Version>>)
    requires stamp < newer
    ensures var left := RemovedSets(Replaced(sets, res, newer, offered, declared), res, stamp);
            && left == Replaced(RemovedSets(sets, res, stamp), res, newer, offered, declared)
            && (forall v ::
                  v in offered ==> Get(left, SetKey(res, v)) == Some(NewerSet(sets, SetKey(res, v), newer, offered[v])))
  {
    var replaced, removed := Replaced(sets, res, newer, offered, declared), RemovedSets(sets, res, stamp);
    var left, right := RemovedSets(replaced, res, stamp), Replaced(removed, res, newer, offered, declared);
    forall k
      ensures Get(left, k) == Get(right, k)
      ensures
        k.res == res && k.version in offered ==> Get(left, k) == Some(NewerSet(sets, k, newer, offered[k.version]))
    {
      ReplacedAt(sets, res, newer, offered, declared, k);
      ReplacedAt(removed, res, newer, offered, declared, k);
      hide Replaced;
    }
    hide Replaced, RemovedSets;
    SameSets(left, right);
  }

  class Store {
    var rows: map<Resource, Row>
    var n: nat
    var sets: map<SetKey, Stored>

    ghost predicate Valid()
      reads this
    {
      RowsOk(rows, n)
    }

    constructor ()
      ensures Valid() && rows == map[] && n == 0 && sets == map[]
    {
      rows, n, sets := map[], 0, map[];
    }

    /** NextChangeSeq. */
    method NextChangeSeq() returns (m: nat)
      requires Valid()
      modifies this`n
      ensures Valid() && m == n == old(n) + 1
    {
      n := n + 1;
      m := n;
    }

    /** MarkStale: marks each distinct resource at a number of its own, and, with
        a lease, claims exactly those without a live owner. */
    method MarkStale(resources: seq<Resource>, lease: bool, expired: set<Resource>)
      returns (owned: seq<B.Owned>, ghost nums: map<Resource, nat>)
      requires Valid()
      modifies this`rows, this`n
      ensures Valid() && nums.Keys == (set x | x in resources) && Drawn(nums, old(n), n)
      ensures rows == Marks(old(rows), nums, lease, expired)
      ensures if lease then Claims(owned, old(rows), nums, expired) else owned == []
    {
      hide RowsOk, Drawn, Marks, Claims, RowOk;
      owned, nums := [], map[];
      var done: set<Resource> := {};
      NothingMarked(rows, n, lease, expired);
      for i := 0 to |resources|
        invariant Valid() && done == nums.Keys == (set x | x in resources[..i]) && Drawn(nums, old(n), n)
        invariant rows == Marks(old(rows), nums, lease, expired)
        invariant if lease then Claims(owned, old(rows), nums, expired) else owned == []
      {
        var x := resources[i];
        assert resources[..i + 1] == resources[..i] + [x];
        if x in done {
          continue;
        }
        var r, m := RowOf(rows, x), n + 1;
        MarkMore(old(rows), nums, lease, expired, x, old(n), n);
        if lease { ClaimsMore(owned, old(rows), nums, expired, x, old(n), n); }
        MarkOk(rows, n, x, lease, x in expired);
        n := m;
        rows := rows[x := Mark(r, m, lease, x in expired)];
        if lease && Claimable(r, x in expired) {
          owned := owned + [B.Owned(x, m)];
        }
        nums, done := nums[x := m], done + {x};
      }
      assert resources[..|resources|] == resources;
    }

    /** RegisterChanges: registers each item its version check accepts, then
        marks the Parents the accepted items' stored edges name, but for the
        accepted items themselves. */
    method RegisterChanges(items: seq<Registration>, expired: set<Resource>)
      returns (results: seq<Registered>, parents: seq<Resource>, claims: seq<B.Owned>, ghost middle: map<Resource, Row>,
        ghost nums: map<Resource, nat>)
      requires Valid() && forall i, j :: 0 <= i < j < |items| ==> items[i].res != items[j].res
      modifies this`rows, this`n
      ensures Valid() && Registers(old(rows), middle, items, results, expired, old(n))
      ensures
        (set p | p in parents) == nums.Keys == ParentsIn(sets, AcceptedOf(items, results)) - AcceptedOf(items, results)
      ensures
        && rows == Marks(middle, nums, true, expired)
        && Claims(claims, middle, nums, expired)
        && (forall p :: p in nums ==> nums[p] > old(n))
        && n >= old(n)
    {
      hide RowsOk, RowOk, Drawn, Marks, Claims, Registers;
      results := [];
      RegistersNone(rows, items, expired, n);
      var accepted: set<Resource> := {};
      for i := 0 to |items|
        invariant
          && Valid()
          && |results| == i
          && n == old(n) + i
          && Registers(old(rows), rows, items[..i], results, expired, old(n))
        invariant accepted == AcceptedOf(items[..i], results)
      {
        var it := items[i];
        ghost var was := rows;
        assert items[..i + 1] == items[..i] + [it];
        RegistersRow(old(rows), rows, items, i, results, expired, old(n));
        var m := NextChangeSeq();
        var r := RowOf(rows, it.res);
        var out := Registered(false, 0, 0);
        if Accepts(r, it.deleted, it.version) {
          RegisterOk(rows, n - 1, it, it.res in expired);
          rows := rows[it.res := Register(r, it.deleted, it.version, m, it.res in expired)];
          out := Registered(true, m, if Claimable(r, it.res in expired) then m else 0);
          accepted := accepted + {it.res};
        }
        RegistersMore(old(rows), was, items, i, results, out, expired, old(n));
        results := results + [out];
      }
      assert items[..|items|] == items;
      middle := rows;
      var found := ParentsOf(accepted);
      parents := ListOf(found - accepted);
      ghost var at := n;
      claims, nums := MarkStale(parents, true, expired);
      DrawnAbove(nums, at, n);
    }

    /** BeginBuild: the Build Sequence is a number above every one the row
        carries, and the mark it captures is the row's. */
    method BeginBuild(x: Resource) returns (idx: nat, captured: nat)
      requires Valid()
      modifies this`rows, this`n
      ensures Valid() && idx == n == old(n) + 1 && captured == RowOf(old(rows), x).staleSeq < idx
      ensures rows == old(rows)[x := Begin(RowOf(old(rows), x), idx)]
    {
      FreshOk(n);
      assert RowOk(RowOf(rows, x), n);
      idx := NextChangeSeq();
      captured := RowOf(rows, x).staleSeq;
      rows := rows[x := Begin(RowOf(rows, x), idx)];
    }

    /** BeginDelete: only while the row is still a tombstone. */
    method BeginDelete(x: Resource) returns (superseded: bool, idx: nat)
      requires Valid()
      modifies this`rows, this`n
      ensures Valid() && (superseded <==> !(x in old(rows) && old(rows)[x].deleted))
      ensures superseded ==> rows == old(rows) && n == old(n)
      ensures !superseded ==> idx == n == old(n) + 1 && rows == old(rows)[x := Begin(old(rows)[x], idx)]
    {
      superseded, idx := !(x in rows && rows[x].deleted), 0;
      if !superseded {
        assert RowOk(rows[x], n);
        idx := NextChangeSeq();
        rows := rows[x := Begin(rows[x], idx)];
      }
    }

    /** ClearStale: the mark goes, and any ownership with it, exactly when no
        newer change moved it; the backoff goes either way. */
    method ClearStale(x: Resource, captured: nat)
      requires Valid()
      modifies this`rows
      ensures Valid() && rows.Keys == old(rows).Keys && OtherRows(old(rows), rows, x)
      ensures x in rows ==> SameMark(old(rows)[x], rows[x]) && rows[x].attempts == 0 && !rows[x].waits
      ensures x in rows ==> (rows[x].stale <==> old(rows)[x].stale && old(rows)[x].staleSeq != captured)
      ensures x in rows ==> rows[x].owner == if old(rows)[x].staleSeq == captured then 0 else old(rows)[x].owner
    {
      if x in rows {
        rows := rows[x := Clear(rows[x], captured)];
      }
    }

    /** FinishOwned: clears the mark it captured; a moved mark stays, and the
        owner that still holds the row takes it over at that mark. A finish that
        lost the row to a moved mark changes nothing, the backoff included. */
    method FinishOwned(x: Resource, captured: nat, token: nat) returns (fu: FollowUp)
      requires Valid()
      modifies this`rows
      ensures Valid() && rows.Keys == old(rows).Keys && OtherRows(old(rows), rows, x)
      ensures x in rows ==> SameMark(old(rows)[x], rows[x])
      ensures x in rows ==> (rows[x].stale <==> old(rows)[x].stale && old(rows)[x].staleSeq != captured)
      ensures
        x in rows && old(rows)[x].staleSeq == captured ==> rows[x].owner == 0 && rows[x].attempts == 0 && !rows[x].waits
      ensures x in rows && old(rows)[x].staleSeq != captured && Holds(old(rows), B.Owned(x, token)) ==>
        && rows[x].owner == rows[x].staleSeq
        && rows[x].attempts == 0
        && !rows[x].waits
        && fu == FollowUp(rows[x].staleSeq, rows[x].deleted)
      ensures
        !(x in rows && old(rows)[x].staleSeq != captured && Holds(old(rows), B.Owned(x, token))) ==> fu == NoFollowUp
      ensures x in rows && old(rows)[x].staleSeq != captured && !Holds(old(rows), B.Owned(x, token)) ==>
        rows[x] == old(rows)[x]
    {
      fu := NoFollowUp;
      if x in rows {
        var (r, f) := Finish(rows[x], captured, token);
        assert RowOk(rows[x], n);
        rows, fu := rows[x := r], f;
      }
    }

    /** DeleteResourceIfSeq: removes the row its mark has not moved on. A moved
        mark stays with its row, whose backoff is reset; the owner that still
        holds the row takes it over at that mark, and any other owner keeps it. */
    method DeleteResourceIfSeq(x: Resource, captured: nat, token: nat) returns (fu: FollowUp)
      requires Valid()
      modifies this`rows
      ensures Valid() && OtherRows(old(rows), rows, x)
      ensures x in rows <==> x in old(rows) && old(rows)[x].staleSeq != captured
      ensures x in rows ==>
        && SameMark(old(rows)[x], rows[x])
        && rows[x].stale == old(rows)[x].stale
        && rows[x].attempts == 0
        && !rows[x].waits
      ensures x in rows && Holds(old(rows), B.Owned(x, token)) ==>
        rows[x].owner == rows[x].staleSeq && fu == FollowUp(rows[x].staleSeq, rows[x].deleted)
      ensures x in rows && !Holds(old(rows), B.Owned(x, token)) ==> rows[x].owner == old(rows)[x].owner
      ensures !(x in rows && Holds(old(rows), B.Owned(x, token))) ==> fu == NoFollowUp
    {
      fu := NoFollowUp;
      if x !in rows {
        return;
      }
      assert RowOk(rows[x], n);
      if rows[x].staleSeq == captured {
        rows := rows - {x};
        return;
      }
      var (left, f) := DeleteIfSeq(rows[x], captured, token);
      rows, fu := rows[x := left.value], f;
    }

    /** RenewOwners: the ownerships still held. */
    method RenewOwners(owned: seq<B.Owned>) returns (held: seq<B.Owned>)
      ensures forall o :: o in held <==> o in owned && Holds(rows, o)
    {
      held := [];
      for i := 0 to |owned|
        invariant forall o :: o in held <==> o in owned[..i] && Holds(rows, o)
      {
        assert owned[..i + 1] == owned[..i] + [owned[i]];
        if Holds(rows, owned[i]) {
          held := held + [owned[i]];
        }
      }
      assert owned[..|owned|] == owned;
    }

    /** ReleaseOwners, and, with a backoff, ReleaseFailed: each ownership still
        held is dropped, its mark kept. */
    method Release(owned: seq<B.Owned>, backoff: bool)
      requires Valid()
      modifies this`rows
      ensures Valid() && rows.Keys == old(rows).Keys
      ensures forall x :: x in rows ==> Dropped(old(rows)[x], rows[x], HeldBy(old(rows)[x], x, owned), backoff)
    {
      hide ReleasedRow;
      forall x | x in rows
        ensures rows[x] == ReleasedRow(rows[x], x, owned[..0], backoff)
      {
        ReleasedNone(rows[x], x, owned[..0], backoff);
      }
      for i := 0 to |owned|
        invariant Valid() && rows.Keys == old(rows).Keys
        invariant forall x :: x in rows ==> rows[x] == ReleasedRow(old(rows)[x], x, owned[..i], backoff)
      {
        var o := owned[i];
        assert owned[..i + 1] == owned[..i] + [o];
        ReleaseOne(old(rows), rows, owned, i, backoff);
        if o.res in rows {
          assert RowOk(rows[o.res], n);
          rows :=
            rows[o.res := if backoff then ReleaseFailed(rows[o.res], o.token) else Rows.Release(rows[o.res], o.token)];
        }
      }
      assert owned[..|owned|] == owned;
      forall x | x in rows
        ensures Dropped(old(rows)[x], rows[x], HeldBy(old(rows)[x], x, owned), backoff)
      {
        ReleasedDrops(old(rows)[x], x, owned, backoff);
      }
    }

    /** ListStale: claims, at their marks, the first `limit` of the rows whose
        turn has come, earliest turn first. `turn` are the rows whose mark is
        old enough and whose backoff has passed, by turn. */
    method ListStale(limit: nat, turn: map<Resource, nat>, expired: set<Resource>) returns (claimed: seq<B.Owned>)
      requires Valid()
      modifies this`rows
      ensures
        && Valid()
        && |claimed| ==
             if |Eligible(old(rows), turn, expired)| < limit then |Eligible(old(rows), turn, expired)| else limit
      ensures forall i, j :: 0 <= i < j < |claimed| ==> claimed[i].res != claimed[j].res
      ensures
        forall o :: o in claimed ==> o.res in Eligible(old(rows), turn, expired) && o.token == old(rows)[o.res].staleSeq
      ensures forall i, j :: 0 <= i < j < |claimed| ==> turn[claimed[i].res] <= turn[claimed[j].res]
      ensures forall o, x ::
        o in claimed && x in Eligible(old(rows), turn, expired) && !Listed(claimed, x) ==> turn[o.res] <= turn[x]
      ensures
        && rows.Keys == old(rows).Keys
        && (forall x :: x in rows && !Listed(claimed, x) ==> rows[x] == old(rows)[x])
        && (forall x :: x in rows && Listed(claimed, x) ==>
              rows[x] == old(rows)[x].(owner := old(rows)[x].staleSeq))
    {
      hide Picked, ClaimedRows, RowsOk, Listed;
      claimed := [];
      var rest := set x | x in rows && x in turn && Listable(rows[x], true, x in expired);
      ghost var all := Eligible(rows, turn, expired);
      assert rest == all;
      NonePicked(rows, rest, turn);
      while rest != {} && |claimed| < limit
        invariant Valid() && Picked(old(rows), claimed, rest, all, turn) && ClaimedRows(old(rows), rows, claimed)
        invariant |claimed| <= limit && rest <= all
        decreases |rest|
      {
        var x := Earliest(rest, turn);
        PickOne(old(rows), rows, n, claimed, rest, all, turn, x);
        rest := rest - {x};
        claimed := claimed + [B.Owned(x, rows[x].staleSeq)];
        rows := rows[x := ListClaim(rows[x])];
      }
      PickedAll(old(rows), rows, claimed, rest, all, turn);
    }

    /** ParentsOf: every Parent the stored edges of the children name. */
    method ParentsOf(children: set<Resource>) returns (parents: set<Resource>)
      ensures parents == ParentsIn(sets, children)
    {
      parents := {};
      var rest := sets.Keys;
      while rest != {}
        invariant rest <= sets.Keys
        invariant forall p ::
          p in parents <==> exists k :: k in sets && k !in rest && sets[k].children * children != {} && k.res == p
        decreases |rest|
      {
        var k :| k in rest;
        rest := rest - {k};
        if sets[k].children * children != {} {
          parents := parents + {k.res};
        }
      }
    }

    /** AnyChangedSince: whether a checked resource changed above its start. */
    method AnyChangedSince(checks: seq<(Resource, nat)>) returns (changed: bool)
      ensures changed <==> exists c :: c in checks && c.0 in rows && rows[c.0].changeSeq > c.1
    {
      changed := false;
      for i := 0 to |checks|
        invariant changed <==> exists c :: c in checks[..i] && c.0 in rows && rows[c.0].changeSeq > c.1
      {
        assert checks[..i + 1] == checks[..i] + [checks[i]];
        changed := changed || (checks[i].0 in rows && rows[checks[i].0].changeSeq > checks[i].1);
      }
      assert checks[..|checks|] == checks;
    }

    /** ReplaceEdges: version by version in ascending order, each decided by its
        own set's stamp. */
    method ReplaceEdges(res: Resource, stamp: nat, offered: map<Version, set<Resource>>, declared: Option<set<Version>>)
      modifies this`sets
      ensures sets == Replaced(old(sets), res, stamp, offered, declared)
    {
      hide Partly, Replaced;
      var undeclared := Undeclared(sets, res, offered, declared);
      var versions := L.SortVersions(offered.Keys + undeclared);
      ghost var done: set<Version> := {};
      PartlyNone(sets, res, stamp, offered, declared);
      for i := 0 to |versions|
        invariant Partly(old(sets), sets, res, stamp, offered, declared, done) && done == (set v | v in versions[..i])
      {
        var v, k := versions[i], SetKey(res, versions[i]);
        assert versions[..i + 1] == versions[..i] + [v] && v in versions;
        assert v !in done by { L.NoRepeat(versions, i); }
        PartlyMore(old(sets), sets, res, stamp, offered, declared, done, v);
        if !(k in sets && sets[k].stamp > stamp) {
          if v in offered {
            sets := sets[k := Stored(stamp, offered[v])];
          } else {
            sets := sets - {k};
          }
        }
        done := done + {v};
      }
      assert versions[..|versions|] == versions;
      PartlyAll(old(sets), sets, res, stamp, offered, declared, done);
    }

    /** RemoveResource: the sets not stamped above the delete's sequence. */
    method RemoveResource(res: Resource, stamp: nat)
      modifies this`sets
      ensures sets == RemovedSets(old(sets), res, stamp)
    {
      var removable := set k | k in sets && k.res == res && sets[k].stamp <= stamp;
      sets := sets - removable;
    }
  }

  function Undeclared(
      sets: map<SetKey, Stored>, res: Resource, offered: map<Version, set<Resource>>, declared: Option<set<Version>>
      ): set<Version>
  {
    if declared.None? then
      {}
    else
      set k | k in sets && k.res == res && k.version !in declared.value && k.version !in offered :: k.version
  }

  function Get(sets: map<SetKey, Stored>, k: SetKey): Option<Stored> {
    if k in sets then Some(sets[k]) else None
  }

  /** One version's set after its own guarded statement. */
  ghost function Decided(
      sets: map<SetKey, Stored>, k: SetKey, stamp: nat, offered: map<Version, set<Resource>>): Option<Stored>
  {
    if k in sets && sets[k].stamp > stamp then Get(sets, k)
    else if k.version in offered then Some(Stored(stamp, offered[k.version]))
    else None
  }

  /** The versions of `done` have been decided, the others stand. */
  ghost predicate Partly(
      was: map<SetKey, Stored>, now: map<SetKey, Stored>, res: Resource, stamp: nat,
      offered: map<Version, set<Resource>>, declared: Option<set<Version>>, done: set<Version>)
  {
    forall k {:trigger Get(now, k)} ::
      Get(now, k) == if k.res == res && k.version in done then Decided(was, k, stamp, offered) else Get(was, k)
  }

  /** One version's guarded statement. */
  function Next(
      sets: map<SetKey, Stored>, k: SetKey, stamp: nat, offered: map<Version, set<Resource>>): map<SetKey, Stored>
  {
    if k in sets && sets[k].stamp > stamp then sets
    else if k.version in offered then sets[k := Stored(stamp, offered[k.version])]
    else sets - {k}
  }

  lemma PartlyNone(
      sets: map<SetKey, Stored>, res: Resource, stamp: nat, offered: map<Version, set<Resource>>,
      declared: Option<set<Version>>)
    ensures Partly(sets, sets, res, stamp, offered, declared, {})
  {
  }

  lemma PartlyMore(
      was: map<SetKey, Stored>, now: map<SetKey, Stored>, res: Resource, stamp: nat,
      offered: map<Version, set<Resource>>, declared: Option<set<Version>>, done: set<Version>, v: Version)
    requires Partly(was, now, res, stamp, offered, declared, done) && v !in done
    ensures var k := SetKey(res, v);
            Partly(was, Next(now, k, stamp, offered), res, stamp, offered, declared, done + {v})
  {
    var k := SetKey(res, v);
    assert Get(now, k) == Get(was, k);
    var next := Next(now, k, stamp, offered);
    forall j
      ensures
        Get(next, j) == if j.res == res && j.version in done + {v} then Decided(was, j, stamp, offered) else Get(was, j)
    {
      assert Get(now, j) == if j.res == res && j.version in done then Decided(was, j, stamp, offered) else Get(was, j);
      if j != k { assert Get(next, j) == Get(now, j); }
    }
  }

  lemma PartlyAll(
      was: map<SetKey, Stored>, now: map<SetKey, Stored>, res: Resource, stamp: nat,
      offered: map<Version, set<Resource>>, declared: Option<set<Version>>, done: set<Version>)
    requires
      && Partly(was, now, res, stamp, offered, declared, done)
      && done == offered.Keys + Undeclared(was, res, offered, declared)
    ensures now == Replaced(was, res, stamp, offered, declared)
  {
    var all := Replaced(was, res, stamp, offered, declared);
    forall k ensures Get(now, k) == Get(all, k) {
      AllAt(was, res, stamp, offered, declared, k);
    }
    forall k ensures k in now <==> k in all {
      assert Get(now, k) == Get(all, k);
    }
    forall k | k in now ensures now[k] == all[k] {
      assert Get(now, k) == Get(all, k);
    }
  }

  lemma AllAt(
      was: map<SetKey, Stored>, res: Resource, stamp: nat, offered: map<Version, set<Resource>>,
      declared: Option<set<Version>>, k: SetKey)
    ensures Get(Replaced(was, res, stamp, offered, declared), k) ==
            if k.res == res && k.version in offered.Keys + Undeclared(was, res, offered, declared) then
              Decided(was, k, stamp, offered)
            else
              Get(was, k)
  {
    if k.res == res { assert SetKey(res, k.version) == k; }
  }

  /** The ownership still holds the row. */
  predicate Holds(rows: map<Resource, Row>, o: B.Owned): (yes: bool)
    ensures yes <==> o.res in rows && rows[o.res].owner == o.token != 0
  {
    o.token != 0 && o.res in rows && rows[o.res].owner == o.token
  }

  ghost function ReleasedRow(r: Row, x: Resource, owned: seq<B.Owned>, backoff: bool): Row {
    if exists o :: o in owned && o.res == x && o.token != 0 && o.token == r.owner then
      if backoff then ReleaseFailed(r, r.owner) else Rows.Release(r, r.owner)
    else r
  }

  /** Some listed ownership holds the row. */
  ghost predicate HeldBy(r: Row, x: Resource, owned: seq<B.Owned>) {
    exists o :: o in owned && o.res == x && o.token != 0 && o.token == r.owner
  }

  /** What a release leaves of a row: one held loses its owner and keeps its
      mark, and a failed one is backed off, its attempts counted up, unless the
      resource itself was registered since the claim. */
  ghost predicate Dropped(was: Row, now: Row, held: bool, backoff: bool) {
    && (!held ==> now == was)
    && (held ==>
          && now.owner == 0 && SameMark(was, now) && now.stale == was.stale
          && (!backoff || was.owner < was.changeSeq <= was.staleSeq ==> SameBackoff(was, now))
          && (backoff && (was.changeSeq <= was.owner || was.changeSeq > was.staleSeq) ==>
                now.waits && now.attempts == if was.attempts < 2147483647 then was.attempts + 1 else 2147483647))
  }

  lemma ReleasedDrops(r: Row, x: Resource, owned: seq<B.Owned>, backoff: bool)
    ensures Dropped(r, ReleasedRow(r, x, owned, backoff), HeldBy(r, x, owned), backoff)
  {
  }

  lemma ReleasedNone(r: Row, x: Resource, owned: seq<B.Owned>, backoff: bool)
    requires owned == []
    ensures ReleasedRow(r, x, owned, backoff) == r
  {
  }

  lemma ReleaseOne(was: map<Resource, Row>, rows: map<Resource, Row>, owned: seq<B.Owned>, i: nat, backoff: bool)
    requires i < |owned| && rows.Keys == was.Keys
    requires forall x :: x in rows ==> rows[x] == ReleasedRow(was[x], x, owned[..i], backoff)
    ensures owned[i].res in rows ==>
      (if backoff then
         ReleaseFailed(rows[owned[i].res], owned[i].token)
       else
         Rows.Release(rows[owned[i].res], owned[i].token))
      == ReleasedRow(was[owned[i].res], owned[i].res, owned[..i + 1], backoff)
    ensures forall x ::
      x in rows && x != owned[i].res ==>
        ReleasedRow(was[x], x, owned[..i + 1], backoff) == ReleasedRow(was[x], x, owned[..i], backoff)
  {
    assert owned[..i + 1] == owned[..i] + [owned[i]];
    var x := owned[i].res;
    if x in rows {
      if exists o :: o in owned[..i] && o.res == x && o.token != 0 && o.token == was[x].owner {
        var o :| o in owned[..i] && o.res == x && o.token != 0 && o.token == was[x].owner;
        assert o in owned[..i + 1];
      } else if owned[i].token != 0 && owned[i].token == was[x].owner {
        assert owned[i] in owned[..i + 1];
      }
    }
  }

  ghost function Eligible(rows: map<Resource, Row>, turn: map<Resource, nat>, expired: set<Resource>): set<Resource> {
    set x | x in rows && x in turn && rows[x].stale && (rows[x].owner == 0 || x in expired)
  }

  ghost predicate Listed(claimed: seq<B.Owned>, x: Resource) {
    exists o :: o in claimed && o.res == x
  }

  lemma ListedMore(claimed: seq<B.Owned>, o: B.Owned)
    ensures forall x :: Listed(claimed + [o], x) <==> Listed(claimed, x) || x == o.res
  {
    forall x ensures Listed(claimed + [o], x) <==> Listed(claimed, x) || x == o.res {
      if x == o.res { assert o in claimed + [o]; }
    }
  }

  /** The claims so far: eligible rows, earliest first, none left earlier. */
  ghost predicate Picked(
      was: map<Resource, Row>, claimed: seq<B.Owned>, rest: set<Resource>, all: set<Resource>, turn: map<Resource, nat>)
  {
    && rest <= all && |claimed| + |rest| == |all| && all <= turn.Keys && all <= was.Keys
    && (forall x {:trigger Listed(claimed, x)} {:trigger x in rest} :: x in all <==> x in rest || Listed(claimed, x))
    && (forall o {:trigger o in claimed} ::
          o in claimed ==> o.res in all && o.res !in rest && o.token == was[o.res].staleSeq)
    && (forall i, j {:trigger claimed[i], claimed[j]} ::
          0 <= i < j < |claimed| ==> claimed[i].res != claimed[j].res && turn[claimed[i].res] <= turn[claimed[j].res])
    && (forall o, x {:trigger o in claimed, x in rest} :: o in claimed && x in rest ==> turn[o.res] <= turn[x])
  }

  ghost predicate ClaimedRows(was: map<Resource, Row>, now: map<Resource, Row>, claimed: seq<B.Owned>) {
    && now.Keys == was.Keys
    && forall x {:trigger now[x]} {:trigger was[x]} ::
         x in now ==> now[x] == if Listed(claimed, x) then ListClaim(was[x]) else was[x]
  }

  lemma NonePicked(rows: map<Resource, Row>, all: set<Resource>, turn: map<Resource, nat>)
    requires all <= turn.Keys && all <= rows.Keys
    ensures Picked(rows, [], all, all, turn) && ClaimedRows(rows, rows, [])
  {
  }

  lemma PickOne(
      was: map<Resource, Row>, now: map<Resource, Row>, n: nat, claimed: seq<B.Owned>, rest: set<Resource>,
      all: set<Resource>, turn: map<Resource, nat>, x: Resource)
    requires Picked(was, claimed, rest, all, turn) && ClaimedRows(was, now, claimed) && RowsOk(now, n)
    requires x in rest && (forall y :: y in rest ==> y in turn && turn[x] <= turn[y]) && was[x].stale
    ensures x in now && Picked(was, claimed + [B.Owned(x, now[x].staleSeq)], rest - {x}, all, turn)
    ensures ClaimedRows(was, now[x := ListClaim(now[x])], claimed + [B.Owned(x, now[x].staleSeq)])
    ensures RowsOk(now[x := ListClaim(now[x])], n)
  {
    var o := B.Owned(x, now[x].staleSeq);
    ListedMore(claimed, o);
    hide Listed;
    assert !Listed(claimed, x) by { NotListed(was, claimed, rest, all, turn, x); }
    var next := claimed + [o];
    forall i, j | 0 <= i < j < |next| ensures next[i].res != next[j].res && turn[next[i].res] <= turn[next[j].res] {
      assert i < |claimed| ==> claimed[i] in claimed;
    }
  }

  lemma NotListed(
      was: map<Resource, Row>, claimed: seq<B.Owned>, rest: set<Resource>, all: set<Resource>, turn: map<Resource, nat>,
      x: Resource)
    requires Picked(was, claimed, rest, all, turn) && x in rest
    ensures !Listed(claimed, x)
  {
  }

  lemma PickedAll(
      was: map<Resource, Row>, now: map<Resource, Row>, claimed: seq<B.Owned>, rest: set<Resource>, all: set<Resource>,
      turn: map<Resource, nat>)
    requires Picked(was, claimed, rest, all, turn) && ClaimedRows(was, now, claimed)
    ensures rest == {} ==> |claimed| == |all|
    ensures |claimed| <= |all| && (|claimed| == |all| ==> rest == {})
    ensures forall i, j ::
      0 <= i < j < |claimed| ==> claimed[i].res != claimed[j].res && turn[claimed[i].res] <= turn[claimed[j].res]
    ensures forall o :: o in claimed ==> o.res in all && o.token == was[o.res].staleSeq
    ensures forall o, x :: o in claimed && x in all && !Listed(claimed, x) ==> turn[o.res] <= turn[x]
    ensures
      && now.Keys == was.Keys
      && forall x :: x in now ==> now[x] == if Listed(claimed, x) then ListClaim(was[x]) else was[x]
  {
    hide Listed;
  }

  /** One with the earliest turn. */
  method Earliest(xs: set<Resource>, turn: map<Resource, nat>) returns (x: Resource)
    requires xs != {} && forall y :: y in xs ==> y in turn
    ensures x in xs && forall y :: y in xs ==> turn[x] <= turn[y]
  {
    x :| x in xs;
    var rest := xs - {x};
    while rest != {}
      invariant x in xs && rest <= xs && forall y :: y in xs && y !in rest ==> turn[x] <= turn[y]
      decreases |rest|
    {
      var y :| y in rest;
      rest := rest - {y};
      if turn[y] < turn[x] {
        x := y;
      }
    }
  }

  /** A set's members, in some order. */
  method ListOf(xs: set<Resource>) returns (r: seq<Resource>)
    ensures (set x | x in r) == xs && forall i, j :: 0 <= i < j < |r| ==> r[i] != r[j]
  {
    r := [];
    var rest := xs;
    while rest != {}
      invariant rest <= xs && (forall x :: x in r <==> x in xs && x !in rest)
      invariant forall i, j :: 0 <= i < j < |r| ==> r[i] != r[j]
      decreases |rest|
    {
      var x :| x in rest;
      rest := rest - {x};
      assert x !in r;
      r := r + [x];
    }
  }

  ghost function AcceptedOf(items: seq<Registration>, results: seq<Registered>): set<Resource>
    requires |results| == |items|
  {
    set i | 0 <= i < |items| && results[i].accepted :: items[i].res
  }

  /** What the upsert did to one item at its number: it is accepted exactly by
      its version check, and then its row is registered at that number, which
      is also its token when the row had no live owner. */
  ghost predicate RegistersItem(
      was: map<Resource, Row>, now: map<Resource, Row>, it: Registration, out: Registered, expired: set<Resource>,
      num: nat)
  {
    var r := RowOf(was, it.res);
    && (out.accepted <==> Accepts(r, it.deleted, it.version))
    && (out.accepted ==>
          && it.res in now && now[it.res] == Register(r, it.deleted, it.version, num, it.res in expired)
          && out.staleSeq == num && out.token == if r.owner == 0 || it.res in expired then num else 0)
    && (!out.accepted ==> SameRow(was, now, it.res))
  }

  ghost predicate SameRow(was: map<Resource, Row>, now: map<Resource, Row>, x: Resource) {
    (x in now <==> x in was) && RowOf(now, x) == RowOf(was, x)
  }

  ghost predicate IsItem(items: seq<Registration>, x: Resource) {
    exists i :: 0 <= i < |items| && items[i].res == x
  }

  /** What the item upsert did, and that no other row moved. */
  ghost predicate Registers(
      was: map<Resource, Row>, now: map<Resource, Row>, items: seq<Registration>, results: seq<Registered>,
      expired: set<Resource>, n: nat)
  {
    && |results| == |items|
    && (forall i {:trigger results[i]} ::
          0 <= i < |items| ==> RegistersItem(was, now, items[i], results[i], expired, n + i + 1))
    && forall x {:trigger SameRow(was, now, x)} {:trigger IsItem(items, x)} :: IsItem(items, x) || SameRow(was, now, x)
  }

  lemma RegistersNone(rows: map<Resource, Row>, items: seq<Registration>, expired: set<Resource>, n: nat)
    ensures Registers(rows, rows, items[..0], [], expired, n)
  {
  }

  lemma RegistersRow(
      was: map<Resource, Row>, now: map<Resource, Row>, items: seq<Registration>, i: nat, results: seq<Registered>,
      expired: set<Resource>, n: nat)
    requires
      && i < |items|
      && Registers(was, now, items[..i], results, expired, n)
      && forall a, b :: 0 <= a < b < |items| ==> items[a].res != items[b].res
    ensures SameRow(was, now, items[i].res)
  {
    hide SameRow, RegistersItem;
    assert !IsItem(items[..i], items[i].res);
  }

  lemma RegistersMore(
      was: map<Resource, Row>, now: map<Resource, Row>, items: seq<Registration>, i: nat, results: seq<Registered>,
      out: Registered, expired: set<Resource>, n: nat)
    requires
      && i < |items|
      && Registers(was, now, items[..i], results, expired, n)
      && forall a, b :: 0 <= a < b < |items| ==> items[a].res != items[b].res
    requires out == OutcomeOf(RowOf(was, items[i].res), items[i], items[i].res in expired, n + i + 1)
    ensures
      Registers(was, RegisteredRows(now, RowOf(was, items[i].res), items[i], out, expired, n + i + 1), items[..i + 1],
        results + [out], expired, n)
  {
    var it := items[i];
    var next := RegisteredRows(now, RowOf(was, it.res), it, out, expired, n + i + 1);
    RegistersRow(was, now, items, i, results, expired, n);
    var all := results + [out];
    assert RegistersItem(was, next, it, out, expired, n + i + 1);
    forall k | 0 <= k < i + 1 ensures RegistersItem(was, next, items[..i + 1][k], all[k], expired, n + k + 1) {
      if k < i {
        assert results[k] == all[k] && items[..i][k] == items[k];
        ItemKept(was, now, next, items[k], results[k], expired, n + k + 1, it.res);
      }
    }
    hide RegistersItem;
    forall x ensures IsItem(items[..i + 1], x) || SameRow(was, next, x) {
      if x == it.res {
        assert items[..i + 1][i].res == x;
      } else if IsItem(items[..i], x) {
        var k :| 0 <= k < i && items[..i][k].res == x;
        assert items[..i + 1][k].res == x;
      } else {
        assert SameRow(was, now, x);
      }
    }
  }

  ghost function OutcomeOf(r: Row, it: Registration, expired: bool, num: nat): Registered {
    if Accepts(r, it.deleted, it.version) then
      Registered(true, num, if Claimable(r, expired) then num else 0)
    else
      Registered(false, 0, 0)
  }

  ghost function RegisteredRows(
      now: map<Resource, Row>, r: Row, it: Registration, out: Registered, expired: set<Resource>, num: nat
      ): map<Resource, Row>
    requires out.accepted ==> Accepts(r, it.deleted, it.version)
  {
    if out.accepted then now[it.res := Register(r, it.deleted, it.version, num, it.res in expired)] else now
  }

  lemma ItemKept(
      was: map<Resource, Row>, now: map<Resource, Row>, next: map<Resource, Row>, it: Registration, out: Registered,
      expired: set<Resource>, num: nat, x: Resource)
    requires RegistersItem(was, now, it, out, expired, num) && it.res != x
    requires forall y :: y != x ==> (y in next <==> y in now) && (y in now ==> next[y] == now[y])
    ensures RegistersItem(was, next, it, out, expired, num)
  {
  }

  lemma RegisterOk(rows: map<Resource, Row>, n: nat, it: Registration, expired: bool)
    requires RowsOk(rows, n) && Accepts(RowOf(rows, it.res), it.deleted, it.version)
    ensures RowsOk(rows[it.res := Register(RowOf(rows, it.res), it.deleted, it.version, n + 1, expired)], n + 1)
  {
    FreshOk(n);
  }

  lemma DrawnAbove(nums: map<Resource, nat>, was: nat, now: nat)
    requires Drawn(nums, was, now)
    ensures was <= now && forall p :: p in nums ==> nums[p] > was
  {
  }

  lemma NothingMarked(rows: map<Resource, Row>, n: nat, lease: bool, expired: set<Resource>)
    ensures Marks(rows, map[], lease, expired) == rows && Drawn(map[], n, n) && Claims([], rows, map[], expired)
  {
  }

  lemma MarkMore(
      rows: map<Resource, Row>, nums: map<Resource, nat>, lease: bool, expired: set<Resource>, x: Resource, was: nat,
      n: nat)
    requires x !in nums && Drawn(nums, was, n)
    ensures Drawn(nums[x := n + 1], was, n + 1) && RowOf(Marks(rows, nums, lease, expired), x) == RowOf(rows, x)
    ensures
      Marks(rows, nums[x := n + 1], lease, expired) ==
        Marks(rows, nums, lease, expired)[x := Mark(RowOf(rows, x), n + 1, lease, x in expired)]
  {
  }

  lemma MarkOk(rows: map<Resource, Row>, n: nat, x: Resource, lease: bool, expired: bool)
    requires RowsOk(rows, n)
    ensures RowsOk(rows[x := Mark(RowOf(rows, x), n + 1, lease, expired)], n + 1)
  {
    FreshOk(n);
  }

  lemma ClaimsMore(
      owned: seq<B.Owned>, rows: map<Resource, Row>, nums: map<Resource, nat>, expired: set<Resource>, x: Resource,
      was: nat, n: nat)
    requires x !in nums && Drawn(nums, was, n) && Claims(owned, rows, nums, expired)
    ensures
      Claims(if Claimable(RowOf(rows, x), x in expired) then owned + [B.Owned(x, n + 1)] else owned, rows,
        nums[x := n + 1], expired)
  {
    var owned' := if Claimable(RowOf(rows, x), x in expired) then owned + [B.Owned(x, n + 1)] else owned;
    var nums' := nums[x := n + 1];
    forall o | o in owned ensures o.res in nums && o.res != x {}
    forall y | y in nums' ensures B.Owned(y, nums'[y]) in owned' <==> Claimable(RowOf(rows, y), y in expired) {
      if y != x { assert nums'[y] == nums[y]; }
    }
  }
}
