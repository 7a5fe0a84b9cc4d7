// The resources row and the store's statements on it. Each statement of the
// store is one atomic step on the row it names, so it is a function of that
// row, the Change Sequence values it draws and whether the owner's lease has
// expired. A missing row behaves as Fresh in every INSERT ... ON CONFLICT.

module Rows {
  import opened Wrappers

  datatype Resource = Resource(typ: string, id: string)

  type Version = nat

  /** A row of `resources`. The columns that may be NULL are `stale`
      (stale_since IS NOT NULL), `owner` (owner_seq, 0 for NULL) and the
      backoff columns `attempts` (sweep_attempts, 0 for NULL) and `waits`
      (sweep_after IS NOT NULL). */
  datatype Row = Row(
    version: nat,
    deleted: bool,
    buildIdx: nat,
    staleSeq: nat,
    changeSeq: nat,
    stale: bool,
    owner: nat,
    attempts: nat,
    waits: bool)

  /** The row an INSERT starts from: every column at its default. */
  const Fresh: Row := Row(0, false, 0, 0, 0, false, 0, 0, false)

  /** What a finish hands on: the re-claimed token (0 for none) and whether
      the row is a tombstone. */
  datatype FollowUp = FollowUp(token: nat, deleted: bool)

  const NoFollowUp: FollowUp := FollowUp(0, false)

  /** What no mark, finish or release touches: the change, the version, the
      tombstone and the Build Sequence. */
  ghost predicate SameChange(a: Row, b: Row) {
    b.version == a.version && b.deleted == a.deleted && b.buildIdx == a.buildIdx && b.changeSeq == a.changeSeq
  }

  /** Nor does a finish or a release renumber the mark. */
  ghost predicate SameMark(a: Row, b: Row) {
    SameChange(a, b) && b.staleSeq == a.staleSeq
  }

  ghost predicate SameBackoff(a: Row, b: Row) {
    b.attempts == a.attempts && b.waits == a.waits
  }

  ghost predicate NoBackoff(r: Row) {
    r.attempts == 0 && !r.waits
  }

  /** A claim takes the row when it has no owner or its owner's lease expired. */
  function Claim(r: Row, n: nat, expired: bool): (c: Row)
    ensures c == r.(owner := c.owner)
    ensures r.owner == 0 || expired ==> c.owner == n
    ensures r.owner != 0 && !expired ==> c.owner == r.owner
  {
    if r.owner == 0 || expired then r.(owner := n) else r
  }

  /** MarkStale, and RegisterChanges' mark of a Parent. `lease` is false for a
      lease of zero, which marks without claiming. */
  function Mark(r: Row, n: nat, lease: bool, expired: bool): (m: Row)
    ensures SameChange(r, m) && SameBackoff(r, m) && m.stale && m.staleSeq == n
    ensures lease && (r.owner == 0 || expired) ==> m.owner == n
    ensures !lease || (r.owner != 0 && !expired) ==> m.owner == r.owner
  {
    var m := r.(staleSeq := n, stale := true);
    if lease then Claim(m, n, expired) else m
  }

  /** The stale-version check of RegisterChanges' upsert. */
  predicate Accepts(r: Row, deleted: bool, version: nat): (yes: bool)
    ensures deleted || version == 0 ==> yes
    ensures !deleted && version != 0 ==> (yes <==> version > r.version)
  {
    deleted || version == 0 || r.version < version
  }

  /** RegisterChanges' upsert of an accepted item. */
  function Register(r: Row, deleted: bool, version: nat, n: nat, expired: bool): (x: Row)
    requires Accepts(r, deleted, version)
    ensures x.changeSeq == x.staleSeq == n && x.stale && NoBackoff(x) && x.buildIdx == r.buildIdx
    ensures x.deleted == deleted && (deleted ==> x.version == 0)
    ensures !deleted ==> x.version == if version == 0 then r.version else version
    ensures x.owner == if r.owner != 0 && !expired then r.owner else n
  {
    Claim(r.(version := if deleted then 0 else if version == 0 then r.version else version,
             deleted := deleted, changeSeq := n, staleSeq := n, stale := true,
             attempts := 0, waits := false), n, expired)
  }

  /** BeginBuild, BeginBuilds and, on a tombstone, BeginDelete: the Build
      Sequence takes the drawn value and nothing else moves. */
  function Begin(r: Row, idx: nat): (b: Row)
    ensures b.buildIdx == idx && b.(buildIdx := r.buildIdx) == r
  {
    r.(buildIdx := idx)
  }

  function ResetBackoff(r: Row): (b: Row)
    ensures SameMark(r, b) && b.stale == r.stale && b.owner == r.owner && NoBackoff(b)
  {
    r.(attempts := 0, waits := false)
  }

  /** ClearStale. */
  function Clear(r: Row, captured: nat): (c: Row)
    ensures SameMark(r, c) && NoBackoff(c)
    ensures r.staleSeq == captured ==> !c.stale && c.owner == 0
    ensures r.staleSeq != captured ==> c.stale == r.stale && c.owner == r.owner
  {
    if r.staleSeq == captured then ResetBackoff(r.(stale := false, owner := 0)) else ResetBackoff(r)
  }

  /** The row is the token's. */
  predicate Owns(r: Row, token: nat): (yes: bool)
    ensures yes <==> r.owner == token != 0
  {
    token != 0 && r.owner == token
  }

  /** FinishOwned. */
  function Finish(r: Row, captured: nat, token: nat): (f: (Row, FollowUp))
    ensures SameMark(r, f.0)
    ensures r.staleSeq == captured ==> !f.0.stale && f.0.owner == 0 && NoBackoff(f.0) && f.1 == NoFollowUp
    ensures r.staleSeq != captured && r.owner == token != 0 ==>
      f.0.stale == r.stale && f.0.owner == r.staleSeq && NoBackoff(f.0) && f.1 == FollowUp(r.staleSeq, r.deleted)
    ensures r.staleSeq != captured && !(r.owner == token != 0) ==> f == (r, NoFollowUp)
  {
    if r.staleSeq == captured then
      (Clear(r, captured), NoFollowUp)
    else if Owns(r, token) then
      (ResetBackoff(r.(owner := r.staleSeq)), FollowUp(r.staleSeq, r.deleted))
    else
      (r, NoFollowUp)
  }

  /** DeleteResourceIfSeq: None is the hard-deleted row. */
  function DeleteIfSeq(r: Row, captured: nat, token: nat): (d: (Option<Row>, FollowUp))
    ensures r.staleSeq == captured <==> d.0.None?
    ensures d.0.Some? ==> SameMark(r, d.0.value) && d.0.value.stale == r.stale && NoBackoff(d.0.value)
    ensures d.0.Some? && r.owner == token != 0 ==>
      d.0.value.owner == r.staleSeq && d.1 == FollowUp(r.staleSeq, r.deleted)
    ensures d.0.Some? && !(r.owner == token != 0) ==> d.0.value.owner == r.owner
    ensures d.0.None? || !(r.owner == token != 0) ==> d.1 == NoFollowUp
  {
    if r.staleSeq == captured then
      (None, NoFollowUp)
    else if Owns(r, token) then
      (Some(ResetBackoff(r.(owner := r.staleSeq))), FollowUp(r.staleSeq, r.deleted))
    else
      (Some(ResetBackoff(r)), NoFollowUp)
  }

  /** ReleaseOwners. */
  function Release(r: Row, token: nat): (x: Row)
    ensures x == r.(owner := x.owner) && x.owner == if r.owner == token != 0 then 0 else r.owner
  {
    if Owns(r, token) then r.(owner := 0) else r
  }

  /** The rows ReleaseFailed backs off: no registration of the resource itself
      since the claim, or a stale_seq lowered below change_seq. */
  predicate BacksOff(r: Row, token: nat): (yes: bool)
    ensures r.changeSeq <= token ==> yes
    ensures r.staleSeq < r.changeSeq ==> yes
    ensures token < r.changeSeq <= r.staleSeq ==> !yes
  {
    r.changeSeq <= token || r.changeSeq > r.staleSeq
  }

  const MAX_ATTEMPTS: nat := 2147483647

  /** ReleaseFailed. */
  function ReleaseFailed(r: Row, token: nat): (x: Row)
    ensures SameMark(r, x) && x.stale == r.stale
    ensures !(r.owner == token != 0) ==> x == r
    ensures r.owner == token != 0 ==> x.owner == 0
    ensures r.owner == token != 0 && (r.changeSeq <= token || r.changeSeq > r.staleSeq) ==>
      x.waits && x.attempts == if r.attempts < 2147483647 then r.attempts + 1 else 2147483647
    ensures r.owner == token != 0 && token < r.changeSeq <= r.staleSeq ==> SameBackoff(r, x)
  {
    if !Owns(r, token) then r
    else if BacksOff(r, token) then
      r.(owner := 0, attempts := (if r.attempts < MAX_ATTEMPTS - 1 then r.attempts else MAX_ATTEMPTS - 1) + 1,
         waits := true)
    else r.(owner := 0)
  }

  /** The rows ListStale may claim; that the mark is old enough and the
      backoff has passed is `due`. */
  predicate Listable(r: Row, due: bool, expired: bool): (yes: bool)
    ensures yes ==> r.stale && due && (r.owner != 0 ==> expired)
    ensures r.stale && due && (r.owner == 0 || expired) ==> yes
  {
    r.stale && due && (r.owner == 0 || expired)
  }

  /** ListStale's claim, at the row's current stale_seq. */
  function ListClaim(r: Row): (c: Row)
    ensures c == r.(owner := r.staleSeq)
  {
    r.(owner := r.staleSeq)
  }

  /** A missing row behaves as Fresh. */
  function RowOf(rows: map<Resource, Row>, x: Resource): (r: Row)
    ensures x in rows ==> r == rows[x]
    ensures x !in rows ==> r == Row(0, false, 0, 0, 0, false, 0, 0, false)
  {
    if x in rows then rows[x] else Fresh
  }
}
