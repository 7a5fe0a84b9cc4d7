// Row locks of the edge-set transactions and of the statements that mark
// resources: in what order each takes its rows, and why no cycle of waits can
// form between any number of them.

module Locks {
  import opened Rows
  import opened Strings

  /** A row of edge_sets, or of resources. */
  datatype Lock = EdgeSet(res: Resource, version: Version) | ResourceRow(res: Resource)

  predicate ResLess(a: Resource, b: Resource) {
    StrLess(a.typ, b.typ) || (a.typ == b.typ && StrLess(a.id, b.id))
  }

  /** A resource's edge sets by ascending version, then resources rows by type
      and id. */
  predicate Less(a: Lock, b: Lock) {
    match (a, b)
    case (EdgeSet(r, v), EdgeSet(q, w)) => r == q && v < w
    case (EdgeSet(_, _), ResourceRow(_)) => true
    case (ResourceRow(_), EdgeSet(_, _)) => false
    case (ResourceRow(r), ResourceRow(q)) => ResLess(r, q)
  }

  lemma LessStrict(a: Lock, b: Lock)
    ensures Less(a, b) ==> a != b && !Less(b, a)
    ensures a.ResourceRow? || b.ResourceRow? || a.res == b.res ==> a == b || Less(a, b) || Less(b, a)
  {
    StrTotal(a.res.typ, b.res.typ);
    StrTotal(a.res.id, b.res.id);
  }

  lemma LessTransitive(a: Lock, b: Lock, c: Lock)
    requires Less(a, b) && Less(b, c)
    ensures Less(a, c)
  {
    if StrLess(a.res.typ, b.res.typ) && StrLess(b.res.typ, c.res.typ) {
      StrTransitive(a.res.typ, b.res.typ, c.res.typ);
    }
    if StrLess(a.res.id, b.res.id) && StrLess(b.res.id, c.res.id) { StrTransitive(a.res.id, b.res.id, c.res.id); }
  }

  ghost predicate Ascending(locks: seq<Lock>) {
    forall i, j :: 0 <= i < j < |locks| ==> Less(locks[i], locks[j])
  }

  // ---------------------------------------------------------------- programs

  ghost predicate Sorted(s: seq<Version>) {
    forall i, j :: 0 <= i < j < |s| ==> s[i] < s[j]
  }

  /** slices.Sort, on the versions a replace touches. */
  method SortVersions(vs: set<Version>) returns (sorted: seq<Version>)
    ensures Sorted(sorted) && forall v :: v in sorted <==> v in vs
  {
    hide Sorted;
    sorted := [];
    NothingSorted();
    var rest := vs;
    while rest != {}
      invariant Sorted(sorted) && rest <= vs
      invariant forall v :: v in sorted <==> v in vs && v !in rest
      decreases |rest|
    {
      var v :| v in rest;
      rest := rest - {v};
      sorted := PlaceVersion(sorted, v);
    }
  }

  lemma NoRepeat(s: seq<Version>, i: nat)
    requires Sorted(s) && i < |s|
    ensures s[i] !in s[..i]
  {
  }

  lemma NothingSorted()
    ensures Sorted([])
  {
  }

  method PlaceVersion(sorted: seq<Version>, v: Version) returns (r: seq<Version>)
    requires Sorted(sorted) && v !in sorted
    ensures Sorted(r) && forall u :: u in r <==> u in sorted || u == v
  {
    hide Sorted;
    var k := 0;
    while k < |sorted| && sorted[k] < v
      invariant 0 <= k <= |sorted|
      invariant forall i :: 0 <= i < k ==> sorted[i] < v
    {
      k := k + 1;
    }
    assert k < |sorted| ==> sorted[k] in sorted;
    r := sorted[..k] + [v] + sorted[k..];
    Placed(sorted, v, k);
  }

  lemma Placed(sorted: seq<Version>, v: Version, k: nat)
    requires
      k <= |sorted| && Sorted(sorted) && (forall i :: 0 <= i < k ==> sorted[i] < v) && (k < |sorted| ==> v < sorted[k])
    ensures Sorted(sorted[..k] + [v] + sorted[k..])
    ensures forall u :: u in sorted[..k] + [v] + sorted[k..] <==> u in sorted || u == v
  {
    var r := sorted[..k] + [v] + sorted[k..];
    forall i, j | 0 <= i < j < |r| ensures r[i] < r[j] {
      assert r[i] == if i < k then sorted[i] else if i == k then v else sorted[i - 1];
      assert r[j] == if j < k then sorted[j] else if j == k then v else sorted[j - 1];
    }
    assert sorted == sorted[..k] + sorted[k..];
  }

  /** ReplaceEdges: the sets it stores and the stored versions it drops, in
      ascending order, then the resources row when it stores a report. */
  method ReplaceProgram(res: Resource, sets: set<Version>, undeclared: set<Version>, reported: bool)
    returns (locks: seq<Lock>)
    ensures Ascending(locks)
    ensures forall l ::
      l in locks <==>
        (l.EdgeSet? && l.res == res && l.version in sets + undeclared) || (reported && l == ResourceRow(res))
  {
    var versions := SortVersions(sets + undeclared);
    locks := [];
    for i := 0 to |versions|
      invariant |locks| == i && forall k :: 0 <= k < i ==> locks[k] == EdgeSet(res, versions[k])
    {
      locks := locks + [EdgeSet(res, versions[i])];
    }
    assert forall l :: l in locks <==> l.EdgeSet? && l.res == res && l.version in sets + undeclared by {
      forall v | v in sets + undeclared ensures EdgeSet(res, v) in locks {
        var k :| 0 <= k < |versions| && versions[k] == v;
        assert locks[k] == EdgeSet(res, v);
      }
    }
    if reported {
      locks := locks + [ResourceRow(res)];
    }
  }

  /** RemoveResource: every stored set of the resource, in ascending order. */
  method RemoveProgram(res: Resource, stored: set<Version>) returns (locks: seq<Lock>)
    ensures Ascending(locks)
    ensures forall l :: l in locks <==> l.EdgeSet? && l.res == res && l.version in stored
  {
    locks := ReplaceProgram(res, stored, {}, false);
  }

  // ------------------------------------------------------------ transactions

  /** A transaction: the rows it holds, the rows it has yet to take, and, while
      it waits for the first of those, its place in that row's queue. */
  datatype Tx = Tx(held: set<Lock>, todo: seq<Lock>, waiting: bool, ticket: nat)

  type State = map<nat, Tx>

  ghost predicate HeldByOther(s: State, t: nat, l: Lock) {
    exists u :: u in s && u != t && l in s[u].held
  }

  ghost predicate Start(s: State, s': State, t: nat) {
    t !in s && exists locks :: Ascending(locks) && s' == s[t := Tx({}, locks, false, 0)]
  }

  /** Finds its next row held, and queues for it behind every waiter. */
  ghost predicate Wait(s: State, s': State, t: nat) {
    && t in s && s[t].todo != [] && !s[t].waiting && HeldByOther(s, t, s[t].todo[0])
    && exists n: nat ::
         (forall u :: u in s && s[u].waiting ==> s[u].ticket < n) && s' == s[t := s[t].(waiting := true, ticket := n)]
  }

  /** Takes its next row once no other holds it. A guarded statement that leaves
      the row alone may not keep it, and a row may be gone. */
  ghost predicate Take(s: State, s': State, t: nat) {
    && t in s && s[t].todo != [] && !HeldByOther(s, t, s[t].todo[0])
    && (|| s' == s[t := Tx(s[t].held + {s[t].todo[0]}, s[t].todo[1..], false, 0)]
        || s' == s[t := Tx(s[t].held, s[t].todo[1..], false, 0)])
  }

  /** Commits, or rolls back wherever it stands. */
  ghost predicate Leave(s: State, s': State, t: nat) {
    t in s && s' == s - {t}
  }

  ghost predicate Next(s: State, s': State) {
    exists t: nat :: Start(s, s', t) || Wait(s, s', t) || Take(s, s', t) || Leave(s, s', t)
  }

  ghost predicate Run(run: seq<State>) {
    |run| > 0 && run[0] == map[] && forall k :: 0 <= k < |run| - 1 ==> Next(run[k], run[k + 1])
  }

  /** A transaction takes its rows in order: everything it has yet to take is
      above everything it holds. */
  ghost predicate InOrder(tx: Tx) {
    && Ascending(tx.todo)
    && (forall l, i {:trigger l in tx.held, tx.todo[i]} :: l in tx.held && 0 <= i < |tx.todo| ==> Less(l, tx.todo[i]))
    && (tx.waiting ==> tx.todo != [])
  }

  ghost predicate Inv(s: State) {
    && (forall t {:trigger s[t]} :: t in s ==> InOrder(s[t]))
    && (forall t, u {:trigger s[t], s[u]} ::
          t in s && u in s && t != u && s[t].waiting && s[u].waiting ==> s[t].ticket != s[u].ticket)
  }

  lemma TakeInOrder(tx: Tx)
    requires InOrder(tx) && tx.todo != []
    ensures InOrder(Tx(tx.held + {tx.todo[0]}, tx.todo[1..], false, 0)) && InOrder(Tx(tx.held, tx.todo[1..], false, 0))
  {
    forall i | 0 <= i < |tx.todo[1..]| ensures tx.todo[1..][i] == tx.todo[i + 1] {}
  }

  /** A step moves one transaction; a new ticket is above every waiter's. */
  ghost predicate MovesOne(s: State, s': State, t: nat) {
    && (forall u {:trigger s'[u]} :: u in s' && u != t ==> u in s && s'[u] == s[u])
    && (t in s' ==> InOrder(s'[t]))
    && (t in s' && s'[t].waiting ==> forall u {:trigger s[u]} :: u in s && s[u].waiting ==> s[u].ticket < s'[t].ticket)
  }

  lemma StepMovesOne(s: State, s': State, t: nat)
    requires Inv(s) && (Start(s, s', t) || Wait(s, s', t) || Take(s, s', t) || Leave(s, s', t))
    ensures MovesOne(s, s', t)
  {
    if t in s && s[t].todo != [] { TakeInOrder(s[t]); }
  }

  lemma NextInv(s: State, s': State)
    requires Inv(s) && Next(s, s')
    ensures Inv(s')
  {
    hide InOrder, Start, Wait, Take, Leave;
    var t: nat :| Start(s, s', t) || Wait(s, s', t) || Take(s, s', t) || Leave(s, s', t);
    StepMovesOne(s, s', t);
    forall u, v | u in s' && v in s' && u != v && s'[u].waiting && s'[v].waiting ensures s'[u].ticket != s'[v].ticket {
      if u != t { assert s'[u] == s[u]; }
      if v != t { assert s'[v] == s[v]; }
    }
  }

  lemma {:induction false} RunInv(run: seq<State>, k: nat)
    requires Run(run) && k < |run|
    ensures Inv(run[k])
  {
    if k > 0 {
      RunInv(run, k - 1);
      NextInv(run[k - 1], run[k]);
    }
  }

  // ------------------------------------------------------------ the wait graph

  /** t waits for u: u holds the row t waits for, or queued for it earlier. */
  ghost predicate WaitsFor(s: State, t: nat, u: nat) {
    && t in s && u in s && t != u && s[t].waiting && s[t].todo != []
    && (|| s[t].todo[0] in s[u].held
        || (s[u].waiting && s[u].todo != [] && s[u].todo[0] == s[t].todo[0] && s[u].ticket < s[t].ticket))
  }

  /** A closed walk of waits. */
  ghost predicate Cycle(s: State, path: seq<nat>) {
    && |path| > 1 && path[0] == path[|path| - 1]
    && forall i :: 0 <= i < |path| - 1 ==> WaitsFor(s, path[i], path[i + 1])
  }

  /** Along waits the wanted row only goes up, and while it stays the same the
      ticket goes down. */
  ghost predicate Climbs(s: State, t: nat, u: nat)
    requires t in s && u in s && s[t].todo != [] && s[u].todo != []
  {
    Less(s[t].todo[0], s[u].todo[0]) || (s[t].todo[0] == s[u].todo[0] && s[u].ticket < s[t].ticket)
  }

  lemma {:induction false} PathClimbs(s: State, path: seq<nat>, k: nat)
    requires Inv(s) && 0 < k < |path|
    requires forall i :: 0 <= i < |path| - 1 ==> WaitsFor(s, path[i], path[i + 1])
    requires path[k] in s && s[path[k]].waiting
    ensures path[0] in s && s[path[0]].todo != [] && s[path[k]].todo != [] && Climbs(s, path[0], path[k])
  {
    assert WaitsFor(s, path[k - 1], path[k]);
    var a, b := s[path[k - 1]], s[path[k]];
    assert InOrder(b);
    assert Climbs(s, path[k - 1], path[k]);
    if k > 1 {
      PathClimbs(s, path, k - 1);
      var first := s[path[0]].todo[0];
      if Less(first, a.todo[0]) && Less(a.todo[0], b.todo[0]) { LessTransitive(first, a.todo[0], b.todo[0]); }
    }
  }

  /** Deadlock freedom: in every reachable state of any number of concurrent
      transactions the wait-for graph has no cycle. */
  lemma NoDeadlock(run: seq<State>, k: nat, path: seq<nat>)
    requires Run(run) && k < |run|
    ensures !Cycle(run[k], path)
  {
    RunInv(run, k);
    var s := run[k];
    if Cycle(s, path) {
      var n := |path| - 1;
      assert WaitsFor(s, path[0], path[1]);
      PathClimbs(s, path, n);
      LessStrict(s[path[0]].todo[0], s[path[0]].todo[0]);
      assert false;
    }
  }
}
