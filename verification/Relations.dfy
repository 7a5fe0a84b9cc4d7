// Relation key dependencies: the sibling and cycle checks of a config, and the
// topological order the plan resolves relations in.

module Relations {
  import opened Wrappers

  /** A relation of one version: its resource, the sibling its local field comes
      from ("" for none), and whether it is a reference relation. */
  datatype Rel = Rel(name: string, from: string, reference: bool)

  ghost predicate Distinct(rels: seq<Rel>) {
    forall i, j :: 0 <= i < j < |rels| ==> rels[i].name != rels[j].name
  }

  ghost predicate Named(rels: seq<Rel>, name: string) {
    exists r :: r in rels && r.name == name
  }

  /** Relation -> the sibling its local field comes from. */
  function Deps(rels: seq<Rel>): map<string, string> {
    if rels == [] then map[]
    else
      var last := rels[|rels| - 1];
      var before := Deps(rels[..|rels| - 1]);
      if last.from == "" then before else before[last.name := last.from]
  }

  lemma {:induction false} DepsOf(rels: seq<Rel>)
    requires Distinct(rels)
    ensures forall r ::
      r in rels ==> (r.name in Deps(rels) <==> r.from != "") && (r.from != "" ==> Deps(rels)[r.name] == r.from)
    ensures forall name :: name in Deps(rels) ==> Named(rels, name)
  {
    if rels != [] {
      var n := |rels| - 1;
      DepsOf(rels[..n]);
      assert rels == rels[..n] + [rels[n]];
      forall r | r in rels[..n] ensures r.name != rels[n].name {
        var i :| 0 <= i < n && rels[i] == r;
      }
      assert !Named(rels[..n], rels[n].name);
      forall name | name in Deps(rels) ensures Named(rels, name) {
        if name in Deps(rels[..n]) {
          var r :| r in rels[..n] && r.name == name;
          assert r in rels;
        } else {
          assert rels[n] in rels;
        }
      }
    }
  }

  datatype Step = End | At(name: string)

  /** Where n dependencies from `a` lead. */
  ghost function Follow(deps: map<string, string>, a: string, n: nat): Step {
    if n == 0 then At(a)
    else
      match Follow(deps, a, n - 1)
      case End => End
      case At(b) => if b in deps then At(deps[b]) else End
  }

  ghost predicate Cyclic(deps: map<string, string>) {
    exists a: string, n: nat :: n > 0 && Follow(deps, a, n) == At(a)
  }

  ghost predicate MissingSibling(rels: seq<Rel>) {
    exists r :: r in rels && r.from != "" && !Named(rels, r.from)
  }

  // ------------------------------------------------------------ finish orders

  ghost predicate Unique(order: seq<string>) {
    forall i, j :: 0 <= i < j < |order| ==> order[i] != order[j]
  }

  /** Every dependency of a listed name is listed before it. */
  ghost predicate Settled(deps: map<string, string>, order: seq<string>) {
    && Unique(order)
    && forall i {:trigger order[i]} :: 0 <= i < |order| && order[i] in deps ==> deps[order[i]] in order[..i]
  }

  lemma SettledAppend(deps: map<string, string>, order: seq<string>, name: string)
    requires Settled(deps, order) && name !in order && (name in deps ==> deps[name] in order)
    ensures Settled(deps, order + [name])
  {
    var o := order + [name];
    forall i | 0 <= i < |o| && o[i] in deps ensures deps[o[i]] in o[..i] {
      if i < |order| {
        assert o[..i] == order[..i];
      } else {
        assert o[..i] == order;
      }
    }
  }

  /** Along dependencies, places in a settled order only go down. */
  lemma {:induction false} FollowsDown(deps: map<string, string>, order: seq<string>, i: nat, n: nat)
    requires Settled(deps, order) && i < |order|
    ensures Follow(deps, order[i], n).At? ==>
      exists j :: 0 <= j && j + n <= i && order[j] == Follow(deps, order[i], n).name
  {
    if n > 0 && Follow(deps, order[i], n).At? {
      FollowsDown(deps, order, i, n - 1);
      var j :| 0 <= j && j + (n - 1) <= i && order[j] == Follow(deps, order[i], n - 1).name;
      assert deps[order[j]] in order[..j];
      var k :| 0 <= k < j && order[..j][k] == deps[order[j]];
      assert k + n <= i && order[k] == Follow(deps, order[i], n).name;
    }
  }

  lemma NoneBefore(order: seq<string>, i: nat)
    requires Unique(order) && i < |order|
    ensures forall j :: 0 <= j < i ==> order[j] != order[i]
  {
  }

  lemma SettledAcyclic(deps: map<string, string>, order: seq<string>)
    requires Settled(deps, order) && forall name :: name in deps ==> name in order
    ensures !Cyclic(deps)
  {
    if Cyclic(deps) {
      var a: string, n: nat :| n > 0 && Follow(deps, a, n) == At(a);
      FollowStarts(deps, a, n);
      var i :| 0 <= i < |order| && order[i] == a;
      FollowsDown(deps, order, i, n);
      NoneBefore(order, i);
      assert false;
    }
  }

  lemma {:induction false} FollowStarts(deps: map<string, string>, a: string, n: nat)
    requires n > 0 && Follow(deps, a, n).At?
    ensures a in deps
  {
    if n > 1 { FollowStarts(deps, a, n - 1); }
  }

  /** The names on the stack of a visit: each the dependency of the one before. */
  ghost predicate Path(deps: map<string, string>, path: seq<string>) {
    && Unique(path)
    && (forall i {:trigger path[i]} :: 0 <= i < |path| ==> path[i] in deps)
    && forall i :: 0 < i < |path| ==> path[i] == deps[path[i - 1]]
  }

  lemma {:induction false} PathFollows(deps: map<string, string>, path: seq<string>, i: nat, n: nat)
    requires Path(deps, path) && i + n < |path|
    ensures Follow(deps, path[i], n) == At(path[i + n])
  {
    if n > 0 {
      PathFollows(deps, path, i, n - 1);
      assert path[i + n] == deps[path[i + n - 1]];
    }
  }

  /** Meeting a name of the stack again is a cycle. */
  lemma PathCloses(deps: map<string, string>, path: seq<string>, name: string)
    requires Path(deps, path) && path != [] && deps[path[|path| - 1]] == name && name in path
    ensures Cyclic(deps)
  {
    var i :| 0 <= i < |path| && path[i] == name;
    var n := |path| - 1 - i;
    PathFollows(deps, path, i, n);
    assert Follow(deps, name, n + 1) == At(name);
  }

  lemma PathAppend(deps: map<string, string>, path: seq<string>, name: string)
    requires Path(deps, path) && name in deps && name !in path && (path != [] ==> deps[path[|path| - 1]] == name)
    ensures Path(deps, path + [name])
  {
  }

  // ----------------------------------------------------------- resolveOrder

  ghost function NameSet(rels: seq<Rel>): set<string> {
    set r | r in rels :: r.name
  }

  ghost function NamesOf(rels: seq<Rel>): (names: seq<string>)
    ensures |names| == |rels| && forall i :: 0 <= i < |rels| ==> names[i] == rels[i].name
  {
    seq(|rels|, i requires 0 <= i < |rels| => rels[i].name)
  }

  /** What a visit keeps: the relations ordered so far are settled, and the
      stack is a path of dependencies. */
  ghost predicate Visiting(
      rels: seq<Rel>, ordered: seq<Rel>, visited: set<string>, inStack: set<string>, path: seq<string>)
  {
    && Distinct(rels)
    && visited == NameSet(ordered) && visited !! inStack
    && (forall r :: r in ordered ==> r in rels)
    && Settled(Deps(rels), NamesOf(ordered))
    && Path(Deps(rels), path) && inStack == (set n | n in path) && inStack <= NameSet(rels)
  }

  lemma Pushed(
      rels: seq<Rel>, ordered: seq<Rel>, visited: set<string>, inStack: set<string>, path: seq<string>, rel: Rel)
    requires Visiting(rels, ordered, visited, inStack, path) && rel in rels && rel.from != ""
    requires rel.name !in inStack && rel.name !in visited
    requires path != [] ==> Deps(rels)[path[|path| - 1]] == rel.name
    ensures Visiting(rels, ordered, visited, inStack + {rel.name}, path + [rel.name])
    ensures Deps(rels)[(path + [rel.name])[|path|]] == rel.from
  {
    DepsOf(rels);
    hide Settled;
    PathAppend(Deps(rels), path, rel.name);
  }

  lemma Popped(
      rels: seq<Rel>, ordered: seq<Rel>, visited: set<string>, inner: set<string>, stack: set<string>,
      path: seq<string>, rel: Rel)
    requires Visiting(rels, ordered, visited, inner, if rel.from == "" then path else path + [rel.name])
    requires inner == if rel.from == "" then stack else stack + {rel.name}
    requires rel in rels && rel.name !in stack && rel.name !in visited && stack == (set n | n in path)
    requires rel.from != "" ==> rel.from in visited
    requires Path(Deps(rels), path)
    ensures Visiting(rels, ordered + [rel], visited + {rel.name}, stack, path)
  {
    DepsOf(rels);
    hide Path;
    SettledName(Deps(rels), ordered, rel);
  }

  lemma StackPath(rels: seq<Rel>, ordered: seq<Rel>, visited: set<string>, inStack: set<string>, path: seq<string>)
    requires Visiting(rels, ordered, visited, inStack, path)
    ensures
      && Distinct(rels)
      && Path(Deps(rels), path)
      && inStack == (set n | n in path)
      && inStack <= NameSet(rels)
      && visited !! inStack
  {
  }

  /** resolveOrder's visit and the variables it closes over. */
  class Resolver {
    const rels: seq<Rel>
    var ordered: seq<Rel>
    var visited: set<string>
    var inStack: set<string>

    constructor (rels: seq<Rel>)
      ensures this.rels == rels && ordered == [] && visited == {} && inStack == {}
    {
      this.rels := rels;
      ordered, visited, inStack := [], {}, {};
    }

    ghost predicate Valid(path: seq<string>)
      reads this
    {
      Visiting(rels, ordered, visited, inStack, path)
    }

    /** Looks a relation up by the name another takes its key from. */
    method Lookup(name: string) returns (found: bool, dep: Rel)
      ensures found <==> Named(rels, name)
      ensures found ==> dep in rels && dep.name == name
    {
      found, dep := false, Rel("", "", false);
      for i := 0 to |rels|
        invariant !found ==> forall r :: r in rels[..i] ==> r.name != name
        invariant found ==> dep in rels && dep.name == name
      {
        if rels[i].name == name {
          found, dep := true, rels[i];
        }
      }
      assert rels[..|rels|] == rels;
    }

    /** Visits a relation after the sibling it depends on. It terminates because
        every nested visit has one more relation on the stack. */
    method Visit(rel: Rel, ghost path: seq<string>) returns (ok: bool)
      requires Valid(path) && rel in rels
      requires path != [] ==> Deps(rels)[path[|path| - 1]] == rel.name
      modifies this
      ensures !ok ==> MissingSibling(rels) || Cyclic(Deps(rels))
      ensures ok ==> Valid(path) && old(visited) + {rel.name} <= visited
      decreases |NameSet(rels) - inStack|
    {
      hide Visiting, Path, Cyclic, Deps, Distinct, NameSet, MissingSibling;
      StackPath(rels, ordered, visited, inStack, path);
      if rel.name in inStack {
        PathCloses(Deps(rels), path, rel.name);
        return false;
      }
      if rel.name in visited {
        return true;
      }
      ghost var free, stack := NameSet(rels) - inStack, inStack;
      inStack := inStack + {rel.name};
      StackGrows(rels, free, NameSet(rels) - inStack, rel);
      if rel.from != "" {
        var found, dep := Lookup(rel.from);
        if !found {
          SiblingMissing(rels, rel);
          return false;
        }
        Pushed(rels, ordered, visited, stack, path, rel);
        ok := Visit(dep, path + [rel.name]);
        if !ok {
          return;
        }
        StackPath(rels, ordered, visited, inStack, path + [rel.name]);
        StackSame(path, stack, inStack, rel.name);
      } else {
        inStack := inStack - {rel.name};
        assert inStack == stack;
      }
      Place(rel, path, stack);
      return true;
    }

    /** The end of a visit: the relation leaves the stack for the order. */
    method Place(rel: Rel, ghost path: seq<string>, ghost stack: set<string>)
      requires Valid(if rel.from == "" then path else path + [rel.name]) && rel in rels
      requires inStack == if rel.from == "" then stack else stack + {rel.name}
      requires rel.name !in stack && rel.name !in visited && stack == (set n | n in path) && Path(Deps(rels), path)
      requires rel.from != "" ==> rel.from in visited
      modifies this
      ensures Valid(path) && visited == old(visited) + {rel.name}
    {
      hide Visiting, Path, Deps;
      Popped(rels, ordered, visited, inStack, stack, path, rel);
      inStack := inStack - {rel.name};
      assert inStack == stack;
      visited := visited + {rel.name};
      ordered := ordered + [rel];
    }
  }

  lemma StackSame(path: seq<string>, stack: set<string>, inner: set<string>, name: string)
    requires stack == (set n | n in path) && inner == (set n | n in path + [name])
    ensures inner == stack + {name}
  {
  }

  lemma SiblingMissing(rels: seq<Rel>, rel: Rel)
    requires rel in rels && rel.from != "" && !Named(rels, rel.from)
    ensures MissingSibling(rels)
  {
  }

  lemma StackGrows(rels: seq<Rel>, was: set<string>, now: set<string>, rel: Rel)
    requires rel in rels && now == was - {rel.name} && (rel.name in NameSet(rels) ==> rel.name in was)
    ensures |now| < |was|
  {
    assert rel.name in NameSet(rels);
    assert |was| == |now| + 1;
  }

  lemma SettledName(deps: map<string, string>, ordered: seq<Rel>, rel: Rel)
    requires Settled(deps, NamesOf(ordered)) && rel.name !in NameSet(ordered)
    requires rel.name in deps ==> deps[rel.name] in NameSet(ordered)
    ensures Settled(deps, NamesOf(ordered + [rel])) && NameSet(ordered + [rel]) == NameSet(ordered) + {rel.name}
  {
    assert forall n :: n in NamesOf(ordered) <==> n in NameSet(ordered) by {
      forall n | n in NameSet(ordered) ensures n in NamesOf(ordered) {
        var i :| 0 <= i < |ordered| && ordered[i].name == n;
        assert NamesOf(ordered)[i] == n;
      }
    }
    SettledAppend(deps, NamesOf(ordered), rel.name);
    assert NamesOf(ordered + [rel]) == NamesOf(ordered) + [rel.name];
  }

  lemma {:induction false} OneOfEach(s: seq<Rel>)
    requires Distinct(s)
    ensures forall r :: multiset(s)[r] == if r in s then 1 else 0
  {
    if s != [] {
      var n := |s| - 1;
      OneOfEach(s[..n]);
      assert s == s[..n] + [s[n]];
      forall i | 0 <= i < n ensures s[..n][i] != s[n] {}
    }
  }

  lemma Permutes(rels: seq<Rel>, ordered: seq<Rel>)
    requires
      && Distinct(rels)
      && Unique(NamesOf(ordered))
      && NameSet(rels) <= NameSet(ordered)
      && forall r :: r in ordered ==> r in rels
    ensures multiset(ordered) == multiset(rels)
  {
    assert Distinct(ordered) by {
      forall i, j | 0 <= i < j < |ordered| ensures ordered[i].name != ordered[j].name {
        assert NamesOf(ordered)[i] != NamesOf(ordered)[j];
      }
    }
    OneOfEach(rels);
    OneOfEach(ordered);
    forall r ensures r in ordered <==> r in rels {
      if r in rels {
        assert r.name in NameSet(rels);
        var o :| o in ordered && o.name == r.name;
        SameName(rels, o, r);
      }
    }
    forall r ensures multiset(ordered)[r] == multiset(rels)[r] {}
  }

  lemma SameName(rels: seq<Rel>, a: Rel, b: Rel)
    requires Distinct(rels) && a in rels && b in rels && a.name == b.name
    ensures a == b
  {
    var i :| 0 <= i < |rels| && rels[i] == a;
    var j :| 0 <= j < |rels| && rels[j] == b;
  }

  /** Every relation follows the sibling its key comes from. */
  ghost predicate Ordered(s: seq<Rel>) {
    forall i {:trigger s[i]} :: 0 <= i < |s| && s[i].from != "" ==> Named(s[..i], s[i].from)
  }

  lemma SettledOrdered(rels: seq<Rel>, s: seq<Rel>)
    requires Distinct(rels) && Settled(Deps(rels), NamesOf(s)) && forall r :: r in s ==> r in rels
    ensures Ordered(s)
  {
    DepsOf(rels);
    forall i | 0 <= i < |s| && s[i].from != "" ensures Named(s[..i], s[i].from) {
      assert NamesOf(s)[i] in Deps(rels);
      var k :| 0 <= k < i && NamesOf(s)[..i][k] == s[i].from;
      assert s[..i][k].name == s[i].from;
    }
  }

  /** resolveOrder: a permutation in which every relation follows its sibling,
      and a failure exactly on a missing sibling or a cycle. */
  method ResolveOrder(rels: seq<Rel>) returns (r: Result<seq<Rel>>)
    requires Distinct(rels)
    ensures r.Err? <==> MissingSibling(rels) || Cyclic(Deps(rels))
    ensures r.Ok? ==> multiset(r.value) == multiset(rels) && Ordered(r.value)
  {
    var resolver := new Resolver(rels);
    for i := 0 to |rels|
      invariant resolver.Valid([]) && resolver.rels == rels
      invariant NameSet(rels[..i]) <= resolver.visited
    {
      assert rels[..i + 1] == rels[..i] + [rels[i]];
      var ok := resolver.Visit(rels[i], []);
      if !ok {
        return Err;
      }
    }
    assert rels[..|rels|] == rels;
    Permutes(rels, resolver.ordered);
    SettledOrdered(rels, resolver.ordered);
    NothingMissing(rels, resolver.ordered);
    r := Ok(resolver.ordered);
  }

  lemma NothingMissing(rels: seq<Rel>, s: seq<Rel>)
    requires Distinct(rels) && Settled(Deps(rels), NamesOf(s)) && multiset(s) == multiset(rels) && Ordered(s)
    ensures !MissingSibling(rels) && !Cyclic(Deps(rels))
  {
    DepsOf(rels);
    assert forall r :: r in rels <==> r in s by {
      assert forall r :: r in rels <==> r in multiset(rels);
      assert forall r :: r in s <==> r in multiset(s);
    }
    forall r | r in rels && r.from != "" ensures Named(rels, r.from) {
      var i :| 0 <= i < |s| && s[i] == r;
      assert Named(s[..i], s[i].from);
      var d :| d in s[..i] && d.name == r.from;
      assert d in rels;
    }
    forall name | name in Deps(rels) ensures name in NamesOf(s) {
      var r :| r in rels && r.name == name;
      var i :| 0 <= i < |s| && s[i] == r;
      assert NamesOf(s)[i] == name;
    }
    SettledAcyclic(Deps(rels), NamesOf(s));
  }

  // ---------------------------------------------------------- config checks

  /** verifyFieldRelations' sibling check, for one version. */
  ghost predicate SiblingsOk(rels: seq<Rel>) {
    forall r :: r in rels && r.from != "" ==> exists d :: d in rels && d.name == r.from && !d.reference
  }

  method VerifySiblings(rels: seq<Rel>) returns (ok: bool)
    requires Distinct(rels)
    ensures ok <==> SiblingsOk(rels)
  {
    for i := 0 to |rels|
      invariant SiblingsOkFor(rels, rels[..i])
    {
      assert rels[..i + 1] == rels[..i] + [rels[i]] && rels[i] in rels;
      if rels[i].from != "" {
        var found := false;
        for j := 0 to |rels|
          invariant !found ==> forall d :: d in rels[..j] ==> d.name != rels[i].from
          invariant found ==> exists d :: d in rels && d.name == rels[i].from && !d.reference
        {
          if !found && rels[j].name == rels[i].from {
            if rels[j].reference {
              OneSibling(rels, rels[i], rels[j]);
              return false;
            }
            found := true;
          }
        }
        assert rels[..|rels|] == rels;
        if !found {
          return false;
        }
      }
    }
    assert rels[..|rels|] == rels;
    return true;
  }

  ghost predicate SiblingsOkFor(rels: seq<Rel>, some: seq<Rel>) {
    forall r :: r in some && r.from != "" ==> exists d :: d in rels && d.name == r.from && !d.reference
  }

  lemma OneSibling(rels: seq<Rel>, r: Rel, d: Rel)
    requires Distinct(rels) && r in rels && r.from != "" && d in rels && d.name == r.from && d.reference
    ensures !SiblingsOk(rels)
  {
    if SiblingsOk(rels) {
      var e :| e in rels && e.name == r.from && !e.reference;
      SameName(rels, d, e);
    }
  }

  ghost predicate Checking(
      deps: map<string, string>, visited: set<string>, inStack: set<string>, finished: seq<string>, path: seq<string>)
  {
    && visited == (set n | n in finished) + inStack && inStack == (set n | n in path)
    && (forall n :: n in finished ==> n !in inStack)
    && Settled(deps, finished) && Path(deps, path)
  }

  lemma CheckingStack(
      deps: map<string, string>, visited: set<string>, inStack: set<string>, finished: seq<string>, path: seq<string>)
    requires Checking(deps, visited, inStack, finished, path)
    ensures Path(deps, path) && inStack == (set n | n in path)
    ensures forall n :: n in visited <==> n in finished || n in inStack
    ensures forall n :: n in finished ==> n !in inStack
  {
  }

  lemma CheckingPush(
      deps: map<string, string>, visited: set<string>, inStack: set<string>, finished: seq<string>, path: seq<string>,
      node: string)
    requires Checking(deps, visited, inStack, finished, path) && node in deps && node !in visited
    requires path != [] ==> deps[path[|path| - 1]] == node
    ensures Checking(deps, visited + {node}, inStack + {node}, finished, path + [node])
    ensures deps[(path + [node])[|path|]] == deps[node]
  {
    hide Settled;
    PathAppend(deps, path, node);
  }

  lemma CheckingPop(
      deps: map<string, string>, visited: set<string>, inner: set<string>, stack: set<string>, finished: seq<string>,
      path: seq<string>, node: string)
    requires Checking(deps, visited, inner, finished, path + [node]) && node in deps && deps[node] in finished
    requires inner == stack + {node} && node !in stack && Path(deps, path) && stack == (set n | n in path)
    ensures Checking(deps, visited, stack, finished + [node], path) && node in visited
  {
    hide Path;
    SettledAppend(deps, finished, node);
  }

  lemma CheckingLeaf(
      deps: map<string, string>, visited: set<string>, stack: set<string>, finished: seq<string>, path: seq<string>,
      node: string)
    requires Checking(deps, visited, stack, finished, path) && node !in deps && node !in visited
    ensures Checking(deps, visited + {node}, stack, finished + [node], path)
  {
    hide Path;
    SettledAppend(deps, finished, node);
  }

  /** verifyNoCyclesVersion's visit and the variables it closes over. Unlike
      resolveOrder's it walks names, which need not be relations, and marks a
      name visited when it meets it. */
  class CycleCheck {
    const deps: map<string, string>
    var visited: set<string>
    var inStack: set<string>
    /** The names whose visit has ended, in order. */
    ghost var finished: seq<string>

    constructor (deps: map<string, string>)
      ensures this.deps == deps && Valid([])
    {
      this.deps := deps;
      visited, inStack, finished := {}, {}, [];
    }

    ghost predicate Valid(path: seq<string>)
      reads this
    {
      Checking(deps, visited, inStack, finished, path)
    }

    method Visit(node: string, ghost path: seq<string>) returns (ok: bool)
      requires Valid(path) && (path != [] ==> deps[path[|path| - 1]] == node)
      modifies this
      ensures !ok ==> Cyclic(deps)
      ensures ok ==> Valid(path) && old(visited) + {node} <= visited && node in finished
      decreases |deps.Keys - inStack|
    {
      hide Checking, Path, Cyclic;
      CheckingStack(deps, visited, inStack, finished, path);
      if node in inStack {
        PathCloses(deps, path, node);
        return false;
      }
      if node in visited {
        return true;
      }
      ghost var free, stack := deps.Keys - inStack, inStack;
      visited := visited + {node};
      inStack := inStack + {node};
      if node in deps {
        assert deps.Keys - inStack == free - {node};
        CheckingPush(deps, old(visited), stack, finished, path, node);
        ok := Visit(deps[node], path + [node]);
        if !ok {
          return;
        }
        CheckingStack(deps, visited, inStack, finished, path + [node]);
        StackSame(path, stack, inStack, node);
        CheckingPop(deps, visited, inStack, stack, finished, path, node);
      } else {
        CheckingLeaf(deps, old(visited), stack, finished, path, node);
      }
      inStack := inStack - {node};
      assert inStack == stack;
      finished := finished + [node];
      return true;
    }
  }

  /** verifyNoCyclesVersion: passes exactly the configs with no cycle. */
  method VerifyNoCycles(rels: seq<Rel>) returns (ok: bool)
    requires Distinct(rels)
    ensures ok <==> !Cyclic(Deps(rels))
  {
    var check := new CycleCheck(Deps(rels));
    for i := 0 to |rels|
      invariant check.Valid([]) && check.deps == Deps(rels)
      invariant NameSet(rels[..i]) <= check.visited
    {
      assert rels[..i + 1] == rels[..i] + [rels[i]];
      ok := check.Visit(rels[i].name, []);
      if !ok {
        return;
      }
    }
    assert rels[..|rels|] == rels;
    DepsOf(rels);
    forall name | name in Deps(rels) ensures name in check.finished {
      assert name in NameSet(rels);
    }
    SettledAcyclic(Deps(rels), check.finished);
    return true;
  }

  /** A config that passes both checks always gets an order. */
  method OrderValidated(rels: seq<Rel>) returns (valid: bool, r: Result<seq<Rel>>)
    requires Distinct(rels)
    ensures valid <==> SiblingsOk(rels) && !Cyclic(Deps(rels))
    ensures valid ==> r.Ok? && multiset(r.value) == multiset(rels) && Ordered(r.value)
  {
    r := Err;
    valid := VerifySiblings(rels);
    if valid {
      valid := VerifyNoCycles(rels);
    }
    if valid {
      assert !MissingSibling(rels);
      r := ResolveOrder(rels);
    }
  }
}
