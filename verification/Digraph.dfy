/** Dependency graphs: what a cycle is, the depth-first check that finds one, and the order in
    which an acyclic graph is materialised.  A graph maps every node to the list of nodes it
    depends on. */
module Digraph {
  import opened Base
  import opened Ordering

  /** `n` is a node that lists `d` among its dependencies. */
  predicate DependsOn<T(==)>(deps: map<T, seq<T>>, n: T, d: T) {
    n in deps && d in deps[n]
  }

  /** Every dependency is itself a node. */
  ghost predicate Closed<T(!new)>(deps: map<T, seq<T>>) {
    forall n, d :: DependsOn(deps, n, d) ==> d in deps
  }

  ghost predicate IsPath<T>(deps: map<T, seq<T>>, p: seq<T>) {
    forall i, j :: 0 <= i < j < |p| && j == i + 1 ==> DependsOn(deps, p[i], p[j])
  }

  ghost predicate IsCycle<T>(deps: map<T, seq<T>>, p: seq<T>) {
    |p| >= 2 && p[0] == p[|p| - 1] && IsPath(deps, p)
  }

  /** The reference notion of acyclicity: no non-empty path returns to its start. */
  ghost predicate Acyclic<T(!new)>(deps: map<T, seq<T>>) {
    forall p: seq<T> :: !IsCycle(deps, p)
  }

  /** `order` lists nodes once each, every node after all it depends on. */
  ghost predicate Layered<T(!new)>(deps: map<T, seq<T>>, order: seq<T>) {
    && Distinct(order)
    && (forall i :: 0 <= i < |order| ==> order[i] in deps)
    && forall i, d :: 0 <= i < |order| && DependsOn(deps, order[i], d) ==> d in order[..i]
  }

  /** A graph all of whose nodes can be listed after their dependencies has no cycle. */
  lemma LayeredIsAcyclic<T(!new)>(deps: map<T, seq<T>>, order: seq<T>)
    requires Layered(deps, order) && Elements(order) == deps.Keys
    ensures Closed(deps) && Acyclic(deps)
  {
    forall n, d | DependsOn(deps, n, d) ensures d in deps {
      assert n in Elements(order);
      var i :| 0 <= i < |order| && order[i] == n;
      assert d in order[..i];
      assert d in Elements(order);
    }
    forall p: seq<T> | IsCycle(deps, p) ensures false {
      assert DependsOn(deps, p[0], p[1]);
      assert p[0] in Elements(order);
      var k :| 0 <= k < |order| && order[k] == p[0];
      PathDescends(deps, order, p, k, |p| - 1);
    }
  }

  /** Along a path the position in a layered order strictly falls. */
  lemma {:induction false} PathDescends<T(!new)>(deps: map<T, seq<T>>, order: seq<T>, p: seq<T>, k: nat, i: nat)
    requires Layered(deps, order) && IsPath(deps, p) && 0 < i < |p|
    requires k < |order| && order[k] == p[0]
    ensures p[i] in order[..k]
  {
    if i == 1 {
      assert DependsOn(deps, p[0], p[1]);
    } else {
      PathDescends(deps, order, p, k, i - 1);
      var j :| 0 <= j < k && order[j] == p[i - 1];
      assert DependsOn(deps, p[i - 1], p[i]);
      assert p[i] in order[..j];
    }
  }

  /** In an acyclic graph every non-empty set of nodes has one with no dependency in the set. */
  lemma Minimal<T(!new)>(deps: map<T, seq<T>>, s: set<T>) returns (m: T)
    requires Acyclic(deps) && s != {} && s <= deps.Keys
    ensures m in s && forall d :: DependsOn(deps, m, d) ==> d !in s
  {
    if forall n :: n in s ==> HasSuccessorIn(deps, n, s) {
      var p := LongPath(deps, s, |s|);
      var i, j := Repeats(p, s);
      assert IsCycle(deps, p[i..j + 1]);
      assert false;
    }
    m :| m in s && !HasSuccessorIn(deps, m, s);
  }

  ghost predicate HasSuccessorIn<T(!new)>(deps: map<T, seq<T>>, n: T, s: set<T>) {
    exists d :: DependsOn(deps, n, d) && d in s
  }

  lemma {:induction false} LongPath<T(!new)>(deps: map<T, seq<T>>, s: set<T>, k: nat) returns (p: seq<T>)
    requires s != {} && forall n :: n in s ==> HasSuccessorIn(deps, n, s)
    ensures |p| == k + 1 && Elements(p) <= s && IsPath(deps, p)
  {
    if k == 0 {
      var n :| n in s;
      p := [n];
    } else {
      var q := LongPath(deps, s, k - 1);
      var last := q[k - 1];
      assert last in Elements(q);
      var d :| DependsOn(deps, last, d) && d in s;
      p := q + [d];
    }
  }

  /** A new node that depends on old nodes only cannot close a cycle. */
  lemma NewNodeKeepsAcyclic<T(!new)>(deps: map<T, seq<T>>, n: T, ds: seq<T>)
    requires Closed(deps) && Acyclic(deps) && n !in deps
    requires forall d :: d in ds ==> d in deps
    ensures Closed(deps[n := ds]) && Acyclic(deps[n := ds])
  {
    var deps' := deps[n := ds];
    forall m, d | DependsOn(deps', m, d) ensures d in deps {
      assert m != n ==> DependsOn(deps, m, d);
    }
    forall p: seq<T> | IsCycle(deps', p) ensures false {
      forall i, j | 0 <= i < j < |p| && j == i + 1 ensures DependsOn(deps, p[i], p[j]) {
        assert DependsOn(deps', p[i], p[j]);
        var h := if i == 0 then |p| - 2 else i - 1;
        assert DependsOn(deps', p[h], p[h + 1]);
      }
      assert IsCycle(deps, p);
    }
  }

  lemma LayeredAppend<T(!new)>(deps: map<T, seq<T>>, order: seq<T>, n: T)
    requires Layered(deps, order) && n in deps && n !in order
    requires forall d :: d in deps[n] ==> d in order
    ensures Layered(deps, order + [n]) && Elements(order + [n]) == Elements(order) + {n}
  {
    var order' := order + [n];
    forall i, d | 0 <= i < |order'| && DependsOn(deps, order'[i], d) ensures d in order'[..i] {
      if i < |order| {
        assert DependsOn(deps, order[i], d) && order'[..i] == order[..i];
      } else {
        assert order'[..i] == order;
      }
    }
  }

  lemma PathAppend<T(!new)>(deps: map<T, seq<T>>, p: seq<T>, n: T)
    requires IsPath(deps, p) && (p != [] ==> DependsOn(deps, p[|p| - 1], n))
    ensures IsPath(deps, p + [n]) && Elements(p + [n]) == Elements(p) + {n}
  {
    assert forall x :: x in p + [n] <==> x in p || x == n;
  }

  lemma CloseCycle<T(!new)>(deps: map<T, seq<T>>, p: seq<T>, n: T)
    requires IsPath(deps, p) && n in p && DependsOn(deps, p[|p| - 1], n)
    ensures VerdictTrue(deps, CycleAt(n))
  {
    var i :| 0 <= i < |p| && p[i] == n;
    PathAppend(deps, p, n);
    assert IsCycle(deps, p[i..] + [n]);
  }

  /** What the depth-first check reports. */
  datatype Verdict<+T> = Clear | CycleAt(node: T) | MissingDependency(node: T)

  ghost predicate VerdictTrue<T(!new)>(deps: map<T, seq<T>>, v: Verdict<T>) {
    match v
    case Clear => Closed(deps) && Acyclic(deps)
    case CycleAt(n) => exists p :: IsCycle(deps, p) && p[0] == n
    case MissingDependency(d) => d !in deps && exists n :: DependsOn(deps, n, d)
  }

  /** The nested `visit` of both dependency checks, with its two sets.  `stack` and `order` are
      for the proof: the nodes being visited in call order, and the finished ones. */
  class DepthFirst<T(==, !new)> {
    const deps: map<T, seq<T>>
    var visiting: set<T>
    var visited: set<T>
    ghost var stack: seq<T>
    ghost var order: seq<T>

    ghost predicate Valid()
      reads this
    {
      && visiting == Elements(stack) && visiting <= deps.Keys && IsPath(deps, stack)
      && visited == Elements(order) && Layered(deps, order)
      && visiting !! visited
    }

    constructor (deps: map<T, seq<T>>)
      ensures this.deps == deps && Valid() && visiting == {} && stack == []
    {
      this.deps := deps;
      visiting, visited, stack, order := {}, {}, [], [];
    }

    method Visit(n: T) returns (v: Verdict<T>)
      requires Valid() && n in deps
      requires stack != [] ==> DependsOn(deps, stack[|stack| - 1], n)
      modifies this
      decreases |deps.Keys - visiting|
      ensures v.Clear? ==> Valid() && stack == old(stack) && visiting == old(visiting)
                           && n in visited && old(visited) <= visited
      ensures !v.Clear? ==> VerdictTrue(deps, v)
    {
      if n in visiting {
        CloseCycle(deps, stack, n);
        return CycleAt(n);
      }
      if n in visited {
        return Clear;
      }
      ghost var outer, outerVisiting := stack, visiting;
      PathAppend(deps, stack, n);
      visiting := visiting + {n};
      stack := stack + [n];
      assert deps.Keys - visiting == (deps.Keys - outerVisiting) - {n};
      ghost var before := visited;
      for k := 0 to |deps[n]|
        invariant Valid() && stack == outer + [n] && visiting == outerVisiting + {n} && before <= visited
        invariant forall j :: 0 <= j < k ==> deps[n][j] in visited
      {
        var d := deps[n][k];
        assert DependsOn(deps, n, d);
        if d !in deps {
          assert VerdictTrue(deps, MissingDependency(d));
          return MissingDependency(d);
        }
        v := Visit(d);
        if !v.Clear? {
          return;
        }
      }
      Leave(n, outer, outerVisiting);
      v := Clear;
    }

    /** The node is done with: all it depends on has been visited. */
    method Leave(n: T, ghost outer: seq<T>, ghost outerVisiting: set<T>)
      requires Valid() && n in deps && stack == outer + [n] && visiting == outerVisiting + {n}
      requires n !in outerVisiting && outerVisiting == Elements(outer) && IsPath(deps, outer)
      requires forall j :: 0 <= j < |deps[n]| ==> deps[n][j] in visited
      modifies this
      ensures Valid() && stack == outer && visiting == outerVisiting && visited == old(visited) + {n}
    {
      visiting := visiting - {n};
      visited := visited + {n};
      stack := outer;
      assert n !in order by { assert forall x :: x in order ==> x in Elements(order); }
      assert forall d :: d in deps[n] ==> d in Elements(order);
      LayeredAppend(deps, order, n);
      order := order + [n];
    }
  }

  /** `_detect_cycle`, and the cycle check of `validate`: a verdict that is true of the graph,
      and `Clear` exactly for the closed acyclic ones.  `roots` is the order of the outer loop. */
  method DetectCycle<T(==, !new)>(deps: map<T, seq<T>>, roots: seq<T>) returns (v: Verdict<T>)
    requires Elements(roots) == deps.Keys
    ensures VerdictTrue(deps, v)
    ensures v.Clear? <==> Closed(deps) && Acyclic(deps)
  {
    var search := new DepthFirst(deps);
    for k := 0 to |roots|
      invariant search.deps == deps && search.Valid() && search.visiting == {} && search.stack == []
      invariant forall j :: 0 <= j < k ==> roots[j] in search.visited
    {
      assert roots[k] in Elements(roots);
      v := search.Visit(roots[k]);
      if !v.Clear? {
        return;
      }
    }
    v := Clear;
    assert Elements(search.order) == deps.Keys by {
      assert forall n :: n in Elements(roots) ==> n in search.visited;
      assert forall n :: n in Elements(search.order) ==> n in deps;
    }
    LayeredIsAcyclic(deps, search.order);
  }

  /** The nodes not yet emitted whose dependencies all are. */
  ghost function ReadySet(deps: map<string, seq<string>>, done: set<string>): set<string> {
    set n | n in deps && n !in done && Elements(deps[n]) <= done
  }

  /** Emission in rounds, each round sorted.  A function of the graph as a map: the order in
      which the nodes were declared plays no part. */
  ghost function Rounds(deps: map<string, seq<string>>, done: set<string>): seq<string>
    decreases |deps.Keys - done|
  {
    var ready := ReadySet(deps, done);
    if ready == {} then []
    else
      assert |deps.Keys - (done + ready)| < |deps.Keys - done| by {
        var n :| n in ready;
        SubsetCount(deps.Keys - (done + ready), (deps.Keys - done) - {n});
      }
      SortSet(ready) + Rounds(deps, done + ready)
  }

  /** While nodes remain, an acyclic graph always has a ready one. */
  lemma AlwaysProgress(deps: map<string, seq<string>>, done: set<string>)
    requires Closed(deps) && Acyclic(deps) && done != deps.Keys && done <= deps.Keys
    ensures ReadySet(deps, done) != {}
  {
    var rest := deps.Keys - done;
    assert done + rest == deps.Keys;
    var m := Minimal(deps, rest);
    assert forall d :: d in deps[m] ==> DependsOn(deps, m, d);
    assert m in ReadySet(deps, done);
  }

  /** `r` lists the nodes outside `done` once each, every node after all it depends on. */
  ghost predicate LayeredAfter(deps: map<string, seq<string>>, done: set<string>, r: seq<string>) {
    && Distinct(r)
    && Elements(r) == deps.Keys - done
    && forall i, d :: 0 <= i < |r| && DependsOn(deps, r[i], d) ==> d in done || d in r[..i]
  }

  lemma LayerInFront(deps: map<string, seq<string>>, done: set<string>, first: seq<string>, rest: seq<string>)
    requires done <= deps.Keys && Distinct(first) && Elements(first) == ReadySet(deps, done)
    requires LayeredAfter(deps, done + Elements(first), rest)
    ensures LayeredAfter(deps, done, first + rest)
  {
    var r := first + rest;
    assert forall i :: 0 <= i < |first| ==> first[i] in Elements(first);
    assert forall i :: 0 <= i < |rest| ==> rest[i] in Elements(rest);
    assert Elements(r) == Elements(first) + Elements(rest);
    forall i, d | 0 <= i < |r| && DependsOn(deps, r[i], d) ensures d in done || d in r[..i] {
      if i < |first| {
        assert first[i] in Elements(first) && d in Elements(deps[r[i]]);
      } else {
        assert DependsOn(deps, rest[i - |first|], d);
        assert r[..i] == first + rest[..i - |first|];
        if d in Elements(first) { assert d in first; }
      }
    }
  }

  /** The rounds list every remaining node once, after its dependencies: an acyclic graph never
      runs out of progress. */
  lemma {:induction false} RoundsLayered(deps: map<string, seq<string>>, done: set<string>)
    requires Closed(deps) && Acyclic(deps) && done <= deps.Keys
    ensures LayeredAfter(deps, done, Rounds(deps, done))
    decreases |deps.Keys - done|
  {
    var ready := ReadySet(deps, done);
    if ready == {} {
      if done != deps.Keys { AlwaysProgress(deps, done); }
      assert Elements<string>([]) == {} == deps.Keys - done;
    } else {
      assert |deps.Keys - (done + ready)| < |deps.Keys - done| by {
        var n :| n in ready;
        SubsetCount(deps.Keys - (done + ready), (deps.Keys - done) - {n});
      }
      RoundsLayered(deps, done + ready);
      AscendingDistinct(SortSet(ready));
      LayerInFront(deps, done, SortSet(ready), Rounds(deps, done + ready));
    }
  }

  lemma RoundsIsLayered(deps: map<string, seq<string>>)
    requires Closed(deps) && Acyclic(deps)
    ensures Layered(deps, Rounds(deps, {})) && Elements(Rounds(deps, {})) == deps.Keys
  {
    RoundsLayered(deps, {});
    LayeredFromNone(deps, {}, Rounds(deps, {}));
  }

  lemma LayeredFromNone(deps: map<string, seq<string>>, none: set<string>, r: seq<string>)
    requires LayeredAfter(deps, none, r) && none == {}
    ensures Layered(deps, r) && Elements(r) == deps.Keys
  {
    assert forall i :: 0 <= i < |r| ==> r[i] in Elements(r);
    forall i, d | 0 <= i < |r| && DependsOn(deps, r[i], d) ensures d in r[..i] {
      assert d !in none;
    }
  }
}
