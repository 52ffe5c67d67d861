/** `GraphDefinition`: `validate` accepts exactly the well-formed acyclic graphs, and
    `topological_order` lists their nodes in an order that is a function of the graph alone. */
module GraphDefinitions {
  import opened Base
  import opened Ordering
  import opened Digraph
  import opened Journal
  import opened GraphLog
  import opened GraphRules
  import opened GraphPlans

  function Ids(nodes: seq<GraphNode>): (r: seq<string>)
    ensures |r| == |nodes| && forall i :: 0 <= i < |nodes| ==> r[i] == nodes[i].id
  {
    seq(|nodes|, i requires 0 <= i < |nodes| => nodes[i].id)
  }

  /** The dictionary a node list builds, by index. */
  lemma DictionaryOf(nodes: seq<GraphNode>)
    requires DistinctIds(nodes)
    ensures NodesOf(nodes).Keys == Elements(Ids(nodes))
    ensures forall i :: 0 <= i < |nodes| ==> NodesOf(nodes)[nodes[i].id] == FreshNode(nodes[i])
  {
    hide NodesOf;
    hide OrderOf;
    hide FreshNode;
    DistinctNodes(nodes);
    assert OrderOf(nodes) == Ids(nodes);
    forall n ensures n in NodesOf(nodes) <==> n in Ids(nodes) {
      if n in Ids(nodes) {
        var i :| 0 <= i < |nodes| && Ids(nodes)[i] == n;
        assert nodes[i].id in NodesOf(nodes);
      }
    }
  }

  /** Two declarations of the same nodes, in whatever order, are the same graph, and therefore are
      materialised in the same order. */
  lemma OrderOfDeclarationIrrelevant(a: seq<GraphNode>, b: seq<GraphNode>)
    requires ValidNodes(a) && multiset(a) == multiset(b)
    ensures ValidNodes(b) && NodesOf(a) == NodesOf(b)
    ensures Rounds(NodeDeps(NodesOf(a)), {}) == Rounds(NodeDeps(NodesOf(b)), {})
  {
    hide NodesOf;
    hide FreshNode;
    hide Closed;
    hide Acyclic;
    PermutedDistinct(a, b);
    DictionaryOf(a);
    DictionaryOf(b);
    forall n: string
    ensures n in NodesOf(a) ==> n in NodesOf(b) && NodesOf(a)[n] == NodesOf(b)[n]
    ensures n in NodesOf(b) ==> n in NodesOf(a) {
      if n in NodesOf(a) { SharedNode(a, b, n); }
      if n in NodesOf(b) { SharedNode(b, a, n); }
    }
    assert NodesOf(a) == NodesOf(b);
    forall i | 0 <= i < |b| ensures b[i].id != "" {
      assert b[i] in multiset(a);
    }
    assert a[0] in multiset(b);
  }

  lemma SharedNode(a: seq<GraphNode>, b: seq<GraphNode>, n: string)
    requires DistinctIds(a) && DistinctIds(b) && multiset(a) == multiset(b) && n in NodesOf(a)
    ensures n in NodesOf(b) && NodesOf(a)[n] == NodesOf(b)[n]
  {
    hide NodesOf;
    hide FreshNode;
    DictionaryOf(a);
    DictionaryOf(b);
    var i :| 0 <= i < |a| && Ids(a)[i] == n;
    assert a[i] in multiset(b);
    var k :| 0 <= k < |b| && b[k] == a[i];
    assert Ids(b)[k] == n;
  }

  lemma PermutedDistinct(a: seq<GraphNode>, b: seq<GraphNode>)
    requires DistinctIds(a) && multiset(a) == multiset(b)
    ensures DistinctIds(b)
  {
    DistinctMultiset(a);
    DistinctMultiset(b);
    forall i, j | 0 <= i < j < |b| ensures b[i].id != b[j].id {
      assert b[i] in multiset(a) && b[j] in multiset(a);
      var k :| 0 <= k < |a| && a[k] == b[i];
      var l :| 0 <= l < |a| && a[l] == b[j];
      assert b[i] != b[j];
    }
  }

  /** `len(ids) != len(set(ids))` tells a repeated id. */
  lemma CountTellsDistinct(ids: seq<string>)
    ensures |Elements(ids)| == |ids| <==> Distinct(ids)
  {
    if Distinct(ids) {
      DistinctCount(ids);
    } else {
      var i, j :| 0 <= i < j < |ids| && ids[i] == ids[j];
      var fewer := ids[..j] + ids[j + 1..];
      forall x | x in ids ensures x in fewer {
        var k :| 0 <= k < |ids| && ids[k] == x;
        if k < j { assert fewer[k] == x; } else if k == j { assert fewer[i] == x; } else { assert fewer[k - 1] == x; }
      }
      FewElements(fewer);
      SubsetCount(Elements(ids), Elements(fewer));
    }
  }

  lemma {:induction false} FewElements<T>(xs: seq<T>)
    ensures |Elements(xs)| <= |xs|
  {
    if xs != [] {
      var n := |xs| - 1;
      FewElements(xs[..n]);
      assert Elements(xs) == Elements(xs[..n]) + {xs[n]};
    }
  }

  /** The check that every dependency is known and no node lists itself. */
  method UnknownOrSelf(nodes: seq<GraphNode>, known: set<string>) returns (bad: bool)
    ensures !bad <==> forall i :: 0 <= i < |nodes| ==>
      Elements(nodes[i].blockedBy) <= known && nodes[i].id !in nodes[i].blockedBy
  {
    for i := 0 to |nodes|
      invariant forall k :: 0 <= k < i ==> Elements(nodes[k].blockedBy) <= known && nodes[k].id !in nodes[k].blockedBy
    {
      var missing := Elements(nodes[i].blockedBy) - known;
      assert forall x :: x in missing <==> x in Elements(nodes[i].blockedBy) && x !in known;
      if missing != {} || nodes[i].id in nodes[i].blockedBy {
        return true;
      }
    }
    bad := false;
  }

  lemma KnownIsClosed(nodes: seq<GraphNode>)
    requires DistinctIds(nodes)
    ensures Closed(NodeDeps(NodesOf(nodes))) <==>
      forall i :: 0 <= i < |nodes| ==> Elements(nodes[i].blockedBy) <= Elements(Ids(nodes))
  {
    DictionaryOf(nodes);
    var deps := NodeDeps(NodesOf(nodes));
    if Closed(deps) {
      forall i, d | 0 <= i < |nodes| && d in Elements(nodes[i].blockedBy) ensures d in Elements(Ids(nodes)) {
        assert DependsOn(deps, nodes[i].id, d);
      }
    }
    if forall i :: 0 <= i < |nodes| ==> Elements(nodes[i].blockedBy) <= Elements(Ids(nodes)) {
      forall n, d | DependsOn(deps, n, d) ensures d in deps {
        var i :| 0 <= i < |nodes| && Ids(nodes)[i] == n;
        assert d in Elements(nodes[i].blockedBy);
      }
    }
  }

  lemma SelfLoopIsCycle(nodes: seq<GraphNode>, i: nat)
    requires DistinctIds(nodes) && i < |nodes| && nodes[i].id in nodes[i].blockedBy
    ensures !Acyclic(NodeDeps(NodesOf(nodes)))
  {
    DictionaryOf(nodes);
    var deps := NodeDeps(NodesOf(nodes));
    assert DependsOn(deps, nodes[i].id, nodes[i].id);
    assert IsCycle(deps, [nodes[i].id, nodes[i].id]);
  }

  /** Some node has the id. */
  ghost predicate IsId(nodes: seq<GraphNode>, id: string) { exists k :: 0 <= k < |nodes| && nodes[k].id == id }

  /** The node with id `a` lists `b` in its `blocked_by`. */
  ghost predicate Lists(nodes: seq<GraphNode>, a: string, b: string) {
    exists k :: 0 <= k < |nodes| && nodes[k].id == a && b in nodes[k].blockedBy
  }

  /** A way along the lists that comes back to where it began. */
  ghost predicate Circle(nodes: seq<GraphNode>, p: seq<string>) {
    && |p| >= 2 && p[0] == p[|p| - 1]
    && forall i, j :: 0 <= i < j < |p| && j == i + 1 ==> Lists(nodes, p[i], p[j])
  }

  /** What a valid definition is, said of the nodes as declared. */
  lemma ValidExactly(d: Definition)
    ensures ValidDefinition(d) <==>
      && d.schema == "mcf_graph/v1" && d.graph != "" && d.nodes != []
      && (forall i :: 0 <= i < |d.nodes| ==> d.nodes[i].id != "")
      && (forall i, j :: 0 <= i < j < |d.nodes| ==> d.nodes[i].id != d.nodes[j].id)
      && (forall a, b :: Lists(d.nodes, a, b) ==> IsId(d.nodes, b))
      && forall p :: !Circle(d.nodes, p)
  {
    hide Acyclic;
    hide Closed;
    hide NodesOf;
    if DistinctIds(d.nodes) { ListedExactly(d.nodes); }
  }

  lemma FreshLists(n: GraphNode)
    ensures FreshNode(n).blockedBy == n.blockedBy
  {
  }

  lemma ListedExactly(nodes: seq<GraphNode>)
    requires DistinctIds(nodes)
    ensures Closed(NodeDeps(NodesOf(nodes))) <==> forall a, b :: Lists(nodes, a, b) ==> IsId(nodes, b)
    ensures Acyclic(NodeDeps(NodesOf(nodes))) <==> forall p :: !Circle(nodes, p)
  {
    hide NodesOf;
    hide FreshNode;
    DictionaryOf(nodes);
    var deps := NodeDeps(NodesOf(nodes));
    forall a, b ensures Lists(nodes, a, b) <==> DependsOn(deps, a, b) {
      if DependsOn(deps, a, b) {
        var k :| 0 <= k < |nodes| && Ids(nodes)[k] == a;
        assert nodes[k].id == a && NodesOf(nodes)[nodes[k].id] == FreshNode(nodes[k]);
        assert FreshNode(nodes[k]).blockedBy == nodes[k].blockedBy by { FreshLists(nodes[k]); }
      }
      if Lists(nodes, a, b) {
        var k :| 0 <= k < |nodes| && nodes[k].id == a && b in nodes[k].blockedBy;
        FreshLists(nodes[k]);
        assert Ids(nodes)[k] == a;
      }
    }
    forall x ensures IsId(nodes, x) <==> x in deps {
      if x in deps {
        var k :| 0 <= k < |nodes| && Ids(nodes)[k] == x;
        assert nodes[k].id == x;
      }
      if IsId(nodes, x) {
        var k :| 0 <= k < |nodes| && nodes[k].id == x;
        assert Ids(nodes)[k] == x;
      }
    }
    forall p: seq<string> ensures Circle(nodes, p) <==> IsCycle(deps, p) {
    }
  }

  /** `validate`: all its checks, in order. */
  method Validate(d: Definition) returns (r: Option<Error>)
    ensures r.None? <==> ValidDefinition(d)
    ensures r.Some? ==> r.value == GraphDefinitionFault
  {
    if d.schema != GRAPH_SCHEMA || d.graph == "" || d.nodes == [] {
      return Some(GraphDefinitionFault);
    }
    var ids := Ids(d.nodes);
    for i := 0 to |ids|
      invariant forall k :: 0 <= k < i ==> d.nodes[k].id != ""
    {
      if ids[i] == "" {
        assert d.nodes[i].id == "";
        return Some(GraphDefinitionFault);
      }
    }
    CountTellsDistinct(ids);
    assert Distinct(ids) <==> DistinctIds(d.nodes);
    if |ids| != |Elements(ids)| {
      return Some(GraphDefinitionFault);
    }
    KnownIsClosed(d.nodes);
    var bad := UnknownOrSelf(d.nodes, Elements(ids));
    if bad {
      if i :| 0 <= i < |d.nodes| && d.nodes[i].id in d.nodes[i].blockedBy {
        SelfLoopIsCycle(d.nodes, i);
      }
      return Some(GraphDefinitionFault);
    }
    DictionaryOf(d.nodes);
    var verdict := DetectCycle(NodeDeps(NodesOf(d.nodes)), ids);
    r := if verdict.Clear? then None else Some(GraphDefinitionFault);
  }

  /** The node with this id. */
  method NodeNamed(nodes: seq<GraphNode>, id: string) returns (n: GraphNode)
    requires id in Ids(nodes)
    ensures n in nodes && n.id == id
  {
    var i :| 0 <= i < |nodes| && Ids(nodes)[i] == id;
    n := nodes[i];
  }

  /** `topological_order`: it fails only on a graph `validate` refuses, and its result is the
      emission in sorted rounds, each node after its dependencies. */
  method TopologicalOrder(d: Definition) returns (r: Result<seq<GraphNode>>)
    ensures r.Success? <==> ValidDefinition(d)
    ensures r.Failure? ==> r.error == GraphDefinitionFault
    ensures r.Success? ==> (forall n :: n in r.value ==> n in d.nodes)
    ensures r.Success? ==> Ids(r.value) == Rounds(NodeDeps(NodesOf(d.nodes)), {})
    ensures r.Success? ==>
      Layered(NodeDeps(NodesOf(d.nodes)), Ids(r.value)) && Elements(Ids(r.value)) == Elements(Ids(d.nodes))
  {
    hide NodesOf;
    hide Acyclic;
    hide Closed;
    hide Layered;
    hide Rounds;
    hide ReadySet;
    hide NodeDeps;
    hide ValidDefinition;
    var fault := Validate(d);
    if fault.Some? {
      return Failure(GraphDefinitionFault);
    }
    ghost var deps := NodeDeps(NodesOf(d.nodes));
    ValidIsSound(d);
    RoundsIsLayered(deps);
    var emitted: seq<GraphNode> := [];
    var done: set<string> := {};
    while |done| < |d.nodes|
      invariant done <= deps.Keys && (forall n :: n in emitted ==> n in d.nodes)
      invariant Ids(emitted) + Rounds(deps, done) == Rounds(deps, {})
      decreases |d.nodes| - |done|
    {
      emitted, done := NextRound(d.nodes, emitted, done);
    }
    AllDone(deps, done);
    assert Ids(emitted) + [] == Ids(emitted);
    r := Success(emitted);
  }

  lemma ValidIsSound(d: Definition)
    requires ValidDefinition(d)
    ensures var deps := NodeDeps(NodesOf(d.nodes));
      && DistinctIds(d.nodes) && Closed(deps) && Acyclic(deps)
      && deps.Keys == Elements(Ids(d.nodes)) && |deps.Keys| == |d.nodes|
  {
    hide NodesOf;
    DictionaryOf(d.nodes);
    DistinctCount(Ids(d.nodes));
    assert NodeDeps(NodesOf(d.nodes)).Keys == Elements(Ids(d.nodes));
  }

  lemma AllDone(deps: map<string, seq<string>>, done: set<string>)
    requires done <= deps.Keys && |deps.Keys| <= |done|
    ensures Rounds(deps, done) == []
  {
    SubsetCount(done, deps.Keys);
  }

  /** The body of the loop: the ready nodes, sorted, are emitted and marked done. */
  method NextRound(nodes: seq<GraphNode>, emitted: seq<GraphNode>, done: set<string>)
    returns (emitted': seq<GraphNode>, done': set<string>)
    requires var deps := NodeDeps(NodesOf(nodes));
      DistinctIds(nodes) && Closed(deps) && Acyclic(deps) && done <= deps.Keys && |done| < |deps.Keys|
    requires forall n :: n in emitted ==> n in nodes
    ensures forall n :: n in emitted' ==> n in nodes
    ensures var deps := NodeDeps(NodesOf(nodes));
      && done' <= deps.Keys && |done| < |done'| <= |deps.Keys|
      && Ids(emitted') + Rounds(deps, done') == Ids(emitted) + Rounds(deps, done)
  {
    hide NodesOf;
    hide Acyclic;
    hide Closed;
    hide Rounds;
    hide ReadySet;
    hide NodeDeps;
    hide Elements;
    hide DistinctIds;
    ghost var deps := NodeDeps(NodesOf(nodes));
    var ready := ReadyIds(nodes, done);
    RoundGoesOn(deps, done, ready);
    KeysAreIds(nodes);
    emitted', done' := EmitRound(nodes, ready, emitted, done);
    Regroup(Ids(emitted), ready, Rounds(deps, done'));
  }

  lemma KeysAreIds(nodes: seq<GraphNode>)
    requires DistinctIds(nodes)
    ensures NodeDeps(NodesOf(nodes)).Keys == Elements(Ids(nodes))
  {
    hide NodesOf;
    DictionaryOf(nodes);
  }

  /** The inner loop: emit the round and mark it done. */
  method EmitRound(nodes: seq<GraphNode>, ready: seq<string>, emitted: seq<GraphNode>, done: set<string>)
    returns (emitted': seq<GraphNode>, done': set<string>)
    requires Elements(ready) <= Elements(Ids(nodes))
    requires forall n :: n in emitted ==> n in nodes
    ensures Ids(emitted') == Ids(emitted) + ready && done' == done + Elements(ready)
    ensures forall n :: n in emitted' ==> n in nodes
  {
    emitted', done' := emitted, done;
    for k := 0 to |ready|
      invariant Ids(emitted') == Ids(emitted) + ready[..k] && done' == done + Elements(ready[..k])
      invariant forall n :: n in emitted' ==> n in nodes
    {
      assert ready[k] in Elements(ready);
      var n := NodeNamed(nodes, ready[k]);
      emitted' := emitted' + [n];
      done' := done' + {ready[k]};
      assert ready[..k + 1] == ready[..k] + [ready[k]];
    }
    assert ready[..|ready|] == ready;
  }

  /** While nodes remain, a round emits at least one and the rest follows. */
  lemma RoundGoesOn(deps: map<string, seq<string>>, done: set<string>, ready: seq<string>)
    requires Closed(deps) && Acyclic(deps) && done <= deps.Keys && done != deps.Keys
    requires ready == SortSet(ReadySet(deps, done)) && Elements(ready) == ReadySet(deps, done)
    ensures done + Elements(ready) <= deps.Keys && |done| < |done + Elements(ready)| <= |deps.Keys|
    ensures Rounds(deps, done) == ready + Rounds(deps, done + Elements(ready))
  {
    AlwaysProgress(deps, done);
    var n :| n in ReadySet(deps, done);
    SubsetCount(done + {n}, done + Elements(ready));
    SubsetCount(done + Elements(ready), deps.Keys);
  }

  /** One round's comprehension: the ids not yet emitted whose dependencies all are, sorted. */
  method ReadyIds(nodes: seq<GraphNode>, done: set<string>) returns (ready: seq<string>)
    requires DistinctIds(nodes)
    ensures ready == SortSet(ReadySet(NodeDeps(NodesOf(nodes)), done))
    ensures Elements(ready) == ReadySet(NodeDeps(NodesOf(nodes)), done)
  {
    DictionaryOf(nodes);
    ghost var wanted := ReadySet(NodeDeps(NodesOf(nodes)), done);
    var found: seq<string> := [];
    for i := 0 to |nodes|
      invariant Distinct(found)
      invariant forall x :: x in found <==> exists k :: 0 <= k < i && nodes[k].id == x && x in wanted
    {
      assert nodes[i].id in NodesOf(nodes);
      if nodes[i].id !in done && Elements(nodes[i].blockedBy) <= done {
        assert nodes[i].id !in found;
        found := found + [nodes[i].id];
      }
    }
    forall x ensures x in found <==> x in wanted {
      if x in wanted {
        var k :| 0 <= k < |nodes| && Ids(nodes)[k] == x;
        assert nodes[k].id == x;
      }
    }
    assert Elements(found) == wanted;
    SortIsSortSet(found);
    ready := Sort(found);
  }
}
