/** `_materialize_tasks` taken one node at a time, and the definition read back from a projection. */
module MaterialSteps {
  import opened Base
  import opened Digraph
  import opened Journal
  import opened Tasks
  import opened GraphLog
  import opened Store
  import opened GraphRules
  import opened GraphPlans
  import opened GraphLifecycle
  import opened GraphDefinitions

  /** The step of the loop for the node at position `i`. */
  lemma NodeByNode(gid: string, nodes: map<string, NodeState>, v: TaskView, order: seq<string>, i: nat, actor: string)
    requires i < |order| && order[i] in nodes && Materializing(gid, nodes, v, order[..i], actor).plan.fault.None?
    ensures var n := order[i];
      Materializing(gid, nodes, v, order[..i + 1], actor)
        == MaterialStep(gid, Materializing(gid, nodes, v, order[..i], actor), n, nodes[n].subject, nodes[n].blockedBy,
          actor)
  {
    hide MaterialStep;
    assert order[..i + 1][..i] == order[..i];
  }

  /** What the loop wrote so far it has written in the end, and its first exception is its last. */
  lemma {:induction false} MaterialOn(gid: string, nodes: map<string, NodeState>, v: TaskView, order: seq<string>,
                                      i: nat, actor: string)
    returns (more: seq<Entry>)
    requires i <= |order|
    ensures var part, whole := Materializing(gid, nodes, v, order[..i], actor).plan,
      Materializing(gid, nodes, v, order, actor).plan;
      && whole.entries == part.entries + more
      && (part.fault.Some? ==> whole == part)
    decreases |order| - i
  {
    hide MaterialStep;
    if i == |order| {
      assert order[..i] == order;
      more := [];
    } else {
      var rest := MaterialOn(gid, nodes, v, order, i + 1, actor);
      assert order[..i + 1][..i] == order[..i];
      var part, n := Materializing(gid, nodes, v, order[..i], actor), order[i];
      if part.plan.fault.None? && n in nodes {
        var step := StepOn(gid, part, n, nodes[n].subject, nodes[n].blockedBy, actor);
        more := step + rest;
      } else {
        more := rest;
      }
    }
  }

  lemma StepOn(gid: string, earlier: Material, n: string, subject: string, blockedBy: seq<string>, actor: string)
    returns (more: seq<Entry>)
    ensures MaterialStep(gid, earlier, n, subject, blockedBy, actor).plan.entries == earlier.plan.entries + more
  {
    hide DepsSound;
    var next := MaterialStep(gid, earlier, n, subject, blockedBy, actor);
    more := next.plan.entries[|earlier.plan.entries|..];
  }

  lemma {:induction false} MaterialIsTasks(gid: string, nodes: map<string, NodeState>, v: TaskView, order: seq<string>,
                                           actor: string)
    ensures forall e :: e in Materializing(gid, nodes, v, order, actor).plan.entries ==> e.key.OfTask? && e.body.Task?
    ensures Materializing(gid, nodes, v, order, actor).plan.fault != Some(Crashed)
  {
    hide DepsSound;
    if order != [] { MaterialIsTasks(gid, nodes, v, order[..|order| - 1], actor); }
  }

  /** Task events leave every graph as it was. */
  lemma {:induction false} TasksLeaveGraph(m: string, j: seq<Event>, gid: string, now: real, entries: seq<Entry>)
    requires forall e :: e in entries ==> e.body.Task?
    ensures GraphFold(Extend(j, m, now, entries), gid) == GraphFold(j, gid)
  {
    hide GraphFold;
    if entries == [] {
      ExtendNone(j, m, now);
    } else {
      var k := |entries| - 1;
      TasksLeaveGraph(m, j, gid, now, entries[..k]);
      assert entries == entries[..k] + [entries[k]];
      ExtendSnoc(j, m, now, entries[..k], entries[k]);
      var before := Extend(j, m, now, entries[..k]);
      GraphFoldAppend(before, gid, Stamp(m, |before| + 1, now, entries[k]));
    }
  }

  /** `_definition_from_projection`. */
  function NodesFrom(g: GraphView): (r: seq<GraphNode>)
    requires forall n :: n in g.order ==> n in g.nodes
    ensures |r| == |g.order|
    ensures forall i :: 0 <= i < |r| ==>
      r[i] == GraphNode(g.order[i], g.nodes[g.order[i]].subject, g.nodes[g.order[i]].blockedBy,
        g.nodes[g.order[i]].kind)
  {
    seq(|g.order|, i requires 0 <= i < |g.order| =>
      GraphNode(g.order[i], g.nodes[g.order[i]].subject, g.nodes[g.order[i]].blockedBy, g.nodes[g.order[i]].kind))
  }

  /** The definition read back from a projection is the graph's own, and valid if and only if the
      graph is: whoever wrote the journal. */
  lemma BackAndForth(gid: string, g: GraphView)
    requires Distinct(g.order) && forall n :: n in g.order <==> n in g.nodes
    ensures ValidDefinition(Definition(gid, NodesFrom(g), GRAPH_SCHEMA)) <==> ValidGraph(gid, g)
    ensures Defines(NodesOf(NodesFrom(g)), g)
  {
    hide NodesOf;
    hide Closed;
    hide Acyclic;
    var nodes := NodesFrom(g);
    DictionaryOf(nodes);
    assert Ids(nodes) == g.order;
    forall n | n in g.nodes
      ensures NodesOf(nodes)[n].subject == g.nodes[n].subject && NodesOf(nodes)[n].blockedBy == g.nodes[n].blockedBy {
      assert n in g.order;
      var i :| 0 <= i < |g.order| && g.order[i] == n;
      assert NodesOf(nodes)[nodes[i].id] == FreshNode(nodes[i]);
    }
    assert NodeDeps(NodesOf(nodes)) == NodeDeps(g.nodes);
    NamesAgree(g);
  }

  lemma NamesAgree(g: GraphView)
    requires forall n :: n in g.order <==> n in g.nodes
    ensures NodesFrom(g) == [] <==> g.nodes == map[]
    ensures (forall i :: 0 <= i < |NodesFrom(g)| ==> NodesFrom(g)[i].id != "") <==> "" !in g.nodes
  {
    var nodes := NodesFrom(g);
    if g.order != [] { assert g.order[0] in g.order && g.order[0] in g.nodes; }
    if "" in g.nodes {
      var i :| 0 <= i < |g.order| && g.order[i] == "";
      assert nodes[i].id == "";
    }
    if g.nodes != map[] {
      var n :| n in g.nodes;
      assert n in g.order;
    }
  }

  lemma {:induction false} SameMaterial(gid: string, a: map<string, NodeState>, b: map<string, NodeState>, v: TaskView,
                                        order: seq<string>, actor: string)
    requires a.Keys == b.Keys && forall n :: n in a ==> a[n].subject == b[n].subject && a[n].blockedBy == b[n].blockedBy
    ensures Materializing(gid, a, v, order, actor) == Materializing(gid, b, v, order, actor)
  {
    hide MaterialStep;
    if order != [] { SameMaterial(gid, a, b, v, order[..|order| - 1], actor); }
  }

  lemma SameMaterialPlan(gid: string, a: map<string, NodeState>, b: map<string, NodeState>, v: TaskView, actor: string)
    requires a.Keys == b.Keys && forall n :: n in a ==> a[n].subject == b[n].subject && a[n].blockedBy == b[n].blockedBy
    ensures MaterialPlan(gid, a, v, actor) == MaterialPlan(gid, b, v, actor)
  {
    hide Materializing;
    assert NodeDeps(a) == NodeDeps(b);
    SameMaterial(gid, a, b, v, Rounds(NodeDeps(a), {}), actor);
  }

  /** The dictionary entry of a listed node. */
  lemma ListedNode(nodes: seq<GraphNode>, node: GraphNode)
    requires DistinctIds(nodes) && node in nodes
    ensures node.id in NodesOf(nodes) && NodesOf(nodes)[node.id] == FreshNode(node)
  {
    hide NodesOf;
    DictionaryOf(nodes);
    var i :| 0 <= i < |nodes| && nodes[i] == node;
    assert NodesOf(nodes)[nodes[i].id] == FreshNode(node);
  }

  /** After the creation event was written, or found, the graph can be read if it could be before. */
  lemma ReadAfterCreation(m: string, j: seq<Event>, gid: string, nodes: seq<GraphNode>, actor: string, now: real)
    requires GraphKeyed(j)
    requires PutPlan(m, j, GraphEntry(actor, GraphCreated(gid, nodes))).fault.None?
    ensures var put := PutPlan(m, j, GraphEntry(actor, GraphCreated(gid, nodes)));
      GraphFold(Extend(j, m, now, put.entries), gid).Success? <==> GraphFold(j, gid).Success?
  {
    hide GraphFold;
    hide NodesOf;
    hide OrderOf;
    var e := GraphEntry(actor, GraphCreated(gid, nodes));
    ExtendNone(j, m, now);
    ExtendOne(j, m, now, e);
    GraphFoldAppend(j, gid, Stamp(m, |j| + 1, now, e));
    if Unused(j, e.key) && GraphFold(j, gid).Success? { NeverCreated(j, gid); }
  }
}
