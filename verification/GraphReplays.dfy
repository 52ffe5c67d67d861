/** What `replay_graph` accepts, said of the events alone: in every journal it does not reject, whoever
    wrote it, each event of the graph has behind it the events it needs and none it excludes. */
module GraphReplays {
  import opened Base
  import opened Journal
  import opened GraphLog

  datatype Trace =
    | Creation | Beginning | Ending
    | StartOf(node: string) | ProofOf(node: string, digest: Digest) | DoneWith(node: string) | LossOf(node: string)

  predicate Shows(b: Body, gid: string, t: Trace) { b.Graph? && b.graphFact.graph == gid && TraceOf(b.graphFact) == t }

  function TraceOf(f: GraphFact): Trace {
    match f
    case GraphCreated(_, _) => Creation
    case GraphStarted(_) => Beginning
    case NodeStarted(_, n, _, _) => StartOf(n)
    case NodeReceipt(_, n, d, _, _) => ProofOf(n, d)
    case NodeCompleted(_, n, _, _) => DoneWith(n)
    case NodeFailed(_, n, _) => LossOf(n)
    case GraphCompleted(_) => Ending
    case GraphFailed(_, _) => Ending
  }

  ghost predicate Seen(j: seq<Event>, gid: string, t: Trace) {
    exists i :: 0 <= i < |j| && Shows(j[i].body, gid, t)
  }

  lemma SeenSnoc(j: seq<Event>, e: Event, gid: string)
    ensures forall t :: Seen(j + [e], gid, t) <==> Seen(j, gid, t) || Shows(e.body, gid, t)
  {
    forall t ensures Seen(j + [e], gid, t) <==> Seen(j, gid, t) || Shows(e.body, gid, t) {
      var j' := j + [e];
      if Seen(j, gid, t) {
        var i :| 0 <= i < |j| && Shows(j[i].body, gid, t);
        assert j'[i] == j[i];
      }
      assert j'[|j|] == e;
    }
  }

  /** How the projection tells what the journal holds: of the graph, and of a node. */
  ghost predicate GraphTold(j: seq<Event>, gid: string, g: GraphView) {
    && (g.status == Absent ==> g.nodes == map[])
    && (Seen(j, gid, Creation) <==> g.status != Absent)
    && (Seen(j, gid, Beginning) ==> g.status != Absent && g.status != Created)
    && (g.status == Running || g.status == Completed ==> Seen(j, gid, Beginning))
    && (Seen(j, gid, Ending) <==> g.status == Completed || g.status == Failed)
    && g.status != Pending
  }

  ghost predicate NodeTold(j: seq<Event>, gid: string, g: GraphView, n: string) {
    && (Seen(j, gid, StartOf(n)) <==> n in g.nodes && g.nodes[n].status != Pending)
    && (forall d :: Seen(j, gid, ProofOf(n, d)) <==> n in g.nodes && g.nodes[n].pending == Some(d))
    && (Seen(j, gid, DoneWith(n)) <==> n in g.nodes && g.nodes[n].status == Completed)
    && (Seen(j, gid, LossOf(n)) <==> n in g.nodes && g.nodes[n].status == Failed)
    && (n in g.nodes ==> g.nodes[n].status != Absent && g.nodes[n].status != Created)
  }

  ghost predicate Told(j: seq<Event>, gid: string, g: GraphView) {
    GraphTold(j, gid, g) && forall n :: NodeTold(j, gid, g, n)
  }

  lemma {:induction false} AllTold(j: seq<Event>, gid: string)
    requires GraphFold(j, gid).Success?
    ensures Told(j, gid, GraphFold(j, gid).value)
  {
    hide Told;
    if j == [] {
      NothingTold(gid);
    } else {
      var k := |j| - 1;
      AllTold(j[..k], gid);
      assert j == j[..k] + [j[k]];
      ToldSnoc(j[..k], j[k], gid, GraphFold(j[..k], gid).value);
    }
  }

  lemma NothingTold(gid: string)
    ensures Told([], gid, NO_GRAPH)
  {
  }

  lemma ToldSnoc(j: seq<Event>, e: Event, gid: string, g: GraphView)
    requires Told(j, gid, g) && GraphStep(gid, g, e.body).Success?
    ensures Told(j + [e], gid, GraphStep(gid, g, e.body).value)
  {
    hide Seen;
    hide NodeTold;
    hide GraphStep;
    GraphToldSnoc(j, e, gid, g);
    forall n ensures NodeTold(j + [e], gid, GraphStep(gid, g, e.body).value, n) {
      assert NodeTold(j, gid, g, n);
      NodeToldSnoc(j, e, gid, g, n);
    }
  }

  lemma GraphToldSnoc(j: seq<Event>, e: Event, gid: string, g: GraphView)
    requires GraphTold(j, gid, g) && GraphStep(gid, g, e.body).Success?
    ensures GraphTold(j + [e], gid, GraphStep(gid, g, e.body).value)
  {
    hide Seen;
    SeenSnoc(j, e, gid);
  }

  lemma NodeToldSnoc(j: seq<Event>, e: Event, gid: string, g: GraphView, n: string)
    requires GraphTold(j, gid, g) && NodeTold(j, gid, g, n) && GraphStep(gid, g, e.body).Success?
    ensures NodeTold(j + [e], gid, GraphStep(gid, g, e.body).value, n)
  {
    hide Seen;
    SeenSnoc(j, e, gid);
    if Concerns(e.body, gid) && e.body.graphFact.GraphCreated? && n in NodesOf(e.body.graphFact.nodes) {
      FreshNodes(e.body.graphFact.nodes, n);
    }
  }

  lemma {:induction false} FreshNodes(nodes: seq<GraphNode>, n: string)
    requires n in NodesOf(nodes)
    ensures NodesOf(nodes)[n].status == Pending && NodesOf(nodes)[n].pending.None?
  {
    if nodes[|nodes| - 1].id != n { FreshNodes(nodes[..|nodes| - 1], n); }
  }

  /** What an event of the graph has behind it: what it needs, and nothing it excludes. */
  ghost predicate Behind(j: seq<Event>, gid: string, f: GraphFact) {
    && (f.GraphCreated? ==> !Seen(j, gid, Creation))
    && (f.GraphStarted? ==> Seen(j, gid, Creation) && !Seen(j, gid, Beginning) && !Seen(j, gid, Ending))
    && (f.NodeStarted? ==>
          Seen(j, gid, Beginning) && !Seen(j, gid, Ending) && !Seen(j, gid, StartOf(f.node)))
    && (f.NodeReceipt? ==>
          && Seen(j, gid, StartOf(f.node)) && !Seen(j, gid, DoneWith(f.node)) && !Seen(j, gid, LossOf(f.node))
          && forall other :: Seen(j, gid, ProofOf(f.node, other)) ==> other == f.digest)
    && (f.NodeCompleted? ==>
          && Seen(j, gid, StartOf(f.node)) && Seen(j, gid, ProofOf(f.node, f.digest))
          && !Seen(j, gid, DoneWith(f.node)) && !Seen(j, gid, LossOf(f.node)))
    && (f.NodeFailed? ==>
          Seen(j, gid, StartOf(f.node)) && !Seen(j, gid, DoneWith(f.node)) && !Seen(j, gid, LossOf(f.node)))
    && (f.GraphCompleted? ==> Seen(j, gid, Beginning) && !Seen(j, gid, Ending))
    && (f.GraphFailed? ==> Seen(j, gid, Creation) && !Seen(j, gid, Ending))
  }

  /** After a journal that replays, one more event of the graph is accepted if and only if it has the
      right ones behind it, starts a node the graph has, and completes the graph after all nodes. */
  lemma ReplayedExactly(j: seq<Event>, gid: string, e: Event)
    requires GraphFold(j, gid).Success? && Concerns(e.body, gid)
    ensures var f, nodes := e.body.graphFact, GraphFold(j, gid).value.nodes;
      GraphFold(j + [e], gid).Success? <==>
        && Behind(j, gid, f)
        && (f.NodeStarted? ==> f.node in nodes)
        && (f.GraphCompleted? ==> forall n :: n in nodes ==> Seen(j, gid, DoneWith(n)))
  {
    hide Seen;
    hide NodeTold;
    hide GraphApply;
    hide Behind;
    AllTold(j, gid);
    GraphFoldAppend(j, gid, e);
    var f, g := e.body.graphFact, GraphFold(j, gid).value;
    forall n | n in g.nodes ensures Seen(j, gid, DoneWith(n)) <==> g.nodes[n].status == Completed {
      assert NodeTold(j, gid, g, n);
      DoneTold(j, gid, g, n);
    }
    StepExactly(j, gid, g, f);
  }

  lemma DoneTold(j: seq<Event>, gid: string, g: GraphView, n: string)
    requires NodeTold(j, gid, g, n) && n in g.nodes
    ensures Seen(j, gid, DoneWith(n)) <==> g.nodes[n].status == Completed
  {
  }

  lemma StepExactly(j: seq<Event>, gid: string, g: GraphView, f: GraphFact)
    requires Told(j, gid, g)
    ensures GraphApply(g, f).Success? <==>
      && Behind(j, gid, f)
      && (f.NodeStarted? ==> f.node in g.nodes)
      && (f.GraphCompleted? ==> forall n :: n in g.nodes ==> g.nodes[n].status == Completed)
  {
    hide Seen;
    if f.NodeStarted? || f.NodeReceipt? || f.NodeCompleted? || f.NodeFailed? { assert NodeTold(j, gid, g, f.node); }
  }

  /** So the event at `k` of any journal that replays has them. */
  lemma ReplayedInOrder(j: seq<Event>, gid: string, k: nat)
    requires GraphFold(j, gid).Success? && k < |j| && Concerns(j[k].body, gid)
    ensures Behind(j[..k], gid, j[k].body.graphFact)
  {
    hide Behind;
    GraphFoldPrefix(j, gid, k);
    GraphFoldPrefix(j, gid, k + 1);
    assert j[..k + 1] == j[..k] + [j[k]];
    ReplayedExactly(j[..k], gid, j[k]);
  }

  ghost predicate Has(j: seq<Event>, f: GraphFact) {
    exists i :: 0 <= i < |j| && j[i].body == Graph(f)
  }

  lemma HasSnoc(j: seq<Event>, e: Event)
    ensures forall f :: Has(j + [e], f) <==> Has(j, f) || e.body == Graph(f)
  {
    var j' := j + [e];
    forall f ensures Has(j', f) <==> Has(j, f) || e.body == Graph(f) {
      if Has(j, f) {
        var i :| 0 <= i < |j| && j[i].body == Graph(f);
        assert j'[i] == j[i];
      }
      assert j'[|j|] == e;
    }
  }

  /** What the projection shows of a node is what its events say: its definition, the worker and the lease
      of its start, the receipt, and the error. */
  ghost predicate FieldsTold(j: seq<Event>, gid: string, n: string, node: NodeState) {
    && (exists nodes ::
          && Has(j, GraphCreated(gid, nodes)) && n in NodesOf(nodes)
          && NodesOf(nodes)[n].subject == node.subject && NodesOf(nodes)[n].blockedBy == node.blockedBy
          && NodesOf(nodes)[n].kind == node.kind)
    && (node.status != Pending ==>
          && node.owner.Some? && node.lease.Some?
          && Has(j, NodeStarted(gid, n, node.owner.value, node.lease.value)))
    && (node.pending.Some? ==>
          && node.receiptActor.Some?
          && Has(j, NodeReceipt(gid, n, node.pending.value, node.pendingEvidence, node.receiptActor.value)))
    && (node.status == Completed ==> node.receipt.Some? && node.receipt == node.pending)
    && (node.status == Failed ==> node.error.Some? && Has(j, NodeFailed(gid, n, node.error.value)))
  }

  lemma {:induction false} FieldsFromEvents(j: seq<Event>, gid: string, n: string)
    requires GraphFold(j, gid).Success? && n in GraphFold(j, gid).value.nodes
    ensures FieldsTold(j, gid, n, GraphFold(j, gid).value.nodes[n])
  {
    hide FieldsTold;
    hide Told;
    hide GraphStep;
    var k := |j| - 1;
    var g := GraphFold(j[..k], gid).value;
    assert j == j[..k] + [j[k]];
    AllTold(j[..k], gid);
    if n in g.nodes { FieldsFromEvents(j[..k], gid, n); }
    FieldsSnoc(j[..k], j[k], gid, g, n);
  }

  lemma FieldsSnoc(j: seq<Event>, e: Event, gid: string, g: GraphView, n: string)
    requires Told(j, gid, g) && (n in g.nodes ==> FieldsTold(j, gid, n, g.nodes[n]))
    requires GraphStep(gid, g, e.body).Success? && n in GraphStep(gid, g, e.body).value.nodes
    ensures FieldsTold(j + [e], gid, n, GraphStep(gid, g, e.body).value.nodes[n])
  {
    hide Has;
    hide Seen;
    HasSnoc(j, e);
    if n in g.nodes {
      var nodes :| Has(j, GraphCreated(gid, nodes)) && n in NodesOf(nodes)
        && NodesOf(nodes)[n].subject == g.nodes[n].subject && NodesOf(nodes)[n].blockedBy == g.nodes[n].blockedBy
        && NodesOf(nodes)[n].kind == g.nodes[n].kind;
      assert Has(j + [e], GraphCreated(gid, nodes));
    } else {
      FreshNodes(e.body.graphFact.nodes, n);
    }
  }
}
