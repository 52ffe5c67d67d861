/** What `complete_node` answers: to a receipt for a completed node, to one for a node in any other
    state, and to one that should not have been handed in; and what a completed node proves. */
module Receipts {
  import opened Base
  import opened Journal
  import opened Tasks
  import opened Records
  import opened GraphLog
  import opened Store
  import opened Projection
  import opened Runtime
  import opened GraphRules
  import opened GraphHistory
  import opened GraphPlans
  import opened GraphSafety
  import opened GraphLifecycle

  predicate IsCompletion(e: Event, gid: string, n: string, d: Digest) {
    && e.body.Graph? && e.body.graphFact.NodeCompleted?
    && e.body.graphFact.graph == gid && e.body.graphFact.node == n && e.body.graphFact.digest == d
  }

  /** A graph not created has no nodes. */
  lemma {:induction false} AbsentIsEmpty(j: seq<Event>, gid: string)
    requires GraphFold(j, gid).Success?
    ensures GraphFold(j, gid).value.status == Absent ==> GraphFold(j, gid).value == NO_GRAPH
  {
    if j != [] { AbsentIsEmpty(j[..|j| - 1], gid); }
  }

  /** A completion in the journal is for good: it is the node's receipt in every projection. */
  lemma {:induction false} CompletionStays(j: seq<Event>, gid: string, n: string, d: Digest, k: nat)
    requires GraphFold(j, gid).Success? && k < |j| && IsCompletion(j[k], gid, n, d)
    ensures var g := GraphFold(j, gid).value;
      n in g.nodes && g.nodes[n].status == Completed && g.nodes[n].receipt == Some(d)
  {
    var last := |j| - 1;
    if k < last {
      assert j[..last][k] == j[k];
      CompletionStays(j[..last], gid, n, d, k);
      AbsentIsEmpty(j[..last], gid);
    }
  }

  /** And a completed node has one. */
  lemma {:induction false} CompletionFound(j: seq<Event>, gid: string, n: string) returns (k: nat, d: Digest)
    requires GraphFold(j, gid).Success? && n in GraphFold(j, gid).value.nodes
    requires GraphFold(j, gid).value.nodes[n].status == Completed
    ensures k < |j| && IsCompletion(j[k], gid, n, d) && GraphFold(j, gid).value.nodes[n].receipt == Some(d)
  {
    var last := |j| - 1;
    var g := GraphFold(j[..last], gid).value;
    if n in g.nodes && g.nodes[n].status == Completed {
      k, d := CompletionFound(j[..last], gid, n);
      assert j[..last][k] == j[k];
      CompletionStays(j, gid, n, d, k);
    } else {
      k := last;
      if j[k].body.graphFact.GraphCreated? {
        FreshNodes(j[k].body.graphFact.nodes, n);
      }
      d := j[k].body.graphFact.digest;
    }
  }

  lemma {:induction false} FreshNodes(nodes: seq<GraphNode>, n: string)
    requires n in NodesOf(nodes)
    ensures NodesOf(nodes)[n].status == Pending
  {
    if nodes[|nodes| - 1].id != n { FreshNodes(nodes[..|nodes| - 1], n); }
  }

  /** A receipt handed in once the journal holds the completion of the node: the very receipt of
      that event is answered with the graph, any other valid one is refused, and nothing is written. */
  lemma CompletedAnswers(m: string, j: seq<Event>, gid: string, n: string, d: Digest, k: nat, r: Receipt, actor: string)
    requires Readable(j) && GraphFold(j, gid).Success? && k < |j| && IsCompletion(j[k], gid, n, d)
    requires Passing(r.material, gid, n) && r.claimed == Digest(r.material)
    ensures CompletePlan(m, j, gid, n, r, actor) ==
      Plan([], if r.claimed == d then None else Some(GraphTransitionFault))
  {
    hide GraphFold;
    hide TaskFold;
    hide Keyed;
    CompletionStays(j, gid, n, d, k);
  }

  /** A `complete_node` that goes through leaves such an event, with its receipt. */
  lemma CompletionWritten(m: string, j: seq<Event>, gid: string, n: string, r: Receipt, actor: string, now: real)
    returns (k: nat)
    requires Good(j, gid, m) && Readable(j) && CompletePlan(m, j, gid, n, r, actor).fault.None?
    ensures var j' := Extend(j, m, now, CompletePlan(m, j, gid, n, r, actor).entries);
      k < |j'| && IsCompletion(j'[k], gid, n, r.claimed)
  {
    hide GraphFold;
    hide TaskFold;
    hide RecordFold;
    hide Keyed;
    hide Generated;
    hide Sound;
    hide Linked;
    hide DepsSound;
    hide CompletePlan;
    GoodUnfold(j, gid, m);
    var plan := CompletePlan(m, j, gid, n, r, actor);
    var j' := Extend(j, m, now, plan.entries);
    CompleteGoesThrough(m, j, gid, n, r, actor);
    if plan.entries == [] {
      var d;
      k, d := CompletionFound(j, gid, n);
      ExtendNone(j, m, now);
    } else {
      k := |j'| - 1;
      var i := |plan.entries| - 1;
      assert j'[|j| + i] == Stamp(m, |j| + i + 1, now, plan.entries[i]);
    }
  }

  /** When it goes through: the node is completed with this receipt already and nothing is written, or
      the last thing written is its completion. */
  lemma CompleteGoesThrough(m: string, j: seq<Event>, gid: string, n: string, r: Receipt, actor: string)
    requires Good(j, gid, m) && Readable(j) && Healthy(j, gid) && CompletePlan(m, j, gid, n, r, actor).fault.None?
    ensures var plan, g := CompletePlan(m, j, gid, n, r, actor), GraphFold(j, gid).value;
      && n in g.nodes
      && if plan.entries == [] then g.nodes[n].status == Completed && g.nodes[n].receipt == Some(r.claimed)
         else plan.entries[|plan.entries| - 1] == CompletionEntry(actor, gid, n, r)
  {
    hide GraphFold;
    hide TaskFold;
    hide RecordFold;
    hide Keyed;
    hide Generated;
    hide Sound;
    hide Linked;
    hide DepsSound;
    hide PutPlan;
    hide UpdateTaskPlan;
    var g := GraphFold(j, gid).value;
    if n in g.nodes && Completing(gid, g, n, r) {
      if ReceiptClash(g.nodes[n], r).None? { CompletePlanned(m, j, gid, n, r, actor); }
    }
  }

  /** Completing twice: after a `complete_node` that went through, and whatever was written since, the
      same receipt is answered with the graph and any other valid one is refused. */
  lemma CompletedTwice(m: string, j: seq<Event>, gid: string, n: string, r: Receipt, actor: string, now: real,
                       later: seq<Event>, other: Receipt, again: string)
    requires Good(j, gid, m) && Readable(j) && CompletePlan(m, j, gid, n, r, actor).fault.None?
    requires Good(later, gid, m) && Readable(later)
    requires Extend(j, m, now, CompletePlan(m, j, gid, n, r, actor).entries) <= later
    requires Passing(other.material, gid, n) && other.claimed == Digest(other.material)
    ensures CompletePlan(m, later, gid, n, r, again) == Plan([], None)
    ensures CompletePlan(m, later, gid, n, other, again) ==
      Plan([], if other.claimed == r.claimed then None else Some(GraphTransitionFault))
  {
    hide GraphFold;
    hide TaskFold;
    hide RecordFold;
    hide Keyed;
    hide Generated;
    hide Sound;
    hide Linked;
    hide DepsSound;
    hide IsCompletion;
    GoodUnfold(later, gid, m);
    ValidOnly(m, j, gid, n, r, actor);
    var k := CompletionWritten(m, j, gid, n, r, actor, now);
    CompletedAnswers(m, later, gid, n, r.claimed, k, r, again);
    CompletedAnswers(m, later, gid, n, r.claimed, k, other, again);
  }

  lemma ValidOnly(m: string, j: seq<Event>, gid: string, n: string, r: Receipt, actor: string)
    requires Readable(j) && CompletePlan(m, j, gid, n, r, actor).fault.None?
    ensures Passing(r.material, gid, n) && r.claimed == Digest(r.material)
  {
    hide GraphFold;
    hide TaskFold;
  }

  /** Every other answer.  A receipt that is not this node's, did not pass, shows no evidence or
      does not match its digest is refused as a receipt, and so is one by another actor than
      the owner; an unknown node and one that is pending or failed are refused as a transition.
      None of these calls writes anything. */
  lemma RefusedReceipts(m: string, j: seq<Event>, gid: string, n: string, r: Receipt, actor: string)
    requires Readable(j) && GraphFold(j, gid).Success?
    ensures var g, plan := GraphFold(j, gid).value, CompletePlan(m, j, gid, n, r, actor);
      if r.material.schema != "mcf_graph_node_receipt/v1" || r.material.graph != gid || r.material.node != n
         || r.material.status != "PASS" || r.material.evidence == [] || r.claimed != Digest(r.material) then
        plan == Plan([], Some(GraphReceiptFault))
      else if n !in g.nodes then plan == Plan([], Some(GraphTransitionFault))
      else if g.nodes[n].status == Pending || g.nodes[n].status == Failed then
        plan == Plan([], Some(GraphTransitionFault))
      else
        g.nodes[n].status == Running && g.nodes[n].owner != Some(r.material.actor) ==>
          plan == Plan([], Some(GraphReceiptFault))
  {
    hide GraphFold;
    hide TaskFold;
  }

  /** A second receipt, other than the pending one, past every check: it is written all the same, and
      the call raises only when it reads the graph again. */
  lemma SecondReceiptRaises(m: string, j: seq<Event>, gid: string, n: string, r: Receipt, actor: string)
    requires Good(j, gid, m) && m != "" && actor != "" && Readable(j) && Healthy(j, gid)
    requires Passing(r.material, gid, n) && r.claimed == Digest(r.material)
    requires n in GraphFold(j, gid).value.nodes
    requires var node := GraphFold(j, gid).value.nodes[n];
      && node.status == Running && node.owner == Some(r.material.actor)
      && node.pending.Some? && node.pending.value != r.claimed
    requires NodeTask(gid, n) in TaskFold(j).value.tasks
    ensures var t, plan := TaskFold(j).value.tasks[NodeTask(gid, n)], CompletePlan(m, j, gid, n, r, actor);
      if t.status.TaskLeased? || t.status.TaskCompleted? then
        plan.fault == Some(GraphReplayRejected) && |plan.entries| == if t.status.TaskLeased? then 3 else 2
      else plan.fault == Some(GraphTransitionFault) && |plan.entries| == 1
  {
    hide GraphFold;
    hide TaskFold;
    hide Generated;
    hide Sound;
    hide DepsSound;
    hide UpdateTaskPlan;
    hide Readable;
    assert NodeLinked(gid, GraphFold(j, gid).value, TaskFold(j).value.tasks, n);
    ReceiptFresh(m, j, gid, n, r, actor);
    CompletionFresh(m, j, gid, n, r, actor);
    UpdatePlanned(j, gid, actor, NodeTask(gid, n), ReleaseChanges(TaskCompleted));
  }

  lemma CompletionFresh(m: string, j: seq<Event>, gid: string, n: string, r: Receipt, actor: string)
    requires Readable(j) && GraphFold(j, gid).Success? && m != "" && actor != ""
    requires n in GraphFold(j, gid).value.nodes && GraphFold(j, gid).value.nodes[n].status == Running
    ensures PutPlan(m, j, CompletionEntry(actor, gid, n, r)) == Plan([CompletionEntry(actor, gid, n, r)], None)
  {
    UnusedGraphKey(j, gid, NodeCompleteKey(gid, n, r.claimed));
  }

  /** What a completed node proves: its receipt passed, is for this node of this graph, shows evidence,
      and was made by the worker the node was started for. */
  lemma CompletedWithReceipt(j: seq<Event>, gid: string, n: string)
    requires Generated(j, gid) && Healthy(j, gid)
    requires n in GraphFold(j, gid).value.nodes && GraphFold(j, gid).value.nodes[n].status == Completed
    ensures var node := GraphFold(j, gid).value.nodes[n];
      && node.receipt.Some?
      && var r := node.receipt.value.material;
         && r.schema == "mcf_graph_node_receipt/v1" && r.graph == gid && r.node == n && r.status == "PASS"
         && r.evidence != [] && node.owner == Some(r.actor)
  {
    hide Generated;
    hide DepsSound;
    hide GraphFold;
    hide TaskFold;
    assert NodeLinked(gid, GraphFold(j, gid).value, TaskFold(j).value.tasks, n);
    PendingKnown(j, gid, n, GraphFold(j, gid).value.nodes[n].receipt.value);
  }

  /** In every run. */
  lemma EveryRunReceipted(m: string, gid: string, turns: seq<GraphLifecycle.Turn>, states: seq<seq<Event>>, i: nat,
                          n: string)
    requires GraphLifecycle.IsRun(m, gid, turns, states) && i <= |turns|
    ensures GraphFold(states[i], gid).Success?
    ensures var g := GraphFold(states[i], gid).value;
      n in g.nodes && g.nodes[n].status == Completed ==>
        && g.nodes[n].receipt.Some?
        && var r := g.nodes[n].receipt.value.material;
           && r.schema == "mcf_graph_node_receipt/v1" && r.graph == gid && r.node == n && r.status == "PASS"
           && r.evidence != [] && g.nodes[n].owner == Some(r.actor)
  {
    hide GraphFold;
    hide TaskFold;
    hide Generated;
    hide Good;
    hide Linked;
    hide DepsSound;
    EveryRunGood(m, gid, turns, states, i);
    GoodUnfold(states[i], gid, m);
    GeneratedOf(states[i], gid, m);
    var g := GraphFold(states[i], gid).value;
    if n in g.nodes && g.nodes[n].status == Completed { CompletedWithReceipt(states[i], gid, n); }
  }
}
