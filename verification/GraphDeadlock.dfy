/** When a running graph has a node to lease, and when it is stuck. */
module GraphDeadlock {
  import opened Base
  import opened Digraph
  import opened Journal
  import opened Tasks
  import opened Records
  import opened GraphLog
  import opened Store
  import opened Projection
  import opened Runtime
  import opened GraphRules
  import opened GraphHistory
  import opened GraphPlans
  import opened GraphSafety
  import opened GraphRepair
  import opened GraphLifecycle

  function Remaining(g: GraphView): set<string> {
    set n | n in g.nodes && g.nodes[n].status != Completed
  }

  /** A node that is left, with no node left among its dependencies. */
  ghost predicate Source(g: GraphView, n: string) {
    n in Remaining(g) && forall d :: DependsOn(NodeDeps(g.nodes), n, d) ==> d !in Remaining(g)
  }

  /** The node's lease was taken without its start, and `reconcile` cannot tell by whom. */
  predicate Held(gid: string, g: GraphView, tasks: TaskMap, n: string) {
    StartMissing(gid, g, tasks, n) && !Attributed(tasks[NodeTask(gid, n)])
  }

  /** No node runs and none failed. */
  predicate AtRest(g: GraphView) {
    forall n :: n in g.nodes ==> g.nodes[n].status != Running && g.nodes[n].status != Failed
  }

  /** In a running graph that `reconcile` left, what is left without dependencies left is ready
      unless it is held. */
  lemma SourceIsReady(gid: string, g: GraphView, tasks: TaskMap, n: string)
    requires Linked(gid, g, tasks) && g.status == Running && Settled(gid, g, tasks) && AtRest(g)
    ensures Source(g, n) ==> (Ready(gid, g, tasks, n) <==> !Held(gid, g, tasks, n))
    ensures Ready(gid, g, tasks, n) ==> Source(g, n)
  {
    assert NodeLinked(gid, g, tasks, n) && !StartsHere(gid, g, tasks, n);
    if Source(g, n) {
      var deps := g.nodes[n].blockedBy;
      forall i | 0 <= i < |deps|
        ensures NodeTask(gid, deps[i]) in tasks && tasks[NodeTask(gid, deps[i])].status.TaskCompleted?
      {
        assert DependsOn(NodeDeps(g.nodes), n, deps[i]);
        assert NodeLinked(gid, g, tasks, deps[i]);
      }
    } else if Ready(gid, g, tasks, n) {
      forall d | DependsOn(NodeDeps(g.nodes), n, d) ensures d !in Remaining(g) {
        assert NodeLinked(gid, g, tasks, d);
      }
    }
  }

  /** Such a graph has no ready node if and only if every node that could come next is held; and as
      long as a node is left, one could come next. */
  lemma NoDeadlock(gid: string, g: GraphView, tasks: TaskMap)
    requires Linked(gid, g, tasks) && g.status == Running && Settled(gid, g, tasks) && AtRest(g)
    ensures ReadyNodes(gid, g, tasks).Success?
    ensures ReadyNodes(gid, g, tasks).value == [] <==> forall n :: Source(g, n) ==> Held(gid, g, tasks, n)
    ensures Remaining(g) != {} ==> exists n :: Source(g, n)
  {
    hide Linked;
    hide Settled;
    hide AtRest;
    hide Ready;
    hide Source;
    hide Held;
    hide ReadyNodes;
    ReadyNodesExact(gid, g, tasks);
    var ready := ReadyNodes(gid, g, tasks).value;
    forall n ensures Source(g, n) && !Held(gid, g, tasks, n) ==> n in ready
    ensures n in ready ==> Source(g, n) && !Held(gid, g, tasks, n) {
      SourceIsReady(gid, g, tasks, n);
    }
    if ready != [] { assert ready[0] in ready; }
    if Remaining(g) != {} { var n := SomeSource(gid, g, tasks); }
  }

  lemma SomeSource(gid: string, g: GraphView, tasks: TaskMap) returns (n: string)
    requires Linked(gid, g, tasks) && Remaining(g) != {}
    ensures Source(g, n)
  {
    n := Minimal(NodeDeps(g.nodes), Remaining(g));
  }

  /** An event that leases a task of the graph names a worker and a lease. */
  predicate NamesLease(gid: string, b: Body) {
    b.Task? && b.taskFact.TaskUpdated? && b.taskFact.task.NodeTask? && b.taskFact.task.graph == gid
    && b.taskFact.changes.status == Some(TaskLeased) ==>
      var c := b.taskFact.changes;
      && c.owner.Some? && c.owner.value.Some? && c.owner.value.value != ""
      && c.lease.Some? && c.lease.value.Some? && c.lease.value.value != ""
  }

  ghost predicate NamesLeases(j: seq<Event>, gid: string) {
    forall i :: 0 <= i < |j| ==> NamesLease(gid, j[i].body)
  }

  ghost predicate NoneHeld(gid: string, g: GraphView, tasks: TaskMap) {
    forall n :: !Held(gid, g, tasks, n)
  }

  ghost predicate LeasesAttributed(gid: string, tasks: TaskMap) {
    forall n :: NodeTask(gid, n) in tasks && tasks[NodeTask(gid, n)].status.TaskLeased? ==>
      Attributed(tasks[NodeTask(gid, n)])
  }

  /** Journals whose leases are named show named leases. */
  lemma {:induction false} NamedLeasesShow(j: seq<Event>, gid: string)
    requires Generated(j, gid) && NamesLeases(j, gid)
    ensures Healthy(j, gid) && LeasesAttributed(gid, TaskFold(j).value.tasks)
  {
    hide DepsSound;
    hide Linked;
    GeneratedHealthy(j, gid);
    if j != [] {
      var k := |j| - 1;
      GeneratedPrefix(j, gid, k);
      NamedLeasesShow(j[..k], gid);
      assert EnabledAt(j[..k], gid, j[k].body) && NamesLease(gid, j[k].body);
      NamedStep(gid, GraphFold(j[..k], gid).value, TaskFold(j[..k]).value, j[k].body);
    }
  }

  lemma NamedStep(gid: string, g: GraphView, v: TaskView, b: Body)
    requires LeasesAttributed(gid, v.tasks) && Enabled(gid, g, v, b) && NamesLease(gid, b) && TaskStep(v, b).Success?
    ensures LeasesAttributed(gid, TaskStep(v, b).value.tasks)
  {
    var tasks' := TaskStep(v, b).value.tasks;
    forall n | NodeTask(gid, n) in tasks' && tasks'[NodeTask(gid, n)].status.TaskLeased?
      ensures Attributed(tasks'[NodeTask(gid, n)]) {
      if NodeTask(gid, n) in v.tasks && tasks'[NodeTask(gid, n)] == v.tasks[NodeTask(gid, n)] {
        assert Attributed(v.tasks[NodeTask(gid, n)]);
      }
    }
  }

  /** The condition a caller of `lease_node` can check. */
  predicate NamedTurn(t: GraphLifecycle.Turn) {
    t.op.LeaseOp? ==> t.op.worker != "" && t.op.lease != ""
  }

  lemma EntriesNamed(m: string, j: seq<Event>, gid: string, t: GraphLifecycle.Turn, e: Entry)
    requires Readable(j) && Allowed(m, j, gid, t.op, t.now) && NamedTurn(t)
    requires e in OperationEntries(m, j, gid, t.op, t.actor, t.now)
    ensures NamesLease(gid, e.body)
  {
    hide TaskFold;
    hide GraphFold;
    hide RecordFold;
    hide Keyed;
    hide DepsSound;
    hide Admissible;
    hide ReadyNodes;
    hide PutPlan;
    PutsOnly(m, j);
    match t.op {
      case CreateOp(d) =>
        MaterialNamed(gid, NodesOf(d.nodes), TaskFold(j).value, Rounds(NodeDeps(NodesOf(d.nodes)), {}), t.actor);
      case StartOp =>
        if GraphFold(j, gid).Success? {
          var nodes := GraphFold(j, gid).value.nodes;
          MaterialNamed(gid, nodes, TaskFold(j).value, Rounds(NodeDeps(nodes), {}), t.actor);
        }
      case ReconcileOp =>
        if GraphFold(j, gid).Success? { RepairsNamed(gid, GraphFold(j, gid).value, TaskFold(j).value.tasks,
          GraphFold(j, gid).value.order, t.actor); }
      case RecoverOp => ReleasesNamed(gid, TaskFold(j).value.tasks, TaskFold(j).value.order, t.now, t.actor);
      case ElsewhereOp(entries) => assert !Own(gid, e.body);
      case _ =>
    }
  }

  lemma PutsOnly(m: string, j: seq<Event>)
    ensures forall asked, e :: e in PutPlan(m, j, asked).entries ==> e == asked
  {
  }

  lemma {:induction false} MaterialNamed(gid: string, nodes: map<string, NodeState>, v: TaskView, order: seq<string>,
                                         actor: string)
    ensures forall e :: e in Materializing(gid, nodes, v, order, actor).plan.entries ==> NamesLease(gid, e.body)
  {
    hide DepsSound;
    if order != [] { MaterialNamed(gid, nodes, v, order[..|order| - 1], actor); }
  }

  lemma {:induction false} RepairsNamed(gid: string, g: GraphView, tasks: TaskMap, order: seq<string>, actor: string)
    ensures forall e :: e in StartRepairs(gid, g, tasks, order, actor) ==> NamesLease(gid, e.body)
    ensures forall e :: e in CompletionRepairs(gid, g, tasks, order, actor) ==> NamesLease(gid, e.body)
  {
    if order != [] { RepairsNamed(gid, g, tasks, order[..|order| - 1], actor); }
  }

  lemma {:induction false} ReleasesNamed(gid: string, tasks: TaskMap, order: seq<TaskId>, now: real, actor: string)
    ensures forall e :: e in Releases(tasks, order, now, actor) ==> NamesLease(gid, e.body)
  {
    if order != [] { ReleasesNamed(gid, tasks, order[..|order| - 1], now, actor); }
  }

  lemma {:induction false} NamedRun(m: string, gid: string, turns: seq<GraphLifecycle.Turn>, states: seq<seq<Event>>,
                                    i: nat)
    requires GraphLifecycle.IsRun(m, gid, turns, states) && i <= |turns|
    requires forall k :: 0 <= k < |turns| ==> NamedTurn(turns[k])
    ensures NamesLeases(states[i], gid)
  {
    hide Readable;
    hide Allowed;
    hide Good;
    hide GraphLifecycle.After;
    hide NamedTurn;
    if i > 0 {
      hide NamesLeases;
      NamedRun(m, gid, turns, states, i - 1);
      EveryRunGood(m, gid, turns, states, i - 1);
      GoodUnfold(states[i - 1], gid, m);
      assert states[i - 1 + 1] == GraphLifecycle.After(m, states[i - 1], gid, turns[i - 1]);
      NamedAfter(m, gid, states[i - 1], turns[i - 1]);
    }
  }

  lemma NamedAfter(m: string, gid: string, before: seq<Event>, t: GraphLifecycle.Turn)
    requires Readable(before) && Allowed(m, before, gid, t.op, t.now) && NamedTurn(t) && NamesLeases(before, gid)
    ensures NamesLeases(GraphLifecycle.After(m, before, gid, t), gid)
  {
    hide Readable;
    hide Allowed;
    hide OperationEntries;
    hide NamedTurn;
    hide NamesLease;
    forall e | e in OperationEntries(m, before, gid, t.op, t.actor, t.now) ensures NamesLease(gid, e.body) {
      EntriesNamed(m, before, gid, t, e);
    }
    ExtendNamed(before, gid, m, t.now, OperationEntries(m, before, gid, t.op, t.actor, t.now), t.fuel);
  }

  lemma ExtendNamed(j: seq<Event>, gid: string, m: string, now: real, entries: seq<Entry>, fuel: nat)
    requires NamesLeases(j, gid) && forall e :: e in entries ==> NamesLease(gid, e.body)
    ensures NamesLeases(Extend(j, m, now, entries[..Min(fuel, |entries|)]), gid)
  {
    hide NamesLease;
    var part := entries[..Min(fuel, |entries|)];
    var j' := Extend(j, m, now, part);
    forall i | 0 <= i < |j'| ensures NamesLease(gid, j'[i].body) {
      if i < |j| {
        assert j'[i] == j'[..|j|][i];
      } else {
        assert j'[|j| + (i - |j|)] == Stamp(m, i + 1, now, part[i - |j|]);
        assert part[i - |j|] in entries;
      }
    }
  }

  /** No run whose every `lease_node` names a worker and a lease gets stuck: whenever the graph runs
      and is repaired, no node runs and none failed, some node is ready or all are completed. */
  lemma NamedRunGoesOn(m: string, gid: string, turns: seq<GraphLifecycle.Turn>, states: seq<seq<Event>>, i: nat)
    requires GraphLifecycle.IsRun(m, gid, turns, states) && i <= |turns|
    requires forall k :: 0 <= k < |turns| ==> NamedTurn(turns[k])
    ensures Healthy(states[i], gid)
    ensures var g, tasks := GraphFold(states[i], gid).value, TaskFold(states[i]).value.tasks;
      && ReadyNodes(gid, g, tasks).Success?
      && (g.status == Running && Settled(gid, g, tasks) && AtRest(g) && Remaining(g) != {} ==>
        ReadyNodes(gid, g, tasks).value != [])
  {
    hide Good;
    hide Linked;
    hide Settled;
    hide AtRest;
    hide ReadyNodes;
    hide Source;
    hide NamedTurn;
    hide NamesLeases;
    hide DepsSound;
    EveryRunGood(m, gid, turns, states, i);
    GoodUnfold(states[i], gid, m);
    GeneratedOf(states[i], gid, m);
    NamedRun(m, gid, turns, states, i);
    NamedLeasesShow(states[i], gid);
    var g, tasks := GraphFold(states[i], gid).value, TaskFold(states[i]).value.tasks;
    ReadyNodesExact(gid, g, tasks);
    if g.status == Running && Settled(gid, g, tasks) && AtRest(g) && Remaining(g) != {} {
      NoDeadlock(gid, g, tasks);
      var n :| Source(g, n);
      assert !Held(gid, g, tasks, n);
    }
  }

  /** And a `reconcile` that ran to its end leaves the graph repaired. */
  lemma ReconciledTurn(m: string, j: seq<Event>, gid: string, t: GraphLifecycle.Turn)
    requires Good(j, gid, m) && Readable(j) && Allowed(m, j, gid, t.op, t.now) && t.op.ReconcileOp?
    requires m != "" && t.actor != "" && t.fuel >= |OperationEntries(m, j, gid, t.op, t.actor, t.now)|
    ensures var j' := GraphLifecycle.After(m, j, gid, t);
      Healthy(j', gid) && Settled(gid, GraphFold(j', gid).value, TaskFold(j').value.tasks)
  {
    hide Good;
    hide Lawful;
    hide Readable;
    hide TaskFold;
    hide GraphFold;
    hide Linked;
    hide DepsSound;
    hide Reconciled;
    hide Reconcilable;
    hide ReconcilePlan;
    GoodUnfold(j, gid, m);
    var g, tasks := GraphFold(j, gid).value, TaskFold(j).value.tasks;
    var entries := ReconcilePlan(m, j, gid, t.actor).entries;
    ReconcileLawful(m, j, gid, t.actor, t.now);
    LawfulKeeps(j, gid, m, t.now, entries, |entries|);
    assert entries[..|entries|] == entries;
    GoodUnfold(Extend(j, m, t.now, entries), gid, m);
    OrderDistinct(gid, g, tasks);
    ReconciledSettled(gid, g, tasks);
  }
}
