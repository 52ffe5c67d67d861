/** The rules a graph's journal follows.  `Enabled` says when a single event may be written;
    `Linked` is the invariant that ties every node to its task.  A crash can fall between any
    two events, so both speak about one event at a time. */
module GraphRules {
  import opened Base
  import opened Digraph
  import opened Journal
  import opened Tasks
  import opened Records
  import opened GraphLog
  import opened PoolLog
  import opened LoopLog
  import opened Projection

  function LeaseChanges(owner: string, lease: string, until: real): Changes {
    Changes(Some(TaskLeased), None, None, Some(Some(owner)), Some(Some(lease)), Some(Some(until)))
  }

  /** An update that sets the status and drops the lease. */
  function ReleaseChanges(status: TaskStatus): Changes {
    Changes(Some(status), None, None, Some(None), Some(None), Some(None))
  }

  function TaskIds(gid: string, ids: seq<string>): (r: seq<TaskId>)
    ensures |r| == |ids| && forall i :: 0 <= i < |ids| ==> r[i] == NodeTask(gid, ids[i])
  {
    seq(|ids|, i requires 0 <= i < |ids| => NodeTask(gid, ids[i]))
  }

  function NodeDeps(nodes: map<string, NodeState>): map<string, seq<string>> {
    map n | n in nodes :: nodes[n].blockedBy
  }

  /** The projection of a graph whose definition was valid. */
  ghost predicate WellFormed(g: GraphView) {
    && (g.status == Absent ==> g == NO_GRAPH)
    && g.status != Pending
    && (g.status != Absent ==>
          g.nodes != map[] && Distinct(g.order) && Elements(g.order) == g.nodes.Keys
          && Closed(NodeDeps(g.nodes)) && Acyclic(NodeDeps(g.nodes)))
  }

  predicate Unleased(t: TaskState) { t.owner.None? && t.lease.None? }

  predicate Waiting(t: TaskState) { (t.status.TaskPending? || t.status.TaskBlocked?) && Unleased(t) }

  predicate Leased(t: TaskState) { t.status.TaskLeased? && t.owner.Some? && t.lease.Some? }

  /** How the status of a node and the state of its task may differ: by what a crash left undone
      and by leases that ran out. */
  predicate Agree(node: NodeState, t: TaskState) {
    match node.status
    case Pending => node.pending.None? && (Waiting(t) || Leased(t))
    case Running =>
      && node.owner.Some? && node.lease.Some?
      && (|| (Leased(t) && t.owner == node.owner && t.lease == node.lease)
          || (t.status.TaskBlocked? && Unleased(t))
          || (t.status.TaskFailed? && Unleased(t))
          || (t.status.TaskCompleted? && Unleased(t) && node.pending.Some?))
    case Completed => t.status.TaskCompleted? && Unleased(t) && node.receipt.Some? && node.receipt == node.pending
    case Failed => t.status.TaskFailed? && Unleased(t)
    case _ => false
  }

  ghost predicate NodeLinked(gid: string, g: GraphView, tasks: TaskMap, n: string) {
    n in g.nodes ==>
      var t := NodeTask(gid, n);
      if t in tasks then
        && Agree(g.nodes[n], tasks[t])
        && tasks[t].subject == g.nodes[n].subject && tasks[t].blockedBy == TaskIds(gid, g.nodes[n].blockedBy)
      else
        g.status == Created && g.nodes[n].status == Pending && g.nodes[n].pending.None?
  }

  /** The invariant of a graph and its tasks. */
  ghost predicate Linked(gid: string, g: GraphView, tasks: TaskMap) {
    && WellFormed(g)
    && (forall n :: NodeTask(gid, n) in tasks ==> n in g.nodes)
    && (forall n :: NodeLinked(gid, g, tasks, n))
  }

  /** What `validate` accepts, apart from the schema and the graph id. */
  ghost predicate ValidNodes(nodes: seq<GraphNode>) {
    && nodes != []
    && (forall i :: 0 <= i < |nodes| ==> nodes[i].id != "")
    && DistinctIds(nodes)
    && Closed(NodeDeps(NodesOf(nodes))) && Acyclic(NodeDeps(NodesOf(nodes)))
  }

  ghost predicate DepsCompleted(gid: string, tasks: TaskMap, deps: seq<string>) {
    forall i :: 0 <= i < |deps| ==>
      NodeTask(gid, deps[i]) in tasks && tasks[NodeTask(gid, deps[i])].status.TaskCompleted?
  }

  /** Who may write an update of a node's task, and when. */
  ghost predicate UpdateEnabled(gid: string, g: GraphView, tasks: TaskMap, n: string, revision: int, c: Changes) {
    var t := NodeTask(gid, n);
    && n in g.nodes && t in tasks && revision == tasks[t].revision + 1
    && (|| ((exists o, l, u :: c == LeaseChanges(o, l, u))
            && g.status == Running && g.nodes[n].status == Pending && Waiting(tasks[t])
            && DepsCompleted(gid, tasks, g.nodes[n].blockedBy))
        || (c == ReleaseChanges(TaskCompleted)
            && g.nodes[n].status == Running && g.nodes[n].pending.Some? && Leased(tasks[t]))
        || (c == ReleaseChanges(TaskFailed) && g.nodes[n].status == Running)
        || (c == ReleaseChanges(TaskBlocked) && Leased(tasks[t])))
  }

  /** The rules for the events of graph `gid` and of its tasks. */
  ghost predicate OwnEnabled(gid: string, g: GraphView, tasks: TaskMap, b: Body) {
    match b
    case Task(TaskCreated(NodeTask(_, n), subject, blockedBy)) =>
      && g.status == Created && n in g.nodes && NodeTask(gid, n) !in tasks
      && subject == g.nodes[n].subject && blockedBy == TaskIds(gid, g.nodes[n].blockedBy)
      && forall d :: d in blockedBy ==> d in tasks
    case Task(TaskUpdated(NodeTask(_, n), revision, changes)) => UpdateEnabled(gid, g, tasks, n, revision, changes)
    case Graph(f) => FactEnabled(gid, g, tasks, f)
    case _ => false
  }

  const RECEIPT_SCHEMA := "mcf_graph_node_receipt/v1"

  /** A receipt for this node that says it passed and why. */
  predicate Passing(r: ReceiptMaterial, gid: string, n: string) {
    && r.schema == RECEIPT_SCHEMA && r.graph == gid && r.node == n
    && r.status == "PASS" && r.evidence != []
  }

  ghost predicate FactEnabled(gid: string, g: GraphView, tasks: TaskMap, f: GraphFact) {
    match f
    case GraphCreated(_, nodes) => g.status == Absent && gid != "" && ValidNodes(nodes)
    case GraphStarted(_) => g.status == Created && forall n :: n in g.nodes ==> NodeTask(gid, n) in tasks
    case NodeStarted(_, n, owner, lease) =>
      && g.status == Running && n in g.nodes && g.nodes[n].status == Pending && NodeTask(gid, n) in tasks
      && Leased(tasks[NodeTask(gid, n)])
      && tasks[NodeTask(gid, n)].owner == Some(owner) && tasks[NodeTask(gid, n)].lease == Some(lease)
    case NodeReceipt(_, n, digest, evidence, actor) =>
      && n in g.nodes && g.nodes[n].status == Running && g.nodes[n].pending.None?
      && evidence == digest.material.evidence && actor == digest.material.actor
      && Some(actor) == g.nodes[n].owner && Passing(digest.material, gid, n)
    case NodeCompleted(_, n, digest, _) =>
      && n in g.nodes && g.nodes[n].status == Running && g.nodes[n].pending == Some(digest)
      && NodeTask(gid, n) in tasks && tasks[NodeTask(gid, n)].status.TaskCompleted?
    case NodeFailed(_, n, _) =>
      && n in g.nodes && g.nodes[n].status == Running
      && NodeTask(gid, n) in tasks && tasks[NodeTask(gid, n)].status.TaskFailed?
    case GraphCompleted(_) => g.status == Running && forall n :: n in g.nodes ==> g.nodes[n].status == Completed
    case GraphFailed(_, _) => g.status == Running && exists n :: n in g.nodes && g.nodes[n].status == Failed
  }

  /** An event of the graph or of one of its tasks. */
  predicate Own(gid: string, b: Body) {
    || Concerns(b, gid)
    || (b.Task? && b.taskFact.task.NodeTask? && b.taskFact.task.graph == gid)
  }

  /** An event may be written: the graph's own by the rules, any other if the tasks accept it. */
  ghost predicate Enabled(gid: string, g: GraphView, v: TaskView, b: Body) {
    if Own(gid, b) then OwnEnabled(gid, g, v.tasks, b) else TaskStep(v, b).Success?
  }

  /** The graph's rules never ask for an event the replays refuse. */
  lemma EnabledApplies(gid: string, g: GraphView, v: TaskView, b: Body)
    requires Linked(gid, g, v.tasks) && DepsSound(v.tasks) && Enabled(gid, g, v, b)
    ensures TaskStep(v, b).Success? && GraphStep(gid, g, b).Success?
  {
    if Own(gid, b) && b.Task? {
      var f := b.taskFact;
      if f.TaskCreated? {
        NewTaskSound(v.tasks, f.task, f.subject, f.blockedBy);
      } else {
        SameDeps(v.tasks, v.tasks[f.task := Change(v.tasks[f.task], f.revision, f.changes)]);
      }
    }
  }

  ghost predicate DistinctIds(nodes: seq<GraphNode>) {
    forall i, j :: 0 <= i < j < |nodes| ==> nodes[i].id != nodes[j].id
  }

  /** Without repeated ids the dictionary holds each node once, in the declared order. */
  lemma {:induction false} DistinctNodes(nodes: seq<GraphNode>)
    requires DistinctIds(nodes)
    ensures |OrderOf(nodes)| == |nodes| && forall i :: 0 <= i < |nodes| ==> OrderOf(nodes)[i] == nodes[i].id
    ensures forall i :: 0 <= i < |nodes| ==>
      nodes[i].id in NodesOf(nodes) && NodesOf(nodes)[nodes[i].id] == FreshNode(nodes[i])
    ensures forall n :: n in NodesOf(nodes) ==> n in OrderOf(nodes)
  {
    hide FreshNode;
    if nodes != [] {
      var k := |nodes| - 1;
      var before := nodes[..k];
      DistinctNodes(before);
      assert forall i :: 0 <= i < k ==> before[i] == nodes[i];
      assert nodes[k].id !in OrderOf(before);
    }
  }

  lemma FreshGraph(nodes: seq<GraphNode>)
    requires DistinctIds(nodes)
    ensures Distinct(OrderOf(nodes)) && Elements(OrderOf(nodes)) == NodesOf(nodes).Keys
    ensures forall n :: n in NodesOf(nodes) ==> NodesOf(nodes)[n].status == Pending && NodesOf(nodes)[n].pending.None?
  {
    DistinctNodes(nodes);
    var order := OrderOf(nodes);
    forall n | n in NodesOf(nodes) ensures NodesOf(nodes)[n].status == Pending && NodesOf(nodes)[n].pending.None? {
      var i :| 0 <= i < |order| && order[i] == n;
      assert nodes[i].id == n;
    }
    assert forall x :: x in order <==> x in NodesOf(nodes) by {
      forall x | x in order ensures x in NodesOf(nodes) {
        var i :| 0 <= i < |order| && order[i] == x;
        assert nodes[i].id == x;
      }
    }
  }

  /** Every event the rules allow keeps the invariant. */
  lemma EnabledKeepsLinked(gid: string, g: GraphView, v: TaskView, b: Body)
    requires Linked(gid, g, v.tasks) && DepsSound(v.tasks) && Enabled(gid, g, v, b)
    requires TaskStep(v, b).Success? && GraphStep(gid, g, b).Success?
    ensures Linked(gid, GraphStep(gid, g, b).value, TaskStep(v, b).value.tasks)
  {
    if !Own(gid, b) {
      ForeignKeepsLinked(gid, g, v, b);
    } else if b.Task? {
      TaskKeepsLinked(gid, g, v, b);
    } else {
      FactKeepsLinked(gid, g, v.tasks, b.graphFact);
    }
  }

  lemma ForeignKeepsLinked(gid: string, g: GraphView, v: TaskView, b: Body)
    requires Linked(gid, g, v.tasks) && !Own(gid, b) && TaskStep(v, b).Success?
    ensures Linked(gid, g, TaskStep(v, b).value.tasks)
  {
    var tasks' := TaskStep(v, b).value.tasks;
    forall n ensures (NodeTask(gid, n) in tasks' <==> NodeTask(gid, n) in v.tasks)
    ensures NodeTask(gid, n) in tasks' ==> tasks'[NodeTask(gid, n)] == v.tasks[NodeTask(gid, n)] {
    }
    forall n ensures NodeLinked(gid, g, tasks', n) {
      assert NodeLinked(gid, g, v.tasks, n);
    }
  }

  lemma TaskKeepsLinked(gid: string, g: GraphView, v: TaskView, b: Body)
    requires Linked(gid, g, v.tasks) && Own(gid, b) && b.Task? && OwnEnabled(gid, g, v.tasks, b)
    requires TaskStep(v, b).Success?
    ensures Linked(gid, g, TaskStep(v, b).value.tasks)
  {
    var tasks' := TaskStep(v, b).value.tasks;
    var k := b.taskFact.task.node;
    forall n ensures NodeLinked(gid, g, tasks', n) {
      assert NodeLinked(gid, g, v.tasks, n);
      if n != k && NodeTask(gid, n) in tasks' {
        assert tasks'[NodeTask(gid, n)] == v.tasks[NodeTask(gid, n)];
      }
    }
  }

  lemma FactKeepsLinked(gid: string, g: GraphView, tasks: TaskMap, f: GraphFact)
    requires Linked(gid, g, tasks) && FactEnabled(gid, g, tasks, f) && GraphApply(g, f).Success?
    ensures Linked(gid, GraphApply(g, f).value, tasks)
  {
    hide FactEnabled;
    hide NodeLinked;
    hide WellFormed;
    if f.GraphCreated? {
      CreatedFactLinked(gid, g, tasks, f);
    } else {
      FactKeepsShape(gid, g, tasks, f);
      forall n ensures NodeLinked(gid, GraphApply(g, f).value, tasks, n) {
        FactKeepsNode(gid, g, tasks, f, n);
      }
    }
  }

  lemma CreatedFactLinked(gid: string, g: GraphView, tasks: TaskMap, f: GraphFact)
    requires Linked(gid, g, tasks) && FactEnabled(gid, g, tasks, f) && f.GraphCreated?
    ensures GraphApply(g, f).Success? && Linked(gid, GraphApply(g, f).value, tasks)
  {
    hide NodeLinked;
    hide Closed;
    hide Acyclic;
    hide NodesOf;
    hide OrderOf;
    CreationLinked(gid, tasks, f.nodes);
  }

  lemma FactKeepsShape(gid: string, g: GraphView, tasks: TaskMap, f: GraphFact)
    requires WellFormed(g) && FactEnabled(gid, g, tasks, f) && !f.GraphCreated? && GraphApply(g, f).Success?
    ensures WellFormed(GraphApply(g, f).value) && GraphApply(g, f).value.nodes.Keys == g.nodes.Keys
  {
    hide Closed;
    hide Acyclic;
    assert NodeDeps(GraphApply(g, f).value.nodes) == NodeDeps(g.nodes);
  }

  lemma FactKeepsNode(gid: string, g: GraphView, tasks: TaskMap, f: GraphFact, n: string)
    requires NodeLinked(gid, g, tasks, n) && FactEnabled(gid, g, tasks, f) && !f.GraphCreated?
      && GraphApply(g, f).Success?
    ensures NodeLinked(gid, GraphApply(g, f).value, tasks, n)
  {
  }

  lemma CreationLinked(gid: string, tasks: TaskMap, nodes: seq<GraphNode>)
    requires ValidNodes(nodes) && forall n :: NodeTask(gid, n) !in tasks
    ensures Linked(gid, GraphView(Created, NodesOf(nodes), OrderOf(nodes)), tasks)
  {
    FreshGraph(nodes);
    DistinctNodes(nodes);
    assert nodes[0].id in NodesOf(nodes);
  }
}
