/** What each operation of the graph engine writes: the list of events, in order, and the
    exception it ends with.  A crash leaves a prefix of the list. */
module GraphPlans {
  import opened Base
  import opened Ordering
  import opened Digraph
  import opened Journal
  import opened Tasks
  import opened Records
  import opened GraphLog
  import opened Store
  import opened Projection
  import opened GraphRules
  import opened Runtime

  const GRAPH_SCHEMA := "mcf_graph/v1"

  datatype Definition = Definition(graph: string, nodes: seq<GraphNode>, schema: string)

  /** A receipt as handed in: its fields and the digest it claims. */
  datatype Receipt = Receipt(material: ReceiptMaterial, claimed: Digest)

  ghost predicate ValidDefinition(d: Definition) {
    d.schema == GRAPH_SCHEMA && d.graph != "" && ValidNodes(d.nodes)
  }

  /** `validate_graph_receipt`. */
  predicate ValidReceipt(r: Receipt, gid: string, n: string) {
    Passing(r.material, gid, n) && r.claimed == Digest(r.material)
  }

  function GraphEntry(actor: string, f: GraphFact): Entry {
    Entry(actor, GraphKeyOf(f), Graph(f))
  }

  function Then(p: Plan, q: Plan): Plan {
    if p.fault.Some? then p else Plan(p.entries + q.entries, q.fault)
  }

  /** The short-circuiting `all` over the dependencies: a missing task is a KeyError. */
  function DepsDone(gid: string, tasks: TaskMap, deps: seq<string>): Result<bool> {
    if deps == [] then Success(true)
    else if NodeTask(gid, deps[0]) !in tasks then Failure(KeyFault)
    else if !tasks[NodeTask(gid, deps[0])].status.TaskCompleted? then Success(false)
    else DepsDone(gid, tasks, deps[1..])
  }

  function NodeReady(gid: string, g: GraphView, tasks: TaskMap, n: string): Result<bool> {
    if n !in g.nodes || g.nodes[n].status != Pending then Success(false)
    else if NodeTask(gid, n) !in tasks then Failure(KeyFault)
    else if !tasks[NodeTask(gid, n)].status.TaskPending?
      && !tasks[NodeTask(gid, n)].status.TaskBlocked? then Success(false)
    else DepsDone(gid, tasks, g.nodes[n].blockedBy)
  }

  function ReadyAmong(gid: string, g: GraphView, tasks: TaskMap, order: seq<string>): Result<seq<string>> {
    if order == [] then Success([])
    else
      var earlier :- ReadyAmong(gid, g, tasks, order[..|order| - 1]);
      var ready :- NodeReady(gid, g, tasks, order[|order| - 1]);
      Success(if ready then earlier + [order[|order| - 1]] else earlier)
  }

  /** `ready_nodes`. */
  function ReadyNodes(gid: string, g: GraphView, tasks: TaskMap): Result<seq<string>> {
    if g.status != Running then Success([])
    else
      var ready :- ReadyAmong(gid, g, tasks, g.order);
      Success(Sort(ready))
  }

  /** What `ready_nodes` answers in a readable journal. */
  ghost function ReadyReport(gid: string, j: seq<Event>): Result<seq<string>>
    requires TaskFold(j).Success?
  {
    if GraphFold(j, gid).Failure? then Failure(GraphReplayRejected)
    else ReadyNodes(gid, GraphFold(j, gid).value, TaskFold(j).value.tasks)
  }

  ghost function LeasePlan(m: string, j: seq<Event>, gid: string, n: string, worker: string, ttl: int,
                           lease: string, actor: string, now: real): Plan
    requires Readable(j)
  {
    if GraphFold(j, gid).Failure? then Plan([], Some(GraphReplayRejected))
    else
      var tasks := TaskFold(j).value.tasks;
      match ReadyNodes(gid, GraphFold(j, gid).value, tasks)
      case Failure(error) => Plan([], Some(error))
      case Success(ready) =>
        var t := NodeTask(gid, n);
        if n !in ready || t !in tasks then Plan([], Some(Conflict))
        else if ttl <= 0 then Plan([], Some(ValueFault))
        else
          Then(UpdateTaskPlan(TaskFold(j).value, actor, t, tasks[t].revision,
            LeaseChanges(worker, lease, now + ttl as real)),
               PutPlan(m, j, GraphEntry(actor, NodeStarted(gid, n, worker, lease))))
  }

  /** The end of `complete_node` re-reads the graph, which is rejected when the receipt now
      recorded is not the one recorded before. */
  function ReceiptClash(node: NodeState, receipt: Receipt): Option<Error> {
    if node.pending.Some? && node.pending.value != receipt.claimed then Some(GraphReplayRejected) else None
  }

  ghost function CompletePlan(m: string, j: seq<Event>, gid: string, n: string, receipt: Receipt, actor: string): Plan
    requires Readable(j)
  {
    if !ValidReceipt(receipt, gid, n) then Plan([], Some(GraphReceiptFault))
    else if GraphFold(j, gid).Failure? then Plan([], Some(GraphReplayRejected))
    else
      var g, v := GraphFold(j, gid).value, TaskFold(j).value;
      if n !in g.nodes then Plan([], Some(GraphTransitionFault))
      else
        var node, t := g.nodes[n], NodeTask(gid, n);
        if node.status == Completed then
          Plan([], if node.receipt == Some(receipt.claimed) then None else Some(GraphTransitionFault))
        else if node.status != Running then Plan([], Some(GraphTransitionFault))
        else if node.owner != Some(receipt.material.actor) then Plan([], Some(GraphReceiptFault))
        else
          var recorded := PutPlan(m, j, GraphEntry(actor,
            NodeReceipt(gid, n, receipt.claimed, receipt.material.evidence, receipt.material.actor)));
          var completed := Then(
            PutPlan(m, j, GraphEntry(actor, NodeCompleted(gid, n, receipt.claimed, receipt.material.evidence))),
            Plan([], ReceiptClash(node, receipt)));
          Then(recorded,
            if t !in v.tasks then Plan([], Some(KeyFault))
            else if v.tasks[t].status.TaskCompleted? then completed
            else if v.tasks[t].owner != node.owner then Plan([], Some(GraphTransitionFault))
            else Then(UpdateTaskPlan(v, actor, t, v.tasks[t].revision, ReleaseChanges(TaskCompleted)), completed))
  }

  ghost function FailPlan(m: string, j: seq<Event>, gid: string, n: string, actor: string, error: string): Plan
    requires Readable(j)
  {
    if GraphFold(j, gid).Failure? then Plan([], Some(GraphReplayRejected))
    else
      var g, v, t := GraphFold(j, gid).value, TaskFold(j).value, NodeTask(gid, n);
      if n !in g.nodes || g.nodes[n].status != Running then Plan([], Some(GraphTransitionFault))
      else if t !in v.tasks then Plan([], Some(KeyFault))
      else
        Then(UpdateTaskPlan(v, actor, t, v.tasks[t].revision, ReleaseChanges(TaskFailed)),
             PutPlan(m, j, GraphEntry(actor, NodeFailed(gid, n, error))))
  }

  /** The lease is there but the node was never started. */
  predicate StartMissing(gid: string, g: GraphView, tasks: TaskMap, n: string) {
    n in g.nodes && g.nodes[n].status == Pending && NodeTask(gid, n) in tasks
      && tasks[NodeTask(gid, n)].status.TaskLeased?
  }

  /** Owner and lease id are both non-empty. */
  predicate Attributed(t: TaskState) {
    t.owner.Some? && t.owner.value != "" && t.lease.Some? && t.lease.value != ""
  }

  /** The task is completed but the node was not. */
  predicate CompletionMissing(gid: string, g: GraphView, tasks: TaskMap, n: string) {
    n in g.nodes && g.nodes[n].status == Running && NodeTask(gid, n) in tasks
      && tasks[NodeTask(gid, n)].status.TaskCompleted?
  }

  /** A start that `reconcile` writes: one whose lease names its owner. */
  predicate StartsHere(gid: string, g: GraphView, tasks: TaskMap, n: string) {
    StartMissing(gid, g, tasks, n) && Attributed(tasks[NodeTask(gid, n)])
  }

  /** A completion that `reconcile` writes: one whose receipt was recorded. */
  predicate CompletesHere(gid: string, g: GraphView, tasks: TaskMap, n: string) {
    CompletionMissing(gid, g, tasks, n) && g.nodes[n].pending.Some?
  }

  /** The first loop of `reconcile`: node starts that a crash left out. */
  function StartRepairs(gid: string, g: GraphView, tasks: TaskMap, order: seq<string>, actor: string): seq<Entry> {
    if order == [] then []
    else
      var n := order[|order| - 1];
      var earlier := StartRepairs(gid, g, tasks, order[..|order| - 1], actor);
      if StartsHere(gid, g, tasks, n) then
        var t := tasks[NodeTask(gid, n)];
        earlier + [GraphEntry(actor, NodeStarted(gid, n, t.owner.value, t.lease.value))]
      else earlier
  }

  /** The second loop of `reconcile`: node completions that a crash left out. */
  function CompletionRepairs(gid: string, g: GraphView, tasks: TaskMap, order: seq<string>, actor: string): seq<Entry> {
    if order == [] then []
    else
      var n := order[|order| - 1];
      var earlier := CompletionRepairs(gid, g, tasks, order[..|order| - 1], actor);
      if CompletesHere(gid, g, tasks, n) then
        earlier + [GraphEntry(actor, NodeCompleted(gid, n, g.nodes[n].pending.value, g.nodes[n].pendingEvidence))]
      else earlier
  }

  ghost function ReconcilePlan(m: string, j: seq<Event>, gid: string, actor: string): Plan
    requires Readable(j)
  {
    if GraphFold(j, gid).Failure? then Plan([], Some(GraphReplayRejected))
    else
      var g, tasks := GraphFold(j, gid).value, TaskFold(j).value.tasks;
      var starts := StartRepairs(gid, g, tasks, g.order, actor);
      var completions := CompletionRepairs(gid, g, tasks, g.order, actor);
      if (m == "" || actor == "") && starts + completions != [] then Plan([], Some(ValueFault))
      else if starts != [] && g.status != Running then Plan(starts, Some(GraphReplayRejected))
      else Plan(starts + completions, None)
  }

  ghost function MaybeCompletePlan(m: string, j: seq<Event>, gid: string, actor: string): Plan
    requires Readable(j)
  {
    if GraphFold(j, gid).Failure? then Plan([], Some(GraphReplayRejected))
    else
      var g := GraphFold(j, gid).value;
      if g.status != Running then Plan([], None)
      else if exists n :: n in g.nodes && g.nodes[n].status == Failed then
        PutPlan(m, j, GraphEntry(actor, GraphFailed(gid, "node_failed")))
      else if forall n :: n in g.nodes ==> g.nodes[n].status == Completed then
        PutPlan(m, j, GraphEntry(actor, GraphCompleted(gid)))
      else Plan([], None)
  }

  /** `_materialize_tasks`: a task for every node that has none, dependencies first. */
  function TaskCreations(gid: string, nodes: map<string, NodeState>, tasks: TaskMap, order: seq<string>,
                         actor: string): seq<Entry> {
    if order == [] then []
    else
      var n := order[|order| - 1];
      var earlier := TaskCreations(gid, nodes, tasks, order[..|order| - 1], actor);
      if n in nodes && NodeTask(gid, n) !in tasks then
        earlier + [Creation(actor, NodeTask(gid, n), nodes[n].subject, TaskIds(gid, nodes[n].blockedBy))]
      else earlier
  }

  ghost function Materialization(gid: string, nodes: map<string, NodeState>, tasks: TaskMap, actor: string): Plan {
    Plan(TaskCreations(gid, nodes, tasks, Rounds(NodeDeps(nodes), {}), actor), None)
  }

  /** What the loop wrote and raised so far, and the tasks it then reads. */
  datatype Material = Material(plan: Plan, view: TaskView)

  /** `_materialize_tasks` on any tasks: a task that is there must fit the node, any other goes
      through `create_task`. */
  ghost function Materializing(gid: string, nodes: map<string, NodeState>, v: TaskView, order: seq<string>,
                               actor: string): Material {
    if order == [] then Material(Plan([], None), v)
    else
      var n := order[|order| - 1];
      var earlier := Materializing(gid, nodes, v, order[..|order| - 1], actor);
      if earlier.plan.fault.Some? || n !in nodes then earlier
      else MaterialStep(gid, earlier, n, nodes[n].subject, nodes[n].blockedBy, actor)
  }

  ghost function MaterialStep(gid: string, earlier: Material, n: string, subject: string, blockedBy: seq<string>,
                              actor: string): Material {
    var t, blocked, w := NodeTask(gid, n), TaskIds(gid, blockedBy), earlier.view;
    if t in w.tasks then
      if w.tasks[t].subject == subject && w.tasks[t].blockedBy == blocked then earlier
      else Material(Plan(earlier.plan.entries, Some(GraphTransitionFault)), w)
    else
      var creating := CreateTaskPlan(w, actor, t, subject, blocked);
      Material(Plan(earlier.plan.entries + creating.entries, creating.fault),
               if creating.fault.None? then TaskView(w.tasks[t := NewTask(subject, blocked)], w.order + [t]) else w)
  }

  ghost function MaterialPlan(gid: string, nodes: map<string, NodeState>, v: TaskView, actor: string): Plan {
    Materializing(gid, nodes, v, Rounds(NodeDeps(nodes), {}), actor).plan
  }

  /** Reading the graph at the end of a call. */
  function ViewFault(j: seq<Event>, gid: string): Option<Error> {
    if GraphFold(j, gid).Failure? then Some(GraphReplayRejected) else None
  }

  ghost function CreatePlan(m: string, j: seq<Event>, d: Definition, actor: string): Plan
    requires Readable(j)
  {
    if !ValidDefinition(d) then Plan([], Some(GraphDefinitionFault))
    else
      Then(PutPlan(m, j, GraphEntry(actor, GraphCreated(d.graph, d.nodes))),
           Then(MaterialPlan(d.graph, NodesOf(d.nodes), TaskFold(j).value, actor), Plan([], ViewFault(j, d.graph))))
  }

  /** `validate` accepts the definition that `_definition_from_projection` builds. */
  ghost predicate ValidGraph(gid: string, g: GraphView) {
    && gid != "" && g.nodes != map[] && "" !in g.nodes
    && Closed(NodeDeps(g.nodes)) && Acyclic(NodeDeps(g.nodes))
  }

  ghost function StartPlan(m: string, j: seq<Event>, gid: string, actor: string): Plan
    requires Readable(j)
  {
    if GraphFold(j, gid).Failure? then Plan([], Some(GraphReplayRejected))
    else
      var g := GraphFold(j, gid).value;
      if g.status != Created then Plan([], Some(GraphTransitionFault))
      else if !ValidGraph(gid, g) then Plan([], Some(GraphDefinitionFault))
      else
        Then(MaterialPlan(gid, g.nodes, TaskFold(j).value, actor),
             PutPlan(m, j, GraphEntry(actor, GraphStarted(gid))))
  }
}
