/** Where the code does less than its documentation or its names suggest: for each case a short run,
    from an empty journal, that ends in it. */
module Shortfalls {
  import opened Base
  import opened Ordering
  import opened Digraph
  import opened Journal
  import opened Tasks
  import opened Records
  import opened GraphLog
  import opened Store
  import opened Projection
  import opened Runtime
  import opened GraphRules
  import opened GraphHistory
  import opened GraphPlans
  import opened GraphSafety
  import opened GraphRepair
  import opened GraphLifecycle
  import opened GraphCrash
  import opened GraphDeadlock
  import opened GraphProgress
  import opened PoolLog
  import opened PoolRules
  import opened Scheduling

  const MISSION := "mission"
  const GRAPH := "graph"
  const WHO := "actor"

  const ALONE := GraphNode("a", "A", [], "task")
  const OTHER := GraphNode("b", "B", [], "task")
  const ONE := Definition(GRAPH, [ALONE], GRAPH_SCHEMA)
  const TWO := Definition(GRAPH, [ALONE, OTHER], GRAPH_SCHEMA)

  lemma OneValid()
    ensures ValidDefinition(ONE) && NodesOf(ONE.nodes) == map["a" := FreshNode(ALONE)] && OrderOf(ONE.nodes) == ["a"]
  {
    var none: seq<GraphNode> := [];
    assert [ALONE][..0] == none;
    assert NodesOf(none) == map[];
    var deps := NodeDeps(NodesOf(ONE.nodes));
    assert deps == map["a" := []];
    assert Elements(["a"]) == deps.Keys;
    LayeredIsAcyclic(deps, ["a"]);
  }

  lemma TwoValid()
    ensures ValidDefinition(TWO) && NodesOf(TWO.nodes) == map["a" := FreshNode(ALONE), "b" := FreshNode(OTHER)]
    ensures OrderOf(TWO.nodes) == ["a", "b"]
  {
    OneValid();
    assert [ALONE, OTHER][..1] == [ALONE];
    var deps := NodeDeps(NodesOf(TWO.nodes));
    assert deps == map["a" := [], "b" := []];
    assert Elements(["a", "b"]) == deps.Keys;
    LayeredIsAcyclic(deps, ["a", "b"]);
  }

  /** A run of graph operations from the empty journal to `j`. */
  ghost predicate Reached(turns: seq<GraphLifecycle.Turn>, states: seq<seq<Event>>, j: seq<Event>) {
    GraphLifecycle.IsRun(MISSION, GRAPH, turns, states) && states[|turns|] == j
  }

  lemma NothingReached()
    ensures Reached([], [[]], []) && Good([], GRAPH, MISSION) && Readable([])
  {
    EveryRunGood(MISSION, GRAPH, [], [[]], 0);
    GoodUnfold([], GRAPH, MISSION);
  }

  /** The run goes on by one operation. */
  lemma Next(turns: seq<GraphLifecycle.Turn>, states: seq<seq<Event>>, j: seq<Event>, t: GraphLifecycle.Turn)
    requires Reached(turns, states, j) && Readable(j) && Allowed(MISSION, j, GRAPH, t.op, t.now)
    ensures var j' := GraphLifecycle.After(MISSION, j, GRAPH, t); Reached(turns + [t], states + [j'], j')
  {
    hide Readable;
    hide Allowed;
    hide GraphLifecycle.After;
  }

  /** An operation that is not cut short. */
  lemma Whole(j: seq<Event>, op: Operation, now: real)
    requires Readable(j)
    ensures var entries := OperationEntries(MISSION, j, GRAPH, op, WHO, now);
      GraphLifecycle.After(MISSION, j, GRAPH, GraphLifecycle.Turn(op, WHO, now, |entries|))
        == Extend(j, MISSION, now, entries)
  {
    hide OperationEntries;
    var entries := OperationEntries(MISSION, j, GRAPH, op, WHO, now);
    assert entries[..|entries|] == entries;
  }

  /** One whole operation more. */
  lemma Continue(turns: seq<GraphLifecycle.Turn>, states: seq<seq<Event>>, j: seq<Event>, op: Operation)
    returns (turns': seq<GraphLifecycle.Turn>, states': seq<seq<Event>>)
    requires Reached(turns, states, j) && Readable(j) && Allowed(MISSION, j, GRAPH, op, 0.0)
    ensures Reached(turns', states', Extend(j, MISSION, 0.0, OperationEntries(MISSION, j, GRAPH, op, WHO, 0.0)))
    ensures |turns'| == |turns| + 1 && turns'[..|turns|] == turns && turns'[|turns|].op == op
    ensures states' == states + [Extend(j, MISSION, 0.0, OperationEntries(MISSION, j, GRAPH, op, WHO, 0.0))]
  {
    hide Readable;
    hide Allowed;
    hide OperationEntries;
    hide GraphLifecycle.After;
    hide Reached;
    var t := GraphLifecycle.Turn(op, WHO, 0.0, |OperationEntries(MISSION, j, GRAPH, op, WHO, 0.0)|);
    Whole(j, op, 0.0);
    Next(turns, states, j, t);
    turns', states' := turns + [t], states + [GraphLifecycle.After(MISSION, j, GRAPH, t)];
  }

  /** One operation more, whose process dies after its first event. */
  lemma CutShort(turns: seq<GraphLifecycle.Turn>, states: seq<seq<Event>>, j: seq<Event>, op: Operation)
    returns (turns': seq<GraphLifecycle.Turn>, states': seq<seq<Event>>)
    requires Reached(turns, states, j) && Readable(j) && Allowed(MISSION, j, GRAPH, op, 0.0)
    requires OperationEntries(MISSION, j, GRAPH, op, WHO, 0.0) != []
    ensures Reached(turns', states', Extend(j, MISSION, 0.0, OperationEntries(MISSION, j, GRAPH, op, WHO, 0.0)[..1]))
    ensures |turns'| == |turns| + 1 && turns'[..|turns|] == turns
      && turns'[|turns|] == GraphLifecycle.Turn(op, WHO, 0.0, 1)
  {
    hide Readable;
    hide Allowed;
    hide OperationEntries;
    hide Reached;
    var t := GraphLifecycle.Turn(op, WHO, 0.0, 1);
    Next(turns, states, j, t);
    turns', states' := turns + [t], states + [GraphLifecycle.After(MISSION, j, GRAPH, t)];
  }

  /** `create_graph` and `start_graph`. */
  lemma BegunRun(d: Definition) returns (turns: seq<GraphLifecycle.Turn>, states: seq<seq<Event>>, j: seq<Event>)
    requires ValidDefinition(d) && d.graph == GRAPH
    ensures Reached(turns, states, j) && |turns| == 2 && turns[0].op == CreateOp(d) && turns[1].op == StartOp
    ensures Good(j, GRAPH, MISSION) && Readable(j) && Healthy(j, GRAPH)
    ensures GraphFold(j, GRAPH) == Success(GraphView(Running, NodesOf(d.nodes), OrderOf(d.nodes)))
    ensures Idle(GRAPH, GraphFold(j, GRAPH).value, TaskFold(j).value.tasks)
  {
    hide Reached;
    hide Good;
    hide Readable;
    hide Healthy;
    hide GraphFold;
    hide TaskFold;
    hide CreatePlan;
    hide StartPlan;
    hide ValidDefinition;
    NothingReached();
    turns, states := Continue([], [[]], [], CreateOp(d));
    var first := Extend([], MISSION, 0.0, CreatePlan(MISSION, [], d, WHO).entries);
    CreatedReads(d);
    turns, states := Continue(turns, states, first, StartOp);
    assert turns[0] == turns[..1][0];
    j := Begun(MISSION, [], d, WHO, 0.0, WHO, 0.0);
    BegunIdle(MISSION, [], d, WHO, 0.0, WHO, 0.0);
  }

  lemma CreatedReads(d: Definition)
    requires ValidDefinition(d) && d.graph == GRAPH && Good([], GRAPH, MISSION) && Readable([])
    ensures Readable(Extend([], MISSION, 0.0, CreatePlan(MISSION, [], d, WHO).entries))
  {
    hide Good;
    hide Readable;
    hide CreatePlan;
    hide ValidDefinition;
    CreatedState(MISSION, [], d, WHO, 0.0);
  }

  /** In a graph just started a node without dependencies is ready. */
  lemma ReadyAtOnce(g: GraphView, tasks: TaskMap, n: string)
    requires Idle(GRAPH, g, tasks) && n in g.nodes && g.nodes[n].status == Pending && g.nodes[n].blockedBy == []
    ensures Ready(GRAPH, g, tasks, n)
  {
  }

  /** The state after a lease without a worker's name, cut short. */
  lemma HalfHeld() returns (turns: seq<GraphLifecycle.Turn>, states: seq<seq<Event>>, j: seq<Event>)
    ensures Reached(turns, states, j) && |turns| == 3
    ensures turns[2] == GraphLifecycle.Turn(LeaseOp("a", "", 1, "lease"), WHO, 0.0, 1)
    ensures Healthy(j, GRAPH) && Readable(j)
    ensures var g, tasks := GraphFold(j, GRAPH).value, TaskFold(j).value.tasks;
      && g.status == Running && g.nodes == map["a" := FreshNode(ALONE)] && Held(GRAPH, g, tasks, "a")
  {
    hide Reached;
    hide Good;
    hide Readable;
    hide Linked;
    hide DepsSound;
    hide GraphFold;
    hide TaskFold;
    hide ValidDefinition;
    hide LeasePlan;
    OneValid();
    turns, states, j := BegunRun(ONE);
    var v := TaskFold(j).value;
    ReadyAtOnce(GraphFold(j, GRAPH).value, v.tasks, "a");
    LeasePlanned(MISSION, j, GRAPH, "a", "", 1, "lease", WHO, 0.0);
    LeasedOnce(MISSION, j, GRAPH, "a", "", "lease", WHO, 0.0, 1.0);
    var u := LeaseUpdate(WHO, GRAPH, "a", v.tasks, "", "lease", 1.0);
    assert [u, StartEntry(WHO, GRAPH, "a", "", "lease")][..1] == [u];
    turns, states := CutShort(turns, states, j, LeaseOp("a", "", 1, "lease"));
    j := Extend(j, MISSION, 0.0, [u]);
  }

  /** `lease_node` without a worker's name, its process dying between its two events, and then
      `reconcile`: the graph runs, is repaired, has a node left, none running and none failed, and
      `ready_nodes` is empty. */
  lemma HeldLease() returns (turns: seq<GraphLifecycle.Turn>, states: seq<seq<Event>>, j: seq<Event>)
    ensures Reached(turns, states, j) && |turns| == 4
    ensures turns[2] == GraphLifecycle.Turn(LeaseOp("a", "", 1, "lease"), WHO, 0.0, 1) && turns[3].op == ReconcileOp
    ensures Healthy(j, GRAPH) && Readable(j)
    ensures var g, tasks := GraphFold(j, GRAPH).value, TaskFold(j).value.tasks;
      && g.status == Running && Settled(GRAPH, g, tasks) && AtRest(g) && Remaining(g) == {"a"}
      && ReadyReport(GRAPH, j) == Success([]) && ReconcilePlan(MISSION, j, GRAPH, WHO) == Plan([], None)
  {
    hide Reached;
    hide Readable;
    hide Linked;
    hide DepsSound;
    hide GraphFold;
    hide TaskFold;
    hide ReadyNodes;
    hide ReconcilePlan;
    turns, states, j := HalfHeld();
    var g, tasks := GraphFold(j, GRAPH).value, TaskFold(j).value.tasks;
    assert Settled(GRAPH, g, tasks) && AtRest(g);
    SettledPlan(MISSION, j, GRAPH, WHO);
    turns, states := Continue(turns, states, j, ReconcileOp);
    assert turns[2] == turns[..3][2];
    ExtendNone(j, MISSION, 0.0);
    NoDeadlock(GRAPH, g, tasks);
  }

  /** The state of a one-node graph whose node runs. */
  lemma LeasedRun() returns (turns: seq<GraphLifecycle.Turn>, states: seq<seq<Event>>, j: seq<Event>)
    ensures Reached(turns, states, j) && |turns| == 3 && turns[2].op == LeaseOp("a", "worker", 1, "lease")
    ensures Good(j, GRAPH, MISSION) && Readable(j) && Healthy(j, GRAPH)
    ensures var g, tasks := GraphFold(j, GRAPH).value, TaskFold(j).value.tasks;
      && g.status == Running && g.nodes.Keys == {"a"} && g.order == ["a"]
      && g.nodes["a"] == FreshNode(ALONE).(status := Running, owner := Some("worker"), lease := Some("lease"))
      && NodeTask(GRAPH, "a") in tasks && Leased(tasks[NodeTask(GRAPH, "a")])
  {
    hide Reached;
    hide Good;
    hide Readable;
    hide Linked;
    hide DepsSound;
    hide GraphFold;
    hide TaskFold;
    hide ValidDefinition;
    hide LeasePlan;
    OneValid();
    turns, states, j := BegunRun(ONE);
    ReadyAtOnce(GraphFold(j, GRAPH).value, TaskFold(j).value.tasks, "a");
    LeasedNode(MISSION, j, GRAPH, "a", "worker", 1, "lease", WHO, 0.0);
    turns, states := Continue(turns, states, j, LeaseOp("a", "worker", 1, "lease"));
    j := Extend(j, MISSION, 0.0, LeasePlan(MISSION, j, GRAPH, "a", "worker", 1, "lease", WHO, 0.0).entries);
  }

  /** A receipt of the node by its worker. */
  function ReceiptOf(evidence: string): Receipt {
    var material := ReceiptMaterial(RECEIPT_SCHEMA, GRAPH, "a", "worker", "PASS", [evidence], None);
    Receipt(material, Digest(material))
  }

  /** `complete_node` dies after its first event; called again with another receipt, it leaves a
      journal that `replay_graph` rejects. */
  lemma SecondReceipt() returns (turns: seq<GraphLifecycle.Turn>, states: seq<seq<Event>>, j: seq<Event>)
    ensures Reached(turns, states, j) && |turns| == 4
    ensures turns[3] == GraphLifecycle.Turn(CompleteOp("a", ReceiptOf("first")), WHO, 0.0, 1)
    ensures Readable(j) && GraphFold(j, GRAPH).Success?
    ensures var written := CompletePlan(MISSION, j, GRAPH, "a", ReceiptOf("second"), WHO).entries;
      written != [] && GraphFold(Extend(j, MISSION, 0.0, written), GRAPH).Failure?
  {
    hide Reached;
    hide Good;
    hide Readable;
    hide Linked;
    hide DepsSound;
    hide GraphFold;
    hide TaskFold;
    hide CompletePlan;
    turns, states, j := LeasedRun();
    var r := ReceiptOf("first");
    var g := GraphFold(j, GRAPH).value;
    CompleteInFull(MISSION, j, GRAPH, "a", r, WHO);
    ReceiptRecorded(MISSION, j, GRAPH, "a", r, WHO, 0.0);
    turns, states := CutShort(turns, states, j, CompleteOp("a", r));
    j := Extend(j, MISSION, 0.0, Recording(GRAPH, g, "a", r, WHO));
    assert ReceiptOf("second").material.evidence != r.material.evidence;
    CompleteReplayableIff(MISSION, j, GRAPH, "a", ReceiptOf("second"), WHO, 0.0);
    ExtendNone(j, MISSION, 0.0);
  }

  /** `fail_node` dies after its first event: no `reconcile` touches the node, which stays running
      with a failed task until `fail_node` is called again. */
  lemma HalfFailed() returns (turns: seq<GraphLifecycle.Turn>, states: seq<seq<Event>>, j: seq<Event>)
    ensures Reached(turns, states, j) && |turns| == 4 && turns[3]
      == GraphLifecycle.Turn(FailOp("a", "error"), WHO, 0.0, 1)
    ensures Readable(j) && Healthy(j, GRAPH)
    ensures var g, tasks := GraphFold(j, GRAPH).value, TaskFold(j).value.tasks;
      && "a" in g.nodes && g.nodes["a"].status == Running
      && NodeTask(GRAPH, "a") in tasks && tasks[NodeTask(GRAPH, "a")].status.TaskFailed?
      && ReconcilePlan(MISSION, j, GRAPH, WHO) == Plan([], None)
      && |FailPlan(MISSION, j, GRAPH, "a", WHO, "error").entries| == 2
  {
    hide Reached;
    hide Good;
    hide Readable;
    hide Linked;
    hide DepsSound;
    hide GraphFold;
    hide TaskFold;
    hide FailPlan;
    hide ReconcilePlan;
    turns, states, j := LeasedRun();
    var t := NodeTask(GRAPH, "a");
    var u := Update(WHO, t, TaskFold(j).value.tasks[t].revision + 1, ReleaseChanges(TaskFailed));
    FailPlanned(MISSION, j, GRAPH, "a", WHO, "error");
    assert [u, GraphEntry(WHO, NodeFailed(GRAPH, "a", "error"))][..1] == [u];
    TaskFailedNext(MISSION, j, GRAPH, "a", WHO, 0.0);
    turns, states := CutShort(turns, states, j, FailOp("a", "error"));
    j := Extend(j, MISSION, 0.0, [u]);
    FailPlanned(MISSION, j, GRAPH, "a", WHO, "error");
    SettledPlan(MISSION, j, GRAPH, WHO);
  }

  /** The state after `fail_node`. */
  lemma FailedState(j: seq<Event>, n: string)
    requires Good(j, GRAPH, MISSION) && Readable(j) && Healthy(j, GRAPH)
    requires n in GraphFold(j, GRAPH).value.nodes && GraphFold(j, GRAPH).value.nodes[n].status == Running
    ensures var g, v := GraphFold(j, GRAPH).value, TaskFold(j).value;
      var t := NodeTask(GRAPH, n);
      var j' := Extend(j, MISSION, 0.0, FailPlan(MISSION, j, GRAPH, n, WHO, "error").entries);
      && t in v.tasks && Good(j', GRAPH, MISSION) && Readable(j') && Healthy(j', GRAPH)
      && TaskFold(j')
        == Success(v.(tasks := v.tasks[t := Change(v.tasks[t], v.tasks[t].revision + 1, ReleaseChanges(TaskFailed))]))
      && GraphFold(j', GRAPH)
        == Success(g.(nodes := g.nodes[n := g.nodes[n].(status := Failed, error := Some("error"))]))
  {
    hide Good;
    hide Readable;
    hide Linked;
    hide DepsSound;
    hide GraphFold;
    hide TaskFold;
    hide FailPlan;
    hide LawfulEntry;
    var v, t := TaskFold(j).value, NodeTask(GRAPH, n);
    FailPlanned(MISSION, j, GRAPH, n, WHO, "error");
    var u := Update(WHO, t, v.tasks[t].revision + 1, ReleaseChanges(TaskFailed));
    TaskFailedNext(MISSION, j, GRAPH, n, WHO, 0.0);
    var j1, f := Extend(j, MISSION, 0.0, [u]), NodeFailed(GRAPH, n, "error");
    OwnGraphEntry(j1, GRAPH, WHO, f);
    LawfulStep(j1, GRAPH, MISSION, 0.0, GraphEntry(WHO, f));
    ExtendSnoc(j, MISSION, 0.0, [u], GraphEntry(WHO, f));
    assert [u] + [GraphEntry(WHO, f)] == [u, GraphEntry(WHO, f)];
    FactApplied(GraphFold(j1, GRAPH).value, TaskFold(j1).value, f);
    GoodUnfold(Extend(j, MISSION, 0.0, [u, GraphEntry(WHO, f)]), GRAPH, MISSION);
  }

  lemma FactApplied(g: GraphView, v: TaskView, f: GraphFact)
    requires f.graph == GRAPH
    ensures TaskStep(v, GraphEntry(WHO, f).body) == Success(v)
    ensures GraphStep(GRAPH, g, GraphEntry(WHO, f).body) == GraphApply(g, f)
  {
  }

  /** The state after `maybe_complete_graph` found a failed node. */
  lemma EndedState(j: seq<Event>)
    requires Good(j, GRAPH, MISSION) && Readable(j) && Healthy(j, GRAPH) && GraphFold(j, GRAPH).value.status == Running
    requires exists n :: n in GraphFold(j, GRAPH).value.nodes && GraphFold(j, GRAPH).value.nodes[n].status == Failed
    ensures var j' := Extend(j, MISSION, 0.0, MaybeCompletePlan(MISSION, j, GRAPH, WHO).entries);
      && Good(j', GRAPH, MISSION) && Readable(j') && Healthy(j', GRAPH)
      && TaskFold(j') == TaskFold(j) && GraphFold(j', GRAPH) == Success(GraphFold(j, GRAPH).value.(status := Failed))
  {
    hide Good;
    hide Readable;
    hide Linked;
    hide DepsSound;
    hide GraphFold;
    hide TaskFold;
    hide LawfulEntry;
    hide PutPlan;
    var f := GraphFailed(GRAPH, "node_failed");
    EndPuts(MISSION, j, GRAPH, WHO);
    OwnGraphEntry(j, GRAPH, WHO, f);
    LawfulStep(j, GRAPH, MISSION, 0.0, GraphEntry(WHO, f));
    ExtendOne(j, MISSION, 0.0, GraphEntry(WHO, f));
    FactApplied(GraphFold(j, GRAPH).value, TaskFold(j).value, f);
    GoodUnfold(Extend(j, MISSION, 0.0, [GraphEntry(WHO, f)]), GRAPH, MISSION);
  }

  /** The state of a two-node graph with one node running and the other's lease cut short. */
  lemma HalfLeased() returns (turns: seq<GraphLifecycle.Turn>, states: seq<seq<Event>>, j: seq<Event>)
    ensures Reached(turns, states, j) && |turns| == 4
    ensures Good(j, GRAPH, MISSION) && Readable(j) && Healthy(j, GRAPH)
    ensures var g, tasks := GraphFold(j, GRAPH).value, TaskFold(j).value.tasks;
      && g.status == Running && g.nodes.Keys == {"a", "b"} && g.nodes["a"].status == Running
      && StartsHere(GRAPH, g, tasks, "b")
  {
    hide Reached;
    hide Good;
    hide Readable;
    hide Linked;
    hide DepsSound;
    hide GraphFold;
    hide TaskFold;
    hide ValidDefinition;
    hide LeasePlan;
    TwoValid();
    turns, states, j := BegunRun(TWO);
    ReadyAtOnce(GraphFold(j, GRAPH).value, TaskFold(j).value.tasks, "a");
    ReadyAtOnce(GraphFold(j, GRAPH).value, TaskFold(j).value.tasks, "b");
    LeasedNode(MISSION, j, GRAPH, "a", "worker", 1, "lease", WHO, 0.0);
    turns, states := Continue(turns, states, j, LeaseOp("a", "worker", 1, "lease"));
    j := Extend(j, MISSION, 0.0, LeasePlan(MISSION, j, GRAPH, "a", "worker", 1, "lease", WHO, 0.0).entries);
    var v := TaskFold(j).value;
    assert Ready(GRAPH, GraphFold(j, GRAPH).value, v.tasks, "b");
    LeasePlanned(MISSION, j, GRAPH, "b", "worker", 1, "other", WHO, 0.0);
    LeasedOnce(MISSION, j, GRAPH, "b", "worker", "other", WHO, 0.0, 1.0);
    var u := LeaseUpdate(WHO, GRAPH, "b", v.tasks, "worker", "other", 1.0);
    assert [u, StartEntry(WHO, GRAPH, "b", "worker", "other")][..1] == [u];
    turns, states := CutShort(turns, states, j, LeaseOp("b", "worker", 1, "other"));
    j := Extend(j, MISSION, 0.0, [u]);
  }

  /** A node fails and the graph with it while another node's lease still lacks its start: then
      `reconcile` writes the start, and `replay_graph` rejects the journal. */
  lemma StartOffRunning() returns (turns: seq<GraphLifecycle.Turn>, states: seq<seq<Event>>, j: seq<Event>)
    ensures Reached(turns, states, j) && |turns| == 6 && turns[4].op == FailOp("a", "error")
      && turns[5].op == MaybeCompleteOp
    ensures Readable(j) && GraphFold(j, GRAPH).Success? && GraphFold(j, GRAPH).value.status == Failed
    ensures GraphFold(Extend(j, MISSION, 0.0, ReconcilePlan(MISSION, j, GRAPH, WHO).entries), GRAPH).Failure?
  {
    hide Reached;
    hide Good;
    hide Readable;
    hide Linked;
    hide DepsSound;
    hide GraphFold;
    hide TaskFold;
    hide FailPlan;
    hide MaybeCompletePlan;
    hide ReconcilePlan;
    turns, states, j := HalfLeased();
    FailedState(j, "a");
    turns, states := Continue(turns, states, j, FailOp("a", "error"));
    j := Extend(j, MISSION, 0.0, FailPlan(MISSION, j, GRAPH, "a", WHO, "error").entries);
    assert "a" in GraphFold(j, GRAPH).value.nodes && GraphFold(j, GRAPH).value.nodes["a"].status == Failed;
    EndedState(j);
    turns, states := Continue(turns, states, j, MaybeCompleteOp);
    assert turns[4] == turns[..5][4];
    j := Extend(j, MISSION, 0.0, MaybeCompletePlan(MISSION, j, GRAPH, WHO).entries);
    assert StartsHere(GRAPH, GraphFold(j, GRAPH).value, TaskFold(j).value.tasks, "b");
    ReconcileRejected(MISSION, j, GRAPH, WHO, 0.0);
  }

  /** A session resumed while it is active: the event is written, and no projection can be read. */
  lemma ActiveResumed() returns (turns: seq<Runtime.Turn>, states: seq<Tables>)
    ensures Runtime.IsRun(MISSION, turns, states) && |turns| == 1 && Readable(states[1].journal)
    ensures var j := states[1].journal;
      var resume := RecordPlan(MISSION, j, TaskFold(j).value.tasks, RecordFold(j).value, ResumeSession("session", None),
        WHO);
      && resume.fault == Some(ReplayRejected) && |resume.entries| == 1
      && Replay(Extend(j, MISSION, 0.0, resume.entries)).Failure?
  {
    hide WellKept;
    hide TurnTables;
    hide Replay;
    hide RecordFold;
    hide TaskFold;
    hide RecordPlan;
    var t := Runtime.Turn(OnRecords(CreateSession("session", "agent", "executor", None)), WHO, 0.0, 1);
    NothingReached();
    turns, states := [t], [NO_ROWS, TurnTables(NO_ROWS, MISSION, t)];
    SessionActive(t);
    EveryRunConsistent(MISSION, turns, states, 1);
    KeptReads(states[1], MISSION);
    SoundIsWellKept(states[1], MISSION);
    ResumeReadableIffInterrupted(MISSION, states[1].journal, "session", None, WHO, 0.0);
    ResumeFaults(states[1].journal);
  }

  lemma SessionActive(t: Runtime.Turn)
    requires t == Runtime.Turn(OnRecords(CreateSession("session", "agent", "executor", None)), WHO, 0.0, 1)
      && Readable([])
    ensures TurnPermitted([], t)
    ensures var j := TurnTables(NO_ROWS, MISSION, t).journal;
      RecordFold(j).Success? && "session" in RecordFold(j).value.sessions
        && RecordFold(j).value.sessions["session"].active
  {
    hide Keyed;
    hide TaskFold;
    hide RecordFold;
    hide UpdateTables;
    hide ReleaseTables;
    hide CreateTaskPlan;
    var e := Entry(WHO, OfRecord(SessionCreateKey("session")),
                   Record(SessionCreated("session", "agent", "executor", None)));
    NoRecordsYet();
    RecordFoldAppend([], Stamp(MISSION, 1, 0.0, e));
    assert [] + [Stamp(MISSION, 1, 0.0, e)] == [Stamp(MISSION, 1, 0.0, e)];
  }

  lemma NoRecordsYet()
    ensures RecordFold([]) == Success(NO_RECORDS)
  {
  }

  lemma ResumeFaults(j: seq<Event>)
    requires Readable(j) && "session" in RecordFold(j).value.sessions && RecordFold(j).value.sessions["session"].active
    ensures var resume := RecordPlan(MISSION, j, TaskFold(j).value.tasks, RecordFold(j).value,
      ResumeSession("session", None), WHO);
      resume.fault == Some(ReplayRejected)
  {
    hide TaskFold;
    hide RecordFold;
    hide RecordKeyed;
    hide TaskKeyed;
    ResumeKeyNew(j, RecordFold(j).value, "session");
  }

  const POOL := "pool"

  /** What follows the rules of the graph is acceptable, and none of the pool's business. */
  lemma LawfulForeign(j: seq<Event>, entries: seq<Entry>)
    requires Good(j, GRAPH, MISSION) && Lawful(j, GRAPH, MISSION, 0.0, entries)
    ensures Admissible(j, MISSION, 0.0, entries)
    ensures forall e :: e in entries ==> !OfThisPool(e.body, POOL) && !e.body.Pool?
    ensures forall e :: e in entries ==> !e.key.OfPool?
  {
    hide Good;
    hide Acceptable;
    hide EnabledAt;
    forall k | 0 <= k < |entries| ensures Acceptable(Extend(j, MISSION, 0.0, entries[..k]), entries[k]) {
      LawfulKeeps(j, GRAPH, MISSION, 0.0, entries, k);
      LawfulAccepted(Extend(j, MISSION, 0.0, entries[..k]), GRAPH, MISSION, entries[k]);
    }
  }

  /** A pool that only other entries were written beside. */
  ghost predicate Untouched(j: seq<Event>) {
    && PoolGood(j, MISSION, POOL) && PoolFold(j, POOL) == Success(NO_POOL)
    && forall run :: Unused(j, OfPool(AcquireKey(POOL, run)))
  }

  /** A whole operation on the graph is a turn of a run of the pool. */
  lemma Beside(poolTurns: seq<PoolTurn>, states: seq<seq<Event>>, j: seq<Event>, entries: seq<Entry>)
    returns (poolTurns': seq<PoolTurn>)
    requires IsPoolRun(MISSION, POOL, poolTurns, states) && states[|poolTurns|] == j
    requires Good(j, GRAPH, MISSION) && Lawful(j, GRAPH, MISSION, 0.0, entries) && Untouched(j)
    ensures var j' := Extend(j, MISSION, 0.0, entries);
      IsPoolRun(MISSION, POOL, poolTurns', states + [j']) && |poolTurns'| == |poolTurns| + 1 && Untouched(j')
  {
    hide Good;
    hide Lawful;
    hide Admissible;
    hide Untouched;
    hide PoolAfter;
    LawfulForeign(j, entries);
    var t := PoolTurn(Elsewhere(entries), WHO, 0.0, |entries|);
    WholeBeside(j, entries);
    poolTurns' := poolTurns + [t];
    var j' := Extend(j, MISSION, 0.0, entries);
    LongerPoolRun(poolTurns, states, j, t);
    EveryPoolRun(MISSION, POOL, poolTurns', states + [j'], |poolTurns'|);
    StillUntouched(j, entries);
  }

  lemma WholeBeside(j: seq<Event>, entries: seq<Entry>)
    ensures PoolAfter(MISSION, j, POOL, PoolTurn(Elsewhere(entries), WHO, 0.0, |entries|))
      == Extend(j, MISSION, 0.0, entries)
  {
    assert entries[..|entries|] == entries;
  }

  lemma LongerPoolRun(poolTurns: seq<PoolTurn>, states: seq<seq<Event>>, j: seq<Event>, t: PoolTurn)
    requires IsPoolRun(MISSION, POOL, poolTurns, states) && states[|poolTurns|] == j
    requires t.op.Elsewhere? ==>
      Admissible(j, MISSION, t.now, t.op.entries) && forall e :: e in t.op.entries ==> !OfThisPool(e.body, POOL)
    ensures IsPoolRun(MISSION, POOL, poolTurns + [t], states + [PoolAfter(MISSION, j, POOL, t)])
  {
    hide Admissible;
    hide PoolAfter;
  }

  lemma StillUntouched(j: seq<Event>, entries: seq<Entry>)
    requires Untouched(j) && PoolGood(Extend(j, MISSION, 0.0, entries), MISSION, POOL)
    requires forall e :: e in entries ==> !e.body.Pool? && !e.key.OfPool?
    ensures Untouched(Extend(j, MISSION, 0.0, entries))
  {
    hide PoolFold;
    hide PoolGood;
    var j' := Extend(j, MISSION, 0.0, entries);
    ForeignToPool(MISSION, j, POOL, 0.0, entries, NodeRun(GRAPH, "a", WHO));
    forall run ensures Unused(j', OfPool(AcquireKey(POOL, run))) {
      ForeignToPool(MISSION, j, POOL, 0.0, entries, run);
    }
  }

  /** The state after `configure(1)`. */
  lemma Configured(j: seq<Event>) returns (e: Entry)
    requires Good(j, GRAPH, MISSION) && Readable(j) && Healthy(j, GRAPH) && Untouched(j)
    ensures PoolEntries(MISSION, j, POOL, Configure(1), WHO) == [e] && e.body == Pool(PoolConfigured(POOL, 1))
    ensures Acceptable(j, e)
    ensures var j' := Extend(j, MISSION, 0.0, [e]);
      && TaskFold(j') == TaskFold(j) && GraphFold(j', GRAPH) == GraphFold(j, GRAPH)
      && PoolFold(j', POOL) == Success(PoolView(true, 1, map[]))
      && forall run :: Unused(j', OfPool(AcquireKey(POOL, run)))
  {
    hide Good;
    hide Readable;
    hide Healthy;
    hide GraphFold;
    hide TaskFold;
    hide PoolFold;
    hide PoolGood;
    hide Acceptable;
    hide ConfigurePlan;
    TargetWritten(MISSION, j, POOL, 1, WHO);
    e := PoolEntry(WHO, LastSeq(j, POOL), PoolConfigured(POOL, 1));
    PoolCallLawful(MISSION, j, POOL, Configure(1), WHO, e);
    ExtendOne(j, MISSION, 0.0, e);
    var event := Stamp(MISSION, |j| + 1, 0.0, e);
    PoolFactReads(j, event);
    PoolFoldAppend(j, POOL, event);
    forall run ensures Unused(j + [event], OfPool(AcquireKey(POOL, run))) {
      UnusedSnoc(j, event, OfPool(AcquireKey(POOL, run)));
    }
  }

  /** A started one-node graph and a pool of one slot, reached by runs of both. */
  lemma PoolReady()
    returns (turns: seq<GraphLifecycle.Turn>, poolTurns: seq<PoolTurn>, states: seq<seq<Event>>, j: seq<Event>)
    ensures Reached(turns, states, j) && IsPoolRun(MISSION, POOL, poolTurns, states) && |turns| == |poolTurns| == 3
    ensures Readable(j) && Healthy(j, GRAPH) && ReadyReport(GRAPH, j) == Success(["a"])
    ensures PoolFold(j, POOL) == Success(PoolView(true, 1, map[]))
    ensures forall lease :: Dispatchable(MISSION, j, GRAPH, POOL, [Offer("a", "worker", lease)])
  {
    hide Reached;
    hide Good;
    hide Readable;
    hide Healthy;
    hide Lawful;
    hide Untouched;
    hide GraphFold;
    hide TaskFold;
    hide PoolFold;
    hide CreatePlan;
    hide StartPlan;
    hide ValidDefinition;
    hide IsPoolRun;
    hide Acceptable;
    hide Ready;
    hide ReadyNodes;
    OneValid();
    NothingReached();
    NoPoolYet();
    turns, states := Continue([], [[]], [], CreateOp(ONE));
    CreateLawful(MISSION, [], ONE, WHO, 0.0);
    poolTurns := Beside([], [[]], [], CreatePlan(MISSION, [], ONE, WHO).entries);
    j := Extend([], MISSION, 0.0, CreatePlan(MISSION, [], ONE, WHO).entries);
    CreatedState(MISSION, [], ONE, WHO, 0.0);
    StartLawful(MISSION, j, GRAPH, WHO, 0.0);
    poolTurns := Beside(poolTurns, states, j, StartPlan(MISSION, j, GRAPH, WHO).entries);
    turns, states := Continue(turns, states, j, StartOp);
    j := Begun(MISSION, [], ONE, WHO, 0.0, WHO, 0.0);
    BegunIdle(MISSION, [], ONE, WHO, 0.0, WHO, 0.0);
    HealthyLinked(j, GRAPH);
    ReadyAtOnce(GraphFold(j, GRAPH).value, TaskFold(j).value.tasks, "a");
    turns, poolTurns, states, j := WithPool(turns, poolTurns, states, j);
  }

  lemma NoPoolYet()
    ensures Untouched([]) && IsPoolRun(MISSION, POOL, [], [[]])
  {
    NothingPoolGood(MISSION, POOL);
  }

  lemma WithPool(turns: seq<GraphLifecycle.Turn>, poolTurns: seq<PoolTurn>, states: seq<seq<Event>>, j: seq<Event>)
    returns (turns': seq<GraphLifecycle.Turn>, poolTurns': seq<PoolTurn>, states': seq<seq<Event>>, j': seq<Event>)
    requires Reached(turns, states, j) && IsPoolRun(MISSION, POOL, poolTurns, states) && |turns| == |poolTurns| == 2
    requires Good(j, GRAPH, MISSION) && Readable(j) && Healthy(j, GRAPH) && Untouched(j)
    requires Ready(GRAPH, GraphFold(j, GRAPH).value, TaskFold(j).value.tasks, "a")
      && GraphFold(j, GRAPH).value.nodes.Keys == {"a"}
    ensures Reached(turns', states', j') && IsPoolRun(MISSION, POOL, poolTurns', states')
      && |turns'| == |poolTurns'| == 3
    ensures Readable(j') && Healthy(j', GRAPH) && ReadyReport(GRAPH, j') == Success(["a"])
    ensures PoolFold(j', POOL) == Success(PoolView(true, 1, map[]))
    ensures forall lease :: Dispatchable(MISSION, j', GRAPH, POOL, [Offer("a", "worker", lease)])
  {
    hide Good;
    hide Readable;
    hide Linked;
    hide DepsSound;
    hide GraphFold;
    hide TaskFold;
    hide PoolFold;
    hide PoolGood;
    hide Acceptable;
    hide Ready;
    hide ReadyNodes;
    hide PoolEntries;
    hide Admissible;
    var e := Configured(j);
    AdmissibleOne(j, MISSION, 0.0, e);
    turns', states' := Continue(turns, states, j, ElsewhereOp([e]));
    var t := PoolTurn(Configure(1), WHO, 0.0, 1);
    assert [e][..1] == [e];
    poolTurns' := poolTurns + [t];
    j' := Extend(j, MISSION, 0.0, [e]);
    EveryRunGood(MISSION, GRAPH, turns', states', 3);
    EveryPoolRun(MISSION, POOL, poolTurns', states', 3);
    GoodUnfold(j', GRAPH, MISSION);
    var g, tasks := GraphFold(j', GRAPH).value, TaskFold(j').value.tasks;
    ReadyNodesExact(GRAPH, g, tasks);
    OnlyReady(g, tasks);
  }

  lemma OnlyReady(g: GraphView, tasks: TaskMap)
    requires ReadyNodes(GRAPH, g, tasks).Success? && Ascending(ReadyNodes(GRAPH, g, tasks).value)
    requires forall n :: n in ReadyNodes(GRAPH, g, tasks).value <==> Ready(GRAPH, g, tasks, n)
    requires Ready(GRAPH, g, tasks, "a") && g.nodes.Keys == {"a"}
    ensures ReadyNodes(GRAPH, g, tasks).value == ["a"]
  {
    hide ReadyNodes;
    var ready := ReadyNodes(GRAPH, g, tasks).value;
    assert "a" in ready;
    forall i | 0 <= i < |ready| ensures ready[i] == "a" {
      assert ready[i] in ready && Ready(GRAPH, g, tasks, ready[i]) && ready[i] in g.nodes.Keys;
    }
    assert Elements(ready) == {"a"};
    DistinctCount(ready);
  }

  /** Two dispatchers read the one ready node of a graph and offer it to the one worker.  The slot the
      first one took is free again after the second one failed, and the node still runs. */
  lemma SlotGivenAway()
    returns (turns: seq<GraphLifecycle.Turn>, poolTurns: seq<PoolTurn>, states: seq<seq<Event>>, j: seq<Event>)
    ensures Reached(turns, states, j) && IsPoolRun(MISSION, POOL, poolTurns, states)
    ensures Readable(j) && ReadyReport(GRAPH, j) == Success(["a"]) && Sound(j, MISSION)
    ensures var first := DispatchOf(MISSION, j, GRAPH, POOL, Offers(["a"], ["worker"], ["first"]), 1, WHO, 0.0);
      var j1 := Extend(j, MISSION, 0.0, first.entries);
      && first.fault.None? && Sound(j1, MISSION) && PoolFold(j1, POOL).Success?
        && |PoolFold(j1, POOL).value.active| == 1
      && var second := DispatchOf(MISSION, j1, GRAPH, POOL, Offers(["a"], ["worker"], ["second"]), 1, WHO, 0.0);
         var j2 := Extend(j1, MISSION, 0.0, second.entries);
         && second.fault == Some(Conflict)
         && PoolFold(j2, POOL).Success? && PoolFold(j2, POOL).value.active == map[]
         && GraphFold(j2, GRAPH).Success? && "a" in GraphFold(j2, GRAPH).value.nodes
         && GraphFold(j2, GRAPH).value.nodes["a"].status == Running
  {
    hide Reached;
    hide IsPoolRun;
    hide Readable;
    hide Linked;
    hide DepsSound;
    hide GraphFold;
    hide TaskFold;
    hide PoolFold;
    hide DispatchOf;
    hide Sound;
    hide Dispatchable;
    hide ReadyNodes;
    turns, poolTurns, states, j := PoolReady();
    var o := Offer("a", "worker", "first");
    assert Offers(["a"], ["worker"], ["first"]) == [o];
    assert Offers(["a"], ["worker"], ["second"]) == [Offer("a", "worker", "second")];
    DispatchableSound(MISSION, j, GRAPH, POOL, [o]);
    SecondDispatcher(MISSION, j, GRAPH, POOL, o, 1, WHO, 0.0, WHO, "second", 0.0);
    OneSlot(j, o);
  }

  lemma OneSlot(j: seq<Event>, o: Offer)
    requires Dispatchable(MISSION, j, GRAPH, POOL, [o]) && PoolFold(j, POOL) == Success(PoolView(true, 1, map[]))
    ensures Sound(j, MISSION)
    ensures var j1 := Extend(j, MISSION, 0.0, DispatchOf(MISSION, j, GRAPH, POOL, [o], 1, WHO, 0.0).entries);
      && PoolFold(j1, POOL).Success? && PoolFold(j1, POOL).value.active.Keys == {RunOf(GRAPH, o)}
      && |PoolFold(j1, POOL).value.active| == 1
      && PoolFold(j1, POOL).value.active - {RunOf(GRAPH, o)} == map[]
  {
    hide PoolFold;
    hide GraphFold;
    hide TaskFold;
    hide DispatchOf;
    hide Dispatchable;
    hide Dispatched;
    hide Sound;
    hide Good;
    hide PoolGood;
    DispatchableSound(MISSION, j, GRAPH, POOL, [o]);
    DispatchExact(MISSION, j, GRAPH, POOL, [o], 1, WHO, 0.0);
    var d := DispatchOf(MISSION, j, GRAPH, POOL, [o], 1, WHO, 0.0);
    assert [o][..1] == [o];
    OneRun(j, Extend(j, MISSION, 0.0, d.entries), o, d.assignments);
  }

  lemma OneRun(j: seq<Event>, after: seq<Event>, o: Offer, assignments: seq<Assignment>)
    requires Dispatched(j, after, GRAPH, POOL, [o], assignments)
      && PoolFold(j, POOL) == Success(PoolView(true, 1, map[]))
    ensures PoolFold(after, POOL).Success? && PoolFold(after, POOL).value.active.Keys == {RunOf(GRAPH, o)}
    ensures |PoolFold(after, POOL).value.active| == 1 && PoolFold(after, POOL).value.active - {RunOf(GRAPH, o)} == map[]
  {
    hide PoolFold;
    hide GraphFold;
    hide NodesDispatched;
    var w := PoolFold(after, POOL).value;
    assert Assigns(w, GRAPH, o, assignments[0]);
    assert w.active.Keys == {RunOf(GRAPH, o)};
    assert (w.active - {RunOf(GRAPH, o)}).Keys == {};
  }
}
