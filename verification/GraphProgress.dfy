/** How leasing and completing its nodes one by one, in any order that is ready, finishes a graph
    in as many rounds as it has nodes. */
module GraphProgress {
  import opened Base
  import opened Digraph
  import opened Journal
  import opened Tasks
  import opened GraphLog
  import opened Store
  import opened Projection
  import opened GraphRules
  import opened GraphHistory
  import opened GraphPlans
  import opened GraphSafety
  import opened GraphRepair
  import opened GraphLifecycle
  import opened GraphCrash
  import opened GraphDeadlock

  /** A running graph between rounds: every node waits or is completed. */
  ghost predicate Idle(gid: string, g: GraphView, tasks: TaskMap) {
    && g.status == Running
    && forall n :: n in g.nodes ==>
         && NodeTask(gid, n) in tasks
         && (g.nodes[n].status == Completed || (g.nodes[n].status == Pending && Waiting(tasks[NodeTask(gid, n)])))
  }

  /** `_pass_receipt`: the one receipt of a node and its worker. */
  function PassReceipt(gid: string, n: string, worker: string): Receipt {
    var material := ReceiptMaterial(RECEIPT_SCHEMA, gid, n, worker, "PASS", ["artifact://" + n], Some(n));
    Receipt(material, Digest(material))
  }

  /** Who leases which node when, and who completes it when. */
  datatype Shift = Shift(node: string, worker: string, ttl: int, lease: string, actor: string, now: real,
                         closer: string, later: real)

  /** Lease a node and complete it. */
  ghost function Round(m: string, j: seq<Event>, gid: string, s: Shift): seq<Event>
    requires Readable(j)
  {
    var leased := Extend(j, m, s.now, LeasePlan(m, j, gid, s.node, s.worker, s.ttl, s.lease, s.actor, s.now).entries);
    if Readable(leased) then
      Extend(leased, m, s.later, CompletePlan(m, leased, gid, s.node, PassReceipt(gid, s.node, s.worker),
        s.closer).entries)
    else leased
  }

  /** The state after `lease_node`. */
  lemma LeasedNode(m: string, j: seq<Event>, gid: string, n: string, worker: string, ttl: int,
                   lease: string, actor: string, now: real)
    requires Good(j, gid, m) && Readable(j) && Healthy(j, gid) && m != "" && actor != "" && ttl > 0
    requires Ready(gid, GraphFold(j, gid).value, TaskFold(j).value.tasks, n)
    ensures var g, v, t := GraphFold(j, gid).value, TaskFold(j).value, NodeTask(gid, n);
      var j' := Extend(j, m, now, LeasePlan(m, j, gid, n, worker, ttl, lease, actor, now).entries);
      && Good(j', gid, m) && Readable(j') && Healthy(j', gid)
      && TaskFold(j') == Success(v.(tasks := v.tasks[t :=
           Change(v.tasks[t], v.tasks[t].revision + 1, LeaseChanges(worker, lease, now + ttl as real))]))
      && GraphFold(j', gid) == Success(g.(nodes := g.nodes[n :=
           g.nodes[n].(status := Running, owner := Some(worker), lease := Some(lease))]))
  {
    hide Good;
    hide Readable;
    hide TaskFold;
    hide GraphFold;
    hide Linked;
    hide DepsSound;
    hide LeasePlan;
    hide LawfulEntry;
    var g, v := GraphFold(j, gid).value, TaskFold(j).value;
    var until := now + ttl as real;
    var u, s := LeaseUpdate(actor, gid, n, v.tasks, worker, lease, until), StartEntry(actor, gid, n, worker, lease);
    LeasePlanned(m, j, gid, n, worker, ttl, lease, actor, now);
    LeasedOnce(m, j, gid, n, worker, lease, actor, now, until);
    var crashed := Extend(j, m, now, [u]);
    var f := NodeStarted(gid, n, worker, lease);
    OwnGraphEntry(crashed, gid, actor, f);
    LawfulStep(crashed, gid, m, now, s);
    ExtendSnoc(j, m, now, [u], s);
    assert [u] + [s] == [u, s];
    StartApplied(gid, g, TaskFold(crashed).value, n, TaskFold(crashed).value.tasks[NodeTask(gid, n)], f, actor);
    GoodUnfold(Extend(j, m, now, [u, s]), gid, m);
  }

  /** A leased node can be completed with its receipt. */
  lemma LeaseOpensCompletion(gid: string, g: GraphView, tasks: TaskMap, n: string, worker: string, lease: string,
                             until: real)
    requires Linked(gid, g, tasks) && Ready(gid, g, tasks, n)
    ensures var t := NodeTask(gid, n);
      Completable(gid,
        g.(nodes := g.nodes[n := g.nodes[n].(status := Running, owner := Some(worker), lease := Some(lease))]),
                      tasks[t := Change(tasks[t], tasks[t].revision + 1, LeaseChanges(worker, lease, until))],
                      n, PassReceipt(gid, n, worker))
  {
    assert NodeLinked(gid, g, tasks, n);
  }

  /** What one more completed node leaves of an idle graph. */
  lemma OneCompleted(gid: string, g: GraphView, tasks: TaskMap, n: string, g': GraphView, tasks': TaskMap)
    requires Idle(gid, g, tasks) && n in g.nodes
    requires g'.status == Running && g'.nodes.Keys == g.nodes.Keys && g'.nodes[n].status == Completed
    requires forall k :: k in g.nodes && k != n ==> g'.nodes[k] == g.nodes[k]
    requires forall t :: t in tasks ==> t in tasks' && (t != NodeTask(gid, n) ==> tasks'[t] == tasks[t])
    ensures Idle(gid, g', tasks') && Remaining(g') == Remaining(g) - {n}
  {
  }

  /** One round completes one node and leaves the rest as they were. */
  lemma RoundAdvances(m: string, j: seq<Event>, gid: string, s: Shift)
    requires Good(j, gid, m) && Readable(j) && Healthy(j, gid) && m != "" && s.actor != "" && s.closer != ""
      && s.ttl > 0
    requires Idle(gid, GraphFold(j, gid).value, TaskFold(j).value.tasks)
    requires Ready(gid, GraphFold(j, gid).value, TaskFold(j).value.tasks, s.node)
    ensures var j' := Round(m, j, gid, s);
      && Good(j', gid, m) && Readable(j') && Healthy(j', gid)
      && Idle(gid, GraphFold(j', gid).value, TaskFold(j').value.tasks)
      && Remaining(GraphFold(j', gid).value) == Remaining(GraphFold(j, gid).value) - {s.node}
  {
    hide Good;
    hide Readable;
    hide Healthy;
    hide TaskFold;
    hide GraphFold;
    hide DepsSound;
    hide LeasePlan;
    hide CompletePlan;
    hide Linked;
    hide Ready;
    hide Idle;
    hide Remaining;
    hide Completable;
    hide PassReceipt;
    hide Change;
    var n := s.node;
    HealthyLinked(j, gid);
    var g, tasks := GraphFold(j, gid).value, TaskFold(j).value.tasks;
    ReadyHere(gid, g, tasks, n);
    LeasedNode(m, j, gid, n, s.worker, s.ttl, s.lease, s.actor, s.now);
    LeaseOpensCompletion(gid, g, tasks, n, s.worker, s.lease, s.now + s.ttl as real);
    var leased := Extend(j, m, s.now, LeasePlan(m, j, gid, n, s.worker, s.ttl, s.lease, s.actor, s.now).entries);
    HealthyLinked(leased, gid);
    CompletionStates(m, leased, gid, n, PassReceipt(gid, n, s.worker), s.closer, s.later);
    var j' := Round(m, j, gid, s);
    HealthyLinked(j', gid);
    OneCompleted(gid, g, tasks, n, GraphFold(j', gid).value, TaskFold(j').value.tasks);
  }

  lemma HealthyLinked(j: seq<Event>, gid: string)
    requires Healthy(j, gid)
    ensures TaskFold(j).Success? && GraphFold(j, gid).Success?
    ensures Linked(gid, GraphFold(j, gid).value, TaskFold(j).value.tasks)
  {
  }

  lemma ReadyHere(gid: string, g: GraphView, tasks: TaskMap, n: string)
    requires Ready(gid, g, tasks, n)
    ensures g.status == Running && n in g.nodes && NodeTask(gid, n) in tasks
  {
  }

  /** A run of rounds: each takes a node that is ready when it begins. */
  ghost predicate IsShifts(m: string, gid: string, shifts: seq<Shift>, states: seq<seq<Event>>) {
    && |states| == |shifts| + 1
    && forall i :: 0 <= i < |shifts| && Readable(states[i]) && Healthy(states[i], gid) ==>
         && Ready(gid, GraphFold(states[i], gid).value, TaskFold(states[i]).value.tasks, shifts[i].node)
         && shifts[i].actor != "" && shifts[i].closer != "" && shifts[i].ttl > 0
         && states[i + 1] == Round(m, states[i], gid, shifts[i])
  }

  /** From an idle graph each round leaves one node fewer, and as long as one is left another round
      can begin: some node is ready. */
  lemma {:induction false} RoundsComplete(m: string, gid: string, shifts: seq<Shift>, states: seq<seq<Event>>, i: nat)
    requires IsShifts(m, gid, shifts, states) && i <= |shifts| && m != ""
    requires Good(states[0], gid, m) && Readable(states[0]) && Healthy(states[0], gid)
    requires Idle(gid, GraphFold(states[0], gid).value, TaskFold(states[0]).value.tasks)
    ensures Good(states[i], gid, m) && Readable(states[i]) && Healthy(states[i], gid)
    ensures var g, tasks := GraphFold(states[i], gid).value, TaskFold(states[i]).value.tasks;
      && Idle(gid, g, tasks) && |Remaining(g)| == |Remaining(GraphFold(states[0], gid).value)| - i
      && ReadyNodes(gid, g, tasks).Success? && (Remaining(g) != {} <==> ReadyNodes(gid, g, tasks).value != [])
  {
    hide Good;
    hide Readable;
    hide TaskFold;
    hide GraphFold;
    hide DepsSound;
    hide Round;
    hide Ready;
    hide Linked;
    hide Idle;
    hide ReadyNodes;
    if i > 0 {
      var k := i - 1;
      RoundsComplete(m, gid, shifts, states, k);
      var g, tasks := GraphFold(states[k], gid).value, TaskFold(states[k]).value.tasks;
      assert states[k + 1] == Round(m, states[k], gid, shifts[k]);
      ReadyRemains(gid, g, tasks, shifts[k].node);
      RoundAdvances(m, states[k], gid, shifts[k]);
    }
    IdleHasReady(gid, GraphFold(states[i], gid).value, TaskFold(states[i]).value.tasks);
  }

  lemma ReadyRemains(gid: string, g: GraphView, tasks: TaskMap, n: string)
    requires Ready(gid, g, tasks, n)
    ensures n in Remaining(g)
  {
  }

  /** An idle graph is running, repaired and at rest, with no lease held: it has a ready node as long
      as one is left. */
  lemma IdleHasReady(gid: string, g: GraphView, tasks: TaskMap)
    requires Linked(gid, g, tasks) && Idle(gid, g, tasks)
    ensures ReadyNodes(gid, g, tasks).Success?
    ensures Remaining(g) != {} <==> ReadyNodes(gid, g, tasks).value != []
    ensures forall n :: n in ReadyNodes(gid, g, tasks).value ==> Ready(gid, g, tasks, n)
  {
    hide ReadyNodes;
    assert Settled(gid, g, tasks) && AtRest(g) && NoneHeld(gid, g, tasks);
    NoDeadlock(gid, g, tasks);
    ReadyNodesExact(gid, g, tasks);
    if ReadyNodes(gid, g, tasks).value != [] {
      ReadyRemains(gid, g, tasks, ReadyNodes(gid, g, tasks).value[0]);
    }
  }

  /** A repaired graph at rest, without a held lease, is idle: what the rounds start from is what the
      freedom from deadlock speaks of. */
  lemma RestIsIdle(gid: string, g: GraphView, tasks: TaskMap)
    requires Linked(gid, g, tasks) && g.status == Running && Settled(gid, g, tasks) && AtRest(g)
      && NoneHeld(gid, g, tasks)
    ensures Idle(gid, g, tasks)
  {
    forall n | n in g.nodes
      ensures NodeTask(gid, n) in tasks
      ensures g.nodes[n].status == Completed || (g.nodes[n].status == Pending && Waiting(tasks[NodeTask(gid, n)]))
    {
      assert NodeLinked(gid, g, tasks, n) && !StartsHere(gid, g, tasks, n) && !Held(gid, g, tasks, n);
    }
  }

  /** The tasks a materialization creates wait. */
  lemma {:induction false} CreationsWait(gid: string, nodes: map<string, NodeState>, v: TaskView, order: seq<string>)
    requires forall n :: NodeTask(gid, n) !in v.tasks
    ensures forall n :: NodeTask(gid, n) in AfterCreations(gid, nodes, v, order).tasks ==>
      Waiting(AfterCreations(gid, nodes, v, order).tasks[NodeTask(gid, n)])
  {
    if order != [] { CreationsWait(gid, nodes, v, order[..|order| - 1]); }
  }

  lemma {:induction false} NothingToCreate(gid: string, nodes: map<string, NodeState>, tasks: TaskMap,
                                           order: seq<string>, actor: string)
    requires forall n :: n in nodes ==> NodeTask(gid, n) in tasks
    ensures TaskCreations(gid, nodes, tasks, order, actor) == []
  {
    if order != [] { NothingToCreate(gid, nodes, tasks, order[..|order| - 1], actor); }
  }

  /** The state after `create_graph` of a new graph. */
  lemma CreatedState(m: string, j: seq<Event>, d: Definition, actor: string, now: real)
    requires Good(j, d.graph, m) && Readable(j) && ValidDefinition(d) && Unused(j, OfGraph(GraphCreateKey(d.graph)))
    requires m != "" && actor != ""
    ensures var j' := Extend(j, m, now, CreatePlan(m, j, d, actor).entries);
      && Good(j', d.graph, m) && Readable(j') && Healthy(j', d.graph)
      && GraphFold(j', d.graph) == Success(GraphView(Created, NodesOf(d.nodes), OrderOf(d.nodes)))
      && forall n :: n in NodesOf(d.nodes) ==>
           NodeTask(d.graph, n) in TaskFold(j').value.tasks && Waiting(TaskFold(j').value.tasks[NodeTask(d.graph, n)])
  {
    hide Good;
    hide Readable;
    hide Lawful;
    hide LawfulEntry;
    hide TaskFold;
    hide GraphFold;
    hide DepsSound;
    hide ValidNodes;
    hide Layered;
    hide NodeDeps;
    hide Waiting;
    hide AfterCreations;
    hide TaskCreations;
    hide CreatePlan;
    var gid, nodes := d.graph, NodesOf(d.nodes);
    GoodUnfold(j, gid, m);
    CreatePlanned(m, j, d, actor);
    GeneratedOf(j, gid, m);
    AbsentWhenUnused(j, gid);
    var f := GraphCreated(gid, d.nodes);
    var e := GraphEntry(actor, f);
    OwnGraphEntry(j, gid, actor, f);
    LawfulStep(j, gid, m, now, e);
    var v, j1 := TaskFold(j).value, j + [Stamp(m, |j| + 1, now, e)];
    ExtendOne(j, m, now, e);
    CreatedApplied(gid, GraphFold(j, gid).value, v, f, actor);
    var order := Rounds(NodeDeps(nodes), {});
    DefinitionOrder(gid, GraphFold(j1, gid).value, v.tasks, nodes);
    CreationsLawful(j1, gid, m, now, actor, nodes, order);
    CreationsExist(gid, nodes, v, order);
    NoTasksOf(gid, GraphFold(j, gid).value, v.tasks);
    CreationsWait(gid, nodes, v, order);
    ExtendAppend(j, m, now, [e], TaskCreations(gid, nodes, v.tasks, order, actor));
    GoodUnfold(Extend(j1, m, now, TaskCreations(gid, nodes, v.tasks, order, actor)), gid, m);
    assert forall n :: n in nodes ==> n in Elements(order);
  }

  /** The state after `start_graph` of a graph whose tasks exist. */
  lemma StartedState(m: string, j: seq<Event>, gid: string, actor: string, now: real)
    requires Good(j, gid, m) && Readable(j) && Healthy(j, gid) && m != "" && actor != ""
    requires GraphFold(j, gid).value.status == Created
    requires forall n :: n in GraphFold(j, gid).value.nodes ==> NodeTask(gid, n) in TaskFold(j).value.tasks
    ensures var j' := Extend(j, m, now, StartPlan(m, j, gid, actor).entries);
      && Good(j', gid, m) && Readable(j') && Healthy(j', gid)
      && TaskFold(j') == TaskFold(j)
      && GraphFold(j', gid) == Success(GraphFold(j, gid).value.(status := Running))
  {
    hide Good;
    hide Readable;
    hide LawfulEntry;
    hide TaskFold;
    hide GraphFold;
    hide Linked;
    hide DepsSound;
    hide Rounds;
    hide NodeDeps;
    hide PutPlan;
    hide StartPlan;
    var g, tasks := GraphFold(j, gid).value, TaskFold(j).value.tasks;
    var e := GraphEntry(actor, GraphStarted(gid));
    StartPlanned(m, j, gid, actor);
    NothingToCreate(gid, g.nodes, tasks, Rounds(NodeDeps(g.nodes), {}), actor);
    StartPut(m, j, gid, actor);
    assert [] + [e] == [e];
    OwnGraphEntry(j, gid, actor, GraphStarted(gid));
    LawfulStep(j, gid, m, now, e);
    ExtendOne(j, m, now, e);
    BegunApplied(gid, g, TaskFold(j).value, actor);
    GoodUnfold(Extend(j, m, now, [e]), gid, m);
  }

  lemma BegunApplied(gid: string, g: GraphView, v: TaskView, actor: string)
    requires g.status == Created
    ensures TaskStep(v, GraphEntry(actor, GraphStarted(gid)).body) == Success(v)
    ensures GraphStep(gid, g, GraphEntry(actor, GraphStarted(gid)).body) == Success(g.(status := Running))
  {
  }

  /** Create the graph and start it. */
  ghost function Begun(m: string, j: seq<Event>, d: Definition, creator: string, created: real, starter: string,
                       started: real): seq<Event>
    requires Readable(j)
  {
    var first := Extend(j, m, created, CreatePlan(m, j, d, creator).entries);
    if Readable(first) then Extend(first, m, started, StartPlan(m, first, d.graph, starter).entries) else first
  }

  /** A graph just started is idle, with all its nodes left. */
  lemma BegunIdle(m: string, j: seq<Event>, d: Definition, creator: string, created: real, starter: string,
                  started: real)
    requires Good(j, d.graph, m) && Readable(j) && ValidDefinition(d) && Unused(j, OfGraph(GraphCreateKey(d.graph)))
    requires m != "" && creator != "" && starter != ""
    ensures var j' := Begun(m, j, d, creator, created, starter, started);
      && Good(j', d.graph, m) && Readable(j') && Healthy(j', d.graph)
      && Idle(d.graph, GraphFold(j', d.graph).value, TaskFold(j').value.tasks)
      && GraphFold(j', d.graph) == Success(GraphView(Running, NodesOf(d.nodes), OrderOf(d.nodes)))
      && |Remaining(GraphFold(j', d.graph).value)| == |d.nodes|
  {
    hide Good;
    hide Readable;
    hide Healthy;
    hide TaskFold;
    hide GraphFold;
    hide DepsSound;
    hide CreatePlan;
    hide StartPlan;
    hide Waiting;
    hide ValidNodes;
    var first := Extend(j, m, created, CreatePlan(m, j, d, creator).entries);
    CreatedState(m, j, d, creator, created);
    HealthyLinked(first, d.graph);
    StartedState(m, first, d.graph, starter, started);
    FreshNodes(d);
  }

  lemma FreshNodes(d: Definition)
    requires ValidDefinition(d)
    ensures forall n :: n in NodesOf(d.nodes) ==> NodesOf(d.nodes)[n].status == Pending
    ensures |Remaining(GraphView(Running, NodesOf(d.nodes), OrderOf(d.nodes)))| == |d.nodes|
  {
    FreshGraph(d.nodes);
    DistinctNodes(d.nodes);
    DistinctCount(OrderOf(d.nodes));
    assert Remaining(GraphView(Running, NodesOf(d.nodes), OrderOf(d.nodes))) == NodesOf(d.nodes).Keys;
  }

  /** The life of a graph of n nodes, from a journal that does not know it: create it, start it, let
      rounds take ready nodes in any order, by any workers, at any times.  There are at most n
      rounds, another can begin as long as there were fewer, and after n a final
      `maybe_complete_graph` completes the graph. */
  lemma RoundsReachCompletion(m: string, j: seq<Event>, d: Definition, creator: string, created: real, starter: string,
                              started: real,
                              shifts: seq<Shift>, states: seq<seq<Event>>, closer: string, closed: real)
    requires Good(j, d.graph, m) && Readable(j) && ValidDefinition(d) && Unused(j, OfGraph(GraphCreateKey(d.graph)))
    requires m != "" && creator != "" && starter != "" && closer != ""
    requires IsShifts(m, d.graph, shifts, states) && states[0] == Begun(m, j, d, creator, created, starter, started)
    ensures |shifts| <= |d.nodes| && Readable(states[|shifts|])
    ensures ReadyReport(d.graph, states[|shifts|]).Success?
    ensures |shifts| < |d.nodes| ==> ReadyReport(d.graph, states[|shifts|]).value != []
    ensures |shifts| == |d.nodes| ==>
      var last := states[|shifts|];
      var done := Extend(last, m, closed, MaybeCompletePlan(m, last, d.graph, closer).entries);
      GraphFold(done, d.graph).Success? && GraphFold(done, d.graph).value.status == Completed
  {
    hide Good;
    hide Readable;
    hide Healthy;
    hide TaskFold;
    hide GraphFold;
    hide Linked;
    hide DepsSound;
    hide Idle;
    hide IsShifts;
    hide Begun;
    hide ReadyNodes;
    hide Remaining;
    hide MaybeCompletePlan;
    hide ValidDefinition;
    ShiftCount(m, d.graph, shifts, states);
    BegunIdle(m, j, d, creator, created, starter, started);
    RoundsComplete(m, d.graph, shifts, states, |shifts|);
    var last := states[|shifts|];
    HealthyLinked(last, d.graph);
    EmptyCount(Remaining(GraphFold(last, d.graph).value));
    IdleRuns(d.graph, GraphFold(last, d.graph).value, TaskFold(last).value.tasks);
    if |shifts| == |d.nodes| { ClosesGraph(m, last, d.graph, closer, closed); }
  }

  lemma IdleRuns(gid: string, g: GraphView, tasks: TaskMap)
    requires Idle(gid, g, tasks)
    ensures g.status == Running
  {
  }

  lemma ShiftCount(m: string, gid: string, shifts: seq<Shift>, states: seq<seq<Event>>)
    requires IsShifts(m, gid, shifts, states)
    ensures |states| == |shifts| + 1
  {
  }

  lemma EmptyCount<T>(s: set<T>)
    ensures |s| == 0 <==> s == {}
  {
  }

  /** When nothing remains, `maybe_complete_graph` completes the graph. */
  lemma ClosesGraph(m: string, j: seq<Event>, gid: string, actor: string, now: real)
    requires Good(j, gid, m) && Readable(j) && Healthy(j, gid) && m != "" && actor != ""
    requires GraphFold(j, gid).value.status == Running && Remaining(GraphFold(j, gid).value) == {}
    ensures var done := Extend(j, m, now, MaybeCompletePlan(m, j, gid, actor).entries);
      GraphFold(done, gid).Success? && GraphFold(done, gid).value.status == Completed
  {
    hide Good;
    hide TaskFold;
    hide GraphFold;
    hide Linked;
    hide DepsSound;
    hide Readable;
    hide LawfulEntry;
    hide PutPlan;
    var g := GraphFold(j, gid).value;
    NoneRemaining(g);
    EndPuts(m, j, gid, actor);
    var e := GraphEntry(actor, GraphCompleted(gid));
    assert MaybeCompletePlan(m, j, gid, actor) == Plan([e], None);
    OwnGraphEntry(j, gid, actor, GraphCompleted(gid));
    LawfulStep(j, gid, m, now, e);
    ExtendOne(j, m, now, e);
    EndApplied(gid, g, e, actor);
  }

  lemma NoneRemaining(g: GraphView)
    requires Remaining(g) == {}
    ensures forall n :: n in g.nodes ==> g.nodes[n].status == Completed
  {
    forall n | n in g.nodes ensures g.nodes[n].status == Completed {
      assert n !in Remaining(g);
    }
  }

  lemma EndApplied(gid: string, g: GraphView, e: Entry, actor: string)
    requires e == GraphEntry(actor, GraphCompleted(gid)) && GraphStep(gid, g, e.body).Success?
    ensures GraphStep(gid, g, e.body).value.status == Completed
  {
  }
}
