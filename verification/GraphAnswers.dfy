/** What the operations of the graph engine answer in each state of the graph, in its fields: the
    refusals and their exceptions as much as what is written. */
module GraphAnswers {
  import opened Base
  import opened Digraph
  import opened Journal
  import opened Tasks
  import opened Records
  import opened GraphLog
  import opened Store
  import opened Projection
  import opened GraphRules
  import opened GraphHistory
  import opened GraphPlans
  import opened GraphSafety
  import opened GraphLifecycle
  import opened GraphCrash

  /** `fail_node`: only a running node can fail; its task fails first and loses its lease. */
  lemma FailAnswers(m: string, j: seq<Event>, gid: string, n: string, actor: string, error: string)
    requires Good(j, gid, m) && m != "" && actor != ""
    ensures Readable(j) && Healthy(j, gid)
    ensures var g, v, plan := GraphFold(j, gid).value, TaskFold(j).value, FailPlan(m, j, gid, n, actor, error);
      if n !in g.nodes || g.nodes[n].status != Running then plan == Plan([], Some(GraphTransitionFault))
      else
        && plan.fault.None? && |plan.entries| == 2 && NodeTask(gid, n) in v.tasks
        && plan.entries[0].body == Task(TaskUpdated(NodeTask(gid, n), v.tasks[NodeTask(gid, n)].revision + 1,
             Changes(Some(TaskFailed), None, None, Some(None), Some(None), Some(None))))
        && plan.entries[1].body == Graph(NodeFailed(gid, n, error))
        && plan.entries[0].actor == actor && plan.entries[1].actor == actor
  {
    hide Good;
    hide Readable;
    hide TaskFold;
    hide GraphFold;
    hide Linked;
    hide DepsSound;
    GoodUnfold(j, gid, m);
    var g := GraphFold(j, gid).value;
    if n in g.nodes && g.nodes[n].status == Running {
      hide FailPlan;
      FailPlanned(m, j, gid, n, actor, error);
    }
  }

  /** `maybe_complete_graph`: of a running graph, one failed node fails it and all nodes completed complete
      it; in every other state nothing is written, and nothing is an exception. */
  lemma EndAnswers(m: string, j: seq<Event>, gid: string, actor: string)
    requires Good(j, gid, m) && m != "" && actor != ""
    ensures Readable(j) && Healthy(j, gid)
    ensures var g, plan := GraphFold(j, gid).value, MaybeCompletePlan(m, j, gid, actor);
      && plan.fault.None? && |plan.entries| <= 1
      && (plan.entries != [] <==>
            && g.status == Running
            && ((exists n :: n in g.nodes && g.nodes[n].status == Failed)
                || (forall n :: n in g.nodes ==> g.nodes[n].status == Completed)))
      && (plan.entries != [] ==>
            var done := forall n :: n in g.nodes ==> g.nodes[n].status == Completed;
            && plan.entries[0].actor == actor
            && plan.entries[0].body == Graph(if done then GraphCompleted(gid) else GraphFailed(gid, "node_failed")))
  {
    hide Good;
    hide Readable;
    hide TaskFold;
    hide GraphFold;
    hide DepsSound;
    hide PutPlan;
    GoodUnfold(j, gid, m);
    EndPuts(m, j, gid, actor);
  }

  /** Ending a graph is for good: after it, `maybe_complete_graph` writes nothing more, and no node can be
      leased. */
  lemma EndedStays(m: string, j: seq<Event>, gid: string, actor: string, now: real, again: string, n: string,
                   worker: string, ttl: int, lease: string)
    requires Good(j, gid, m) && Readable(j) && m != "" && actor != "" && again != ""
    requires MaybeCompletePlan(m, j, gid, actor).entries != []
    ensures var j' := Extend(j, m, now, MaybeCompletePlan(m, j, gid, actor).entries);
      && Good(j', gid, m) && Readable(j') && Healthy(j', gid)
      && (GraphFold(j', gid).value.status == Completed || GraphFold(j', gid).value.status == Failed)
      && GraphFold(j', gid).value.nodes == GraphFold(j, gid).value.nodes && TaskFold(j') == TaskFold(j)
      && MaybeCompletePlan(m, j', gid, again) == Plan([], None)
      && LeasePlan(m, j', gid, n, worker, ttl, lease, again, now) == Plan([], Some(Conflict))
  {
    hide Good;
    hide Readable;
    hide TaskFold;
    hide GraphFold;
    hide Linked;
    hide DepsSound;
    hide MaybeCompletePlan;
    hide LeasePlan;
    hide LawfulEntry;
    EndAnswers(m, j, gid, actor);
    var g, e := GraphFold(j, gid).value, MaybeCompletePlan(m, j, gid, actor).entries[0];
    assert MaybeCompletePlan(m, j, gid, actor).entries == [e];
    EndEnabled(m, j, gid, actor, e);
    OwnGraphEntry(j, gid, actor, e.body.graphFact);
    LawfulStep(j, gid, m, now, e);
    ExtendOne(j, m, now, e);
    var j' := Extend(j, m, now, [e]);
    GoodUnfold(j', gid, m);
    EndAnswers(m, j', gid, again);
    LeasePlanned(m, j', gid, n, worker, ttl, lease, again, now);
  }

  lemma EndEnabled(m: string, j: seq<Event>, gid: string, actor: string, e: Entry)
    requires Readable(j) && Healthy(j, gid) && MaybeCompletePlan(m, j, gid, actor).entries == [e]
    ensures e.body.Graph? && e == GraphEntry(actor, e.body.graphFact) && Concerns(e.body, gid)
    ensures var g := GraphFold(j, gid).value;
      && FactEnabled(gid, g, TaskFold(j).value.tasks, e.body.graphFact)
      && GraphStep(gid, g, e.body).Success?
      && GraphStep(gid, g, e.body).value.nodes == g.nodes
      && (GraphStep(gid, g, e.body).value.status == Completed || GraphStep(gid, g, e.body).value.status == Failed)
  {
    hide TaskFold;
    hide GraphFold;
    hide Linked;
    hide DepsSound;
  }

  /** `lease_node`: a node is leased when the graph runs, the node is pending, its task waits and all its
      dependencies' tasks are completed, and for a positive time only; then its task and the node are
      given to the worker under the lease. */
  lemma LeaseAnswers(m: string, j: seq<Event>, gid: string, n: string, worker: string, ttl: int, lease: string,
                     actor: string, now: real)
    requires Good(j, gid, m) && m != "" && actor != ""
    ensures Readable(j) && Healthy(j, gid)
    ensures var g, tasks := GraphFold(j, gid).value, TaskFold(j).value.tasks;
      var plan, t := LeasePlan(m, j, gid, n, worker, ttl, lease, actor, now), NodeTask(gid, n);
      var ready := g.status == Running && n in g.nodes && g.nodes[n].status == Pending && t in tasks
        && (tasks[t].status.TaskPending? || tasks[t].status.TaskBlocked?)
        && forall d :: d in g.nodes[n].blockedBy ==>
          NodeTask(gid, d) in tasks && tasks[NodeTask(gid, d)].status.TaskCompleted?;
      && (!ready ==> plan == Plan([], Some(Conflict)))
      && (ready && ttl <= 0 ==> plan == Plan([], Some(ValueFault)))
      && (ready && ttl > 0 ==>
            && plan.fault.None? && |plan.entries| == 2
            && plan.entries[0].body == Task(TaskUpdated(t, tasks[t].revision + 1, Changes(Some(TaskLeased), None, None,
                 Some(Some(worker)), Some(Some(lease)), Some(Some(now + ttl as real)))))
            && plan.entries[1].body == Graph(NodeStarted(gid, n, worker, lease))
            && plan.entries[0].actor == actor && plan.entries[1].actor == actor)
  {
    hide Good;
    hide Readable;
    hide TaskFold;
    hide GraphFold;
    hide Linked;
    hide DepsSound;
    hide LeasePlan;
    GoodUnfold(j, gid, m);
    LeasePlanned(m, j, gid, n, worker, ttl, lease, actor, now);
    ReadyInNodes(gid, GraphFold(j, gid).value, TaskFold(j).value.tasks, n);
  }

  /** On linked graph and tasks, readiness in the fields: a task that waits has no lease. */
  lemma ReadyInNodes(gid: string, g: GraphView, tasks: TaskMap, n: string)
    requires Linked(gid, g, tasks)
    ensures Ready(gid, g, tasks, n) <==>
      && g.status == Running && n in g.nodes && g.nodes[n].status == Pending && NodeTask(gid, n) in tasks
      && (tasks[NodeTask(gid, n)].status.TaskPending? || tasks[NodeTask(gid, n)].status.TaskBlocked?)
      && forall d :: d in g.nodes[n].blockedBy ==>
           NodeTask(gid, d) in tasks && tasks[NodeTask(gid, d)].status.TaskCompleted?
  {
    hide WellFormed;
    if n in g.nodes { assert NodeLinked(gid, g, tasks, n); }
  }

  /** `start_graph` refuses a graph that is absent, runs or ended; `create_graph` called again for a graph
      that exists only fills in missing tasks, if the nodes are the same, and is a conflict otherwise. */
  lemma StartedOnce(m: string, j: seq<Event>, gid: string, actor: string)
    requires Good(j, gid, m)
    ensures Readable(j) && Healthy(j, gid)
    ensures GraphFold(j, gid).value.status != Created ==>
      StartPlan(m, j, gid, actor) == Plan([], Some(GraphTransitionFault))
  {
    hide Good;
    hide TaskFold;
    hide GraphFold;
    hide Linked;
    hide DepsSound;
    hide Keyed;
    GoodUnfold(j, gid, m);
  }

  lemma CreatedAgain(m: string, j: seq<Event>, d: Definition, actor: string, k: nat)
    requires Good(j, d.graph, m) && m != "" && actor != "" && ValidDefinition(d)
    requires k < |j| && Concerns(j[k].body, d.graph) && j[k].body.graphFact.GraphCreated?
    ensures Readable(j) && CreatePlan(m, j, d, actor) ==
      if d.nodes == j[k].body.graphFact.nodes
      then Materialization(d.graph, NodesOf(d.nodes), TaskFold(j).value.tasks, actor)
      else Plan([], Some(Conflict))
  {
    hide Generated;
    hide TaskFold;
    hide RecordFold;
    hide GraphFold;
    hide TaskKeyed;
    hide RecordKeyed;
    hide ValidDefinition;
    hide Materialization;
    hide CreatePlan;
    GoodUnfold(j, d.graph, m);
    CreatePlanned(m, j, d, actor);
    var e := GraphEntry(actor, GraphCreated(d.graph, d.nodes));
    CreationStored(j, e, k);
  }

  lemma CreationStored(j: seq<Event>, e: Entry, k: nat)
    requires GraphKeyed(j) && UniqueKeys(j) && e.body.Graph? && e.body.graphFact.GraphCreated?
      && e.key == GraphKeyOf(e.body.graphFact)
    requires k < |j| && Concerns(j[k].body, e.body.graphFact.graph) && j[k].body.graphFact.GraphCreated?
    ensures !Unused(j, e.key) && (Stored(j, e.key, e.body) <==> j[k].body == e.body)
  {
    assert GraphKeyFits(j[k].key, j[k].body);
    assert j[k].key == e.key;
  }

  /** What `reconcile` writes, in the fields: a start for each pending node whose task is leased under a
      non-empty worker and lease id, and a completion for each running node whose task is completed
      and whose receipt is pending. */
  lemma {:induction false} RepairsExactly(gid: string, g: GraphView, tasks: TaskMap, order: seq<string>, actor: string)
    ensures forall e :: e in StartRepairs(gid, g, tasks, order, actor) <==>
      e.actor == actor && e.body.Graph? && e.body.graphFact.NodeStarted? && e == GraphEntry(actor, e.body.graphFact)
      && e.body.graphFact.graph == gid && e.body.graphFact.node in order
      && StartDue(gid, g, tasks, e.body.graphFact.node, e.body.graphFact.owner, e.body.graphFact.lease)
    ensures forall e :: e in CompletionRepairs(gid, g, tasks, order, actor) <==>
      e.actor == actor && e.body.Graph? && e.body.graphFact.NodeCompleted? && e == GraphEntry(actor, e.body.graphFact)
      && e.body.graphFact.graph == gid && e.body.graphFact.node in order
      && CompletionDue(gid, g, tasks, e.body.graphFact.node, e.body.graphFact.digest, e.body.graphFact.evidence)
  {
    if order != [] {
      var n := |order| - 1;
      RepairsExactly(gid, g, tasks, order[..n], actor);
      assert order == order[..n] + [order[n]];
    }
  }

  predicate StartDue(gid: string, g: GraphView, tasks: TaskMap, n: string, owner: string, lease: string) {
    && n in g.nodes && g.nodes[n].status == Pending
    && NodeTask(gid, n) in tasks && tasks[NodeTask(gid, n)].status.TaskLeased?
    && tasks[NodeTask(gid, n)].owner == Some(owner) && owner != ""
    && tasks[NodeTask(gid, n)].lease == Some(lease) && lease != ""
  }

  predicate CompletionDue(gid: string, g: GraphView, tasks: TaskMap, n: string, d: Digest, evidence: seq<string>) {
    && n in g.nodes && g.nodes[n].status == Running
    && NodeTask(gid, n) in tasks && tasks[NodeTask(gid, n)].status.TaskCompleted?
    && g.nodes[n].pending == Some(d) && g.nodes[n].pendingEvidence == evidence
  }

  /** What the whole call writes and raises. */
  lemma ReconcileAnswers(m: string, j: seq<Event>, gid: string, actor: string)
    requires Good(j, gid, m) && m != "" && actor != ""
    ensures Readable(j) && Healthy(j, gid)
    ensures var g, tasks, plan := GraphFold(j, gid).value, TaskFold(j).value.tasks, ReconcilePlan(m, j, gid, actor);
      && (forall n, owner, lease :: StartDue(gid, g, tasks, n, owner, lease) ==>
            GraphEntry(actor, NodeStarted(gid, n, owner, lease)) in plan.entries)
      && (plan.fault.None? ==> forall n, d, evidence :: CompletionDue(gid, g, tasks, n, d, evidence) ==>
            GraphEntry(actor, NodeCompleted(gid, n, d, evidence)) in plan.entries)
      && (forall e :: e in plan.entries ==>
            e.actor == actor && e.body.Graph?
            && match e.body.graphFact
               case NodeStarted(graph, n, owner, lease) => graph == gid && StartDue(gid, g, tasks, n, owner, lease)
               case NodeCompleted(graph, n, d, evidence) => graph == gid && CompletionDue(gid, g, tasks, n, d, evidence)
               case _ => false)
      && (plan.fault == None || plan.fault == Some(GraphReplayRejected))
      && (plan.fault.Some? <==>
            g.status != Running && exists n, owner, lease :: StartDue(gid, g, tasks, n, owner, lease))
  {
    hide Good;
    hide Readable;
    hide TaskFold;
    hide GraphFold;
    hide DepsSound;
    hide StartRepairs;
    hide CompletionRepairs;
    hide StartDue;
    hide CompletionDue;
    GoodUnfold(j, gid, m);
    var g, tasks := GraphFold(j, gid).value, TaskFold(j).value.tasks;
    RepairsExactly(gid, g, tasks, g.order, actor);
    DueInOrder(gid, g, tasks);
    var starts := StartRepairs(gid, g, tasks, g.order, actor);
    if starts != [] {
      var e := starts[0];
      assert e in starts;
      assert StartDue(gid, g, tasks, e.body.graphFact.node, e.body.graphFact.owner, e.body.graphFact.lease);
    }
    forall n, owner, lease | StartDue(gid, g, tasks, n, owner, lease)
      ensures GraphEntry(actor, NodeStarted(gid, n, owner, lease)) in starts {
    }
  }

  lemma DueInOrder(gid: string, g: GraphView, tasks: TaskMap)
    requires Linked(gid, g, tasks)
    ensures forall n, owner, lease :: StartDue(gid, g, tasks, n, owner, lease) ==> n in g.order
    ensures forall n, d, evidence :: CompletionDue(gid, g, tasks, n, d, evidence) ==> n in g.order
  {
    if g.status != Absent { assert forall n :: n in g.nodes <==> n in Elements(g.order); }
  }

  /** `lease_node` asks `ready_nodes` first, and raises what that raises. */
  lemma LeaseRaises(m: string, j: seq<Event>, gid: string, n: string, worker: string, ttl: int, lease: string,
                    actor: string, now: real)
    requires Readable(j) && GraphFold(j, gid).Success? && ReadyReport(gid, j).Failure?
    ensures LeasePlan(m, j, gid, n, worker, ttl, lease, actor, now) == Plan([], Some(ReadyReport(gid, j).error))
  {
    hide GraphFold;
    hide TaskFold;
    hide Keyed;
    hide ReadyNodes;
  }

  /** No operation gets past a graph whose events do not replay; a definition or a receipt that is not
      valid is refused before. */
  lemma UnreadableGraph(m: string, j: seq<Event>, gid: string, n: string, worker: string, ttl: int, lease: string,
                        r: Receipt, error: string, actor: string, now: real)
    requires Readable(j) && GraphFold(j, gid).Failure?
    ensures var rejected := Plan([], Some(GraphReplayRejected));
      && LeasePlan(m, j, gid, n, worker, ttl, lease, actor, now) == rejected
      && (ValidReceipt(r, gid, n) ==> CompletePlan(m, j, gid, n, r, actor) == rejected)
      && FailPlan(m, j, gid, n, actor, error) == rejected
      && ReconcilePlan(m, j, gid, actor) == rejected
      && MaybeCompletePlan(m, j, gid, actor) == rejected
      && StartPlan(m, j, gid, actor) == rejected
      && ReadyReport(gid, j) == Failure(GraphReplayRejected)
  {
    hide GraphFold;
    hide TaskFold;
    hide Keyed;
  }

  /** In a mission another program wrote, a running node may lack its task: `fail_node` then raises a
      KeyError, and `complete_node` does so once the receipt is recorded. */
  lemma TaskMissing(m: string, j: seq<Event>, gid: string, n: string, r: Receipt, error: string, actor: string)
    requires Readable(j) && GraphFold(j, gid).Success? && n in GraphFold(j, gid).value.nodes
    requires GraphFold(j, gid).value.nodes[n].status == Running && NodeTask(gid, n) !in TaskFold(j).value.tasks
    ensures FailPlan(m, j, gid, n, actor, error) == Plan([], Some(KeyFault))
    ensures Completing(gid, GraphFold(j, gid).value, n, r) ==>
      var recorded := PutPlan(m, j, ReceiptEntry(actor, gid, n, r));
      recorded.fault.None? ==> CompletePlan(m, j, gid, n, r, actor) == Plan(recorded.entries, Some(KeyFault))
  {
    hide GraphFold;
    hide TaskFold;
    hide Keyed;
    hide PutPlan;
    var recorded := PutPlan(m, j, ReceiptEntry(actor, gid, n, r));
    assert recorded.entries + [] == recorded.entries;
  }

  ghost predicate AnythingDue(gid: string, g: GraphView, tasks: TaskMap) {
    || (exists n, owner, lease :: StartDue(gid, g, tasks, n, owner, lease))
    || (exists n, d, evidence :: CompletionDue(gid, g, tasks, n, d, evidence))
  }

  /** Without a mission or an actor `reconcile` writes nothing, and raises exactly when it had to. */
  lemma NamelessReconcile(m: string, j: seq<Event>, gid: string, actor: string)
    requires Readable(j) && Healthy(j, gid) && (m == "" || actor == "")
    ensures ReconcilePlan(m, j, gid, actor) ==
      Plan([], if AnythingDue(gid, GraphFold(j, gid).value, TaskFold(j).value.tasks) then Some(ValueFault) else None)
  {
    hide TaskFold;
    hide GraphFold;
    hide DepsSound;
    hide Keyed;
    hide Linked;
    hide StartRepairs;
    hide CompletionRepairs;
    hide AnythingDue;
    var g, tasks := GraphFold(j, gid).value, TaskFold(j).value.tasks;
    DueExactly(gid, g, tasks, actor);
    var starts, completions := StartRepairs(gid, g, tasks, g.order, actor),
      CompletionRepairs(gid, g, tasks, g.order, actor);
    assert starts + completions == [] <==> starts == [] && completions == [];
  }

  lemma DueExactly(gid: string, g: GraphView, tasks: TaskMap, actor: string)
    requires Linked(gid, g, tasks)
    ensures AnythingDue(gid, g, tasks) <==>
      StartRepairs(gid, g, tasks, g.order, actor) != [] || CompletionRepairs(gid, g, tasks, g.order, actor) != []
  {
    hide Linked;
    hide StartRepairs;
    hide CompletionRepairs;
    hide StartDue;
    hide CompletionDue;
    RepairsExactly(gid, g, tasks, g.order, actor);
    DueInOrder(gid, g, tasks);
    var starts, completions := StartRepairs(gid, g, tasks, g.order, actor),
      CompletionRepairs(gid, g, tasks, g.order, actor);
    if starts != [] {
      assert starts[0] in starts;
      var f := starts[0].body.graphFact;
      assert StartDue(gid, g, tasks, f.node, f.owner, f.lease);
    }
    if completions != [] {
      assert completions[0] in completions;
      var f := completions[0].body.graphFact;
      assert CompletionDue(gid, g, tasks, f.node, f.digest, f.evidence);
    }
    if n, owner, lease :| StartDue(gid, g, tasks, n, owner, lease) {
      assert GraphEntry(actor, NodeStarted(gid, n, owner, lease)) in starts;
    }
    if n, d, evidence :| CompletionDue(gid, g, tasks, n, d, evidence) {
      assert GraphEntry(actor, NodeCompleted(gid, n, d, evidence)) in completions;
    }
  }

  /** Definitions that are not valid, handed in or read back from the events of another program, and a
      graph that cannot be read after its creation. */
  lemma InvalidDefinitions(m: string, j: seq<Event>, d: Definition, actor: string)
    requires Readable(j)
    ensures !ValidDefinition(d) ==> CreatePlan(m, j, d, actor) == Plan([], Some(GraphDefinitionFault))
    ensures ValidDefinition(d) && GraphFold(j, d.graph).Failure? ==>
      var plan := CreatePlan(m, j, d, actor);
      var material := MaterialPlan(d.graph, NodesOf(d.nodes), TaskFold(j).value, actor);
      PutPlan(m, j, GraphEntry(actor, GraphCreated(d.graph, d.nodes))).fault.None? && material.fault.None? ==>
        plan.fault == Some(GraphReplayRejected)
    ensures GraphFold(j, d.graph).Success? && GraphFold(j, d.graph).value.status == Created ==>
      var g := GraphFold(j, d.graph).value;
      (d.graph == "" || g.nodes == map[] || "" in g.nodes || !Closed(NodeDeps(g.nodes))
        || !Acyclic(NodeDeps(g.nodes)) ==>
         StartPlan(m, j, d.graph, actor) == Plan([], Some(GraphDefinitionFault)))
  {
    hide GraphFold;
    hide TaskFold;
    hide Keyed;
    hide PutPlan;
    hide MaterialPlan;
    hide ValidDefinition;
    hide Closed;
    hide Acyclic;
  }

  /** A node's task that is there must have the node's subject and dependencies; one that is missing is
      created if its dependencies are there and it closes no cycle. */
  lemma MaterialAnswers(gid: string, so: Material, n: string, subject: string, blockedBy: seq<string>, actor: string)
    requires DepsSound(so.view.tasks)
    ensures var step, t, v := MaterialStep(gid, so, n, subject, blockedBy, actor), NodeTask(gid, n), so.view;
      var known := forall d :: d in blockedBy ==> NodeTask(gid, d) in v.tasks;
      && (t in v.tasks && v.tasks[t].subject == subject && v.tasks[t].blockedBy == TaskIds(gid, blockedBy) ==>
            step == so)
      && (t in v.tasks && !(v.tasks[t].subject == subject && v.tasks[t].blockedBy == TaskIds(gid, blockedBy)) ==>
            step == Material(Plan(so.plan.entries, Some(GraphTransitionFault)), v))
      && (t !in v.tasks && !known ==> step == Material(Plan(so.plan.entries, Some(ReplayRejected)), v))
      && (t !in v.tasks && known ==>
            && step.plan.fault.None? && step.view.order == v.order + [t]
            && step.view.tasks == v.tasks[t := TaskState(1, TaskPending, subject, TaskIds(gid, blockedBy), None, None,
                 None)]
            && |step.plan.entries| == |so.plan.entries| + 1 && so.plan.entries <= step.plan.entries
            && step.plan.entries[|so.plan.entries|].actor == actor
            && step.plan.entries[|so.plan.entries|].body == Task(TaskCreated(t, subject, TaskIds(gid, blockedBy))))
  {
    if NodeTask(gid, n) !in so.view.tasks {
      NewTaskExactly(so.view.tasks, NodeTask(gid, n), subject, TaskIds(gid, blockedBy));
    }
  }

  /** `ready_nodes` reads the tasks of the pending nodes, and of the dependencies up to the first that is
      not completed; one that is missing is a KeyError, whatever else is ready. */
  ghost predicate TaskLacking(gid: string, g: GraphView, tasks: TaskMap, n: string) {
    && n in g.nodes && g.nodes[n].status == Pending
    && (NodeTask(gid, n) in tasks ==>
          && (tasks[NodeTask(gid, n)].status.TaskPending? || tasks[NodeTask(gid, n)].status.TaskBlocked?)
          && exists i :: 0 <= i < |g.nodes[n].blockedBy| && NodeTask(gid, g.nodes[n].blockedBy[i]) !in tasks
               && Done(gid, tasks, g.nodes[n].blockedBy[..i]))
  }

  predicate Done(gid: string, tasks: TaskMap, deps: seq<string>) {
    forall i :: 0 <= i < |deps| ==>
      NodeTask(gid, deps[i]) in tasks && tasks[NodeTask(gid, deps[i])].status.TaskCompleted?
  }

  lemma ReadyRaises(gid: string, g: GraphView, tasks: TaskMap)
    requires g.status == Running
    ensures ReadyNodes(gid, g, tasks).Failure? <==> exists n :: n in g.order && TaskLacking(gid, g, tasks, n)
    ensures ReadyNodes(gid, g, tasks).Failure? ==> ReadyNodes(gid, g, tasks).error == KeyFault
  {
    hide TaskLacking;
    ReadyAmongRaises(gid, g, tasks, g.order);
  }

  lemma {:induction false} ReadyAmongRaises(gid: string, g: GraphView, tasks: TaskMap, order: seq<string>)
    ensures ReadyAmong(gid, g, tasks, order).Failure? <==> exists n :: n in order && TaskLacking(gid, g, tasks, n)
    ensures ReadyAmong(gid, g, tasks, order).Failure? ==> ReadyAmong(gid, g, tasks, order).error == KeyFault
  {
    hide TaskLacking;
    hide NodeReady;
    if order != [] {
      var k := |order| - 1;
      ReadyAmongRaises(gid, g, tasks, order[..k]);
      NodeRaises(gid, g, tasks, order[k]);
      assert order == order[..k] + [order[k]];
    }
  }

  lemma NodeRaises(gid: string, g: GraphView, tasks: TaskMap, n: string)
    ensures NodeReady(gid, g, tasks, n).Failure? <==> TaskLacking(gid, g, tasks, n)
    ensures NodeReady(gid, g, tasks, n).Failure? ==> NodeReady(gid, g, tasks, n).error == KeyFault
  {
    if n in g.nodes { DepsRaise(gid, tasks, g.nodes[n].blockedBy); }
  }

  lemma {:induction false} DepsRaise(gid: string, tasks: TaskMap, deps: seq<string>)
    ensures DepsDone(gid, tasks, deps).Failure? <==>
      exists i :: 0 <= i < |deps| && NodeTask(gid, deps[i]) !in tasks && Done(gid, tasks, deps[..i])
    ensures DepsDone(gid, tasks, deps).Failure? ==> DepsDone(gid, tasks, deps).error == KeyFault
  {
    if deps != [] {
      DepsRaise(gid, tasks, deps[1..]);
      assert Done(gid, tasks, deps[..0]);
      if NodeTask(gid, deps[0]) in tasks {
        if tasks[NodeTask(gid, deps[0])].status.TaskCompleted? {
          forall i | 0 <= i < |deps| - 1
            ensures Done(gid, tasks, deps[1..][..i]) <==> Done(gid, tasks, deps[..i + 1]) {
            DoneCons(gid, tasks, deps, i);
          }
          if i :| 0 <= i < |deps| && NodeTask(gid, deps[i]) !in tasks && Done(gid, tasks, deps[..i]) {
            assert deps[1..][i - 1] == deps[i];
          }
        } else {
          forall i | 0 < i < |deps| ensures !Done(gid, tasks, deps[..i]) { assert deps[..i][0] == deps[0]; }
        }
      }
    }
  }

  lemma DoneCons(gid: string, tasks: TaskMap, deps: seq<string>, i: nat)
    requires i < |deps| - 1 && NodeTask(gid, deps[0]) in tasks && tasks[NodeTask(gid, deps[0])].status.TaskCompleted?
    ensures Done(gid, tasks, deps[1..][..i]) <==> Done(gid, tasks, deps[..i + 1])
  {
    var a, b := deps[1..][..i], deps[..i + 1];
    assert b == [deps[0]] + a;
    if Done(gid, tasks, b) {
      forall k | 0 <= k < |a|
        ensures NodeTask(gid, a[k]) in tasks && tasks[NodeTask(gid, a[k])].status.TaskCompleted? {
        assert b[k + 1] == a[k];
      }
    }
  }
}
