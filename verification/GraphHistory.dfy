/** Journals written event by event under the rules of a graph: both replays accept them, the
    invariant holds throughout, and nodes start in causal order. */
module GraphHistory {
  import opened Base
  import opened Digraph
  import opened Journal
  import opened Tasks
  import opened GraphLog
  import opened GraphRules

  ghost predicate EnabledAt(j: seq<Event>, gid: string, b: Body) {
    && TaskFold(j).Success? && GraphFold(j, gid).Success?
    && Enabled(gid, GraphFold(j, gid).value, TaskFold(j).value, b)
  }

  /** Each event was allowed by the rules when it was written. */
  ghost predicate Generated(j: seq<Event>, gid: string) {
    forall k :: 0 <= k < |j| ==> EnabledAt(j[..k], gid, j[k].body)
  }

  lemma GeneratedPrefix(j: seq<Event>, gid: string, n: nat)
    requires Generated(j, gid) && n <= |j|
    ensures Generated(j[..n], gid)
  {
    forall k | 0 <= k < n ensures EnabledAt(j[..n][..k], gid, j[..n][k].body) {
      assert j[..n][..k] == j[..k];
    }
  }

  lemma GeneratedSnoc(j: seq<Event>, gid: string, e: Event)
    requires Generated(j, gid) && EnabledAt(j, gid, e.body)
    ensures Generated(j + [e], gid)
  {
    var j' := j + [e];
    forall k | 0 <= k < |j'| ensures EnabledAt(j'[..k], gid, j'[k].body) {
      assert j'[..k] == if k < |j| then j[..k] else j;
    }
  }

  /** What every replay of such a journal yields. */
  ghost predicate Healthy(j: seq<Event>, gid: string) {
    && TaskFold(j).Success? && GraphFold(j, gid).Success?
    && DepsSound(TaskFold(j).value.tasks)
    && Linked(gid, GraphFold(j, gid).value, TaskFold(j).value.tasks)
  }

  /** No such journal is ever rejected, and the invariant holds after every event of it. */
  lemma {:induction false} GeneratedHealthy(j: seq<Event>, gid: string)
    requires Generated(j, gid)
    ensures Healthy(j, gid)
  {
    if j == [] {
      NoTasksSound();
      assert forall n :: NodeLinked(gid, NO_GRAPH, NO_TASKS.tasks, n);
    } else {
      var n := |j| - 1;
      GeneratedPrefix(j, gid, n);
      GeneratedHealthy(j[..n], gid);
      assert EnabledAt(j[..n], gid, j[n].body);
      assert j == j[..n] + [j[n]];
      HealthySnoc(j[..n], gid, j[n]);
    }
  }

  lemma HealthySnoc(j: seq<Event>, gid: string, e: Event)
    requires Healthy(j, gid) && EnabledAt(j, gid, e.body)
    ensures Healthy(j + [e], gid)
  {
    var g, v := GraphFold(j, gid).value, TaskFold(j).value;
    TaskFoldAppend(j, e);
    GraphFoldAppend(j, gid, e);
    EnabledApplies(gid, g, v, e.body);
    EnabledKeepsLinked(gid, g, v, e.body);
    TaskFoldSound(j + [e]);
  }

  /** What the definition of a graph fixes for ever. */
  ghost predicate SameDefinition(a: GraphView, b: GraphView) {
    && b.order == a.order && b.nodes.Keys == a.nodes.Keys
    && forall n :: n in a.nodes ==>
         b.nodes[n].blockedBy == a.nodes[n].blockedBy && b.nodes[n].subject == a.nodes[n].subject
         && b.nodes[n].kind == a.nodes[n].kind
  }

  lemma SameDefinitionDeps(a: GraphView, b: GraphView)
    requires SameDefinition(a, b)
    ensures NodeDeps(a.nodes) == NodeDeps(b.nodes)
  {
  }

  lemma DefinitionKept(gid: string, g: GraphView, b: Body)
    requires g.status != Absent && GraphStep(gid, g, b).Success?
    ensures GraphStep(gid, g, b).value.status != Absent && SameDefinition(g, GraphStep(gid, g, b).value)
  {
  }

  lemma {:induction false} DefinitionStays(j: seq<Event>, gid: string, k: nat)
    requires GraphFold(j, gid).Success? && k <= |j|
    requires GraphFold(j[..k], gid).Success? && GraphFold(j[..k], gid).value.status != Absent
    ensures GraphFold(j, gid).value.status != Absent
    ensures SameDefinition(GraphFold(j[..k], gid).value, GraphFold(j, gid).value)
    decreases |j|
  {
    hide GraphApply;
    if k == |j| {
      assert j[..k] == j;
    } else {
      var n := |j| - 1;
      assert j[..n][..k] == j[..k];
      DefinitionStays(j[..n], gid, k);
      DefinitionKept(gid, GraphFold(j[..n], gid).value, j[n].body);
    }
  }

  predicate IsReceiptOf(e: Event, gid: string, n: string) {
    e.body.Graph? && e.body.graphFact.NodeReceipt? && e.body.graphFact.graph == gid && e.body.graphFact.node == n
  }

  predicate IsCompletionOf(e: Event, gid: string, n: string) {
    && e.body.Task? && e.body.taskFact.TaskUpdated?
    && e.body.taskFact.task == NodeTask(gid, n) && e.body.taskFact.changes.status == Some(TaskCompleted)
  }

  predicate IsStartOf(e: Event, gid: string, n: string) {
    e.body.Graph? && e.body.graphFact.NodeStarted? && e.body.graphFact.graph == gid && e.body.graphFact.node == n
  }

  ghost predicate HasReceipt(j: seq<Event>, gid: string, n: string) {
    exists a :: 0 <= a < |j| && IsReceiptOf(j[a], gid, n)
  }

  /** The journal holds a receipt of the node and, after it, the update that completed its task. */
  ghost predicate Finished(j: seq<Event>, gid: string, n: string) {
    exists a, b :: 0 <= a < b < |j| && IsReceiptOf(j[a], gid, n) && IsCompletionOf(j[b], gid, n)
  }

  /** The node or its task shows that the node was leased at some time. */
  predicate Touched(g: GraphView, tasks: TaskMap, gid: string, n: string) {
    && n in g.nodes
    && (|| g.nodes[n].status != Pending
        || (NodeTask(gid, n) in tasks && tasks[NodeTask(gid, n)].status.TaskLeased?))
  }

  /** What the journal must hold for the state to have come about. */
  ghost predicate Explained(j: seq<Event>, gid: string, g: GraphView, tasks: TaskMap, n: string) {
    && (n in g.nodes && g.nodes[n].pending.Some? ==> HasReceipt(j, gid, n))
    && (NodeTask(gid, n) in tasks && tasks[NodeTask(gid, n)].status.TaskCompleted? ==> Finished(j, gid, n))
    && (Touched(g, tasks, gid, n) ==> forall d :: d in g.nodes[n].blockedBy ==> Finished(j, gid, d))
  }

  lemma Monotone(j: seq<Event>, j': seq<Event>, gid: string, n: string)
    requires |j| <= |j'| && j'[..|j|] == j
    ensures HasReceipt(j, gid, n) ==> HasReceipt(j', gid, n)
    ensures Finished(j, gid, n) ==> Finished(j', gid, n)
  {
    assert forall a :: 0 <= a < |j| ==> j'[a] == j[a];
    if Finished(j, gid, n) {
      var a, b :| 0 <= a < b < |j| && IsReceiptOf(j[a], gid, n) && IsCompletionOf(j[b], gid, n);
      assert IsReceiptOf(j'[a], gid, n) && IsCompletionOf(j'[b], gid, n);
    }
  }

  lemma {:induction false} GeneratedExplained(j: seq<Event>, gid: string)
    requires Generated(j, gid)
    ensures Healthy(j, gid)
    ensures forall n :: Explained(j, gid, GraphFold(j, gid).value, TaskFold(j).value.tasks, n)
  {
    GeneratedHealthy(j, gid);
    if j != [] {
      var n := |j| - 1;
      GeneratedPrefix(j, gid, n);
      GeneratedExplained(j[..n], gid);
      assert EnabledAt(j[..n], gid, j[n].body);
      forall k ensures Explained(j, gid, GraphFold(j, gid).value, TaskFold(j).value.tasks, k) {
        ExplainedSnoc(j, gid, k);
      }
    }
  }

  lemma ExplainedSnoc(j: seq<Event>, gid: string, k: string)
    requires j != [] && Healthy(j[..|j| - 1], gid) && EnabledAt(j[..|j| - 1], gid, j[|j| - 1].body)
    requires Healthy(j, gid)
    requires var before := j[..|j| - 1];
      forall n :: Explained(before, gid, GraphFold(before, gid).value, TaskFold(before).value.tasks, n)
    ensures Explained(j, gid, GraphFold(j, gid).value, TaskFold(j).value.tasks, k)
  {
    var n := |j| - 1;
    var before := j[..n];
    var e := j[n];
    var g, tasks := GraphFold(before, gid).value, TaskFold(before).value.tasks;
    var g', tasks' := GraphFold(j, gid).value, TaskFold(j).value.tasks;
    Monotone(before, j, gid, k);
    assert Explained(before, gid, g, tasks, k);
    assert NodeLinked(gid, g, tasks, k);
    if k in g'.nodes && g'.nodes[k].pending.Some? && !(k in g.nodes && g.nodes[k].pending.Some?) {
      PendingFromReceipt(gid, g, TaskFold(before).value, e, k);
      assert IsReceiptOf(j[n], gid, k);
    }
    if NodeTask(gid, k) in tasks' && tasks'[NodeTask(gid, k)].status.TaskCompleted?
       && !(NodeTask(gid, k) in tasks && tasks[NodeTask(gid, k)].status.TaskCompleted?) {
      CompletedFromReceipt(gid, g, TaskFold(before).value, e, k);
      var a :| 0 <= a < |before| && IsReceiptOf(before[a], gid, k);
      assert IsReceiptOf(j[a], gid, k) && IsCompletionOf(j[n], gid, k);
    }
    if Touched(g', tasks', gid, k) {
      DepsExplained(j, gid, k);
    }
  }

  lemma DepsExplained(j: seq<Event>, gid: string, k: string)
    requires j != [] && Healthy(j[..|j| - 1], gid) && EnabledAt(j[..|j| - 1], gid, j[|j| - 1].body)
    requires Healthy(j, gid)
    requires var before := j[..|j| - 1];
      forall n :: Explained(before, gid, GraphFold(before, gid).value, TaskFold(before).value.tasks, n)
    requires Touched(GraphFold(j, gid).value, TaskFold(j).value.tasks, gid, k)
    ensures forall d :: d in GraphFold(j, gid).value.nodes[k].blockedBy ==> Finished(j, gid, d)
  {
    var n := |j| - 1;
    var before := j[..n];
    var g, tasks := GraphFold(before, gid).value, TaskFold(before).value.tasks;
    var g' := GraphFold(j, gid).value;
    TouchedFromDeps(gid, g, TaskFold(before).value, j[n], k);
    assert Explained(before, gid, g, tasks, k);
    forall d | d in g'.nodes[k].blockedBy ensures Finished(j, gid, d) {
      assert Explained(before, gid, g, tasks, d);
      Monotone(before, j, gid, d);
      if !Touched(g, tasks, gid, k) {
        var i :| 0 <= i < |g'.nodes[k].blockedBy| && g'.nodes[k].blockedBy[i] == d;
      }
    }
  }

  lemma PendingFromReceipt(gid: string, g: GraphView, v: TaskView, e: Event, k: string)
    requires Linked(gid, g, v.tasks) && Enabled(gid, g, v, e.body)
    requires GraphStep(gid, g, e.body).Success?
    requires var g' := GraphStep(gid, g, e.body).value; k in g'.nodes && g'.nodes[k].pending.Some?
    requires !(k in g.nodes && g.nodes[k].pending.Some?)
    ensures IsReceiptOf(e, gid, k)
  {
    if e.body.Graph? && e.body.graphFact.GraphCreated? && Concerns(e.body, gid) {
      FreshGraph(e.body.graphFact.nodes);
    }
  }

  lemma CompletedFromReceipt(gid: string, g: GraphView, v: TaskView, e: Event, k: string)
    requires Linked(gid, g, v.tasks) && Enabled(gid, g, v, e.body)
    requires TaskStep(v, e.body).Success?
    requires var tasks' := TaskStep(v, e.body).value.tasks;
      NodeTask(gid, k) in tasks' && tasks'[NodeTask(gid, k)].status.TaskCompleted?
    requires !(NodeTask(gid, k) in v.tasks && v.tasks[NodeTask(gid, k)].status.TaskCompleted?)
    ensures IsCompletionOf(e, gid, k) && k in g.nodes && g.nodes[k].pending.Some?
  {
  }

  lemma TouchedFromDeps(gid: string, g: GraphView, v: TaskView, e: Event, k: string)
    requires Linked(gid, g, v.tasks) && Enabled(gid, g, v, e.body)
    requires TaskStep(v, e.body).Success? && GraphStep(gid, g, e.body).Success?
    requires Touched(GraphStep(gid, g, e.body).value, TaskStep(v, e.body).value.tasks, gid, k)
    ensures k in g.nodes && GraphStep(gid, g, e.body).value.nodes[k].blockedBy == g.nodes[k].blockedBy
    ensures Touched(g, v.tasks, gid, k) || DepsCompleted(gid, v.tasks, g.nodes[k].blockedBy)
  {
    assert NodeLinked(gid, g, v.tasks, k);
    if e.body.Graph? && e.body.graphFact.GraphCreated? && Concerns(e.body, gid) {
      FreshGraph(e.body.graphFact.nodes);
    }
  }

  /** `d` is an ancestor of `n` when a dependency path leads from `n` to `d`. */
  ghost predicate Ancestor(deps: map<string, seq<string>>, d: string, n: string) {
    exists p :: IsPath(deps, p) && |p| >= 2 && p[0] == n && p[|p| - 1] == d
  }

  /** Causal order: wherever the journal starts a node, it has already recorded, for every
      ancestor of the node, a receipt and then the update that completed the ancestor's task. */
  lemma CausalOrder(j: seq<Event>, gid: string, i: nat, n: string, d: string)
    requires Generated(j, gid) && i < |j| && IsStartOf(j[i], gid, n)
    requires GraphFold(j, gid).Success? && Ancestor(NodeDeps(GraphFold(j, gid).value.nodes), d, n)
    ensures Finished(j[..i], gid, d)
  {
    var p :| IsPath(NodeDeps(GraphFold(j, gid).value.nodes), p) && |p| >= 2 && p[0] == n && p[|p| - 1] == d;
    AlongPath(j, gid, i, p, |p| - 1);
  }

  lemma {:induction false} AlongPath(j: seq<Event>, gid: string, i: nat, p: seq<string>, k: nat)
    requires Generated(j, gid) && i < |j| && |p| >= 2 && IsStartOf(j[i], gid, p[0])
    requires GraphFold(j, gid).Success? && IsPath(NodeDeps(GraphFold(j, gid).value.nodes), p)
    requires 0 < k < |p|
    ensures Finished(j[..i], gid, p[k])
  {
    hide Generated;
    hide GraphFold;
    hide NodeDeps;
    assert DependsOn(NodeDeps(GraphFold(j, gid).value.nodes), p[k - 1], p[k]);
    if k == 1 {
      DependencyFinished(j, gid, i, p[0], p[1]);
    } else {
      AlongPath(j, gid, i, p, k - 1);
      var a, b :| 0 <= a < b < i && IsReceiptOf(j[..i][a], gid, p[k - 1]) && IsCompletionOf(j[..i][b], gid, p[k - 1]);
      assert j[..i][a] == j[a];
      DependencyFinished(j, gid, a, p[k - 1], p[k]);
      assert j[..i][..a] == j[..a];
      Monotone(j[..a], j[..i], gid, p[k]);
    }
  }

  /** A node can be started, or have its receipt recorded, only after its dependencies finished. */
  lemma DependencyFinished(j: seq<Event>, gid: string, i: nat, n: string, d: string)
    requires Generated(j, gid) && i < |j| && (IsStartOf(j[i], gid, n) || IsReceiptOf(j[i], gid, n))
    requires GraphFold(j, gid).Success? && DependsOn(NodeDeps(GraphFold(j, gid).value.nodes), n, d)
    ensures Finished(j[..i], gid, d)
  {
    GeneratedPrefix(j, gid, i);
    GeneratedExplained(j[..i], gid);
    assert EnabledAt(j[..i], gid, j[i].body);
    var g, tasks := GraphFold(j[..i], gid).value, TaskFold(j[..i]).value.tasks;
    assert g.status != Absent;
    DefinitionStays(j, gid, i);
    SameDefinitionDeps(g, GraphFold(j, gid).value);
    assert Explained(j[..i], gid, g, tasks, n);
    assert NodeDeps(g.nodes)[n] == NodeDeps(GraphFold(j, gid).value.nodes)[n];
    assert Touched(g, tasks, gid, n);
  }
}
