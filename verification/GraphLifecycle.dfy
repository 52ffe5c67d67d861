/** Creating, starting and finishing a graph; expired leases; and the runs of all operations
    with crashes. */
module GraphLifecycle {
  import opened Base
  import opened Digraph
  import opened Journal
  import opened Tasks
  import opened Records
  import opened GraphLog
  import opened Store
  import opened Projection
  import opened GraphRules
  import opened GraphHistory
  import opened Runtime
  import opened GraphPlans
  import opened GraphSafety
  import opened GraphRepair

  /** Wherever the writing of the list stops, the journal is good. */
  ghost predicate KeepsGood(j: seq<Event>, gid: string, m: string, now: real, entries: seq<Entry>) {
    forall k :: 0 <= k <= |entries| ==> Good(Extend(j, m, now, entries[..k]), gid, m)
  }

  lemma LawfulKeepsGood(j: seq<Event>, gid: string, m: string, now: real, entries: seq<Entry>)
    requires Good(j, gid, m) && Lawful(j, gid, m, now, entries)
    ensures KeepsGood(j, gid, m, now, entries)
  {
    hide Good;
    hide LawfulEntry;
    forall k | 0 <= k <= |entries| ensures Good(Extend(j, m, now, entries[..k]), gid, m) {
      LawfulKeeps(j, gid, m, now, entries, k);
    }
  }

  lemma KeepsGoodNone(j: seq<Event>, gid: string, m: string, now: real)
    requires Good(j, gid, m)
    ensures KeepsGood(j, gid, m, now, [])
  {
    hide Good;
    ExtendNone(j, m, now);
    var none: seq<Entry> := [];
    assert none[..0] == [];
  }

  lemma KeepsGoodSnoc(j: seq<Event>, gid: string, m: string, now: real, entries: seq<Entry>, e: Entry)
    requires KeepsGood(j, gid, m, now, entries) && Good(Extend(j, m, now, entries + [e]), gid, m)
    ensures KeepsGood(j, gid, m, now, entries + [e])
  {
    hide Good;
    var all := entries + [e];
    forall k | 0 <= k <= |all| ensures Good(Extend(j, m, now, all[..k]), gid, m) {
      assert all[..k] == if k <= |entries| then entries[..k] else all;
    }
  }

  lemma KeepsGoodAll(j: seq<Event>, gid: string, m: string, now: real, entries: seq<Entry>)
    requires KeepsGood(j, gid, m, now, entries)
    ensures Good(Extend(j, m, now, entries), gid, m)
  {
    hide Good;
    assert entries[..|entries|] == entries;
  }

  /** An accepted event that the rules allow, the graph's own or another's. */
  lemma SafeStep(j: seq<Event>, gid: string, m: string, now: real, e: Entry)
    requires Good(j, gid, m) && Acceptable(j, e) && EnabledAt(j, gid, e.body)
    ensures Good(j + [Stamp(m, |j| + 1, now, e)], gid, m)
  {
    hide Sound;
    hide Acceptable;
    hide EnabledAt;
    EntryKeeps(j, m, now, e);
    GeneratedSnoc(j, gid, Stamp(m, |j| + 1, now, e));
  }

  /** The definition of a graph is the one its creation event holds. */
  lemma CreatedDefinition(j: seq<Event>, gid: string, nodes: seq<GraphNode>)
    requires Generated(j, gid) && Healthy(j, gid)
    requires Stored(j, OfGraph(GraphCreateKey(gid)), Graph(GraphCreated(gid, nodes)))
    ensures GraphFold(j, gid).value.status != Absent
    ensures SameDefinition(GraphView(Created, NodesOf(nodes), OrderOf(nodes)), GraphFold(j, gid).value)
  {
    hide Linked;
    hide DepsSound;
    hide TaskFold;
    hide Enabled;
    hide GraphApply;
    hide NodesOf;
    hide OrderOf;
    hide Generated;
    hide GraphFold;
    hide SameDefinition;
    var i :| 0 <= i < |j| && j[i].body == Graph(GraphCreated(gid, nodes));
    GeneratedPrefix(j, gid, i);
    GeneratedHealthy(j[..i], gid);
    assert j[..i + 1] == j[..i] + [j[i]];
    GraphFoldPrefix(j, gid, i + 1);
    GraphFoldAppend(j[..i], gid, j[i]);
    CreatedView(GraphFold(j[..i], gid).value, gid, nodes);
    DefinitionStays(j, gid, i + 1);
  }

  lemma CreatedView(g: GraphView, gid: string, nodes: seq<GraphNode>)
    ensures var r := GraphApply(g, GraphCreated(gid, nodes));
      r.Success? ==> r.value == GraphView(Created, NodesOf(nodes), OrderOf(nodes))
  {
  }

  /** The tasks after those of `order` that were missing were created. */
  function AfterCreations(gid: string, nodes: map<string, NodeState>, v: TaskView, order: seq<string>): TaskView {
    if order == [] then v
    else
      var n := order[|order| - 1];
      var w := AfterCreations(gid, nodes, v, order[..|order| - 1]);
      if n in nodes && NodeTask(gid, n) !in v.tasks then
        TaskView(w.tasks[NodeTask(gid, n) := NewTask(nodes[n].subject, TaskIds(gid, nodes[n].blockedBy))],
                 w.order + [NodeTask(gid, n)])
      else w
  }

  lemma {:induction false} CreationsExist(gid: string, nodes: map<string, NodeState>, v: TaskView, order: seq<string>)
    ensures forall t :: t in AfterCreations(gid, nodes, v, order).tasks <==>
      t in v.tasks || (t.NodeTask? && t.graph == gid && t.node in order && t.node in nodes)
    ensures forall t :: t in v.tasks ==> AfterCreations(gid, nodes, v, order).tasks[t] == v.tasks[t]
  {
    if order != [] {
      CreationsExist(gid, nodes, v, order[..|order| - 1]);
      assert forall n :: n in order <==> n in order[..|order| - 1] || n == order[|order| - 1];
    }
  }

  ghost predicate CreationsGo(j: seq<Event>, gid: string, m: string, now: real, actor: string,
                              nodes: map<string, NodeState>, order: seq<string>)
    requires GraphFold(j, gid).Success? && TaskFold(j).Success?
  {
    var v := TaskFold(j).value;
    var entries := TaskCreations(gid, nodes, v.tasks, order, actor);
    && Lawful(j, gid, m, now, entries)
    && Good(Extend(j, m, now, entries), gid, m)
    && TaskFold(Extend(j, m, now, entries)) == Success(AfterCreations(gid, nodes, v, order))
    && GraphFold(Extend(j, m, now, entries), gid) == GraphFold(j, gid)
  }

  /** `nodes` defines the graph as its projection does. */
  ghost predicate Defines(nodes: map<string, NodeState>, g: GraphView) {
    && nodes.Keys == g.nodes.Keys
    && forall n :: n in nodes ==> nodes[n].subject == g.nodes[n].subject && nodes[n].blockedBy == g.nodes[n].blockedBy
  }

  /** Every `create_task` of `_materialize_tasks` succeeds: dependencies come first. */
  lemma {:induction false} CreationsLawful(j: seq<Event>, gid: string, m: string, now: real, actor: string,
                                           nodes: map<string, NodeState>, order: seq<string>)
    requires Good(j, gid, m) && Healthy(j, gid) && Defines(nodes, GraphFold(j, gid).value)
    requires Layered(NodeDeps(nodes), order)
    ensures CreationsGo(j, gid, m, now, actor, nodes, order)
  {
    hide Good;
    hide Lawful;
    hide TaskFold;
    hide GraphFold;
    hide Linked;
    hide DepsSound;
    if order == [] {
      ExtendNone(j, m, now);
      LawfulNone(j, gid, m, now);
    } else {
      hide CreationsGo;
      hide Defines;
      var k := |order| - 1;
      LayeredPrefix(NodeDeps(nodes), order, k);
      CreationsLawful(j, gid, m, now, actor, nodes, order[..k]);
      assert order == order[..k] + [order[k]];
      LayeredLast(NodeDeps(nodes), order[..k], order[k]);
      CreationOneMore(j, gid, m, now, actor, nodes, order[..k], order[k]);
    }
  }

  lemma LayeredPrefix(deps: map<string, seq<string>>, order: seq<string>, k: nat)
    requires Layered(deps, order) && k <= |order|
    ensures Layered(deps, order[..k])
  {
    forall i, d | 0 <= i < k && DependsOn(deps, order[..k][i], d) ensures d in order[..k][..i] {
      assert DependsOn(deps, order[i], d) && order[..k][..i] == order[..i];
    }
  }

  lemma LayeredLast(deps: map<string, seq<string>>, rest: seq<string>, n: string)
    requires Layered(deps, rest + [n])
    ensures n in deps && n !in rest && forall d :: d in deps[n] ==> d in rest
  {
    var order := rest + [n];
    assert order[|rest|] == n && order[..|rest|] == rest;
    forall d | d in deps[n] ensures d in rest {
      assert DependsOn(deps, order[|rest|], d);
    }
  }

  lemma CreationOneMore(j: seq<Event>, gid: string, m: string, now: real, actor: string,
                        nodes: map<string, NodeState>, rest: seq<string>, n: string)
    requires Healthy(j, gid) && Defines(nodes, GraphFold(j, gid).value)
    requires CreationsGo(j, gid, m, now, actor, nodes, rest)
    requires n in nodes && n !in rest && forall d :: d in nodes[n].blockedBy ==> d in rest && d in nodes
    ensures CreationsGo(j, gid, m, now, actor, nodes, rest + [n])
  {
    hide Good;
    hide Lawful;
    hide LawfulEntry;
    hide TaskFold;
    hide GraphFold;
    hide DepsSound;
    hide TaskCreations;
    hide AfterCreations;
    var g, v := GraphFold(j, gid).value, TaskFold(j).value;
    CreationSnoc(gid, nodes, v, rest, n, actor);
    CreationsExist(gid, nodes, v, rest);
    if NodeTask(gid, n) !in v.tasks {
      assert NodeLinked(gid, g, v.tasks, n);
      var earlier := TaskCreations(gid, nodes, v.tasks, rest, actor);
      var before := Extend(j, m, now, earlier);
      var w := AfterCreations(gid, nodes, v, rest);
      var e := Creation(actor, NodeTask(gid, n), nodes[n].subject, TaskIds(gid, nodes[n].blockedBy));
      GoodUnfold(before, gid, m);
      assert OwnEnabled(gid, g, w.tasks, e.body);
      assert LawfulEntry(before, gid, e) by { OwnCreationEntry(before, gid, e, n); }
      LawfulStep(before, gid, m, now, e);
      LawfulSnoc(j, gid, m, now, earlier, e);
      ExtendSnoc(j, m, now, earlier, e);
      CreationApplied(gid, g, w, e, n, nodes[n].subject, TaskIds(gid, nodes[n].blockedBy));
    }
  }

  lemma OwnCreationEntry(j: seq<Event>, gid: string, e: Entry, n: string)
    requires Healthy(j, gid) && e.body.Task? && e.body.taskFact.TaskCreated? && e.body.taskFact.task == NodeTask(gid, n)
    requires OwnEnabled(gid, GraphFold(j, gid).value, TaskFold(j).value.tasks, e.body)
    requires e.key == TaskKeyOf(e.body.taskFact)
    ensures LawfulEntry(j, gid, e)
  {
  }

  lemma CreationApplied(gid: string, g: GraphView, w: TaskView, e: Entry, n: string, subject: string,
                        blockedBy: seq<TaskId>)
    requires e == Creation(e.actor, NodeTask(gid, n), subject, blockedBy) && TaskStep(w, e.body).Success?
    ensures TaskStep(w, e.body)
      == Success(TaskView(w.tasks[NodeTask(gid, n) := NewTask(subject, blockedBy)], w.order + [NodeTask(gid, n)]))
    ensures GraphStep(gid, g, e.body) == Success(g)
  {
  }

  lemma CreationSnoc(gid: string, nodes: map<string, NodeState>, v: TaskView, rest: seq<string>, n: string,
                     actor: string)
    requires n in nodes
    ensures var w := AfterCreations(gid, nodes, v, rest); var t := NodeTask(gid, n);
      if t !in v.tasks then
        && AfterCreations(gid, nodes, v, rest + [n])
             == TaskView(w.tasks[t := NewTask(nodes[n].subject, TaskIds(gid, nodes[n].blockedBy))], w.order + [t])
        && TaskCreations(gid, nodes, v.tasks, rest + [n], actor)
             == TaskCreations(gid, nodes, v.tasks, rest, actor)
               + [Creation(actor, t, nodes[n].subject, TaskIds(gid, nodes[n].blockedBy))]
      else
        && AfterCreations(gid, nodes, v, rest + [n]) == w
        && TaskCreations(gid, nodes, v.tasks, rest + [n], actor) == TaskCreations(gid, nodes, v.tasks, rest, actor)
  {
    assert (rest + [n])[..|rest|] == rest;
  }

  /** After materialization every node has its task. */
  lemma MaterializationLawful(j: seq<Event>, gid: string, m: string, now: real, actor: string, nodes: map<string,
                              NodeState>)
    requires Good(j, gid, m) && Healthy(j, gid) && GraphFold(j, gid).value.status != Absent
    requires Defines(nodes, GraphFold(j, gid).value)
    ensures var entries := Materialization(gid, nodes, TaskFold(j).value.tasks, actor).entries;
      var j' := Extend(j, m, now, entries);
      && Lawful(j, gid, m, now, entries) && Good(j', gid, m) && Healthy(j', gid)
      && GraphFold(j', gid) == GraphFold(j, gid)
      && forall n :: n in nodes ==> NodeTask(gid, n) in TaskFold(j').value.tasks
  {
    hide Good;
    hide Lawful;
    hide TaskFold;
    hide GraphFold;
    hide DepsSound;
    hide Linked;
    hide Defines;
    hide Layered;
    hide NodeDeps;
    hide TaskCreations;
    hide AfterCreations;
    DefinitionOrder(gid, GraphFold(j, gid).value, TaskFold(j).value.tasks, nodes);
    var order := Rounds(NodeDeps(nodes), {});
    CreationsLawful(j, gid, m, now, actor, nodes, order);
    CreationsExist(gid, nodes, TaskFold(j).value, order);
    GoodUnfold(Extend(j, m, now, TaskCreations(gid, nodes, TaskFold(j).value.tasks, order, actor)), gid, m);
    assert forall n :: n in nodes ==> n in Elements(order);
  }

  lemma DefinitionOrder(gid: string, g: GraphView, tasks: TaskMap, nodes: map<string, NodeState>)
    requires Linked(gid, g, tasks) && g.status != Absent && Defines(nodes, g)
    ensures Layered(NodeDeps(nodes), Rounds(NodeDeps(nodes), {}))
    ensures Elements(Rounds(NodeDeps(nodes), {})) == nodes.Keys
  {
    assert NodeDeps(nodes) == NodeDeps(g.nodes);
    RoundsIsLayered(NodeDeps(nodes));
  }

  /** Tasks that are there fit the nodes of the graph. */
  ghost predicate TasksFit(gid: string, nodes: map<string, NodeState>, tasks: TaskMap) {
    forall n :: n in nodes && NodeTask(gid, n) in tasks ==>
      tasks[NodeTask(gid, n)].subject == nodes[n].subject
        && tasks[NodeTask(gid, n)].blockedBy == TaskIds(gid, nodes[n].blockedBy)
  }

  /** With dependencies first and tasks that fit, `_materialize_tasks` raises nothing and creates
      exactly the missing tasks. */
  lemma {:induction false} MaterialGoes(gid: string, nodes: map<string, NodeState>, v: TaskView, order: seq<string>,
                                        actor: string)
    requires Layered(NodeDeps(nodes), order) && DepsSound(v.tasks) && TasksFit(gid, nodes, v.tasks)
    ensures Materializing(gid, nodes, v, order, actor)
         == Material(Plan(TaskCreations(gid, nodes, v.tasks, order, actor), None), AfterCreations(gid, nodes, v, order))
    ensures DepsSound(AfterCreations(gid, nodes, v, order).tasks)
  {
    hide DepsSound;
    hide Layered;
    if order != [] {
      var k := |order| - 1;
      var n, rest := order[k], order[..k];
      LayeredPrefix(NodeDeps(nodes), order, k);
      MaterialGoes(gid, nodes, v, rest, actor);
      assert order == rest + [n];
      LayeredLast(NodeDeps(nodes), rest, n);
      RestKnown(NodeDeps(nodes), rest);
      CreationsExist(gid, nodes, v, rest);
      MaterialOneMore(gid, nodes, v, rest, n, actor);
    }
  }

  lemma RestKnown(deps: map<string, seq<string>>, rest: seq<string>)
    requires Layered(deps, rest)
    ensures forall d :: d in rest ==> d in deps
  {
  }

  lemma MaterialOneMore(gid: string, nodes: map<string, NodeState>, v: TaskView, rest: seq<string>, n: string,
                        actor: string)
    requires n in nodes && n !in rest && TasksFit(gid, nodes, v.tasks)
    requires forall d :: d in nodes[n].blockedBy ==> d in rest && d in nodes
    requires var w := AfterCreations(gid, nodes, v, rest);
      && DepsSound(w.tasks)
      && (forall t :: t in w.tasks <==>
        t in v.tasks || (t.NodeTask? && t.graph == gid && t.node in rest && t.node in nodes))
      && (forall t :: t in v.tasks ==> w.tasks[t] == v.tasks[t])
    ensures MaterialStep(gid, Material(Plan(TaskCreations(gid, nodes, v.tasks, rest, actor), None),
      AfterCreations(gid, nodes, v, rest)),
                         n, nodes[n].subject, nodes[n].blockedBy, actor)
         == Material(Plan(TaskCreations(gid, nodes, v.tasks, rest + [n], actor), None),
           AfterCreations(gid, nodes, v, rest + [n]))
    ensures DepsSound(AfterCreations(gid, nodes, v, rest + [n]).tasks)
  {
    hide DepsSound;
    hide AfterCreations;
    hide TaskCreations;
    CreationSnoc(gid, nodes, v, rest, n, actor);
    var w, t, blocked := AfterCreations(gid, nodes, v, rest), NodeTask(gid, n), TaskIds(gid, nodes[n].blockedBy);
    if t !in v.tasks {
      forall d | d in blocked ensures d in w.tasks {
        var q :| 0 <= q < |blocked| && blocked[q] == d;
        assert nodes[n].blockedBy[q] in nodes[n].blockedBy;
      }
      NewTaskSound(w.tasks, t, nodes[n].subject, blocked);
    }
  }

  /** So it does on a journal that follows the rules of the graph. */
  lemma MaterialPlanned(gid: string, g: GraphView, v: TaskView, nodes: map<string, NodeState>, actor: string)
    requires Linked(gid, g, v.tasks) && DepsSound(v.tasks) && g.status != Absent && Defines(nodes, g)
    ensures MaterialPlan(gid, nodes, v, actor) == Materialization(gid, nodes, v.tasks, actor)
  {
    hide DepsSound;
    hide Materializing;
    hide TaskCreations;
    DefinitionOrder(gid, g, v.tasks, nodes);
    forall n | n in nodes && NodeTask(gid, n) in v.tasks
      ensures v.tasks[NodeTask(gid, n)].subject == nodes[n].subject
      ensures v.tasks[NodeTask(gid, n)].blockedBy == TaskIds(gid, nodes[n].blockedBy)
    {
      assert NodeLinked(gid, g, v.tasks, n);
    }
    MaterialGoes(gid, nodes, v, Rounds(NodeDeps(nodes), {}), actor);
  }

  /** A created graph and its nodes have names. */
  lemma {:induction false} Named(j: seq<Event>, gid: string)
    requires Generated(j, gid) && GraphFold(j, gid).Success?
    ensures GraphFold(j, gid).value.status != Absent ==> gid != "" && "" !in GraphFold(j, gid).value.nodes
  {
    if j != [] {
      var k := |j| - 1;
      GeneratedPrefix(j, gid, k);
      GeneratedHealthy(j[..k], gid);
      Named(j[..k], gid);
      assert EnabledAt(j[..k], gid, j[k].body);
      NamedStep(gid, GraphFold(j[..k], gid).value, TaskFold(j[..k]).value, j[k].body);
    }
  }

  lemma NamedStep(gid: string, g: GraphView, v: TaskView, b: Body)
    requires g.status != Absent ==> gid != "" && "" !in g.nodes
    requires Enabled(gid, g, v, b) && GraphStep(gid, g, b).Success?
    ensures GraphStep(gid, g, b).value.status != Absent ==> gid != "" && "" !in GraphStep(gid, g, b).value.nodes
  {
    hide NodesOf;
    hide Closed;
    hide Acyclic;
    if b.Graph? && b.graphFact.GraphCreated? && Concerns(b, gid) {
      DistinctNodes(b.graphFact.nodes);
    }
  }

  /** What `create_graph` writes on a journal that follows the rules. */
  lemma CreatePlanned(m: string, j: seq<Event>, d: Definition, actor: string)
    requires Good(j, d.graph, m) && Readable(j)
    ensures CreatePlan(m, j, d, actor) ==
      if !ValidDefinition(d) then Plan([], Some(GraphDefinitionFault))
      else Then(PutPlan(m, j, GraphEntry(actor, GraphCreated(d.graph, d.nodes))),
                Materialization(d.graph, NodesOf(d.nodes), TaskFold(j).value.tasks, actor))
  {
    hide Good;
    hide Readable;
    hide TaskFold;
    hide GraphFold;
    hide Linked;
    hide DepsSound;
    hide ValidNodes;
    hide NodesOf;
    hide OrderOf;
    hide MaterialPlan;
    hide TaskCreations;
    var gid, e := d.graph, GraphEntry(actor, GraphCreated(d.graph, d.nodes));
    GoodUnfold(j, gid, m);
    GeneratedOf(j, gid, m);
    var g, v := GraphFold(j, gid).value, TaskFold(j).value;
    if ValidDefinition(d) && PutPlan(m, j, e).fault.None? {
      var rest := Materialization(gid, NodesOf(d.nodes), v.tasks, actor);
      if Unused(j, e.key) {
        AbsentWhenUnused(j, gid);
        NoTasksOf(gid, g, v.tasks);
        CreationLinked(gid, v.tasks, d.nodes);
        MaterialPlanned(gid, GraphView(Created, NodesOf(d.nodes), OrderOf(d.nodes)), v, NodesOf(d.nodes), actor);
      } else {
        CreatedDefinition(j, gid, d.nodes);
        MaterialPlanned(gid, g, v, NodesOf(d.nodes), actor);
      }
      assert rest.entries + [] == rest.entries;
    }
  }

  lemma NoTasksOf(gid: string, g: GraphView, tasks: TaskMap)
    requires Linked(gid, g, tasks) && g.status == Absent
    ensures forall n :: NodeTask(gid, n) !in tasks
  {
  }

  /** What `start_graph` writes on a journal that follows the rules. */
  lemma StartPlanned(m: string, j: seq<Event>, gid: string, actor: string)
    requires Good(j, gid, m) && Readable(j) && Healthy(j, gid) && GraphFold(j, gid).value.status == Created
    ensures ValidGraph(gid, GraphFold(j, gid).value)
    ensures StartPlan(m, j, gid, actor) ==
      Then(Materialization(gid, GraphFold(j, gid).value.nodes, TaskFold(j).value.tasks, actor),
           PutPlan(m, j, GraphEntry(actor, GraphStarted(gid))))
  {
    hide Good;
    hide Readable;
    hide TaskFold;
    hide GraphFold;
    hide DepsSound;
    hide MaterialPlan;
    hide Materialization;
    GeneratedOf(j, gid, m);
    Named(j, gid);
    MaterialPlanned(gid, GraphFold(j, gid).value, TaskFold(j).value, GraphFold(j, gid).value.nodes, actor);
  }

  /** `create_graph` follows the rules, whether the graph is new, half created by an earlier
      process, or complete. */
  lemma CreateLawful(m: string, j: seq<Event>, d: Definition, actor: string, now: real)
    requires Good(j, d.graph, m)
    ensures Readable(j) && Lawful(j, d.graph, m, now, CreatePlan(m, j, d, actor).entries)
  {
    hide Good;
    hide Lawful;
    hide LawfulEntry;
    hide TaskFold;
    hide GraphFold;
    hide Linked;
    hide DepsSound;
    hide Materialization;
    hide ValidNodes;
    hide CreatePlan;
    var gid := d.graph;
    GoodUnfold(j, gid, m);
    CreatePlanned(m, j, d, actor);
    LawfulNone(j, gid, m, now);
    var f := GraphCreated(gid, d.nodes);
    var e := GraphEntry(actor, f);
    if ValidDefinition(d) && m != "" && actor != "" {
      if Unused(j, e.key) {
        NewGraphLawful(m, j, d, actor, now);
      } else if Stored(j, e.key, e.body) {
        GeneratedOf(j, gid, m);
        CreatedDefinition(j, gid, d.nodes);
        MaterializationLawful(j, gid, m, now, actor, NodesOf(d.nodes));
        var rest := Materialization(gid, NodesOf(d.nodes), TaskFold(j).value.tasks, actor).entries;
        assert [] + rest == rest;
      }
    }
  }

  lemma GeneratedOf(j: seq<Event>, gid: string, m: string)
    requires Good(j, gid, m)
    ensures Generated(j, gid) && GraphKeyed(j)
  {
  }

  lemma AbsentWhenUnused(j: seq<Event>, gid: string)
    requires Generated(j, gid) && GraphKeyed(j) && Healthy(j, gid) && Unused(j, OfGraph(GraphCreateKey(gid)))
    ensures GraphFold(j, gid).value.status == Absent
  {
    hide TaskFold;
    hide Linked;
    hide DepsSound;
    NeverCreated(j, gid);
  }

  lemma {:induction false} NeverCreated(j: seq<Event>, gid: string)
    requires GraphKeyed(j) && Unused(j, OfGraph(GraphCreateKey(gid))) && GraphFold(j, gid).Success?
    ensures GraphFold(j, gid).value == NO_GRAPH
  {
    if j != [] {
      var n := |j| - 1;
      NeverCreated(j[..n], gid);
      assert j[n].key != OfGraph(GraphCreateKey(gid));
      assert GraphKeyFits(j[n].key, j[n].body);
    }
  }

  lemma NewGraphLawful(m: string, j: seq<Event>, d: Definition, actor: string, now: real)
    requires Good(j, d.graph, m) && Healthy(j, d.graph) && ValidDefinition(d)
    requires Unused(j, OfGraph(GraphCreateKey(d.graph)))
    ensures Lawful(j, d.graph, m, now,
      [GraphEntry(actor, GraphCreated(d.graph, d.nodes))]
      + Materialization(d.graph, NodesOf(d.nodes), TaskFold(j).value.tasks, actor).entries)
  {
    hide Good;
    hide Lawful;
    hide LawfulEntry;
    hide TaskFold;
    hide GraphFold;
    hide DepsSound;
    hide Materialization;
    var gid := d.graph;
    var f := GraphCreated(gid, d.nodes);
    var e := GraphEntry(actor, f);
    GeneratedOf(j, gid, m);
    AbsentWhenUnused(j, gid);
    OwnGraphEntry(j, gid, actor, f);
    LawfulOne(j, gid, m, now, e);
    LawfulStep(j, gid, m, now, e);
    var j' := j + [Stamp(m, |j| + 1, now, e)];
    ExtendOne(j, m, now, e);
    CreatedApplied(gid, GraphFold(j, gid).value, TaskFold(j).value, f, actor);
    MaterializationLawful(j', gid, m, now, actor, NodesOf(d.nodes));
    LawfulAppend(j, gid, m, now, [e], Materialization(gid, NodesOf(d.nodes), TaskFold(j).value.tasks, actor).entries);
  }

  lemma CreatedApplied(gid: string, g: GraphView, v: TaskView, f: GraphFact, actor: string)
    requires g.status == Absent && f.GraphCreated? && f.graph == gid
    ensures TaskStep(v, GraphEntry(actor, f).body) == Success(v)
    ensures GraphStep(gid, g, GraphEntry(actor, f).body)
      == Success(GraphView(Created, NodesOf(f.nodes), OrderOf(f.nodes)))
  {
  }

  /** `start_graph` follows the rules: it first completes a materialization a crash left half done. */
  lemma StartLawful(m: string, j: seq<Event>, gid: string, actor: string, now: real)
    requires Good(j, gid, m)
    ensures Readable(j) && Lawful(j, gid, m, now, StartPlan(m, j, gid, actor).entries)
  {
    hide Good;
    hide Lawful;
    hide LawfulEntry;
    hide TaskFold;
    hide GraphFold;
    hide Linked;
    hide DepsSound;
    hide Materialization;
    hide MaterialPlan;
    hide ValidGraph;
    GoodUnfold(j, gid, m);
    LawfulNone(j, gid, m, now);
    var g := GraphFold(j, gid).value;
    if g.status == Created {
      StartPlanned(m, j, gid, actor);
      MaterializationLawful(j, gid, m, now, actor, g.nodes);
      var plan := Materialization(gid, g.nodes, TaskFold(j).value.tasks, actor);
      NoFault(gid, g.nodes, TaskFold(j).value.tasks, actor);
      var j' := Extend(j, m, now, plan.entries);
      StartPut(m, j, gid, actor);
      OwnGraphEntry(j', gid, actor, GraphStarted(gid));
      LawfulSnoc(j, gid, m, now, plan.entries, GraphEntry(actor, GraphStarted(gid)));
      assert plan.entries + [] == plan.entries;
    }
  }

  lemma NoFault(gid: string, nodes: map<string, NodeState>, tasks: TaskMap, actor: string)
    ensures Materialization(gid, nodes, tasks, actor).fault.None?
  {
  }

  lemma StartPut(m: string, j: seq<Event>, gid: string, actor: string)
    requires Readable(j) && GraphFold(j, gid).Success? && GraphFold(j, gid).value.status == Created
    ensures var e := GraphEntry(actor, GraphStarted(gid));
      PutPlan(m, j, e) == if m == "" || actor == "" then Plan([], Some(ValueFault)) else Plan([e], None)
  {
    UnusedGraphKey(j, gid, GraphStartKey(gid));
  }

  /** `maybe_complete_graph` follows the rules. */
  lemma MaybeCompleteLawful(m: string, j: seq<Event>, gid: string, actor: string, now: real)
    requires Good(j, gid, m)
    ensures Readable(j) && Lawful(j, gid, m, now, MaybeCompletePlan(m, j, gid, actor).entries)
  {
    hide Good;
    hide Lawful;
    hide LawfulEntry;
    hide TaskFold;
    hide GraphFold;
    hide Linked;
    hide DepsSound;
    hide PutPlan;
    GoodUnfold(j, gid, m);
    LawfulNone(j, gid, m, now);
    var g := GraphFold(j, gid).value;
    EndPuts(m, j, gid, actor);
    if g.status == Running {
      if exists n :: n in g.nodes && g.nodes[n].status == Failed {
        OwnGraphEntry(j, gid, actor, GraphFailed(gid, "node_failed"));
        LawfulOne(j, gid, m, now, GraphEntry(actor, GraphFailed(gid, "node_failed")));
      } else if forall n :: n in g.nodes ==> g.nodes[n].status == Completed {
        OwnGraphEntry(j, gid, actor, GraphCompleted(gid));
        LawfulOne(j, gid, m, now, GraphEntry(actor, GraphCompleted(gid)));
      }
    }
  }

  lemma EndPuts(m: string, j: seq<Event>, gid: string, actor: string)
    requires Readable(j) && GraphFold(j, gid).Success?
    ensures GraphFold(j, gid).value.status == Running ==>
      var nameless := m == "" || actor == "";
      && (forall reason :: var e := GraphEntry(actor, GraphFailed(gid, reason));
            PutPlan(m, j, e) == if nameless then Plan([], Some(ValueFault)) else Plan([e], None))
      && var e := GraphEntry(actor, GraphCompleted(gid));
           PutPlan(m, j, e) == if nameless then Plan([], Some(ValueFault)) else Plan([e], None)
  {
    hide TaskFold;
    hide RecordFold;
    hide GraphFold;
    hide TaskKeyed;
    hide GraphKeyed;
    if GraphFold(j, gid).value.status == Running {
      UnusedGraphKey(j, gid, GraphCompleteKey(gid));
      forall reason ensures Unused(j, OfGraph(GraphFailKey(gid, reason))) {
        UnusedGraphKey(j, gid, GraphFailKey(gid, reason));
      }
    }
  }

  /** Releasing expired leases, of the graph's tasks and of others, follows the rules. */
  lemma {:induction false} ReleasesKeepGood(j: seq<Event>, gid: string, m: string, now: real, actor: string,
                                            order: seq<TaskId>)
    requires Good(j, gid, m) && Healthy(j, gid) && Distinct(order)
    ensures KeepsGood(j, gid, m, now, Releases(TaskFold(j).value.tasks, order, now, actor))
    ensures ReleasesGo(j, m, now, now, actor, order)
  {
    hide Good;
    hide KeepsGood;
    hide ReleasesGo;
    hide TaskFold;
    hide GraphFold;
    hide Linked;
    hide DepsSound;
    GoodUnfold(j, gid, m);
    ReleasesAdmissible(j, m, now, now, actor, order);
    if order == [] {
      KeepsGoodNone(j, gid, m, now);
    } else {
      var k := |order| - 1;
      ReleasesKeepGood(j, gid, m, now, actor, order[..k]);
      assert order == order[..k] + [order[k]];
      ReleaseKeepsGood(j, gid, m, now, actor, order[..k], order[k]);
    }
  }

  lemma ReleaseKeepsGood(j: seq<Event>, gid: string, m: string, now: real, actor: string, rest: seq<TaskId>, t: TaskId)
    requires TaskFold(j).Success? && GraphFold(j, gid).Success? && t !in rest
    requires KeepsGood(j, gid, m, now, Releases(TaskFold(j).value.tasks, rest, now, actor))
    requires ReleasesGo(j, m, now, now, actor, rest)
    ensures KeepsGood(j, gid, m, now, Releases(TaskFold(j).value.tasks, rest + [t], now, actor))
  {
    hide Good;
    hide Sound;
    hide KeepsGood;
    hide Admissible;
    hide Acceptable;
    hide TaskFold;
    hide GraphFold;
    hide Linked;
    hide DepsSound;
    hide ReleasedTasks;
    hide Enabled;
    var tasks := TaskFold(j).value.tasks;
    var earlier := Releases(tasks, rest, now, actor);
    assert (rest + [t])[..|rest|] == rest;
    if t in tasks && Expired(tasks[t], now) {
      var before := Extend(j, m, now, earlier);
      var e := Update(actor, t, tasks[t].revision + 1, ReleaseChanges(TaskBlocked));
      KeepsGoodAll(j, gid, m, now, earlier);
      GoodUnfold(before, gid, m);
      ReleasedSnoc(tasks, rest, t, now);
      UpdateOneMore(before, m, now, e, t, TaskFold(before).value, ReleaseChanges(TaskBlocked));
      AcceptableStep(before, e);
      ExpiryEnabled(before, gid, t, e);
      SafeStep(before, gid, m, now, e);
      ExtendSnoc(j, m, now, earlier, e);
      KeepsGoodSnoc(j, gid, m, now, earlier, e);
    }
  }

  lemma AcceptableStep(j: seq<Event>, e: Entry)
    requires Acceptable(j, e)
    ensures TaskFold(j).Success? && TaskStep(TaskFold(j).value, e.body).Success?
  {
  }

  lemma ExpiryEnabled(j: seq<Event>, gid: string, t: TaskId, e: Entry)
    requires Healthy(j, gid) && t in TaskFold(j).value.tasks && TaskFold(j).value.tasks[t].status.TaskLeased?
    requires e == Update(e.actor, t, TaskFold(j).value.tasks[t].revision + 1, ReleaseChanges(TaskBlocked))
    requires TaskStep(TaskFold(j).value, e.body).Success?
    ensures EnabledAt(j, gid, e.body)
  {
    if Own(gid, e.body) {
      assert NodeLinked(gid, GraphFold(j, gid).value, TaskFold(j).value.tasks, t.node);
    }
  }

  /** The operations on graph `gid`, the recovery of expired leases, and whatever else writes to
      the mission without touching the graph or its tasks. */
  datatype Operation =
    | CreateOp(definition: Definition)
    | StartOp
    | LeaseOp(node: string, worker: string, ttl: int, lease: string)
    | CompleteOp(node: string, receipt: Receipt)
    | FailOp(node: string, error: string)
    | ReconcileOp
    | MaybeCompleteOp
    | RecoverOp
    | ElsewhereOp(entries: seq<Entry>)

  ghost function OperationEntries(m: string, j: seq<Event>, gid: string, op: Operation, actor: string,
                                  now: real): seq<Entry>
    requires Readable(j)
  {
    match op
    case CreateOp(d) => CreatePlan(m, j, d, actor).entries
    case StartOp => StartPlan(m, j, gid, actor).entries
    case LeaseOp(n, worker, ttl, lease) => LeasePlan(m, j, gid, n, worker, ttl, lease, actor, now).entries
    case CompleteOp(n, receipt) => CompletePlan(m, j, gid, n, receipt, actor).entries
    case FailOp(n, error) => FailPlan(m, j, gid, n, actor, error).entries
    case ReconcileOp => ReconcilePlan(m, j, gid, actor).entries
    case MaybeCompleteOp => MaybeCompletePlan(m, j, gid, actor).entries
    case RecoverOp => Releases(TaskFold(j).value.tasks, TaskFold(j).value.order, now, actor)
    case ElsewhereOp(entries) => entries
  }

  /** The conditions a caller meets: one receipt per node, `reconcile` on a running graph unless
      no start is missing, and other writers stay with their own. */
  ghost predicate Allowed(m: string, j: seq<Event>, gid: string, op: Operation, now: real) {
    match op
    case CreateOp(d) => d.graph == gid
    case CompleteOp(n, receipt) => GraphFold(j, gid).Success? ==> !Clashing(gid, GraphFold(j, gid).value, n, receipt)
    case ReconcileOp =>
      GraphFold(j, gid).Success? && TaskFold(j).Success?
        && Reconcilable(gid, GraphFold(j, gid).value, TaskFold(j).value.tasks)
    case ElsewhereOp(entries) => Admissible(j, m, now, entries) && forall e :: e in entries ==> !Own(gid, e.body)
    case _ => true
  }

  /** Each operation, wherever it is cut short, leaves a good journal. */
  lemma OperationKeepsGood(m: string, j: seq<Event>, gid: string, op: Operation, actor: string, now: real)
    requires Good(j, gid, m) && Allowed(m, j, gid, op, now)
    ensures Readable(j) && KeepsGood(j, gid, m, now, OperationEntries(m, j, gid, op, actor, now))
  {
    hide Good;
    hide Lawful;
    hide KeepsGood;
    hide Readable;
    hide TaskFold;
    hide GraphFold;
    hide Linked;
    hide DepsSound;
    hide CreatePlan;
    hide StartPlan;
    hide LeasePlan;
    hide CompletePlan;
    hide FailPlan;
    hide ReconcilePlan;
    hide MaybeCompletePlan;
    hide Admissible;
    hide Reconcilable;
    hide Clashing;
    GoodUnfold(j, gid, m);
    match op {
      case CreateOp(d) => CreateLawful(m, j, d, actor, now);
      case StartOp => StartLawful(m, j, gid, actor, now);
      case LeaseOp(n, worker, ttl, lease) => LeaseLawful(m, j, gid, n, worker, ttl, lease, actor, now);
      case CompleteOp(n, receipt) => CompleteLawful(m, j, gid, n, receipt, actor, now);
      case FailOp(n, error) => FailLawful(m, j, gid, n, actor, error, now);
      case ReconcileOp => ReconcileLawful(m, j, gid, actor, now);
      case MaybeCompleteOp => MaybeCompleteLawful(m, j, gid, actor, now);
      case RecoverOp =>
        TaskFoldSound(j);
        ReleasesKeepGood(j, gid, m, now, actor, TaskFold(j).value.order);
      case ElsewhereOp(entries) => ElsewhereKeepsGood(j, gid, m, now, entries);
    }
    if !op.RecoverOp? && !op.ElsewhereOp? {
      LawfulKeepsGood(j, gid, m, now, OperationEntries(m, j, gid, op, actor, now));
    }
  }

  lemma {:induction false} ElsewhereKeepsGood(j: seq<Event>, gid: string, m: string, now: real, entries: seq<Entry>)
    requires Good(j, gid, m) && Admissible(j, m, now, entries) && forall e :: e in entries ==> !Own(gid, e.body)
    ensures KeepsGood(j, gid, m, now, entries)
  {
    hide Good;
    hide KeepsGood;
    hide Acceptable;
    hide Enabled;
    hide EnabledAt;
    hide Admissible;
    if entries == [] {
      KeepsGoodNone(j, gid, m, now);
    } else {
      var k := |entries| - 1;
      AdmissiblePrefix(j, m, now, entries, k);
      ElsewhereKeepsGood(j, gid, m, now, entries[..k]);
      KeepsGoodAll(j, gid, m, now, entries[..k]);
      var before := Extend(j, m, now, entries[..k]);
      assert entries[k] in entries;
      ForeignEnabled(before, gid, m, entries[k]);
      SafeStep(before, gid, m, now, entries[k]);
      ExtendSnoc(j, m, now, entries[..k], entries[k]);
      assert entries == entries[..k] + [entries[k]];
      KeepsGoodSnoc(j, gid, m, now, entries[..k], entries[k]);
    }
  }

  lemma AdmissiblePrefix(j: seq<Event>, m: string, now: real, entries: seq<Entry>, k: nat)
    requires Admissible(j, m, now, entries) && k < |entries|
    ensures Admissible(j, m, now, entries[..k]) && Acceptable(Extend(j, m, now, entries[..k]), entries[k])
  {
    hide Acceptable;
    forall i | 0 <= i < k ensures Acceptable(Extend(j, m, now, entries[..k][..i]), entries[..k][i]) {
      assert entries[..k][..i] == entries[..i];
    }
  }

  lemma ForeignEnabled(j: seq<Event>, gid: string, m: string, e: Entry)
    requires Good(j, gid, m) && Acceptable(j, e) && !Own(gid, e.body)
    ensures EnabledAt(j, gid, e.body)
  {
    hide Good;
    hide Linked;
    GoodUnfold(j, gid, m);
    AcceptableStep(j, e);
  }

  /** An operation, its caller and time, and how many events its process writes before it dies. */
  datatype Turn = Turn(op: Operation, actor: string, now: real, fuel: nat)

  ghost function After(m: string, j: seq<Event>, gid: string, t: Turn): seq<Event>
    requires Readable(j)
  {
    var entries := OperationEntries(m, j, gid, t.op, t.actor, t.now);
    Extend(j, m, t.now, entries[..Min(t.fuel, |entries|)])
  }

  /** `states` are the journals of a run of operations from an empty journal. */
  ghost predicate IsRun(m: string, gid: string, turns: seq<Turn>, states: seq<seq<Event>>) {
    && |states| == |turns| + 1 && states[0] == []
    && forall i :: 0 <= i < |turns| && Readable(states[i]) ==>
         && Allowed(m, states[i], gid, turns[i].op, turns[i].now)
         && states[i + 1] == After(m, states[i], gid, turns[i])
  }

  lemma {:induction false} EveryRunGood(m: string, gid: string, turns: seq<Turn>, states: seq<seq<Event>>, i: nat)
    requires IsRun(m, gid, turns, states) && i <= |turns|
    ensures Good(states[i], gid, m)
  {
    if i == 0 {
      NothingWellKept(m);
    } else {
      var t, before := turns[i - 1], states[i - 1];
      EveryRunGood(m, gid, turns, states, i - 1);
      RunStep(m, gid, before, t);
      assert states[i - 1 + 1] == After(m, before, gid, t);
    }
  }

  lemma RunStep(m: string, gid: string, j: seq<Event>, t: Turn)
    requires Good(j, gid, m) && (Readable(j) ==> Allowed(m, j, gid, t.op, t.now))
    ensures Readable(j) && Good(After(m, j, gid, t), gid, m)
  {
    hide Good;
    hide Readable;
    hide Allowed;
    hide OperationEntries;
    GoodUnfold(j, gid, m);
    OperationKeepsGood(m, j, gid, t.op, t.actor, t.now);
  }

  /** No reachable graph journal is rejected: after any run of operations, crashed anywhere,
      `replay` and `replay_graph` succeed and `ready_nodes` misses no task. */
  lemma NoRunRejected(m: string, gid: string, turns: seq<Turn>, states: seq<seq<Event>>, i: nat)
    requires IsRun(m, gid, turns, states) && i <= |turns|
    ensures Replay(states[i]).Success? && GraphFold(states[i], gid).Success?
    ensures ReadyNodes(gid, GraphFold(states[i], gid).value, Replay(states[i]).value.view.tasks).Success?
  {
    hide Good;
    hide Linked;
    EveryRunGood(m, gid, turns, states, i);
    GoodUnfold(states[i], gid, m);
    WellKeptReplays(TablesFor(states[i]), m);
    ReadyNodesExact(gid, GraphFold(states[i], gid).value, TaskFold(states[i]).value.tasks);
  }

  /** Causal order over every run: a node starts only after each of its ancestors had its receipt
      recorded and, later, its task completed. */
  lemma EveryRunCausal(m: string, gid: string, turns: seq<Turn>, states: seq<seq<Event>>, i: nat, k: nat, n: string,
                       d: string)
    requires IsRun(m, gid, turns, states) && i <= |turns| && k < |states[i]| && IsStartOf(states[i][k], gid, n)
    requires GraphFold(states[i], gid).Success? && Ancestor(NodeDeps(GraphFold(states[i], gid).value.nodes), d, n)
    ensures Finished(states[i][..k], gid, d)
  {
    EveryRunGood(m, gid, turns, states, i);
    GeneratedOf(states[i], gid, m);
    CausalOrder(states[i], gid, k, n, d);
  }
}
