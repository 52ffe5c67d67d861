/** `reconcile`: what it repairs, that it follows the rules on a running graph, and that there is
    nothing left for a second call. */
module GraphRepair {
  import opened Base
  import opened Journal
  import opened Tasks
  import opened Records
  import opened GraphLog
  import opened Store
  import opened Projection
  import opened GraphRules
  import opened GraphHistory
  import opened GraphPlans
  import opened GraphSafety

  function StartedNode(node: NodeState, t: TaskState): NodeState {
    node.(status := Running, owner := t.owner, lease := t.lease)
  }

  function CompletedNode(node: NodeState): NodeState {
    node.(status := Completed, receipt := node.pending)
  }

  /** The graph after the missing starts among `order` were written. */
  function Restarted(gid: string, g: GraphView, tasks: TaskMap, order: seq<string>): GraphView {
    g.(nodes := map n | n in g.nodes ::
      if n in order && StartsHere(gid, g, tasks, n) then StartedNode(g.nodes[n], tasks[NodeTask(gid, n)])
      else g.nodes[n])
  }

  /** The graph after the missing completions among `order` were written. */
  function Recompleted(gid: string, g: GraphView, tasks: TaskMap, order: seq<string>): GraphView {
    g.(nodes := map n | n in g.nodes ::
      if n in order && CompletesHere(gid, g, tasks, n) then CompletedNode(g.nodes[n]) else g.nodes[n])
  }

  ghost predicate StartsGo(j: seq<Event>, gid: string, m: string, now: real, actor: string, order: seq<string>)
    requires GraphFold(j, gid).Success? && TaskFold(j).Success?
  {
    var g, v := GraphFold(j, gid).value, TaskFold(j).value;
    var entries := StartRepairs(gid, g, v.tasks, order, actor);
    && Lawful(j, gid, m, now, entries)
    && Good(Extend(j, m, now, entries), gid, m)
    && TaskFold(Extend(j, m, now, entries)) == Success(v)
    && GraphFold(Extend(j, m, now, entries), gid) == Success(Restarted(gid, g, v.tasks, order))
  }

  lemma RestartedNone(gid: string, g: GraphView, tasks: TaskMap)
    ensures Restarted(gid, g, tasks, []) == g && Recompleted(gid, g, tasks, []) == g
  {
    assert Restarted(gid, g, tasks, []).nodes == g.nodes;
    assert Recompleted(gid, g, tasks, []).nodes == g.nodes;
  }

  lemma RestartedSnoc(gid: string, g: GraphView, tasks: TaskMap, rest: seq<string>, n: string, actor: string)
    requires n !in rest
    ensures n in g.nodes ==>
      n in Restarted(gid, g, tasks, rest).nodes && Restarted(gid, g, tasks, rest).nodes[n] == g.nodes[n]
    ensures var before := Restarted(gid, g, tasks, rest);
      if StartsHere(gid, g, tasks, n) then
        var t := tasks[NodeTask(gid, n)];
        && Restarted(gid, g, tasks, rest + [n]) == before.(nodes := before.nodes[n := StartedNode(g.nodes[n], t)])
        && StartRepairs(gid, g, tasks, rest + [n], actor) ==
             StartRepairs(gid, g, tasks, rest, actor) + [StartEntry(actor, gid, n, t.owner.value, t.lease.value)]
      else
        && Restarted(gid, g, tasks, rest + [n]) == before
        && StartRepairs(gid, g, tasks, rest + [n], actor) == StartRepairs(gid, g, tasks, rest, actor)
  {
    assert (rest + [n])[..|rest|] == rest;
    var before, after := Restarted(gid, g, tasks, rest), Restarted(gid, g, tasks, rest + [n]);
    if StartsHere(gid, g, tasks, n) {
      assert after.nodes == before.nodes[n := StartedNode(g.nodes[n], tasks[NodeTask(gid, n)])];
    } else {
      assert after.nodes == before.nodes;
    }
  }

  /** Writing the missing starts one by one follows the rules of a running graph. */
  lemma {:induction false} StartRepairsLawful(j: seq<Event>, gid: string, m: string, now: real, actor: string,
                                              order: seq<string>)
    requires Good(j, gid, m) && Healthy(j, gid) && GraphFold(j, gid).value.status == Running && Distinct(order)
    ensures StartsGo(j, gid, m, now, actor, order)
  {
    hide Good;
    hide Lawful;
    hide TaskFold;
    hide GraphFold;
    hide Linked;
    hide DepsSound;
    hide Restarted;
    if order == [] {
      ExtendNone(j, m, now);
      LawfulNone(j, gid, m, now);
      RestartedNone(gid, GraphFold(j, gid).value, TaskFold(j).value.tasks);
    } else {
      hide StartsGo;
      var n := |order| - 1;
      StartRepairsLawful(j, gid, m, now, actor, order[..n]);
      assert order == order[..n] + [order[n]];
      StartOneMore(j, gid, m, now, actor, order[..n], order[n]);
    }
  }

  lemma StartOneMore(j: seq<Event>, gid: string, m: string, now: real, actor: string, rest: seq<string>, n: string)
    requires GraphFold(j, gid).Success? && TaskFold(j).Success? && GraphFold(j, gid).value.status == Running
    requires StartsGo(j, gid, m, now, actor, rest) && n !in rest
    ensures StartsGo(j, gid, m, now, actor, rest + [n])
  {
    hide Good;
    hide Lawful;
    hide LawfulEntry;
    hide TaskFold;
    hide GraphFold;
    hide Linked;
    hide DepsSound;
    hide Restarted;
    hide StartRepairs;
    var g, v := GraphFold(j, gid).value, TaskFold(j).value;
    RestartedSnoc(gid, g, v.tasks, rest, n, actor);
    if StartsHere(gid, g, v.tasks, n) {
      var t := v.tasks[NodeTask(gid, n)];
      var earlier := StartRepairs(gid, g, v.tasks, rest, actor);
      var before := Extend(j, m, now, earlier);
      var f := NodeStarted(gid, n, t.owner.value, t.lease.value);
      GoodUnfold(before, gid, m);
      RestartedStatus(gid, g, v.tasks, rest);
      OwnGraphEntry(before, gid, actor, f);
      LawfulStep(before, gid, m, now, GraphEntry(actor, f));
      LawfulSnoc(j, gid, m, now, earlier, GraphEntry(actor, f));
      ExtendSnoc(j, m, now, earlier, GraphEntry(actor, f));
      StartApplied(gid, Restarted(gid, g, v.tasks, rest), v, n, t, f, actor);
    }
  }

  lemma RestartedStatus(gid: string, g: GraphView, tasks: TaskMap, order: seq<string>)
    ensures Restarted(gid, g, tasks, order).status == g.status
  {
  }

  lemma StartApplied(gid: string, g: GraphView, v: TaskView, n: string, t: TaskState, f: GraphFact, actor: string)
    requires n in g.nodes && g.nodes[n].status == Pending && g.status == Running
    requires t.owner.Some? && t.lease.Some? && f == NodeStarted(gid, n, t.owner.value, t.lease.value)
    ensures TaskStep(v, GraphEntry(actor, f).body) == Success(v)
    ensures GraphStep(gid, g, GraphEntry(actor, f).body)
      == Success(g.(nodes := g.nodes[n := StartedNode(g.nodes[n], t)]))
  {
  }

  ghost predicate CompletionsGo(j: seq<Event>, gid: string, m: string, now: real, actor: string, order: seq<string>)
    requires GraphFold(j, gid).Success? && TaskFold(j).Success?
  {
    var g, v := GraphFold(j, gid).value, TaskFold(j).value;
    var entries := CompletionRepairs(gid, g, v.tasks, order, actor);
    && Lawful(j, gid, m, now, entries)
    && Good(Extend(j, m, now, entries), gid, m)
    && TaskFold(Extend(j, m, now, entries)) == Success(v)
    && GraphFold(Extend(j, m, now, entries), gid) == Success(Recompleted(gid, g, v.tasks, order))
  }

  lemma RecompletedSnoc(gid: string, g: GraphView, tasks: TaskMap, rest: seq<string>, n: string, actor: string)
    requires n !in rest
    ensures n in g.nodes ==>
      n in Recompleted(gid, g, tasks, rest).nodes && Recompleted(gid, g, tasks, rest).nodes[n] == g.nodes[n]
    ensures var before := Recompleted(gid, g, tasks, rest);
      if CompletesHere(gid, g, tasks, n) then
        var node := g.nodes[n];
        && Recompleted(gid, g, tasks, rest + [n]) == before.(nodes := before.nodes[n := CompletedNode(node)])
        && CompletionRepairs(gid, g, tasks, rest + [n], actor) ==
             CompletionRepairs(gid, g, tasks, rest, actor)
             + [GraphEntry(actor, NodeCompleted(gid, n, node.pending.value, node.pendingEvidence))]
      else
        && Recompleted(gid, g, tasks, rest + [n]) == before
        && CompletionRepairs(gid, g, tasks, rest + [n], actor) == CompletionRepairs(gid, g, tasks, rest, actor)
  {
    assert (rest + [n])[..|rest|] == rest;
    var before, after := Recompleted(gid, g, tasks, rest), Recompleted(gid, g, tasks, rest + [n]);
    if CompletesHere(gid, g, tasks, n) {
      assert after.nodes == before.nodes[n := CompletedNode(g.nodes[n])];
    } else {
      assert after.nodes == before.nodes;
    }
  }

  /** Writing the missing completions one by one follows the rules, whatever the graph's status. */
  lemma {:induction false} CompletionRepairsLawful(j: seq<Event>, gid: string, m: string, now: real, actor: string,
                                                   order: seq<string>)
    requires Good(j, gid, m) && Healthy(j, gid) && Distinct(order)
    ensures CompletionsGo(j, gid, m, now, actor, order)
  {
    hide Good;
    hide Lawful;
    hide TaskFold;
    hide GraphFold;
    hide Linked;
    hide DepsSound;
    hide Recompleted;
    if order == [] {
      ExtendNone(j, m, now);
      LawfulNone(j, gid, m, now);
      RestartedNone(gid, GraphFold(j, gid).value, TaskFold(j).value.tasks);
    } else {
      hide CompletionsGo;
      var n := |order| - 1;
      CompletionRepairsLawful(j, gid, m, now, actor, order[..n]);
      assert order == order[..n] + [order[n]];
      CompletionOneMore(j, gid, m, now, actor, order[..n], order[n]);
    }
  }

  lemma CompletionOneMore(j: seq<Event>, gid: string, m: string, now: real, actor: string, rest: seq<string>, n: string)
    requires GraphFold(j, gid).Success? && TaskFold(j).Success?
    requires CompletionsGo(j, gid, m, now, actor, rest) && n !in rest
    ensures CompletionsGo(j, gid, m, now, actor, rest + [n])
  {
    hide Good;
    hide Lawful;
    hide LawfulEntry;
    hide TaskFold;
    hide GraphFold;
    hide Linked;
    hide DepsSound;
    hide Recompleted;
    hide CompletionRepairs;
    var g, v := GraphFold(j, gid).value, TaskFold(j).value;
    RecompletedSnoc(gid, g, v.tasks, rest, n, actor);
    if CompletesHere(gid, g, v.tasks, n) {
      var node := g.nodes[n];
      var earlier := CompletionRepairs(gid, g, v.tasks, rest, actor);
      var before := Extend(j, m, now, earlier);
      var f := NodeCompleted(gid, n, node.pending.value, node.pendingEvidence);
      GoodUnfold(before, gid, m);
      OwnGraphEntry(before, gid, actor, f);
      LawfulStep(before, gid, m, now, GraphEntry(actor, f));
      LawfulSnoc(j, gid, m, now, earlier, GraphEntry(actor, f));
      ExtendSnoc(j, m, now, earlier, GraphEntry(actor, f));
      CompletionApplied(gid, Recompleted(gid, g, v.tasks, rest), v, n, f, actor);
    }
  }

  lemma CompletionApplied(gid: string, g: GraphView, v: TaskView, n: string, f: GraphFact, actor: string)
    requires n in g.nodes && g.nodes[n].status == Running && g.nodes[n].pending.Some?
    requires f == NodeCompleted(gid, n, g.nodes[n].pending.value, g.nodes[n].pendingEvidence)
    ensures TaskStep(v, GraphEntry(actor, f).body) == Success(v)
    ensures GraphStep(gid, g, GraphEntry(actor, f).body)
      == Success(g.(nodes := g.nodes[n := CompletedNode(g.nodes[n])]))
  {
  }

  /** The second loop, run after the first, finds what it would have found before. */
  lemma {:induction false} SameCompletions(gid: string, g: GraphView, tasks: TaskMap, all: seq<string>,
                                           order: seq<string>, actor: string)
    ensures CompletionRepairs(gid, Restarted(gid, g, tasks, all), tasks, order, actor)
      == CompletionRepairs(gid, g, tasks, order, actor)
  {
    if order != [] {
      SameCompletions(gid, g, tasks, all, order[..|order| - 1], actor);
    }
  }

  /** The graph after a complete `reconcile`. */
  function Reconciled(gid: string, g: GraphView, tasks: TaskMap): GraphView {
    Recompleted(gid, Restarted(gid, g, tasks, g.order), tasks, g.order)
  }

  ghost predicate NothingToStart(gid: string, g: GraphView, tasks: TaskMap) {
    forall n :: !StartsHere(gid, g, tasks, n)
  }

  lemma {:induction false} NoStartRepairs(gid: string, g: GraphView, tasks: TaskMap, order: seq<string>, actor: string)
    ensures NothingToStart(gid, g, tasks) ==> StartRepairs(gid, g, tasks, order, actor) == []
    ensures forall n :: n in order && StartsHere(gid, g, tasks, n) ==> StartRepairs(gid, g, tasks, order, actor) != []
  {
    if order != [] {
      NoStartRepairs(gid, g, tasks, order[..|order| - 1], actor);
      assert StartsHere(gid, g, tasks, order[|order| - 1]) ==> StartRepairs(gid, g, tasks, order, actor) != [];
    }
  }

  lemma {:induction false} NoCompletionRepairs(gid: string, g: GraphView, tasks: TaskMap, order: seq<string>,
                                               actor: string)
    requires forall n :: !CompletesHere(gid, g, tasks, n)
    ensures CompletionRepairs(gid, g, tasks, order, actor) == []
  {
    if order != [] { NoCompletionRepairs(gid, g, tasks, order[..|order| - 1], actor); }
  }

  /** `reconcile` may be called: the graph is running, or no start is missing. */
  ghost predicate Reconcilable(gid: string, g: GraphView, tasks: TaskMap) {
    g.status == Running || NothingToStart(gid, g, tasks)
  }

  lemma RestartedIdle(gid: string, g: GraphView, tasks: TaskMap, order: seq<string>)
    requires NothingToStart(gid, g, tasks)
    ensures Restarted(gid, g, tasks, order) == g
  {
    assert Restarted(gid, g, tasks, order).nodes == g.nodes;
  }

  /** `reconcile` follows the rules if and only if the graph is running or no start is missing, and
      then leads to `Reconciled`.  Without a mission or an actor it writes nothing. */
  lemma ReconcileLawful(m: string, j: seq<Event>, gid: string, actor: string, now: real)
    requires Good(j, gid, m) && Readable(j) && Healthy(j, gid)
    ensures var entries := ReconcilePlan(m, j, gid, actor).entries; var j' := Extend(j, m, now, entries);
      var due := Reconcilable(gid, GraphFold(j, gid).value, TaskFold(j).value.tasks);
      && (Lawful(j, gid, m, now, entries) <==> due || m == "" || actor == "")
      && (due && m != "" && actor != "" ==>
            && ReconcilePlan(m, j, gid, actor).fault.None?
            && TaskFold(j') == TaskFold(j)
            && GraphFold(j', gid) == Success(Reconciled(gid, GraphFold(j, gid).value, TaskFold(j).value.tasks)))
  {
    hide Good;
    hide Lawful;
    hide Readable;
    hide TaskFold;
    hide GraphFold;
    hide Linked;
    hide DepsSound;
    hide Reconciled;
    hide StartRepairs;
    hide CompletionRepairs;
    var g, tasks := GraphFold(j, gid).value, TaskFold(j).value.tasks;
    var entries := ReconcilePlan(m, j, gid, actor).entries;
    if Reconcilable(gid, g, tasks) {
      DueRepairs(m, j, gid, actor, now);
    } else if m == "" || actor == "" {
      LawfulNone(j, gid, m, now);
    } else {
      ReconcileRejected(m, j, gid, actor, now);
      if Lawful(j, gid, m, now, entries) {
        LawfulKeeps(j, gid, m, now, entries, |entries|);
        assert entries[..|entries|] == entries;
        GoodUnfold(Extend(j, m, now, entries), gid, m);
      }
    }
  }

  /** Off a running graph, with a start missing, what `reconcile` writes is rejected. */
  lemma ReconcileRejected(m: string, j: seq<Event>, gid: string, actor: string, now: real)
    requires Readable(j) && Healthy(j, gid) && m != "" && actor != ""
    requires !Reconcilable(gid, GraphFold(j, gid).value, TaskFold(j).value.tasks)
    ensures GraphFold(Extend(j, m, now, ReconcilePlan(m, j, gid, actor).entries), gid).Failure?
  {
    hide Readable;
    hide TaskFold;
    hide DepsSound;
    hide Linked;
    hide StartRepairs;
    hide CompletionRepairs;
    var g, tasks := GraphFold(j, gid).value, TaskFold(j).value.tasks;
    var n :| StartsHere(gid, g, tasks, n);
    OrderDistinct(gid, g, tasks);
    assert n in Elements(g.order);
    NoStartRepairs(gid, g, tasks, g.order, actor);
    StartsRejected(m, j, gid, actor, now, StartRepairs(gid, g, tasks, g.order, actor));
  }

  lemma DueRepairs(m: string, j: seq<Event>, gid: string, actor: string, now: real)
    requires Good(j, gid, m) && Readable(j) && Healthy(j, gid)
    requires Reconcilable(gid, GraphFold(j, gid).value, TaskFold(j).value.tasks)
    ensures var entries := ReconcilePlan(m, j, gid, actor).entries; var j' := Extend(j, m, now, entries);
      && Lawful(j, gid, m, now, entries)
      && (m != "" && actor != "" ==>
            && ReconcilePlan(m, j, gid, actor).fault.None?
            && TaskFold(j') == TaskFold(j)
            && GraphFold(j', gid) == Success(Reconciled(gid, GraphFold(j, gid).value, TaskFold(j).value.tasks)))
  {
    hide Good;
    hide Lawful;
    hide LawfulEntry;
    hide Readable;
    hide TaskFold;
    hide GraphFold;
    hide Linked;
    hide DepsSound;
    hide Restarted;
    hide Recompleted;
    hide StartRepairs;
    hide CompletionRepairs;
    var g, v := GraphFold(j, gid).value, TaskFold(j).value;
    var starts := StartRepairs(gid, g, v.tasks, g.order, actor);
    var completions := CompletionRepairs(gid, g, v.tasks, g.order, actor);
    LawfulNone(j, gid, m, now);
    OrderDistinct(gid, g, v.tasks);
    if g.status == Running {
      StartRepairsLawful(j, gid, m, now, actor, g.order);
    } else {
      NoStartRepairs(gid, g, v.tasks, g.order, actor);
      RestartedIdle(gid, g, v.tasks, g.order);
      ExtendNone(j, m, now);
    }
    var j1 := Extend(j, m, now, starts);
    GoodUnfold(j1, gid, m);
    SameCompletions(gid, g, v.tasks, g.order, g.order, actor);
    CompletionRepairsLawful(j1, gid, m, now, actor, g.order);
    RestartedOrder(gid, g, v.tasks, g.order);
    LawfulAppend(j, gid, m, now, starts, completions);
    ExtendAppend(j, m, now, starts, completions);
  }

  lemma OrderDistinct(gid: string, g: GraphView, tasks: TaskMap)
    requires Linked(gid, g, tasks)
    ensures Distinct(g.order) && Elements(g.order) == g.nodes.Keys
  {
  }

  lemma RestartedOrder(gid: string, g: GraphView, tasks: TaskMap, order: seq<string>)
    ensures Restarted(gid, g, tasks, order).order == g.order
  {
  }

  /** Nothing is left to repair. */
  ghost predicate Settled(gid: string, g: GraphView, tasks: TaskMap) {
    forall n :: !StartsHere(gid, g, tasks, n) && !CompletesHere(gid, g, tasks, n)
  }

  lemma ReconciledSettled(gid: string, g: GraphView, tasks: TaskMap)
    requires Elements(g.order) == g.nodes.Keys
    ensures Settled(gid, Reconciled(gid, g, tasks), tasks)
  {
    assert forall n :: n in g.nodes ==> n in Elements(g.order);
  }

  /** In a settled state `reconcile` writes nothing. */
  lemma SettledPlan(m: string, j: seq<Event>, gid: string, actor: string)
    requires Readable(j) && Healthy(j, gid) && Settled(gid, GraphFold(j, gid).value, TaskFold(j).value.tasks)
    ensures ReconcilePlan(m, j, gid, actor) == Plan([], None)
  {
    hide Readable;
    hide TaskFold;
    hide GraphFold;
    var g, tasks := GraphFold(j, gid).value, TaskFold(j).value.tasks;
    NoStartRepairs(gid, g, tasks, g.order, actor);
    NoCompletionRepairs(gid, g, tasks, g.order, actor);
  }

  /** A second `reconcile`, by whomever, appends nothing; it raises if the first one spoiled the
      journal. */
  lemma ReconcileIdempotent(m: string, j: seq<Event>, gid: string, actor: string, again: string, now: real)
    requires Good(j, gid, m) && Readable(j) && Healthy(j, gid) && m != "" && actor != ""
    ensures var j' := Extend(j, m, now, ReconcilePlan(m, j, gid, actor).entries);
      && Readable(j')
      && ReconcilePlan(m, j', gid, again) ==
           Plan([], if Reconcilable(gid, GraphFold(j, gid).value, TaskFold(j).value.tasks) then None
             else Some(GraphReplayRejected))
  {
    hide Good;
    hide Lawful;
    hide Readable;
    hide TaskFold;
    hide GraphFold;
    hide DepsSound;
    hide Linked;
    hide Reconciled;
    hide Reconcilable;
    var g, tasks := GraphFold(j, gid).value, TaskFold(j).value.tasks;
    var entries := ReconcilePlan(m, j, gid, actor).entries;
    var j' := Extend(j, m, now, entries);
    RepairsReadable(m, j, gid, actor, now);
    if Reconcilable(gid, g, tasks) {
      ReconcileLawful(m, j, gid, actor, now);
      LawfulKeeps(j, gid, m, now, entries, |entries|);
      assert entries[..|entries|] == entries;
      GoodUnfold(j', gid, m);
      OrderDistinct(gid, g, tasks);
      ReconciledSettled(gid, g, tasks);
      SettledPlan(m, j', gid, again);
    } else {
      ReconcileRejected(m, j, gid, actor, now);
    }
  }

  /** Whatever `reconcile` writes, tasks and records can be read. */
  lemma RepairsReadable(m: string, j: seq<Event>, gid: string, actor: string, now: real)
    requires Readable(j)
    ensures Readable(Extend(j, m, now, ReconcilePlan(m, j, gid, actor).entries))
  {
    hide Readable;
    hide GraphFold;
    hide TaskFold;
    hide StartRepairs;
    hide CompletionRepairs;
    if GraphFold(j, gid).Success? {
      var g, tasks := GraphFold(j, gid).value, ReadTasks(j);
      RepairsFit(gid, g, tasks, g.order, actor);
      FactsReadable(m, j, now, ReconcilePlan(m, j, gid, actor).entries);
    } else {
      ExtendNone(j, m, now);
    }
  }

  ghost function ReadTasks(j: seq<Event>): TaskMap
    requires Readable(j)
  {
    TaskFold(j).value.tasks
  }

  lemma {:induction false} RepairsFit(gid: string, g: GraphView, tasks: TaskMap, order: seq<string>, actor: string)
    ensures forall e :: e in StartRepairs(gid, g, tasks, order, actor) ==>
      e.body.Graph? && e.key == GraphKeyOf(e.body.graphFact)
    ensures forall e :: e in CompletionRepairs(gid, g, tasks, order, actor) ==>
      e.body.Graph? && e.key == GraphKeyOf(e.body.graphFact)
  {
    if order != [] { RepairsFit(gid, g, tasks, order[..|order| - 1], actor); }
  }

  lemma {:induction false} FactsReadable(m: string, j: seq<Event>, now: real, entries: seq<Entry>)
    requires Readable(j) && forall e :: e in entries ==> e.body.Graph? && e.key == GraphKeyOf(e.body.graphFact)
    ensures Readable(Extend(j, m, now, entries))
  {
    hide Readable;
    if entries == [] {
      ExtendNone(j, m, now);
    } else {
      var k := |entries| - 1;
      FactsReadable(m, j, now, entries[..k]);
      assert entries == entries[..k] + [entries[k]];
      ExtendSnoc(j, m, now, entries[..k], entries[k]);
      var before := Extend(j, m, now, entries[..k]);
      FactReadable(before, Stamp(m, |before| + 1, now, entries[k]));
    }
  }

  lemma FactReadable(j: seq<Event>, e: Event)
    requires Readable(j) && e.body.Graph? && e.key == GraphKeyOf(e.body.graphFact)
    ensures Readable(j + [e])
  {
    TaskFoldAppend(j, e);
    RecordFoldAppend(j, e);
    KeyedAppend(j, e);
  }

  /** Off a running graph the missing start of a node poisons the journal: `reconcile` keeps the
      journal replayable if and only if the graph is running or no start is missing. */
  lemma ReconcileReplayableIff(m: string, j: seq<Event>, gid: string, actor: string, now: real)
    requires Good(j, gid, m) && Readable(j) && Healthy(j, gid) && m != "" && actor != ""
    ensures GraphFold(Extend(j, m, now, ReconcilePlan(m, j, gid, actor).entries), gid).Success?
       <==> Reconcilable(gid, GraphFold(j, gid).value, TaskFold(j).value.tasks)
  {
    hide Good;
    hide Lawful;
    hide Readable;
    hide TaskFold;
    hide GraphFold;
    hide DepsSound;
    hide Linked;
    hide Reconciled;
    hide ReconcilePlan;
    if Reconcilable(gid, GraphFold(j, gid).value, TaskFold(j).value.tasks) {
      ReconcileLawful(m, j, gid, actor, now);
    } else {
      ReconcileRejected(m, j, gid, actor, now);
    }
  }

  lemma {:induction false} AllStarts(gid: string, g: GraphView, tasks: TaskMap, order: seq<string>, actor: string)
    ensures forall e :: e in StartRepairs(gid, g, tasks, order, actor) ==>
      Concerns(e.body, gid) && e.body.graphFact.NodeStarted?
  {
    if order != [] { AllStarts(gid, g, tasks, order[..|order| - 1], actor); }
  }

  lemma StartRefused(g: GraphView, f: GraphFact)
    requires g.status != Running && f.NodeStarted?
    ensures GraphApply(g, f).Failure?
  {
  }

  lemma StartsRejected(m: string, j: seq<Event>, gid: string, actor: string, now: real, entries: seq<Entry>)
    requires GraphFold(j, gid).Success? && TaskFold(j).Success? && GraphFold(j, gid).value.status != Running
    requires entries == StartRepairs(gid, GraphFold(j, gid).value, TaskFold(j).value.tasks,
      GraphFold(j, gid).value.order, actor)
    requires entries != []
    ensures GraphFold(Extend(j, m, now, entries), gid).Failure?
  {
    hide StartRepairs;
    hide TaskFold;
    hide GraphFold;
    hide GraphApply;
    AllStarts(gid, GraphFold(j, gid).value, TaskFold(j).value.tasks, GraphFold(j, gid).value.order, actor);
    var j' := Extend(j, m, now, entries);
    assert entries[0] in entries;
    assert entries == [entries[0]] + entries[1..];
    ExtendAppend(j, m, now, [entries[0]], entries[1..]);
    ExtendOne(j, m, now, entries[0]);
    var first := j + [Stamp(m, |j| + 1, now, entries[0])];
    GraphFoldAppend(j, gid, Stamp(m, |j| + 1, now, entries[0]));
    StartRefused(GraphFold(j, gid).value, entries[0].body.graphFact);
    assert j'[..|first|] == first;
    if GraphFold(j', gid).Success? { GraphFoldPrefix(j', gid, |first|); }
  }
}
