/** The two loops of `reconcile` taken one node at a time, in any readable journal. */
module RepairSteps {
  import opened Base
  import opened Journal
  import opened Tasks
  import opened Records
  import opened GraphLog
  import opened PoolLog
  import opened LoopLog
  import opened Store
  import opened Projection
  import opened GraphPlans
  import opened GraphRepair

  function StartOf(actor: string, gid: string, tasks: TaskMap, n: string): Entry
    requires NodeTask(gid, n) in tasks && Attributed(tasks[NodeTask(gid, n)])
  {
    GraphEntry(actor, NodeStarted(gid, n, tasks[NodeTask(gid, n)].owner.value, tasks[NodeTask(gid, n)].lease.value))
  }

  function CompletionOf(actor: string, gid: string, g: GraphView, n: string): Entry
    requires n in g.nodes && g.nodes[n].pending.Some?
  {
    GraphEntry(actor, NodeCompleted(gid, n, g.nodes[n].pending.value, g.nodes[n].pendingEvidence))
  }

  lemma StartsSnoc(gid: string, g: GraphView, tasks: TaskMap, order: seq<string>, actor: string, i: nat)
    requires i < |order|
    ensures StartRepairs(gid, g, tasks, order[..i + 1], actor) ==
      var earlier := StartRepairs(gid, g, tasks, order[..i], actor);
      if StartsHere(gid, g, tasks, order[i]) then earlier + [StartOf(actor, gid, tasks, order[i])] else earlier
  {
    assert order[..i + 1][..i] == order[..i];
  }

  lemma CompletionsSnoc(gid: string, g: GraphView, tasks: TaskMap, order: seq<string>, actor: string, i: nat)
    requires i < |order|
    ensures CompletionRepairs(gid, g, tasks, order[..i + 1], actor) ==
      var earlier := CompletionRepairs(gid, g, tasks, order[..i], actor);
      if CompletesHere(gid, g, tasks, order[i]) then earlier + [CompletionOf(actor, gid, g, order[i])] else earlier
  {
    assert order[..i + 1][..i] == order[..i];
  }

  lemma {:induction false} StartsPrefix(gid: string, g: GraphView, tasks: TaskMap, order: seq<string>, actor: string,
                                        i: nat)
    returns (more: seq<Entry>)
    requires i <= |order|
    ensures StartRepairs(gid, g, tasks, order, actor) == StartRepairs(gid, g, tasks, order[..i], actor) + more
    decreases |order| - i
  {
    if i == |order| {
      assert order[..i] == order;
      more := [];
    } else {
      StartsSnoc(gid, g, tasks, order, actor, i);
      var rest := StartsPrefix(gid, g, tasks, order, actor, i + 1);
      more := (if StartsHere(gid, g, tasks, order[i]) then [StartOf(actor, gid, tasks, order[i])] else []) + rest;
    }
  }

  lemma {:induction false} CompletionsPrefix(gid: string, g: GraphView, tasks: TaskMap, order: seq<string>,
                                             actor: string, i: nat)
    returns (more: seq<Entry>)
    requires i <= |order|
    ensures CompletionRepairs(gid, g, tasks, order, actor) == CompletionRepairs(gid, g, tasks, order[..i], actor) + more
    decreases |order| - i
  {
    if i == |order| {
      assert order[..i] == order;
      more := [];
    } else {
      CompletionsSnoc(gid, g, tasks, order, actor, i);
      var rest := CompletionsPrefix(gid, g, tasks, order, actor, i + 1);
      more := (if CompletesHere(gid, g, tasks, order[i]) then [CompletionOf(actor, gid, g, order[i])] else []) + rest;
    }
  }

  /** Every repair is a graph event about a node of the list. */
  lemma {:induction false} RepairsAbout(gid: string, g: GraphView, tasks: TaskMap, order: seq<string>, actor: string)
    ensures forall e :: e in StartRepairs(gid, g, tasks, order, actor) ==>
      e.key.OfGraph? && e.key.graphKey.NodeStartKey? && e.key.graphKey.node in order
    ensures forall e :: e in CompletionRepairs(gid, g, tasks, order, actor) ==>
      e.key.OfGraph? && e.key.graphKey.NodeCompleteKey? && e.key.graphKey.node in order
  {
    if order != [] { RepairsAbout(gid, g, tasks, order[..|order| - 1], actor); }
  }

  /** What a repair's append does in the journal `reconcile` first read. */
  lemma RepairPuts(m: string, j: seq<Event>, gid: string, n: string, actor: string)
    requires Readable(j) && GraphFold(j, gid).Success? && TaskFold(j).Success?
    ensures var g, tasks := GraphFold(j, gid).value, TaskFold(j).value.tasks; var nameless := m == "" || actor == "";
      && (StartsHere(gid, g, tasks, n) ==>
            var e := StartOf(actor, gid, tasks, n);
            PutPlan(m, j, e) == if nameless then Plan([], Some(ValueFault)) else Plan([e], None))
      && (CompletesHere(gid, g, tasks, n) ==>
            var e := CompletionOf(actor, gid, g, n);
            PutPlan(m, j, e) == if nameless then Plan([], Some(ValueFault)) else Plan([e], None))
  {
    hide TaskFold;
    hide RecordFold;
    hide TaskKeyed;
    hide RecordKeyed;
    hide PoolKeyed;
    hide LoopKeyed;
    var g, tasks := GraphFold(j, gid).value, TaskFold(j).value.tasks;
    if StartsHere(gid, g, tasks, n) {
      UnusedGraphKey(j, gid, NodeStartKey(gid, n, tasks[NodeTask(gid, n)].lease.value));
    }
    if CompletesHere(gid, g, tasks, n) {
      UnusedGraphKey(j, gid, NodeCompleteKey(gid, n, g.nodes[n].pending.value));
    }
  }

  /** The fold after the missing starts among the first `i` nodes of a running graph. */
  lemma {:induction false} StartsFold(m: string, j: seq<Event>, gid: string, now: real, actor: string,
                                      order: seq<string>)
    requires GraphFold(j, gid).Success? && TaskFold(j).Success? && Distinct(order)
    requires GraphFold(j, gid).value.status == Running
    ensures var g, tasks := GraphFold(j, gid).value, TaskFold(j).value.tasks;
      GraphFold(Extend(j, m, now, StartRepairs(gid, g, tasks, order, actor)), gid)
        == Success(Restarted(gid, g, tasks, order))
  {
    hide GraphFold;
    hide TaskFold;
    hide Restarted;
    hide StartRepairs;
    var g, v := GraphFold(j, gid).value, TaskFold(j).value;
    if order == [] {
      NoRepairs(gid, g, v.tasks, actor);
      RestartedNone(gid, g, v.tasks);
      ExtendNone(j, m, now);
    } else {
      var k := |order| - 1;
      var n := order[k];
      StartsFold(m, j, gid, now, actor, order[..k]);
      assert order == order[..k] + [n];
      RestartedSnoc(gid, g, v.tasks, order[..k], n, actor);
      if StartsHere(gid, g, v.tasks, n) {
        var earlier, t := StartRepairs(gid, g, v.tasks, order[..k], actor), v.tasks[NodeTask(gid, n)];
        var e := StartOf(actor, gid, v.tasks, n);
        ExtendSnoc(j, m, now, earlier, e);
        var before := Extend(j, m, now, earlier);
        GraphFoldAppend(before, gid, Stamp(m, |before| + 1, now, e));
        RestartedStatus(gid, g, v.tasks, order[..k]);
        StartApplied(gid, Restarted(gid, g, v.tasks, order[..k]), v, n, t, e.body.graphFact, actor);
      }
    }
  }

  lemma NoRepairs(gid: string, g: GraphView, tasks: TaskMap, actor: string)
    ensures StartRepairs(gid, g, tasks, [], actor) == [] && CompletionRepairs(gid, g, tasks, [], actor) == []
  {
  }

  lemma {:induction false} CompletionsFold(m: string, j: seq<Event>, gid: string, now: real, actor: string,
                                           tasks: TaskMap, order: seq<string>)
    requires GraphFold(j, gid).Success? && Distinct(order)
    ensures var g := GraphFold(j, gid).value;
      GraphFold(Extend(j, m, now, CompletionRepairs(gid, g, tasks, order, actor)), gid)
        == Success(Recompleted(gid, g, tasks, order))
  {
    hide GraphFold;
    hide Recompleted;
    hide CompletionRepairs;
    var g := GraphFold(j, gid).value;
    if order == [] {
      NoRepairs(gid, g, tasks, actor);
      RestartedNone(gid, g, tasks);
      ExtendNone(j, m, now);
    } else {
      var k := |order| - 1;
      var n := order[k];
      CompletionsFold(m, j, gid, now, actor, tasks, order[..k]);
      assert order == order[..k] + [n];
      RecompletedSnoc(gid, g, tasks, order[..k], n, actor);
      if CompletesHere(gid, g, tasks, n) {
        var earlier := CompletionRepairs(gid, g, tasks, order[..k], actor);
        var e := CompletionOf(actor, gid, g, n);
        ExtendSnoc(j, m, now, earlier, e);
        var before := Extend(j, m, now, earlier);
        GraphFoldAppend(before, gid, Stamp(m, |before| + 1, now, e));
        CompletionApplied(gid, Recompleted(gid, g, tasks, order[..k]), NO_TASKS, n, e.body.graphFact, actor);
      }
    }
  }

  /** The second reading of the graph shows the same completions as the first. */
  ghost predicate SameToComplete(gid: string, g: GraphView, again: GraphView, tasks: TaskMap) {
    && again.order == g.order && again.nodes.Keys == g.nodes.Keys
    && (forall n :: CompletionMissing(gid, again, tasks, n) <==> CompletionMissing(gid, g, tasks, n))
    && (forall n :: CompletionMissing(gid, g, tasks, n) ==> again.nodes[n] == g.nodes[n])
  }

  lemma {:induction false} SameRepairs(gid: string, g: GraphView, again: GraphView, tasks: TaskMap, order: seq<string>,
                                       actor: string)
    requires SameToComplete(gid, g, again, tasks)
    ensures CompletionRepairs(gid, again, tasks, order, actor) == CompletionRepairs(gid, g, tasks, order, actor)
  {
    if order != [] { SameRepairs(gid, g, again, tasks, order[..|order| - 1], actor); }
  }

  lemma RestartedSame(gid: string, g: GraphView, tasks: TaskMap, order: seq<string>)
    ensures SameToComplete(gid, g, Restarted(gid, g, tasks, order), tasks)
  {
  }

  /** The first loop done, the graph is read again: it is rejected if a start was written off a
      running graph, and otherwise shows the completions as before. */
  lemma SecondReading(m: string, j: seq<Event>, gid: string, now: real, actor: string)
    requires GraphFold(j, gid).Success? && TaskFold(j).Success? && Distinct(GraphFold(j, gid).value.order)
    ensures var g, tasks := GraphFold(j, gid).value, TaskFold(j).value.tasks;
      var starts := StartRepairs(gid, g, tasks, g.order, actor);
      var j1 := Extend(j, m, now, starts);
      if starts != [] && g.status != Running then GraphFold(j1, gid).Failure?
      else GraphFold(j1, gid).Success? && SameToComplete(gid, g, GraphFold(j1, gid).value, tasks)
  {
    hide GraphFold;
    hide TaskFold;
    hide Restarted;
    hide StartRepairs;
    hide SameToComplete;
    var g, tasks := GraphFold(j, gid).value, TaskFold(j).value.tasks;
    var starts := StartRepairs(gid, g, tasks, g.order, actor);
    if g.status == Running {
      StartsFold(m, j, gid, now, actor, g.order);
      RestartedSame(gid, g, tasks, g.order);
    } else if starts != [] {
      StartsRejected(m, j, gid, actor, now, starts);
    } else {
      ExtendNone(j, m, now);
      RestartedNone(gid, g, tasks);
      RestartedSame(gid, g, tasks, []);
    }
  }
}
