/** `GraphEngine` as the class that reads the projections, decides and writes.  Each call is shown
    to write exactly its plan, or the part of it that the process lived to write. */
module GraphCalls {
  import opened Base
  import opened Ordering
  import opened Digraph
  import opened Journal
  import opened Tasks
  import opened Records
  import opened GraphLog
  import opened PoolLog
  import opened LoopLog
  import opened Store
  import opened Projection
  import opened GraphRules
  import opened Runtime
  import opened RuntimeCalls
  import opened GraphPlans
  import opened RepairSteps
  import opened MaterialSteps
  import opened GraphLifecycle
  import opened GraphAnswers
  import opened GraphDefinitions

  /** A graph event under a key not used before is one every projection takes. */
  lemma GraphAcceptable(j: seq<Event>, actor: string, f: GraphFact)
    requires Readable(j) && Unused(j, GraphKeyOf(f))
    ensures Acceptable(j, GraphEntry(actor, f))
  {
  }

  /** Entries under other keys do not change what an append does. */
  lemma PutLater(m: string, j: seq<Event>, now: real, entries: seq<Entry>, e: Entry)
    requires forall i :: 0 <= i < |entries| ==> entries[i].key != e.key
    ensures PutPlan(m, Extend(j, m, now, entries), e) == PutPlan(m, j, e)
  {
    var j' := Extend(j, m, now, entries);
    forall i | 0 <= i < |j'| ensures if i < |j| then j'[i] == j[i] else j'[i].key != e.key {
      if i < |j| {
        assert j'[..|j|][i] == j'[i];
      } else {
        assert j'[|j| + (i - |j|)].key == entries[i - |j|].key;
      }
    }
    if Stored(j, e.key, e.body) {
      var i :| 0 <= i < |j| && j[i].key == e.key && j[i].body == e.body;
      assert j'[i] == j[i];
    }
    if Unused(j', e.key) {
      forall i | 0 <= i < |j| ensures j[i].key != e.key { assert j'[i] == j[i]; }
    }
  }

  /** Two plans, the second begun only if the first went through. */
  lemma RanBoth(m: string, now: real, p: Plan, q: Plan, a: map<string, Tables>, fa: nat,
                b: map<string, Tables>, fb: nat, first: Option<Error>, c: map<string, Tables>, fc: nat,
                fault: Option<Error>)
    requires Ran(m, now, p, a, fa, b, fb, first) && p.fault != Some(Crashed)
    requires if first.Some? then c == b && fc == fb && fault == first else Ran(m, now, q, b, fb, c, fc, fault)
    ensures Ran(m, now, Then(p, q), a, fa, c, fc, fault)
  {
    if first.None? {
      RanThen(m, now, p, q, a, fa, b, fb, c, fc, fault);
    } else if p.fault.None? {
      RanCrashed(m, now, p, q.entries, q.fault, a, fa, b, fb);
    }
  }

  /** What a call that went through left in the journal. */
  lemma RanJournal(m: string, now: real, p: Plan, a: map<string, Tables>, fa: nat, b: map<string, Tables>, fb: nat)
    requires Ran(m, now, p, a, fa, b, fb, None)
    ensures p.fault.None? && Rows(b, m).journal == Extend(Rows(a, m).journal, m, now, p.entries)
  {
    assert p.entries[..|p.entries|] == p.entries;
  }

  lemma NeverCrashes(m: string, j: seq<Event>, e: Entry, v: TaskView, actor: string, t: TaskId, expected: int,
                     c: Changes)
    ensures PutPlan(m, j, e).fault != Some(Crashed) && UpdateTaskPlan(v, actor, t, expected, c).fault != Some(Crashed)
    ensures UpdateTaskPlan(v, actor, t, expected, c).fault.None? ==>
      UpdateTaskPlan(v, actor, t, expected, c) == Plan([Update(actor, t, expected + 1, c)], None)
  {
  }

  /** The dictionary of nodes and its order name the same nodes, each once. */
  lemma {:induction false} OrderCovers(j: seq<Event>, gid: string)
    requires GraphFold(j, gid).Success?
    ensures Distinct(GraphFold(j, gid).value.order)
    ensures forall n :: n in GraphFold(j, gid).value.order <==> n in GraphFold(j, gid).value.nodes
  {
    if j != [] {
      hide GraphApply;
      OrderCovers(j[..|j| - 1], gid);
      var g, b := GraphFold(j[..|j| - 1], gid).value, j[|j| - 1].body;
      if Concerns(b, gid) { ApplyCovers(g, b.graphFact); }
    }
  }

  lemma ApplyCovers(g: GraphView, f: GraphFact)
    requires Distinct(g.order) && (forall n :: n in g.order <==> n in g.nodes) && GraphApply(g, f).Success?
    ensures var r := GraphApply(g, f).value; Distinct(r.order) && forall n :: n in r.order <==> n in r.nodes
  {
    if f.GraphCreated? { ListCovers(f.nodes); }
  }

  lemma {:induction false} ListCovers(raw: seq<GraphNode>)
    ensures Distinct(OrderOf(raw)) && forall n :: n in OrderOf(raw) <==> n in NodesOf(raw)
  {
    if raw != [] { ListCovers(raw[..|raw| - 1]); }
  }

  lemma {:induction false} ReadyAmongKnown(gid: string, g: GraphView, tasks: TaskMap, order: seq<string>)
    requires ReadyAmong(gid, g, tasks, order).Success?
    ensures forall n :: n in ReadyAmong(gid, g, tasks, order).value ==> NodeTask(gid, n) in tasks
  {
    if order != [] { ReadyAmongKnown(gid, g, tasks, order[..|order| - 1]); }
  }

  /** A ready node has a task. */
  lemma ReadyHasTask(gid: string, g: GraphView, tasks: TaskMap, n: string)
    requires GraphPlans.ReadyNodes(gid, g, tasks).Success? && n in GraphPlans.ReadyNodes(gid, g, tasks).value
    ensures NodeTask(gid, n) in tasks
  {
    if g.status == Running {
      ReadyAmongKnown(gid, g, tasks, g.order);
      var ready := ReadyAmong(gid, g, tasks, g.order).value;
      assert n in multiset(Sort(ready)) <==> n in multiset(ready);
    }
  }

  lemma ReadyAmongSnoc(gid: string, g: GraphView, tasks: TaskMap, i: nat)
    requires i < |g.order| && ReadyAmong(gid, g, tasks, g.order[..i]).Success?
    ensures ReadyAmong(gid, g, tasks, g.order[..i + 1]) ==
      match NodeReady(gid, g, tasks, g.order[i])
      case Failure(error) => Failure(error)
      case Success(ready) =>
        var earlier := ReadyAmong(gid, g, tasks, g.order[..i]).value;
        Success(if ready then earlier + [g.order[i]] else earlier)
  {
    assert g.order[..i + 1][..i] == g.order[..i];
  }

  /** The first failure among the nodes is the answer. */
  lemma {:induction false} ReadyAmongFails(gid: string, g: GraphView, tasks: TaskMap, k: nat)
    requires k <= |g.order| && ReadyAmong(gid, g, tasks, g.order[..k]).Failure?
    ensures ReadyAmong(gid, g, tasks, g.order) == ReadyAmong(gid, g, tasks, g.order[..k])
    decreases |g.order| - k
  {
    if k == |g.order| {
      assert g.order[..k] == g.order;
    } else {
      assert g.order[..k + 1][..k] == g.order[..k];
      ReadyAmongFails(gid, g, tasks, k + 1);
    }
  }

  /** What is left to write once the receipt is recorded. */
  ghost function FinishPlan(m: string, j: seq<Event>, gid: string, n: string, receipt: Receipt, actor: string): Plan
    requires Readable(j) && GraphFold(j, gid).Success? && n in GraphFold(j, gid).value.nodes
  {
    var v, node, t := TaskFold(j).value, GraphFold(j, gid).value.nodes[n], NodeTask(gid, n);
    if t !in v.tasks then Plan([], Some(KeyFault))
    else if v.tasks[t].status.TaskCompleted? then CompletedPlan(m, j, gid, n, receipt, actor)
    else if v.tasks[t].owner != node.owner then Plan([], Some(GraphTransitionFault))
    else
      Then(UpdateTaskPlan(v, actor, t, v.tasks[t].revision, ReleaseChanges(TaskCompleted)),
           CompletedPlan(m, j, gid, n, receipt, actor))
  }

  ghost function CompletedPlan(m: string, j: seq<Event>, gid: string, n: string, receipt: Receipt, actor: string): Plan
    requires GraphFold(j, gid).Success? && n in GraphFold(j, gid).value.nodes
  {
    Then(PutPlan(m, j, GraphEntry(actor, NodeCompleted(gid, n, receipt.claimed, receipt.material.evidence))),
         Plan([], ReceiptClash(GraphFold(j, gid).value.nodes[n], receipt)))
  }

  lemma CompletePlanIs(m: string, j: seq<Event>, gid: string, n: string, receipt: Receipt, actor: string)
    requires Readable(j) && GraphFold(j, gid).Success? && n in GraphFold(j, gid).value.nodes
    requires ValidReceipt(receipt, gid, n)
    requires var node := GraphFold(j, gid).value.nodes[n];
      node.status == Running && node.owner == Some(receipt.material.actor)
    ensures CompletePlan(m, j, gid, n, receipt, actor) ==
      Then(PutPlan(m, j,
        GraphEntry(actor, NodeReceipt(gid, n, receipt.claimed, receipt.material.evidence, receipt.material.actor))),
           FinishPlan(m, j, gid, n, receipt, actor))
  {
    hide Readable;
    hide TaskFold;
    hide GraphFold;
    hide PutPlan;
    hide UpdateTaskPlan;
  }

  lemma PutNeverCrashes(m: string, j: seq<Event>, e: Entry)
    ensures PutPlan(m, j, e).fault != Some(Crashed)
  {
  }

  /** `after` is `j` with the receipt recorded, now or before. */
  ghost predicate ReceiptIn(m: string, j: seq<Event>, after: seq<Event>, gid: string, n: string, receipt: Receipt) {
    && GraphFold(j, gid).Success? && n in GraphFold(j, gid).value.nodes
    && GraphFold(j, gid).value.nodes[n].status == Running
    && (forall actor, f: GraphFact ::
      f.NodeCompleted? && f.graph == gid && f.node == n && f.digest == receipt.claimed ==>
          PutPlan(m, after, GraphEntry(actor, f)) == PutPlan(m, j, GraphEntry(actor, f)))
    && var g, node := GraphFold(j, gid).value, GraphFold(j, gid).value.nodes[n];
       if node.pending.Some? && node.pending.value != receipt.claimed then GraphFold(after, gid).Failure?
       else
         && GraphFold(after, gid).Success? && n in GraphFold(after, gid).value.nodes
         && GraphFold(after, gid).value.nodes[n].status == Running
         && GraphFold(after, gid).value.nodes[n].pending == Some(receipt.claimed)
  }

  lemma ReceiptInFold(m: string, j: seq<Event>, after: seq<Event>, gid: string, n: string, receipt: Receipt)
    requires ReceiptIn(m, j, after, gid, n, receipt)
    ensures GraphFold(j, gid).Success? && n in GraphFold(j, gid).value.nodes
    ensures forall actor, f: GraphFact ::
      f.NodeCompleted? && f.graph == gid && f.node == n && f.digest == receipt.claimed ==>
      PutPlan(m, after, GraphEntry(actor, f)) == PutPlan(m, j, GraphEntry(actor, f))
  {
  }

  /** Recording the receipt leaves the journal with it, or rejected if another one was there. */
  lemma ReceiptRead(m: string, j: seq<Event>, gid: string, n: string, receipt: Receipt, actor: string, now: real)
    requires Readable(j) && GraphFold(j, gid).Success? && n in GraphFold(j, gid).value.nodes
    requires GraphFold(j, gid).value.nodes[n].status == Running
    requires var e := GraphEntry(actor, NodeReceipt(gid, n, receipt.claimed, receipt.material.evidence,
      receipt.material.actor));
      PutPlan(m, j, e).fault.None?
    ensures var e := GraphEntry(actor, NodeReceipt(gid, n, receipt.claimed, receipt.material.evidence,
      receipt.material.actor));
      ReceiptIn(m, j, Extend(j, m, now, PutPlan(m, j, e).entries), gid, n, receipt)
  {
    hide Readable;
    hide GraphFold;
    hide TaskFold;
    hide PutPlan;
    var g, f := GraphFold(j, gid).value, NodeReceipt(gid, n, receipt.claimed, receipt.material.evidence,
      receipt.material.actor);
    var e := GraphEntry(actor, f);
    PutIsOneOrNone(m, j, e);
    var entries := PutPlan(m, j, e).entries;
    forall who, c: GraphFact | c.NodeCompleted? && c.graph == gid && c.node == n && c.digest == receipt.claimed
      ensures PutPlan(m, Extend(j, m, now, entries), GraphEntry(who, c)) == PutPlan(m, j, GraphEntry(who, c)) {
      PutLater(m, j, now, entries, GraphEntry(who, c));
    }
    if entries == [] {
      ExtendNone(j, m, now);
      StoredReceiptPending(j, gid, n, receipt, e);
    } else {
      UpdateThenFact(j, gid, m, now, [], actor, f);
      assert [] + [e] == [e];
    }
  }

  lemma PutIsOneOrNone(m: string, j: seq<Event>, e: Entry)
    requires PutPlan(m, j, e).fault.None?
    ensures PutPlan(m, j, e).entries == [e] || (PutPlan(m, j, e).entries == [] && Stored(j, e.key, e.body))
  {
  }

  lemma StoredReceiptPending(j: seq<Event>, gid: string, n: string, receipt: Receipt, e: Entry)
    requires Readable(j) && GraphFold(j, gid).Success? && Stored(j, e.key, e.body)
    requires e.key == OfGraph(NodeReceiptKey(gid, n, receipt.claimed))
    ensures n in GraphFold(j, gid).value.nodes && GraphFold(j, gid).value.nodes[n].pending == Some(receipt.claimed)
  {
    hide TaskFold;
    hide RecordFold;
    hide TaskKeyed;
    hide RecordKeyed;
    hide PoolKeyed;
    hide LoopKeyed;
    var i :| 0 <= i < |j| && j[i].key == e.key;
    UsedGraphKeyTraced(j, gid, i);
  }

  /** At most one task event, then one event of the graph. */
  lemma UpdateThenFact(j: seq<Event>, gid: string, m: string, now: real, entries: seq<Entry>, actor: string,
                       f: GraphFact)
    requires |entries| <= 1 && (forall e :: e in entries ==> e.body.Task?) && f.graph == gid
    ensures var j' := Extend(j, m, now, entries + [GraphEntry(actor, f)]);
      if GraphFold(j, gid).Success? then GraphFold(j', gid) == GraphApply(GraphFold(j, gid).value, f)
      else GraphFold(j', gid).Failure?
  {
    hide GraphApply;
    ExtendSnoc(j, m, now, entries, GraphEntry(actor, f));
    var before := Extend(j, m, now, entries);
    if entries == [] {
      ExtendNone(j, m, now);
    } else {
      assert entries == [entries[0]] && entries[0] in entries;
      ExtendOne(j, m, now, entries[0]);
      GraphFoldAppend(j, gid, Stamp(m, |j| + 1, now, entries[0]));
    }
    GraphFoldAppend(before, gid, Stamp(m, |before| + 1, now, GraphEntry(actor, f)));
  }

  /** A failure or a completion of a running node is under a new key. */
  lemma RunningPuts(m: string, j: seq<Event>, gid: string, n: string, e: Entry)
    requires Readable(j) && GraphFold(j, gid).Success? && n in GraphFold(j, gid).value.nodes
    requires GraphFold(j, gid).value.nodes[n].status == Running
    requires e.key.OfGraph? && e.key.graphKey.graph == gid
    requires (e.key.graphKey.NodeFailKey? || e.key.graphKey.NodeCompleteKey?) && e.key.graphKey.node == n
    ensures PutPlan(m, j, e).fault.None? ==> PutPlan(m, j, e).entries == [e]
  {
    hide TaskFold;
    hide RecordFold;
    hide TaskKeyed;
    hide RecordKeyed;
    hide PoolKeyed;
    hide LoopKeyed;
    UnusedGraphKey(j, gid, e.key.graphKey);
  }

  /** The graph re-read at the end of `complete_node` is rejected exactly when receipts clash. */
  lemma ClashShows(m: string, j: seq<Event>, after: seq<Event>, gid: string, n: string, receipt: Receipt, actor: string,
                   e: Entry)
    requires Readable(j) && ReceiptIn(m, j, after, gid, n, receipt)
    requires e == GraphEntry(actor, NodeCompleted(gid, n, receipt.claimed, receipt.material.evidence))
    ensures PutPlan(m, j, e).fault.None? ==> PutPlan(m, j, e).entries == [e]
    ensures ReceiptClash(GraphFold(j, gid).value.nodes[n], receipt) ==
      if GraphFold(after, gid).Success? && GraphApply(GraphFold(after, gid).value, e.body.graphFact).Success? then None
      else Some(GraphReplayRejected)
  {
    hide Readable;
    hide GraphFold;
    hide TaskFold;
    hide PutPlan;
    RunningPuts(m, j, gid, n, e);
  }

  /** A plan that ended early ends the same way before a check that comes after it. */
  lemma AddFault(m: string, now: real, p: Plan, q: Plan, later: Option<Error>, a: map<string, Tables>, fa: nat,
                 b: map<string, Tables>, fb: nat, error: Error)
    requires Ran(m, now, Then(p, q), a, fa, b, fb, Some(error)) && p.fault.None?
    ensures Ran(m, now, Then(p, Then(q, Plan([], later))), a, fa, b, fb, Some(error))
  {
    assert q.entries + [] == q.entries;
  }

  lemma EndFault(m: string, now: real, p: Plan, q: Plan, later: Option<Error>, a: map<string, Tables>, fa: nat,
                 b: map<string, Tables>, fb: nat)
    requires Ran(m, now, Then(p, q), a, fa, b, fb, None) && p.fault.None?
    ensures Ran(m, now, Then(p, Then(q, Plan([], later))), a, fa, b, fb, later)
  {
    assert q.entries + [] == q.entries;
  }

  lemma NothingThen(p: Plan)
    ensures Then(Plan([], None), p) == p
  {
    assert [] + p.entries == p.entries;
  }

  lemma FailureApplies(g: GraphView, gid: string, n: string, error: string)
    requires n in g.nodes && g.nodes[n].status == Running
    ensures GraphApply(g, NodeFailed(gid, n, error)).Success?
  {
  }

  lemma EndingApplies(g: GraphView, gid: string, failed: bool)
    requires g.status == Running && (failed || forall n :: n in g.nodes ==> g.nodes[n].status == Completed)
    ensures GraphApply(g, if failed then GraphFailed(gid, "node_failed") else GraphCompleted(gid)).Success?
  {
  }

  lemma NodesByOrder(g: GraphView)
    requires forall n :: n in g.order <==> n in g.nodes
    ensures (exists n :: n in g.nodes && g.nodes[n].status == Failed)
       <==> exists k :: 0 <= k < |g.order| && g.nodes[g.order[k]].status == Failed
    ensures (forall n :: n in g.nodes ==> g.nodes[n].status == Completed)
       <==> !exists k :: 0 <= k < |g.order| && g.nodes[g.order[k]].status != Completed
  {
    forall n | n in g.nodes ensures exists k :: 0 <= k < |g.order| && g.order[k] == n {
      assert n in g.order;
    }
  }

  /** What `reconcile` returns: the nodes it repaired, those it could not, and the graph. */
  datatype Repair = Repair(started: seq<string>, completed: seq<string>, blocked: seq<string>, graph: GraphView)

  ghost predicate RepairReported(gid: string, g: GraphView, tasks: TaskMap, r: Repair) {
    && (forall n :: n in r.started <==> StartsHere(gid, g, tasks, n))
    && (forall n :: n in r.completed <==> CompletesHere(gid, g, tasks, n))
    && Ascending(r.blocked)
    && (forall n :: n in r.blocked <==>
          || (StartMissing(gid, g, tasks, n) && !StartsHere(gid, g, tasks, n))
          || (CompletionMissing(gid, g, tasks, n) && !CompletesHere(gid, g, tasks, n)))
  }

  /** The report in the fields: started and completed is what was due, blocked what lacked a named
      lease or a receipt. */
  lemma ReportedExactly(gid: string, g: GraphView, tasks: TaskMap, r: Repair)
    requires RepairReported(gid, g, tasks, r)
    ensures forall n :: n in r.started <==> exists owner, lease :: StartDue(gid, g, tasks, n, owner, lease)
    ensures forall n :: n in r.completed <==> exists d, evidence :: CompletionDue(gid, g, tasks, n, d, evidence)
    ensures forall n :: n in r.blocked <==>
      && n in g.nodes && NodeTask(gid, n) in tasks
      && ((g.nodes[n].status == Pending && tasks[NodeTask(gid, n)].status.TaskLeased?
           && !exists owner, lease :: StartDue(gid, g, tasks, n, owner, lease))
          || (g.nodes[n].status == Running && tasks[NodeTask(gid, n)].status.TaskCompleted?
              && g.nodes[n].pending.None?))
  {
    forall n
      ensures StartsHere(gid, g, tasks, n) <==> exists owner, lease :: StartDue(gid, g, tasks, n, owner, lease)
      ensures CompletesHere(gid, g, tasks, n) <==> exists d, evidence :: CompletionDue(gid, g, tasks, n, d, evidence) {
      if StartsHere(gid, g, tasks, n) {
        var t := tasks[NodeTask(gid, n)];
        assert StartDue(gid, g, tasks, n, t.owner.value, t.lease.value);
      }
      if CompletesHere(gid, g, tasks, n) {
        assert CompletionDue(gid, g, tasks, n, g.nodes[n].pending.value, g.nodes[n].pendingEvidence);
      }
    }
  }

  ghost function StartsPlan(m: string, gid: string, g: GraphView, tasks: TaskMap, actor: string): Plan {
    var starts := StartRepairs(gid, g, tasks, g.order, actor);
    if (m == "" || actor == "") && starts != [] then Plan([], Some(ValueFault)) else Plan(starts, None)
  }

  ghost function CompletionsPlan(m: string, gid: string, g: GraphView, tasks: TaskMap, actor: string): Plan {
    var completions := CompletionRepairs(gid, g, tasks, g.order, actor);
    if (m == "" || actor == "") && completions != [] then Plan([], Some(ValueFault)) else Plan(completions, None)
  }

  ghost function AfterStarts(m: string, gid: string, g: GraphView, tasks: TaskMap, actor: string): Plan {
    if StartRepairs(gid, g, tasks, g.order, actor) != [] && g.status != Running then Plan([], Some(GraphReplayRejected))
    else CompletionsPlan(m, gid, g, tasks, actor)
  }

  lemma ReconcilePlanIs(m: string, j: seq<Event>, gid: string, actor: string)
    requires Readable(j)
    ensures ReconcilePlan(m, j, gid, actor) ==
      if GraphFold(j, gid).Failure? then Plan([], Some(GraphReplayRejected))
      else
        var g, tasks := GraphFold(j, gid).value, TaskFold(j).value.tasks;
        Then(StartsPlan(m, gid, g, tasks, actor), AfterStarts(m, gid, g, tasks, actor))
  {
    hide TaskFold;
    hide RecordFold;
    hide Keyed;
    hide GraphFold;
    hide StartRepairs;
    hide CompletionRepairs;
    if GraphFold(j, gid).Success? {
      var g, tasks := GraphFold(j, gid).value, TaskFold(j).value.tasks;
      var starts, completions := StartRepairs(gid, g, tasks, g.order, actor),
        CompletionRepairs(gid, g, tasks, g.order, actor);
      assert starts + [] == starts && [] + completions == completions;
    }
  }

  /** The plan of the rest of `reconcile`, in terms of the graph it reads after the first loop. */
  lemma ReconcileReads(m: string, j: seq<Event>, gid: string, now: real, actor: string)
    requires GraphFold(j, gid).Success? && TaskFold(j).Success?
    ensures var g, tasks := GraphFold(j, gid).value, TaskFold(j).value.tasks;
      var p1, p2 := StartsPlan(m, gid, g, tasks, actor), AfterStarts(m, gid, g, tasks, actor);
      var again := GraphFold(Extend(j, m, now, p1.entries), gid);
      && p1.fault != Some(Crashed) && p2.fault != Some(Crashed)
      && (p1.fault.None? ==>
            if again.Failure? then p2 == Plan([], Some(GraphReplayRejected))
            else SameToComplete(gid, g, again.value, tasks) && p2 == CompletionsPlan(m, gid, again.value, tasks, actor))
  {
    hide TaskFold;
    hide GraphFold;
    hide StartRepairs;
    hide CompletionRepairs;
    hide SameToComplete;
    var g, tasks := GraphFold(j, gid).value, TaskFold(j).value.tasks;
    OrderCovers(j, gid);
    SecondReading(m, j, gid, now, actor);
    if StartsPlan(m, gid, g, tasks, actor).fault.None? {
      var again := GraphFold(Extend(j, m, now, StartRepairs(gid, g, tasks, g.order, actor)), gid);
      if again.Success? {
        SameMissing(gid, g, again.value, tasks);
        SameRepairs(gid, g, again.value, tasks, g.order, actor);
      }
    }
  }

  lemma CompletionsRead(m: string, j: seq<Event>, gid: string, now: real, actor: string, tasks: TaskMap)
    requires GraphFold(j, gid).Success?
    requires CompletionsPlan(m, gid, GraphFold(j, gid).value, tasks, actor).fault.None?
    ensures GraphFold(Extend(j, m, now, CompletionsPlan(m, gid, GraphFold(j, gid).value, tasks, actor).entries),
      gid).Success?
  {
    hide GraphFold;
    hide CompletionRepairs;
    OrderCovers(j, gid);
    CompletionsFold(m, j, gid, now, actor, tasks, GraphFold(j, gid).value.order);
  }

  lemma SameMissing(gid: string, g: GraphView, again: GraphView, tasks: TaskMap)
    requires SameToComplete(gid, g, again, tasks)
    ensures again.order == g.order
    ensures forall n :: CompletesHere(gid, again, tasks, n) <==> CompletesHere(gid, g, tasks, n)
    ensures forall n :: CompletionMissing(gid, again, tasks, n) <==> CompletionMissing(gid, g, tasks, n)
  {
  }

  /** The first loop stopped by a crash, or because the actor or the mission has no name. */
  lemma StartsCut(m: string, now: real, gid: string, g: GraphView, tasks: TaskMap, actor: string,
                  earlier: seq<Entry>, e: Entry, more: seq<Entry>,
                  a: map<string, Tables>, fa: nat, b: map<string, Tables>, fb: nat, error: Error)
    requires StartRepairs(gid, g, tasks, g.order, actor) == earlier + [e] + more
    requires Ran(m, now, if m == "" || actor == "" then Plan([], Some(ValueFault))
      else Plan(earlier + [e], None), a, fa, b, fb, Some(error))
    ensures Ran(m, now, StartsPlan(m, gid, g, tasks, actor), a, fa, b, fb, Some(error))
  {
    hide StartRepairs;
    if m != "" && actor != "" {
      RanCrashed(m, now, Plan(earlier + [e], None), more, None, a, fa, b, fb);
    }
  }

  lemma CompletionsCut(m: string, now: real, gid: string, g: GraphView, tasks: TaskMap, actor: string,
                       earlier: seq<Entry>, e: Entry, more: seq<Entry>,
                       a: map<string, Tables>, fa: nat, b: map<string, Tables>, fb: nat, error: Error)
    requires CompletionRepairs(gid, g, tasks, g.order, actor) == earlier + [e] + more
    requires Ran(m, now, if m == "" || actor == "" then Plan([], Some(ValueFault))
      else Plan(earlier + [e], None), a, fa, b, fb, Some(error))
    ensures Ran(m, now, CompletionsPlan(m, gid, g, tasks, actor), a, fa, b, fb, Some(error))
  {
    hide CompletionRepairs;
    if m != "" && actor != "" {
      RanCrashed(m, now, Plan(earlier + [e], None), more, None, a, fa, b, fb);
    }
  }

  class GraphEngine {
    const runtime: MissionRuntime

    constructor (runtime: MissionRuntime)
      ensures this.runtime == runtime
    {
      this.runtime := runtime;
    }

    /** `projection`. */
    method View(gid: string) returns (r: Result<GraphView>)
      ensures r.Success? <==> GraphFold(runtime.Events(), gid).Success?
      ensures r.Success? ==> r == GraphFold(runtime.Events(), gid)
      ensures r.Failure? ==> r.error == GraphReplayRejected
    {
      r := ReplayGraph(runtime.Events(), gid);
    }

    /** One append of a graph event. */
    method Put(actor: string, f: GraphFact, now: real) returns (r: Result<Event>)
      requires runtime.Valid()
      modifies runtime.store
      ensures runtime.Valid()
      ensures Ran(runtime.mission, now, PutPlan(runtime.mission, old(runtime.Events()), GraphEntry(actor, f)),
                  old(runtime.store.missions), old(runtime.store.fuel), runtime.store.missions, runtime.store.fuel,
                  FaultOf(r))
      ensures TaskFold(runtime.Events()) == old(TaskFold(runtime.Events()))
    {
      hide Ran;
      hide WellKept;
      hide TaskFold;
      hide RecordFold;
      hide Acceptable;
      hide GraphKeyOf;
      ghost var m, before, fuel := runtime.mission, runtime.store.missions, runtime.store.fuel;
      ghost var e := GraphEntry(actor, f);
      KeptReads(Rows(before, m), m);
      if PutPlan(m, runtime.Events(), e) == Plan([e], None) {
        GraphAcceptable(runtime.Events(), actor, f);
      }
      r := runtime.store.Append(runtime.mission, actor, GraphKeyOf(f), Graph(f), now);
      PutKept(m, now, e, before, fuel, runtime.store.missions, runtime.store.fuel, FaultOf(r));
    }

    /** The `all(...)` over the dependencies of a node. */
    method DepsFinished(gid: string, tasks: TaskMap, deps: seq<string>) returns (r: Result<bool>)
      ensures r == DepsDone(gid, tasks, deps)
    {
      for i := 0 to |deps|
        invariant DepsDone(gid, tasks, deps) == DepsDone(gid, tasks, deps[i..])
      {
        if NodeTask(gid, deps[i]) !in tasks {
          return Failure(KeyFault);
        }
        if !tasks[NodeTask(gid, deps[i])].status.TaskCompleted? {
          return Success(false);
        }
      }
      r := Success(true);
    }

    /** `ready_nodes`. */
    method ReadyNodes(gid: string) returns (r: Result<seq<string>>)
      requires runtime.Valid()
      ensures r == ReadyReport(gid, runtime.Events())
    {
      hide WellKept;
      hide TaskFold;
      hide RecordFold;
      hide GraphFold;
      var g := View(gid);
      KeptReads(Rows(runtime.store.missions, runtime.mission), runtime.mission);
      if g.Failure? {
        return Failure(g.error);
      }
      var graph := g.value;
      if graph.status != Running {
        return Success([]);
      }
      OrderCovers(runtime.Events(), gid);
      var p := runtime.Projection();
      var tasks := p.view.tasks;
      var ready: seq<string> := [];
      for i := 0 to |graph.order|
        invariant ReadyAmong(gid, graph, tasks, graph.order[..i]) == Success(ready)
      {
        var n := graph.order[i];
        ReadyAmongSnoc(gid, graph, tasks, i);
        if graph.nodes[n].status == Pending {
          if NodeTask(gid, n) !in tasks {
            ReadyAmongFails(gid, graph, tasks, i + 1);
            return Failure(KeyFault);
          }
          var t := tasks[NodeTask(gid, n)];
          if t.status.TaskPending? || t.status.TaskBlocked? {
            var done := DepsFinished(gid, tasks, graph.nodes[n].blockedBy);
            if done.Failure? {
              ReadyAmongFails(gid, graph, tasks, i + 1);
              return Failure(done.error);
            }
            if done.value {
              ready := ready + [n];
            }
          }
        }
      }
      assert graph.order[..|graph.order|] == graph.order;
      r := Success(Sort(ready));
    }

    /** `lease_node`. */
    method LeaseNode(gid: string, n: string, worker: string, ttl: int, lease: string, actor: string, now: real)
      returns (r: Result<TaskState>)
      requires runtime.Valid()
      modifies runtime.store
      ensures runtime.Valid()
      ensures Ran(runtime.mission, now, LeasePlan(runtime.mission, old(runtime.Events()), gid, n, worker, ttl, lease,
        actor, now),
                  old(runtime.store.missions), old(runtime.store.fuel), runtime.store.missions, runtime.store.fuel,
                  FaultOf(r))
    {
      hide WellKept;
      hide Ran;
      hide TaskFold;
      hide RecordFold;
      hide GraphFold;
      hide Readable;
      hide UpdateTaskPlan;
      hide Change;
      hide PutPlan;
      ghost var m, before, fuel := runtime.mission, runtime.store.missions, runtime.store.fuel;
      ghost var j := runtime.Events();
      KeptReads(Rows(before, m), m);
      var ready := ReadyNodes(gid);
      if ready.Failure? {
        RanNothing(m, now, before, fuel, Some(ready.error));
        return Failure(ready.error);
      }
      if n !in ready.value {
        RanNothing(m, now, before, fuel, Some(Conflict));
        return Failure(Conflict);
      }
      ghost var g := GraphFold(j, gid).value;
      var p := runtime.Projection();
      var t := NodeTask(gid, n);
      ReadyHasTask(gid, g, p.view.tasks, n);
      var revision := p.view.tasks[t].revision;
      var leased := runtime.LeaseTask(t, revision, worker, ttl, lease, actor, now);
      if ttl <= 0 {
        return leased;
      }
      ghost var c := LeaseChanges(worker, lease, now + ttl as real);
      ghost var update := UpdateTaskPlan(p.view, actor, t, revision, c);
      ghost var e := GraphEntry(actor, NodeStarted(gid, n, worker, lease));
      ghost var middle, left := runtime.store.missions, runtime.store.fuel;
      NeverCrashes(m, j, e, p.view, actor, t, revision, c);
      if leased.Failure? {
        RanBoth(m, now, update, PutPlan(m, j, e), before, fuel, middle, left, Some(leased.error), middle, left,
          Some(leased.error));
        return leased;
      }
      RanJournal(m, now, update, before, fuel, middle, left);
      PutLater(m, j, now, update.entries, e);
      var started := Put(actor, NodeStarted(gid, n, worker, lease), now);
      RanBoth(m, now, update, PutPlan(m, j, e), before, fuel, middle, left, None,
              runtime.store.missions, runtime.store.fuel, FaultOf(started));
      r := if started.Success? then leased else Failure(started.error);
    }

    /** `fail_node`. */
    method FailNode(gid: string, n: string, actor: string, error: string, now: real) returns (r: Result<GraphView>)
      requires runtime.Valid()
      modifies runtime.store
      ensures runtime.Valid()
      ensures Ran(runtime.mission, now, FailPlan(runtime.mission, old(runtime.Events()), gid, n, actor, error),
                  old(runtime.store.missions), old(runtime.store.fuel), runtime.store.missions, runtime.store.fuel,
                  FaultOf(r))
      ensures r.Success? ==> r == GraphFold(runtime.Events(), gid)
    {
      hide WellKept;
      hide Ran;
      hide TaskFold;
      hide RecordFold;
      hide GraphFold;
      hide Readable;
      hide UpdateTaskPlan;
      hide Change;
      hide PutPlan;
      hide GraphApply;
      ghost var m, before, fuel := runtime.mission, runtime.store.missions, runtime.store.fuel;
      ghost var j := runtime.Events();
      KeptReads(Rows(before, m), m);
      var g := View(gid);
      if g.Failure? {
        RanNothing(m, now, before, fuel, Some(g.error));
        return g;
      }
      if n !in g.value.nodes || g.value.nodes[n].status != Running {
        RanNothing(m, now, before, fuel, Some(GraphTransitionFault));
        return Failure(GraphTransitionFault);
      }
      var t := NodeTask(gid, n);
      var p := runtime.Projection();
      if t !in p.view.tasks {
        RanNothing(m, now, before, fuel, Some(KeyFault));
        return Failure(KeyFault);
      }
      var revision, f := p.view.tasks[t].revision, NodeFailed(gid, n, error);
      ghost var e := GraphEntry(actor, f);
      ghost var update := UpdateTaskPlan(p.view, actor, t, revision, ReleaseChanges(TaskFailed));
      var updated := runtime.UpdateTask(t, revision, actor, ReleaseChanges(TaskFailed), now);
      ghost var middle, left := runtime.store.missions, runtime.store.fuel;
      NeverCrashes(m, j, e, p.view, actor, t, revision, ReleaseChanges(TaskFailed));
      if updated.Failure? {
        RanBoth(m, now, update, PutPlan(m, j, e), before, fuel, middle, left, Some(updated.error), middle, left,
          Some(updated.error));
        return Failure(updated.error);
      }
      RanJournal(m, now, update, before, fuel, middle, left);
      PutLater(m, j, now, update.entries, e);
      var failed := Put(actor, f, now);
      RanBoth(m, now, update, PutPlan(m, j, e), before, fuel, middle, left, None,
              runtime.store.missions, runtime.store.fuel, FaultOf(failed));
      if failed.Failure? {
        return Failure(failed.error);
      }
      RanJournal(m, now, Then(update, PutPlan(m, j, e)), before, fuel, runtime.store.missions, runtime.store.fuel);
      RunningPuts(m, j, gid, n, e);
      UpdateThenFact(j, gid, m, now, update.entries, actor, f);
      FailureApplies(GraphFold(j, gid).value, gid, n, error);
      r := View(gid);
    }

    /** `complete_node`. */
    method CompleteNode(gid: string, n: string, receipt: Receipt, actor: string, now: real)
      returns (r: Result<GraphView>)
      requires runtime.Valid()
      modifies runtime.store
      ensures runtime.Valid()
      ensures Ran(runtime.mission, now, CompletePlan(runtime.mission, old(runtime.Events()), gid, n, receipt, actor),
                  old(runtime.store.missions), old(runtime.store.fuel), runtime.store.missions, runtime.store.fuel,
                  FaultOf(r))
      ensures r.Success? ==> r == GraphFold(runtime.Events(), gid)
    {
      hide WellKept;
      hide Ran;
      hide TaskFold;
      hide RecordFold;
      hide GraphFold;
      hide Readable;
      hide UpdateTaskPlan;
      hide Change;
      hide PutPlan;
      hide ValidReceipt;
      ghost var m, before, fuel := runtime.mission, runtime.store.missions, runtime.store.fuel;
      ghost var j := runtime.Events();
      KeptReads(Rows(before, m), m);
      if !ValidReceipt(receipt, gid, n) {
        RanNothing(m, now, before, fuel, Some(GraphReceiptFault));
        return Failure(GraphReceiptFault);
      }
      var g := View(gid);
      if g.Failure? {
        RanNothing(m, now, before, fuel, Some(g.error));
        return g;
      }
      if n !in g.value.nodes {
        RanNothing(m, now, before, fuel, Some(GraphTransitionFault));
        return Failure(GraphTransitionFault);
      }
      var node := g.value.nodes[n];
      if node.status == Completed {
        if node.receipt == Some(receipt.claimed) {
          RanNothing(m, now, before, fuel, None);
          return g;
        }
        RanNothing(m, now, before, fuel, Some(GraphTransitionFault));
        return Failure(GraphTransitionFault);
      }
      if node.status != Running {
        RanNothing(m, now, before, fuel, Some(GraphTransitionFault));
        return Failure(GraphTransitionFault);
      }
      if node.owner != Some(receipt.material.actor) {
        RanNothing(m, now, before, fuel, Some(GraphReceiptFault));
        return Failure(GraphReceiptFault);
      }
      var f := NodeReceipt(gid, n, receipt.claimed, receipt.material.evidence, receipt.material.actor);
      ghost var recorded := PutPlan(m, j, GraphEntry(actor, f));
      ghost var rest := FinishPlan(m, j, gid, n, receipt, actor);
      var stored := Put(actor, f, now);
      ghost var middle, left := runtime.store.missions, runtime.store.fuel;
      PutNeverCrashes(m, j, GraphEntry(actor, f));
      CompletePlanIs(m, j, gid, n, receipt, actor);
      if stored.Failure? {
        RanBoth(m, now, recorded, rest, before, fuel, middle, left, Some(stored.error), middle, left,
          Some(stored.error));
        return Failure(stored.error);
      }
      RanJournal(m, now, recorded, before, fuel, middle, left);
      ReceiptRead(m, j, gid, n, receipt, actor, now);
      r := Finish(gid, n, receipt, node.owner, actor, now, j);
      RanBoth(m, now, recorded, rest, before, fuel, middle, left, None,
              runtime.store.missions, runtime.store.fuel, FaultOf(r));
    }

    /** The part of `complete_node` after the receipt was recorded; `j` is the journal before. */
    method Finish(gid: string, n: string, receipt: Receipt, owner: Option<string>, actor: string, now: real,
                  ghost j: seq<Event>) returns (r: Result<GraphView>)
      requires runtime.Valid() && Readable(j) && TaskFold(runtime.Events()) == TaskFold(j)
      requires ReceiptIn(runtime.mission, j, runtime.Events(), gid, n, receipt)
      requires owner == GraphFold(j, gid).value.nodes[n].owner
      modifies runtime.store
      ensures runtime.Valid()
      ensures Ran(runtime.mission, now, FinishPlan(runtime.mission, j, gid, n, receipt, actor),
                  old(runtime.store.missions), old(runtime.store.fuel), runtime.store.missions, runtime.store.fuel,
                  FaultOf(r))
      ensures r.Success? ==> r == GraphFold(runtime.Events(), gid)
    {
      hide WellKept;
      hide Ran;
      hide TaskFold;
      hide RecordFold;
      hide GraphFold;
      hide Readable;
      hide UpdateTaskPlan;
      hide Change;
      hide PutPlan;
      hide GraphApply;
      hide ReceiptIn;
      hide ReceiptClash;
      ghost var m, before, fuel := runtime.mission, runtime.store.missions, runtime.store.fuel;
      ghost var j1 := runtime.Events();
      ReceiptInFold(m, j, j1, gid, n, receipt);
      KeptReads(Rows(before, m), m);
      var t := NodeTask(gid, n);
      var p := runtime.Projection();
      if t !in p.view.tasks {
        RanNothing(m, now, before, fuel, Some(KeyFault));
        return Failure(KeyFault);
      }
      var f := NodeCompleted(gid, n, receipt.claimed, receipt.material.evidence);
      ghost var e := GraphEntry(actor, f);
      ghost var update := Plan([], None);
      if !p.view.tasks[t].status.TaskCompleted? {
        if p.view.tasks[t].owner != owner {
          RanNothing(m, now, before, fuel, Some(GraphTransitionFault));
          return Failure(GraphTransitionFault);
        }
        var revision := p.view.tasks[t].revision;
        update := UpdateTaskPlan(p.view, actor, t, revision, ReleaseChanges(TaskCompleted));
        NeverCrashes(m, j, e, p.view, actor, t, revision, ReleaseChanges(TaskCompleted));
        var updated := runtime.UpdateTask(t, revision, actor, ReleaseChanges(TaskCompleted), now);
        if updated.Failure? {
          ghost var after, left := runtime.store.missions, runtime.store.fuel;
          RanBoth(m, now, update, CompletedPlan(m, j, gid, n, receipt, actor), before, fuel, after, left,
            Some(updated.error),
                  after, left, Some(updated.error));
          return Failure(updated.error);
        }
      } else {
        RanNothing(m, now, before, fuel, None);
        NothingThen(CompletedPlan(m, j, gid, n, receipt, actor));
      }
      ghost var middle, left := runtime.store.missions, runtime.store.fuel;
      RanJournal(m, now, update, before, fuel, middle, left);
      PutLater(m, j1, now, update.entries, e);
      var completed := Put(actor, f, now);
      ghost var last, spare := runtime.store.missions, runtime.store.fuel;
      PutNeverCrashes(m, j, e);
      RanBoth(m, now, update, PutPlan(m, j, e), before, fuel, middle, left, None, last, spare, FaultOf(completed));
      ghost var clash := ReceiptClash(GraphFold(j, gid).value.nodes[n], receipt);
      if completed.Failure? {
        AddFault(m, now, update, PutPlan(m, j, e), clash, before, fuel, last, spare, completed.error);
        return Failure(completed.error);
      }
      RanJournal(m, now, Then(update, PutPlan(m, j, e)), before, fuel, last, spare);
      UpdateThenFact(j1, gid, m, now, update.entries, actor, f);
      ClashShows(m, j, j1, gid, n, receipt, actor, e);
      r := View(gid);
      EndFault(m, now, update, PutPlan(m, j, e), clash, before, fuel, last, spare);
    }

    /** The `any` and the `all` of `maybe_complete_graph`, over the dictionary of nodes. */
    method Ending(g: GraphView) returns (failed: bool, unfinished: bool)
      requires forall n :: n in g.order <==> n in g.nodes
      ensures failed <==> exists n :: n in g.nodes && g.nodes[n].status == Failed
      ensures !unfinished <==> forall n :: n in g.nodes ==> g.nodes[n].status == Completed
    {
      failed, unfinished := false, false;
      for i := 0 to |g.order|
        invariant failed <==> exists k :: 0 <= k < i && g.nodes[g.order[k]].status == Failed
        invariant unfinished <==> exists k :: 0 <= k < i && g.nodes[g.order[k]].status != Completed
      {
        if g.nodes[g.order[i]].status == Failed {
          failed := true;
        }
        if g.nodes[g.order[i]].status != Completed {
          unfinished := true;
        }
      }
      NodesByOrder(g);
    }

    /** `maybe_complete_graph`. */
    method MaybeCompleteGraph(gid: string, actor: string, now: real) returns (r: Result<GraphView>)
      requires runtime.Valid()
      modifies runtime.store
      ensures runtime.Valid()
      ensures Ran(runtime.mission, now, MaybeCompletePlan(runtime.mission, old(runtime.Events()), gid, actor),
                  old(runtime.store.missions), old(runtime.store.fuel), runtime.store.missions, runtime.store.fuel,
                  FaultOf(r))
      ensures r.Success? ==> r == GraphFold(runtime.Events(), gid)
    {
      hide WellKept;
      hide Ran;
      hide TaskFold;
      hide RecordFold;
      hide GraphFold;
      hide Readable;
      hide PutPlan;
      hide GraphApply;
      ghost var m, before, fuel := runtime.mission, runtime.store.missions, runtime.store.fuel;
      ghost var j := runtime.Events();
      KeptReads(Rows(before, m), m);
      r := View(gid);
      if r.Failure? {
        RanNothing(m, now, before, fuel, Some(r.error));
        return;
      }
      var g := r.value;
      if g.status != Running {
        RanNothing(m, now, before, fuel, None);
        return;
      }
      OrderCovers(j, gid);
      EndPuts(m, j, gid, actor);
      var failed, unfinished := Ending(g);
      if !failed && unfinished {
        RanNothing(m, now, before, fuel, None);
        return;
      }
      var f := if failed then GraphFailed(gid, "node_failed") else GraphCompleted(gid);
      var ended := Put(actor, f, now);
      if ended.Failure? {
        return Failure(ended.error);
      }
      RanJournal(m, now, PutPlan(m, j, GraphEntry(actor, f)), before, fuel, runtime.store.missions, runtime.store.fuel);
      UpdateThenFact(j, gid, m, now, [], actor, f);
      EndingApplies(g, gid, failed);
      assert [] + [GraphEntry(actor, f)] == [GraphEntry(actor, f)];
      r := View(gid);
    }

    /** One repair: an append on top of the `earlier` ones. */
    method PutRepair(actor: string, f: GraphFact, now: real,
                     ghost earlier: seq<Entry>, ghost before: map<string, Tables>, ghost fuel: nat)
                     returns (fault: Option<Error>)
      requires runtime.Valid()
      requires Ran(runtime.mission, now, Plan(earlier, None), before, fuel, runtime.store.missions, runtime.store.fuel,
        None)
      requires forall e :: e in earlier ==> e.key != GraphKeyOf(f)
      requires var m, e := runtime.mission, GraphEntry(actor, f); var nameless := m == "" || actor == "";
        && PutPlan(m, Rows(before, m).journal, e) == (if nameless then Plan([], Some(ValueFault)) else Plan([e], None))
        && (nameless ==> earlier == [])
      modifies runtime.store
      ensures runtime.Valid() && TaskFold(runtime.Events()) == old(TaskFold(runtime.Events()))
      ensures var m, e := runtime.mission, GraphEntry(actor, f); var nameless := m == "" || actor == "";
        && (nameless ==> fault.Some?)
        && Ran(m, now, if nameless then Plan([], Some(ValueFault)) else Plan(earlier + [e], None),
               before, fuel, runtime.store.missions, runtime.store.fuel, fault)
    {
      hide WellKept;
      hide Ran;
      hide TaskFold;
      hide RecordFold;
      hide PutPlan;
      hide GraphKeyOf;
      ghost var m, e, at, left := runtime.mission, GraphEntry(actor, f), runtime.store.missions, runtime.store.fuel;
      RanJournal(m, now, Plan(earlier, None), before, fuel, at, left);
      PutLater(m, Rows(before, m).journal, now, earlier, e);
      var stored := Put(actor, f, now);
      fault := FaultOf(stored);
      RanThen(m, now, Plan(earlier, None), PutPlan(m, Rows(before, m).journal, e), before, fuel, at, left,
              runtime.store.missions, runtime.store.fuel, fault);
      if m == "" || actor == "" {
        assert earlier + [] == [];
        if fault.None? {
          RanJournal(m, now, Plan([], Some(ValueFault)), before, fuel, runtime.store.missions, runtime.store.fuel);
        }
      }
    }

    /** The first loop of `reconcile`. */
    method WriteStarts(gid: string, g: GraphView, tasks: TaskMap, actor: string, now: real)
      returns (fault: Option<Error>, started: seq<string>, blocked: seq<string>)
      requires runtime.Valid() && GraphFold(runtime.Events(), gid) == Success(g)
      requires TaskFold(runtime.Events()).Success? && runtime.Tasks().tasks == tasks
      modifies runtime.store
      ensures runtime.Valid() && TaskFold(runtime.Events()) == old(TaskFold(runtime.Events()))
      ensures Ran(runtime.mission, now, StartsPlan(runtime.mission, gid, g, tasks, actor),
                  old(runtime.store.missions), old(runtime.store.fuel), runtime.store.missions, runtime.store.fuel,
                  fault)
      ensures fault.None? ==> forall n :: n in started <==> StartsHere(gid, g, tasks, n)
      ensures fault.None? ==> forall n :: n in blocked <==>
        StartMissing(gid, g, tasks, n) && !StartsHere(gid, g, tasks, n)
    {
      hide WellKept;
      hide Ran;
      hide TaskFold;
      hide RecordFold;
      hide GraphFold;
      hide Readable;
      hide PutPlan;
      hide StartRepairs;
      ghost var m, before, fuel := runtime.mission, runtime.store.missions, runtime.store.fuel;
      ghost var j := runtime.Events();
      ghost var nameless := m == "" || actor == "";
      KeptReads(Rows(before, m), m);
      OrderCovers(j, gid);
      RanNothing(m, now, before, fuel, None);
      NoRepairs(gid, g, tasks, actor);
      started, blocked := [], [];
      for i := 0 to |g.order|
        invariant runtime.Valid() && TaskFold(runtime.Events()) == TaskFold(j)
        invariant Ran(m, now, Plan(StartRepairs(gid, g, tasks, g.order[..i], actor), None),
                      before, fuel, runtime.store.missions, runtime.store.fuel, None)
        invariant nameless ==> StartRepairs(gid, g, tasks, g.order[..i], actor) == []
        invariant forall n :: n in started <==> n in g.order[..i] && StartsHere(gid, g, tasks, n)
        invariant forall n :: n in blocked <==>
          n in g.order[..i] && StartMissing(gid, g, tasks, n) && !StartsHere(gid, g, tasks, n)
      {
        var n := g.order[i];
        assert g.order[..i + 1] == g.order[..i] + [n];
        ghost var earlier := StartRepairs(gid, g, tasks, g.order[..i], actor);
        StartsSnoc(gid, g, tasks, g.order, actor, i);
        if StartsHere(gid, g, tasks, n) {
          RepairPuts(m, j, gid, n, actor);
          RepairsAbout(gid, g, tasks, g.order[..i], actor);
          ghost var e := StartOf(actor, gid, tasks, n);
          var t := tasks[NodeTask(gid, n)];
          var f := NodeStarted(gid, n, t.owner.value, t.lease.value);
          fault := PutRepair(actor, f, now, earlier, before, fuel);
          if fault.Some? {
            ghost var more := StartsPrefix(gid, g, tasks, g.order, actor, i + 1);
            StartsCut(m, now, gid, g, tasks, actor, earlier, e, more, before, fuel,
               runtime.store.missions, runtime.store.fuel, fault.value);
            return;
          }
          started := started + [n];
        } else if g.nodes[n].status == Pending && NodeTask(gid, n) in tasks
          && tasks[NodeTask(gid, n)].status.TaskLeased? {
          blocked := blocked + [n];
        }
      }
      assert g.order[..|g.order|] == g.order;
      fault := None;
    }

    /** The second loop of `reconcile`. */
    method WriteCompletions(gid: string, g: GraphView, tasks: TaskMap, actor: string, now: real)
      returns (fault: Option<Error>, completed: seq<string>, blocked: seq<string>)
      requires runtime.Valid() && GraphFold(runtime.Events(), gid) == Success(g)
      requires TaskFold(runtime.Events()).Success? && runtime.Tasks().tasks == tasks
      modifies runtime.store
      ensures runtime.Valid() && TaskFold(runtime.Events()) == old(TaskFold(runtime.Events()))
      ensures Ran(runtime.mission, now, CompletionsPlan(runtime.mission, gid, g, tasks, actor),
                  old(runtime.store.missions), old(runtime.store.fuel), runtime.store.missions, runtime.store.fuel,
                  fault)
      ensures fault.None? ==> forall n :: n in completed <==> CompletesHere(gid, g, tasks, n)
      ensures fault.None? ==> forall n :: n in blocked <==>
        CompletionMissing(gid, g, tasks, n) && !CompletesHere(gid, g, tasks, n)
    {
      hide WellKept;
      hide Ran;
      hide TaskFold;
      hide RecordFold;
      hide GraphFold;
      hide Readable;
      hide PutPlan;
      hide CompletionRepairs;
      ghost var m, before, fuel := runtime.mission, runtime.store.missions, runtime.store.fuel;
      ghost var j := runtime.Events();
      ghost var nameless := m == "" || actor == "";
      KeptReads(Rows(before, m), m);
      OrderCovers(j, gid);
      RanNothing(m, now, before, fuel, None);
      NoRepairs(gid, g, tasks, actor);
      completed, blocked := [], [];
      for i := 0 to |g.order|
        invariant runtime.Valid() && TaskFold(runtime.Events()) == TaskFold(j)
        invariant Ran(m, now, Plan(CompletionRepairs(gid, g, tasks, g.order[..i], actor), None),
                      before, fuel, runtime.store.missions, runtime.store.fuel, None)
        invariant nameless ==> CompletionRepairs(gid, g, tasks, g.order[..i], actor) == []
        invariant forall n :: n in completed <==> n in g.order[..i] && CompletesHere(gid, g, tasks, n)
        invariant forall n :: n in blocked <==>
          n in g.order[..i] && CompletionMissing(gid, g, tasks, n) && !CompletesHere(gid, g, tasks, n)
      {
        var n := g.order[i];
        assert g.order[..i + 1] == g.order[..i] + [n];
        ghost var earlier := CompletionRepairs(gid, g, tasks, g.order[..i], actor);
        CompletionsSnoc(gid, g, tasks, g.order, actor, i);
        if CompletesHere(gid, g, tasks, n) {
          RepairPuts(m, j, gid, n, actor);
          RepairsAbout(gid, g, tasks, g.order[..i], actor);
          ghost var e := CompletionOf(actor, gid, g, n);
          var f := NodeCompleted(gid, n, g.nodes[n].pending.value, g.nodes[n].pendingEvidence);
          fault := PutRepair(actor, f, now, earlier, before, fuel);
          if fault.Some? {
            ghost var more := CompletionsPrefix(gid, g, tasks, g.order, actor, i + 1);
            CompletionsCut(m, now, gid, g, tasks, actor, earlier, e, more, before, fuel,
               runtime.store.missions, runtime.store.fuel, fault.value);
            return;
          }
          completed := completed + [n];
        } else if g.nodes[n].status == Running && NodeTask(gid, n) in tasks
          && tasks[NodeTask(gid, n)].status.TaskCompleted? {
          blocked := blocked + [n];
        }
      }
      assert g.order[..|g.order|] == g.order;
      fault := None;
    }

    /** `reconcile`. */
    method Reconcile(gid: string, actor: string, now: real) returns (r: Result<Repair>)
      requires runtime.Valid()
      modifies runtime.store
      ensures runtime.Valid()
      ensures Ran(runtime.mission, now, ReconcilePlan(runtime.mission, old(runtime.Events()), gid, actor),
                  old(runtime.store.missions), old(runtime.store.fuel), runtime.store.missions, runtime.store.fuel,
                  FaultOf(r))
      ensures r.Success? ==>
        && old(GraphFold(runtime.Events(), gid)).Success?
        && RepairReported(gid, old(GraphFold(runtime.Events(), gid)).value, old(runtime.Tasks()).tasks, r.value)
        && GraphFold(runtime.Events(), gid) == Success(r.value.graph)
    {
      hide WellKept;
      hide Ran;
      hide TaskFold;
      hide RecordFold;
      hide GraphFold;
      hide Readable;
      hide ReconcilePlan;
      hide SameToComplete;
      hide StartsPlan;
      hide CompletionsPlan;
      hide AfterStarts;
      hide StartMissing;
      hide CompletionMissing;
      hide StartsHere;
      hide CompletesHere;
      ghost var m, before, fuel := runtime.mission, runtime.store.missions, runtime.store.fuel;
      ghost var j := runtime.Events();
      KeptReads(Rows(before, m), m);
      ReconcilePlanIs(m, j, gid, actor);
      var g := View(gid);
      if g.Failure? {
        RanNothing(m, now, before, fuel, Some(g.error));
        return Failure(g.error);
      }
      ReconcileReads(m, j, gid, now, actor);
      var p := runtime.Projection();
      var tasks := p.view.tasks;
      ghost var p1, p2 := StartsPlan(m, gid, g.value, tasks, actor), AfterStarts(m, gid, g.value, tasks, actor);
      var fault, started, blocked := WriteStarts(gid, g.value, tasks, actor, now);
      ghost var middle, left := runtime.store.missions, runtime.store.fuel;
      if fault.Some? {
        RanBoth(m, now, p1, p2, before, fuel, middle, left, fault, middle, left, fault);
        return Failure(fault.value);
      }
      RanJournal(m, now, p1, before, fuel, middle, left);
      var again := View(gid);
      if again.Failure? {
        RanNothing(m, now, middle, left, Some(again.error));
        RanBoth(m, now, p1, p2, before, fuel, middle, left, None, middle, left, Some(again.error));
        return Failure(again.error);
      }
      p := runtime.Projection();
      SameMissing(gid, g.value, again.value, tasks);
      var completed, unproved;
      fault, completed, unproved := WriteCompletions(gid, again.value, p.view.tasks, actor, now);
      RanBoth(m, now, p1, p2, before, fuel, middle, left, None, runtime.store.missions, runtime.store.fuel, fault);
      if fault.Some? {
        return Failure(fault.value);
      }
      RanJournal(m, now, CompletionsPlan(m, gid, again.value, tasks, actor), middle, left, runtime.store.missions,
        runtime.store.fuel);
      CompletionsRead(m, Rows(middle, m).journal, gid, now, actor, tasks);
      var last := View(gid);
      var refused := SortedUnique(blocked + unproved);
      SameMembers(refused, blocked + unproved);
      r := Success(Repair(started, completed, refused, last.value));
    }

    /** `_materialize_tasks`: in topological order, a task for each node that has none. */
    method Materialize(gid: string, nodes: seq<GraphNode>, actor: string, now: real) returns (fault: Option<Error>)
      requires runtime.Valid()
      modifies runtime.store
      ensures runtime.Valid()
      ensures Ran(runtime.mission, now,
                  if ValidDefinition(Definition(gid, nodes, GRAPH_SCHEMA))
                    then MaterialPlan(gid, NodesOf(nodes), old(runtime.Tasks()), actor)
                  else Plan([], Some(GraphDefinitionFault)),
                  old(runtime.store.missions), old(runtime.store.fuel), runtime.store.missions, runtime.store.fuel,
                  fault)
    {
      hide WellKept;
      hide Ran;
      hide TaskFold;
      hide RecordFold;
      hide Materializing;
      hide NodesOf;
      hide Rounds;
      hide Layered;
      hide CreateTaskPlan;
      hide ValidNodes;
      ghost var m, before, fuel := runtime.mission, runtime.store.missions, runtime.store.fuel;
      ghost var dict := NodesOf(nodes);
      KeptReads(Rows(before, m), m);
      ghost var v := runtime.Tasks();
      var sorted := TopologicalOrder(Definition(gid, nodes, GRAPH_SCHEMA));
      if sorted.Failure? {
        RanNothing(m, now, before, fuel, Some(GraphDefinitionFault));
        return Some(GraphDefinitionFault);
      }
      ValidIsSound(Definition(gid, nodes, GRAPH_SCHEMA));
      var order := sorted.value;
      ghost var ids := Ids(order);
      RanNothing(m, now, before, fuel, None);
      NothingMade(gid, dict, v, actor);
      for i := 0 to |order|
        invariant runtime.Valid()
        invariant Materializing(gid, dict, v, ids[..i], actor).plan.fault.None?
        invariant TaskFold(runtime.Events()) == Success(Materializing(gid, dict, v, ids[..i], actor).view)
        invariant Ran(m, now, Materializing(gid, dict, v, ids[..i], actor).plan,
                      before, fuel, runtime.store.missions, runtime.store.fuel, None)
      {
        var node := order[i];
        var t, blocked := NodeTask(gid, node.id), TaskIds(gid, node.blockedBy);
        ghost var earlier := Materializing(gid, dict, v, ids[..i], actor);
        ListedNode(nodes, node);
        NodeByNode(gid, dict, v, ids, i, actor);
        ghost var more := MaterialOn(gid, dict, v, ids, i + 1, actor);
        MaterialIsTasks(gid, dict, v, ids, actor);
        var p := runtime.Projection();
        if t in p.view.tasks {
          if p.view.tasks[t].subject != node.subject || p.view.tasks[t].blockedBy != blocked {
            RanThenRaised(m, now, earlier.plan, Some(GraphTransitionFault), before, fuel, runtime.store.missions,
              runtime.store.fuel);
            return Some(GraphTransitionFault);
          }
        } else {
          ghost var at, left := runtime.store.missions, runtime.store.fuel;
          ghost var creating := CreateTaskPlan(p.view, actor, t, node.subject, blocked);
          var created := runtime.CreateTask(t, node.subject, blocked, actor, now);
          RanThen(m, now, earlier.plan, creating, before, fuel, at, left, runtime.store.missions, runtime.store.fuel,
            FaultOf(created));
          if created.Failure? {
            CreationFaults(p.view, actor, t, node.subject, blocked);
            StoppedEarly(m, now, Plan(earlier.plan.entries + creating.entries, creating.fault), more,
                         Materializing(gid, dict, v, ids, actor).plan, before, fuel, runtime.store.missions,
                         runtime.store.fuel, created.error);
            return Some(created.error);
          }
          PlanDone(m, now, creating, at, left, runtime.store.missions, runtime.store.fuel);
          KeptReads(Rows(runtime.store.missions, m), m);
        }
      }
      assert ids[..|order|] == ids;
      fault := None;
    }

    /** `create_graph`. */
    method CreateGraph(d: Definition, actor: string, now: real) returns (r: Result<GraphView>)
      requires runtime.Valid()
      modifies runtime.store
      ensures runtime.Valid()
      ensures Ran(runtime.mission, now, CreatePlan(runtime.mission, old(runtime.Events()), d, actor),
                  old(runtime.store.missions), old(runtime.store.fuel), runtime.store.missions, runtime.store.fuel,
                  FaultOf(r))
      ensures r.Success? ==> r == GraphFold(runtime.Events(), d.graph)
    {
      hide WellKept;
      hide Ran;
      hide TaskFold;
      hide RecordFold;
      hide GraphFold;
      hide Readable;
      hide PutPlan;
      hide MaterialPlan;
      hide ValidNodes;
      ghost var m, before, fuel := runtime.mission, runtime.store.missions, runtime.store.fuel;
      ghost var j := runtime.Events();
      KeptReads(Rows(before, m), m);
      var bad := Validate(d);
      if bad.Some? {
        RanNothing(m, now, before, fuel, bad);
        return Failure(bad.value);
      }
      var f := GraphCreated(d.graph, d.nodes);
      ghost var put := PutPlan(m, j, GraphEntry(actor, f));
      ghost var rest := MaterialPlan(d.graph, NodesOf(d.nodes), TaskFold(j).value, actor);
      ghost var last := Plan([], ViewFault(j, d.graph));
      PutNeverCrashes(m, j, GraphEntry(actor, f));
      MaterialNeverCrashes(d.graph, NodesOf(d.nodes), TaskFold(j).value, actor);
      var stored := Put(actor, f, now);
      ghost var middle, left := runtime.store.missions, runtime.store.fuel;
      if stored.Failure? {
        RanBoth(m, now, put, Then(rest, last), before, fuel, middle, left, FaultOf(stored), middle, left,
          FaultOf(stored));
        return Failure(stored.error);
      }
      RanJournal(m, now, put, before, fuel, middle, left);
      var fault := Materialize(d.graph, d.nodes, actor, now);
      ghost var after, over := runtime.store.missions, runtime.store.fuel;
      if fault.Some? {
        RanBoth(m, now, rest, last, middle, left, after, over, fault, after, over, fault);
        RanBoth(m, now, put, Then(rest, last), before, fuel, middle, left, None, after, over, fault);
        return Failure(fault.value);
      }
      RanJournal(m, now, rest, middle, left, after, over);
      CreationRead(m, j, d, actor, now, put, rest);
      r := View(d.graph);
      RanNothing(m, now, after, over, last.fault);
      RanBoth(m, now, rest, last, middle, left, after, over, None, after, over, last.fault);
      RanBoth(m, now, put, Then(rest, last), before, fuel, middle, left, None, after, over, last.fault);
    }

    /** `start_graph`. */
    method StartGraph(gid: string, actor: string, now: real) returns (r: Result<GraphView>)
      requires runtime.Valid()
      modifies runtime.store
      ensures runtime.Valid()
      ensures Ran(runtime.mission, now, StartPlan(runtime.mission, old(runtime.Events()), gid, actor),
                  old(runtime.store.missions), old(runtime.store.fuel), runtime.store.missions, runtime.store.fuel,
                  FaultOf(r))
      ensures r.Success? ==> r == GraphFold(runtime.Events(), gid)
    {
      hide WellKept;
      hide Ran;
      hide TaskFold;
      hide RecordFold;
      hide GraphFold;
      hide Readable;
      hide PutPlan;
      hide MaterialPlan;
      hide NodesOf;
      hide NodesFrom;
      hide ValidGraph;
      hide ValidDefinition;
      ghost var m, before, fuel := runtime.mission, runtime.store.missions, runtime.store.fuel;
      ghost var j := runtime.Events();
      KeptReads(Rows(before, m), m);
      r := View(gid);
      if r.Failure? {
        RanNothing(m, now, before, fuel, Some(r.error));
        return;
      }
      var g := r.value;
      if g.status != Created {
        RanNothing(m, now, before, fuel, Some(GraphTransitionFault));
        return Failure(GraphTransitionFault);
      }
      OrderCovers(j, gid);
      var nodes := NodesFrom(g);
      BackAndForth(gid, g);
      SameMaterialPlan(gid, NodesOf(nodes), g.nodes, TaskFold(j).value, actor);
      ghost var first, e := MaterialPlan(gid, g.nodes, TaskFold(j).value, actor), GraphEntry(actor, GraphStarted(gid));
      MaterialNeverCrashes(gid, g.nodes, TaskFold(j).value, actor);
      var fault := Materialize(gid, nodes, actor, now);
      ghost var middle, left := runtime.store.missions, runtime.store.fuel;
      if !ValidGraph(gid, g) { NothingRan(m, now, Some(GraphDefinitionFault), before, fuel, middle, left, fault); }
      if fault.Some? {
        if ValidGraph(gid, g) {
          RanBoth(m, now, first, PutPlan(m, j, e), before, fuel, middle, left, fault, middle, left, fault);
        }
        return Failure(fault.value);
      }
      RanJournal(m, now, first, before, fuel, middle, left);
      PutLater(m, j, now, first.entries, e);
      var started := Put(actor, GraphStarted(gid), now);
      RanBoth(m, now, first, PutPlan(m, j, e), before, fuel, middle, left, None,
              runtime.store.missions, runtime.store.fuel, FaultOf(started));
      if started.Failure? {
        return Failure(started.error);
      }
      RanJournal(m, now, PutPlan(m, j, e), middle, left, runtime.store.missions, runtime.store.fuel);
      StartRead(m, j, gid, actor, now, first.entries);
      r := View(gid);
    }
  }

  lemma SameMembers(sorted: seq<string>, listed: seq<string>)
    requires sorted == SortSet(Elements(listed))
    ensures Ascending(sorted) && forall n :: n in sorted <==> n in listed
  {
    assert forall n :: n in sorted <==> n in Elements(sorted);
  }

  lemma NothingMade(gid: string, nodes: map<string, NodeState>, v: TaskView, actor: string)
    ensures Materializing(gid, nodes, v, [], actor) == Material(Plan([], None), v)
  {
  }

  /** Only a dependency check refuses the creation of a task that is not there. */
  lemma CreationFaults(v: TaskView, actor: string, t: TaskId, subject: string, blocked: seq<TaskId>)
    ensures CreateTaskPlan(v, actor, t, subject, blocked).fault != Some(Crashed)
  {
    hide DepsSound;
  }

  /** A part that raised or crashed decides how the whole ends. */
  lemma StoppedEarly(m: string, now: real, part: Plan, more: seq<Entry>, whole: Plan, a: map<string, Tables>, fa: nat,
                     b: map<string, Tables>, fb: nat, error: Error)
    requires Ran(m, now, part, a, fa, b, fb, Some(error)) && part.fault != Some(Crashed)
    requires whole.entries == part.entries + more && (part.fault.Some? ==> whole == part)
    ensures Ran(m, now, whole, a, fa, b, fb, Some(error))
  {
    if part.fault.None? { RanCrashed(m, now, part, more, whole.fault, a, fa, b, fb); }
  }

  lemma NothingRan(m: string, now: real, raised: Option<Error>, a: map<string, Tables>, fa: nat,
                   b: map<string, Tables>, fb: nat, fault: Option<Error>)
    requires Ran(m, now, Plan([], raised), a, fa, b, fb, fault)
    ensures fault == raised
  {
  }

  lemma PlanDone(m: string, now: real, p: Plan, a: map<string, Tables>, fa: nat, b: map<string, Tables>, fb: nat)
    requires Ran(m, now, p, a, fa, b, fb, None)
    ensures p.fault.None?
  {
  }

  lemma MaterialNeverCrashes(gid: string, nodes: map<string, NodeState>, v: TaskView, actor: string)
    ensures MaterialPlan(gid, nodes, v, actor).fault != Some(Crashed)
    ensures forall e :: e in MaterialPlan(gid, nodes, v, actor).entries ==> e.key.OfTask? && e.body.Task?
  {
    hide Materializing;
    MaterialIsTasks(gid, nodes, v, Rounds(NodeDeps(nodes), {}), actor);
  }

  /** At its end `create_graph` can read the graph if it could be read before. */
  lemma CreationRead(m: string, j: seq<Event>, d: Definition, actor: string, now: real, put: Plan, rest: Plan)
    requires Readable(j) && put == PutPlan(m, j, GraphEntry(actor, GraphCreated(d.graph, d.nodes))) && put.fault.None?
    requires forall e :: e in rest.entries ==> e.body.Task?
    ensures GraphFold(Extend(Extend(j, m, now, put.entries), m, now, rest.entries), d.graph).Success? <==>
      GraphFold(j, d.graph).Success?
  {
    hide GraphFold;
    hide TaskFold;
    hide RecordFold;
    hide PutPlan;
    ReadAfterCreation(m, j, d.graph, d.nodes, actor, now);
    TasksLeaveGraph(m, Extend(j, m, now, put.entries), d.graph, now, rest.entries);
  }

  /** At its end `start_graph` can read the graph. */
  lemma StartRead(m: string, j: seq<Event>, gid: string, actor: string, now: real, first: seq<Entry>)
    requires GraphFold(j, gid).Success? && GraphFold(j, gid).value.status == Created
    requires forall e :: e in first ==> e.body.Task?
    requires PutPlan(m, j, GraphEntry(actor, GraphStarted(gid))).fault.None?
    ensures GraphFold(Extend(Extend(j, m, now, first), m, now,
      PutPlan(m, j, GraphEntry(actor, GraphStarted(gid))).entries), gid).Success?
  {
    hide GraphFold;
    var e, before := GraphEntry(actor, GraphStarted(gid)), Extend(j, m, now, first);
    TasksLeaveGraph(m, j, gid, now, first);
    ExtendNone(before, m, now);
    ExtendOne(before, m, now, e);
    GraphFoldAppend(before, gid, Stamp(m, |before| + 1, now, e));
  }
}
