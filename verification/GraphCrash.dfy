/** Crash recovery refines the run without the crash: what `reconcile`, or a retry, writes after a
    crash is what the interrupted operation would have written. */
module GraphCrash {
  import opened Base
  import opened Journal
  import opened Tasks
  import opened GraphLog
  import opened Store
  import opened Projection
  import opened Runtime
  import opened GraphRules
  import opened GraphHistory
  import opened GraphPlans
  import opened GraphSafety
  import opened GraphRepair
  import opened GraphLifecycle

  /** The same events, whoever wrote them and when. */
  ghost predicate SameContent(a: seq<Event>, b: seq<Event>) {
    && |a| == |b|
    && forall i :: 0 <= i < |a| ==> a[i].seqNo == b[i].seqNo && a[i].key == b[i].key && a[i].body == b[i].body
  }

  ghost predicate SameEntries(a: seq<Entry>, b: seq<Entry>) {
    |a| == |b| && forall i :: 0 <= i < |a| ==> a[i].key == b[i].key && a[i].body == b[i].body
  }

  /** Writing a list at once or in two goes, by different callers at different times. */
  lemma SplitContent(j: seq<Event>, m: string, now: real, later: real, a: seq<Entry>, b: seq<Entry>, b': seq<Entry>)
    requires SameEntries(b, b')
    ensures SameContent(Extend(Extend(j, m, now, a), m, later, b'), Extend(j, m, now, a + b))
  {
    ExtendAppend(j, m, now, a, b);
    SameAfter(Extend(j, m, now, a), m, now, later, b, b');
  }

  lemma SameAfter(j: seq<Event>, m: string, now: real, later: real, b: seq<Entry>, b': seq<Entry>)
    requires SameEntries(b, b')
    ensures SameContent(Extend(j, m, later, b'), Extend(j, m, now, b))
  {
    var x, y := Extend(j, m, later, b'), Extend(j, m, now, b);
    forall i | 0 <= i < |x| ensures x[i].seqNo == y[i].seqNo && x[i].key == y[i].key && x[i].body == y[i].body {
      if i < |j| {
        assert x[i] == x[..|j|][i] && y[i] == y[..|j|][i];
      } else {
        var k := i - |j|;
        assert x[|j| + k] == Stamp(m, |j| + k + 1, later, b'[k]) && y[|j| + k] == Stamp(m, |j| + k + 1, now, b[k]);
      }
    }
  }

  /** In a settled graph where only `n` lacks its start, that start is the whole repair. */
  lemma OnlyStart(gid: string, g: GraphView, tasks: TaskMap, n: string, actor: string)
    requires Distinct(g.order) && Elements(g.order) == g.nodes.Keys && StartsHere(gid, g, tasks, n)
    requires forall k :: k != n ==> !StartsHere(gid, g, tasks, k)
    requires forall k :: !CompletesHere(gid, g, tasks, k)
    ensures StartRepairs(gid, g, tasks, g.order, actor)
         == [StartEntry(actor, gid, n, tasks[NodeTask(gid, n)].owner.value, tasks[NodeTask(gid, n)].lease.value)]
    ensures CompletionRepairs(gid, g, tasks, g.order, actor) == []
  {
    assert n in Elements(g.order);
    OneStart(gid, g, tasks, n, g.order, actor);
    NoCompletionRepairs(gid, g, tasks, g.order, actor);
  }

  lemma {:induction false} OneStart(gid: string, g: GraphView, tasks: TaskMap, n: string, order: seq<string>,
                                    actor: string)
    requires Distinct(order) && StartsHere(gid, g, tasks, n) && forall k :: k != n ==> !StartsHere(gid, g, tasks, k)
    ensures StartRepairs(gid, g, tasks, order, actor) ==
      if n in order
        then [StartEntry(actor, gid, n, tasks[NodeTask(gid, n)].owner.value, tasks[NodeTask(gid, n)].lease.value)]
      else []
  {
    if order != [] { OneStart(gid, g, tasks, n, order[..|order| - 1], actor); }
  }

  lemma OnlyCompletion(gid: string, g: GraphView, tasks: TaskMap, n: string, actor: string)
    requires Distinct(g.order) && Elements(g.order) == g.nodes.Keys && CompletesHere(gid, g, tasks, n)
    requires forall k :: k != n ==> !CompletesHere(gid, g, tasks, k)
    requires forall k :: !StartsHere(gid, g, tasks, k)
    ensures CompletionRepairs(gid, g, tasks, g.order, actor)
         == [GraphEntry(actor, NodeCompleted(gid, n, g.nodes[n].pending.value, g.nodes[n].pendingEvidence))]
    ensures StartRepairs(gid, g, tasks, g.order, actor) == []
  {
    assert n in Elements(g.order);
    OneCompletion(gid, g, tasks, n, g.order, actor);
    NoStartRepairs(gid, g, tasks, g.order, actor);
  }

  lemma {:induction false} OneCompletion(gid: string, g: GraphView, tasks: TaskMap, n: string, order: seq<string>,
                                         actor: string)
    requires Distinct(order) && CompletesHere(gid, g, tasks, n) && forall k :: k != n ==>
      !CompletesHere(gid, g, tasks, k)
    ensures CompletionRepairs(gid, g, tasks, order, actor) ==
      if n in order
        then [GraphEntry(actor, NodeCompleted(gid, n, g.nodes[n].pending.value, g.nodes[n].pendingEvidence))] else []
  {
    if order != [] { OneCompletion(gid, g, tasks, n, order[..|order| - 1], actor); }
  }

  /** A crash between the lease and the start of a node: `reconcile` writes exactly the start that
      is missing, provided the lease names its owner; otherwise it writes nothing. */
  lemma LeaseCrashRecovered(m: string, j: seq<Event>, gid: string, n: string, worker: string, ttl: int, lease: string,
                            actor: string, now: real, repairer: string, later: real)
    requires Good(j, gid, m) && Readable(j) && Healthy(j, gid)
    requires m != "" && actor != "" && repairer != "" && ttl > 0
    requires Ready(gid, GraphFold(j, gid).value, TaskFold(j).value.tasks, n)
    requires Settled(gid, GraphFold(j, gid).value, TaskFold(j).value.tasks)
    ensures var plan := LeasePlan(m, j, gid, n, worker, ttl, lease, actor, now);
      && |plan.entries| == 2
      && var crashed := Extend(j, m, now, plan.entries[..1]);
         && Readable(crashed)
         && var repaired := Extend(crashed, m, later, ReconcilePlan(m, crashed, gid, repairer).entries);
            if worker != "" && lease != "" then SameContent(repaired, Extend(j, m, now, plan.entries))
            else repaired == crashed
  {
    hide Good;
    hide Readable;
    hide TaskFold;
    hide GraphFold;
    hide DepsSound;
    hide Settled;
    hide LeasePlan;
    hide ReconcilePlan;
    hide StartRepairs;
    hide CompletionRepairs;
    hide Lawful;
    hide Linked;
    hide SameContent;
    var g, v := GraphFold(j, gid).value, TaskFold(j).value;
    var u := LeaseUpdate(actor, gid, n, v.tasks, worker, lease, now + ttl as real);
    var s := StartEntry(actor, gid, n, worker, lease);
    LeasePlanned(m, j, gid, n, worker, ttl, lease, actor, now);
    assert [u, s][..1] == [u] && [u, s] == [u] + [s];
    var crashed := Extend(j, m, now, [u]);
    LeasedOnce(m, j, gid, n, worker, lease, actor, now, now + ttl as real);
    LeaseRepair(m, crashed, gid, g, v, n, worker, lease, repairer, actor, now + ttl as real);
    if worker != "" && lease != "" {
      SplitContent(j, m, now, later, [u], [s], [StartEntry(repairer, gid, n, worker, lease)]);
    } else {
      ExtendNone(crashed, m, later);
    }
  }

  /** The state after the first event of `lease_node`. */
  lemma LeasedOnce(m: string, j: seq<Event>, gid: string, n: string, worker: string, lease: string,
                   actor: string, now: real, until: real)
    requires Good(j, gid, m) && Healthy(j, gid) && Ready(gid, GraphFold(j, gid).value, TaskFold(j).value.tasks, n)
    ensures var v := TaskFold(j).value; var t := NodeTask(gid, n);
      var u := LeaseUpdate(actor, gid, n, v.tasks, worker, lease, until);
      var crashed := Extend(j, m, now, [u]);
      && Good(crashed, gid, m) && Readable(crashed) && Healthy(crashed, gid)
      && GraphFold(crashed, gid) == GraphFold(j, gid)
      && TaskFold(crashed)
        == Success(v.(tasks := v.tasks[t := Change(v.tasks[t], v.tasks[t].revision + 1,
        LeaseChanges(worker, lease, until))]))
  {
    hide Good;
    hide Readable;
    hide TaskFold;
    hide GraphFold;
    hide Linked;
    hide DepsSound;
    hide LawfulEntry;
    hide Acceptable;
    var g, v, t := GraphFold(j, gid).value, TaskFold(j).value, NodeTask(gid, n);
    var u := LeaseUpdate(actor, gid, n, v.tasks, worker, lease, until);
    OwnTaskEntry(j, gid, actor, n, v.tasks[t].revision + 1, LeaseChanges(worker, lease, until));
    LawfulStep(j, gid, m, now, u);
    ExtendOne(j, m, now, u);
    GoodUnfold(Extend(j, m, now, [u]), gid, m);
    UpdateApplied(gid, g, v, n, LeaseChanges(worker, lease, until), u);
  }

  lemma UpdateApplied(gid: string, g: GraphView, v: TaskView, n: string, c: Changes, u: Entry)
    requires NodeTask(gid, n) in v.tasks && u == Update(u.actor, NodeTask(gid, n),
      v.tasks[NodeTask(gid, n)].revision + 1, c)
    requires TaskStep(v, u.body).Success?
    ensures var t := NodeTask(gid, n);
      TaskStep(v, u.body) == Success(v.(tasks := v.tasks[t := Change(v.tasks[t], v.tasks[t].revision + 1, c)]))
    ensures GraphStep(gid, g, u.body) == Success(g)
  {
  }

  lemma LeaseRepair(m: string, crashed: seq<Event>, gid: string, g: GraphView, v: TaskView, n: string,
                    worker: string, lease: string, repairer: string, actor: string, until: real)
    requires Readable(crashed) && Healthy(crashed, gid) && m != "" && repairer != ""
    requires Ready(gid, g, v.tasks, n) && Settled(gid, g, v.tasks) && GraphFold(crashed, gid) == Success(g)
    requires var t := NodeTask(gid, n);
      TaskFold(crashed)
        == Success(v.(tasks := v.tasks[t := Change(v.tasks[t], v.tasks[t].revision + 1,
        LeaseChanges(worker, lease, until))]))
    ensures ReconcilePlan(m, crashed, gid, repairer)
         == Plan(if worker != "" && lease != "" then [StartEntry(repairer, gid, n, worker, lease)] else [], None)
  {
    hide Readable;
    hide TaskFold;
    hide GraphFold;
    hide DepsSound;
    hide StartRepairs;
    hide CompletionRepairs;
    var tasks' := TaskFold(crashed).value.tasks;
    forall k ensures (StartsHere(gid, g, tasks', k) <==> k == n && worker != "" && lease != "")
    ensures !CompletesHere(gid, g, tasks', k) {
      assert !StartsHere(gid, g, v.tasks, k) && !CompletesHere(gid, g, v.tasks, k);
    }
    OrderDistinct(gid, g, tasks');
    if worker != "" && lease != "" {
      OnlyStart(gid, g, tasks', n, repairer);
      assert [StartEntry(repairer, gid, n, worker, lease)] + [] == [StartEntry(repairer, gid, n, worker, lease)];
    } else {
      NoStartRepairs(gid, g, tasks', g.order, repairer);
      NoCompletionRepairs(gid, g, tasks', g.order, repairer);
    }
  }

  /** The node with the receipt recorded. */
  function Received(node: NodeState, r: Receipt): NodeState {
    node.(pending := Some(r.claimed), pendingEvidence := r.material.evidence, receiptActor := Some(r.material.actor))
  }

  /** The first event of `complete_node`, unless the receipt is there. */
  function Recording(gid: string, g: GraphView, n: string, r: Receipt, actor: string): seq<Entry>
    requires n in g.nodes
  {
    if g.nodes[n].pending.None? then [ReceiptEntry(actor, gid, n, r)] else []
  }

  /** The state after `complete_node` recorded the receipt, or found it recorded. */
  lemma ReceiptRecorded(m: string, j: seq<Event>, gid: string, n: string, r: Receipt, actor: string, now: real)
    requires Good(j, gid, m) && Readable(j) && Healthy(j, gid) && Completing(gid, GraphFold(j, gid).value, n, r)
    requires ReceiptClash(GraphFold(j, gid).value.nodes[n], r).None?
    ensures var g := GraphFold(j, gid).value; var crashed := Extend(j, m, now, Recording(gid, g, n, r, actor));
      && Good(crashed, gid, m) && Readable(crashed) && Healthy(crashed, gid)
      && TaskFold(crashed) == TaskFold(j)
      && GraphFold(crashed, gid) == Success(g.(nodes := g.nodes[n := Received(g.nodes[n], r)]))
  {
    hide Good;
    hide Readable;
    hide TaskFold;
    hide GraphFold;
    hide Linked;
    hide DepsSound;
    hide LawfulEntry;
    var g := GraphFold(j, gid).value;
    if g.nodes[n].pending.None? {
      var f := NodeReceipt(gid, n, r.claimed, r.material.evidence, r.material.actor);
      OwnGraphEntry(j, gid, actor, f);
      LawfulStep(j, gid, m, now, GraphEntry(actor, f));
      ExtendOne(j, m, now, GraphEntry(actor, f));
      GoodUnfold(Extend(j, m, now, [GraphEntry(actor, f)]), gid, m);
      ReceiptApplied(gid, g, TaskFold(j).value, n, r, f, actor);
    } else {
      ExtendNone(j, m, now);
      GeneratedOf(j, gid, m);
      PendingKnown(j, gid, n, r.claimed);
      assert g.nodes[n := Received(g.nodes[n], r)] == g.nodes;
    }
  }

  lemma ReceiptApplied(gid: string, g: GraphView, v: TaskView, n: string, r: Receipt, f: GraphFact, actor: string)
    requires n in g.nodes && g.nodes[n].status == Running && g.nodes[n].pending.None?
    requires f == NodeReceipt(gid, n, r.claimed, r.material.evidence, r.material.actor)
    ensures TaskStep(v, GraphEntry(actor, f).body) == Success(v)
    ensures GraphStep(gid, g, GraphEntry(actor, f).body) == Success(g.(nodes := g.nodes[n := Received(g.nodes[n], r)]))
  {
  }

  /** The state after `complete_node` also completed the task. */
  lemma TaskCompletedNext(m: string, j: seq<Event>, gid: string, n: string, actor: string, now: real)
    requires Good(j, gid, m) && Healthy(j, gid) && n in GraphFold(j, gid).value.nodes
    requires GraphFold(j, gid).value.nodes[n].status == Running && GraphFold(j, gid).value.nodes[n].pending.Some?
    requires NodeTask(gid, n) in TaskFold(j).value.tasks && Leased(TaskFold(j).value.tasks[NodeTask(gid, n)])
    ensures var v := TaskFold(j).value; var t := NodeTask(gid, n);
      var crashed := Extend(j, m, now, [CompletionUpdate(actor, gid, n, v.tasks)]);
      && Good(crashed, gid, m) && Readable(crashed) && Healthy(crashed, gid)
      && GraphFold(crashed, gid) == GraphFold(j, gid)
      && TaskFold(crashed)
        == Success(v.(tasks := v.tasks[t := Change(v.tasks[t], v.tasks[t].revision + 1,
        ReleaseChanges(TaskCompleted))]))
  {
    hide Good;
    hide Readable;
    hide TaskFold;
    hide GraphFold;
    hide Linked;
    hide DepsSound;
    hide LawfulEntry;
    var v, t := TaskFold(j).value, NodeTask(gid, n);
    var u := CompletionUpdate(actor, gid, n, v.tasks);
    OwnTaskEntry(j, gid, actor, n, v.tasks[t].revision + 1, ReleaseChanges(TaskCompleted));
    LawfulStep(j, gid, m, now, u);
    ExtendOne(j, m, now, u);
    GoodUnfold(Extend(j, m, now, [u]), gid, m);
    UpdateApplied(gid, GraphFold(j, gid).value, v, n, ReleaseChanges(TaskCompleted), u);
  }

  /** Everything `complete_node` needs: the node runs under the receipt's author, no other receipt
      was recorded, and its lease is alive. */
  ghost predicate Completable(gid: string, g: GraphView, tasks: TaskMap, n: string, r: Receipt) {
    && Completing(gid, g, n, r) && ReceiptClash(g.nodes[n], r).None?
    && NodeTask(gid, n) in tasks && Leased(tasks[NodeTask(gid, n)])
  }

  /** `complete_node` then writes three events, or two if its receipt was recorded before. */
  lemma CompleteInFull(m: string, j: seq<Event>, gid: string, n: string, r: Receipt, actor: string)
    requires Good(j, gid, m) && Readable(j) && Healthy(j, gid) && m != "" && actor != ""
    requires Completable(gid, GraphFold(j, gid).value, TaskFold(j).value.tasks, n, r)
    ensures var first := Recording(gid, GraphFold(j, gid).value, n, r, actor);
      var u, c := CompletionUpdate(actor, gid, n, TaskFold(j).value.tasks), CompletionEntry(actor, gid, n, r);
      && CompletePlan(m, j, gid, n, r, actor) == Plan(first + [u, c], None)
      && (first + [u, c])[..|first|] == first && (first + [u, c])[..|first| + 1] == first + [u]
      && first + [u, c] == (first + [u]) + [c]
  {
    hide Good;
    hide Readable;
    hide TaskFold;
    hide GraphFold;
    hide Linked;
    hide DepsSound;
    hide CompletePlan;
    CompletePlanned(m, j, gid, n, r, actor);
    CutTwo(Recording(gid, GraphFold(j, gid).value, n, r, actor),
           CompletionUpdate(actor, gid, n, TaskFold(j).value.tasks), CompletionEntry(actor, gid, n, r));
  }

  lemma CutTwo<T>(xs: seq<T>, a: T, b: T)
    ensures (xs + [a, b])[..|xs|] == xs && (xs + [a, b])[..|xs| + 1] == xs + [a]
    ensures xs + [a, b] == (xs + [a]) + [b]
  {
  }

  /** A crash after the receipt was recorded, in this call or an earlier one: `reconcile` has
      nothing to repair, and a retry with the same receipt, by whomever, finishes the very same
      journal. */
  lemma ReceiptCrashRecovered(m: string, j: seq<Event>, gid: string, n: string, r: Receipt, actor: string, now: real,
                              retrier: string, later: real)
    requires Good(j, gid, m) && Readable(j) && Healthy(j, gid) && m != "" && actor != "" && retrier != ""
    requires Completable(gid, GraphFold(j, gid).value, TaskFold(j).value.tasks, n, r)
    requires Settled(gid, GraphFold(j, gid).value, TaskFold(j).value.tasks)
    ensures var plan := CompletePlan(m, j, gid, n, r, actor);
      && |plan.entries| == (if GraphFold(j, gid).value.nodes[n].pending.None? then 3 else 2)
      && var crashed := Extend(j, m, now, plan.entries[..|plan.entries| - 2]);
         && Readable(crashed)
         && ReconcilePlan(m, crashed, gid, retrier) == Plan([], None)
         && SameContent(Extend(crashed, m, later, CompletePlan(m, crashed, gid, n, r, retrier).entries),
                        Extend(j, m, now, plan.entries))
  {
    hide Good;
    hide Readable;
    hide TaskFold;
    hide GraphFold;
    hide Linked;
    hide DepsSound;
    hide CompletePlan;
    hide ReconcilePlan;
    hide SameContent;
    hide Settled;
    hide Change;
    hide StartsHere;
    hide CompletesHere;
    var g, v := GraphFold(j, gid).value, TaskFold(j).value;
    CompleteInFull(m, j, gid, n, r, actor);
    var first := Recording(gid, g, n, r, actor);
    var u, c := CompletionUpdate(actor, gid, n, v.tasks), CompletionEntry(actor, gid, n, r);
    var crashed := Extend(j, m, now, first);
    ReceiptRecorded(m, j, gid, n, r, actor, now);
    CompleteInFull(m, crashed, gid, n, r, retrier);
    var u', c' := CompletionUpdate(retrier, gid, n, v.tasks), CompletionEntry(retrier, gid, n, r);
    assert [] + [u', c'] == [u', c'];
    SplitContent(j, m, now, later, first, [u, c], [u', c']);
    SettledStill(gid, g, GraphFold(crashed, gid).value, v.tasks, n);
    SettledPlan(m, crashed, gid, retrier);
  }

  lemma SettledStill(gid: string, g: GraphView, g': GraphView, tasks: TaskMap, n: string)
    requires Settled(gid, g, tasks) && n in g.nodes && g.nodes[n].status == Running
    requires NodeTask(gid, n) in tasks && Leased(tasks[NodeTask(gid, n)])
    requires g'.nodes.Keys == g.nodes.Keys && g'.nodes[n].status == Running
    requires forall k :: k in g.nodes && k != n ==> g'.nodes[k] == g.nodes[k]
    ensures Settled(gid, g', tasks)
  {
    forall k ensures !StartsHere(gid, g', tasks, k) && !CompletesHere(gid, g', tasks, k) {
      assert !StartsHere(gid, g, tasks, k) && !CompletesHere(gid, g, tasks, k);
    }
  }

  /** The states after the task was completed and after the node was. */
  lemma CompletionStates(m: string, j: seq<Event>, gid: string, n: string, r: Receipt, actor: string, now: real)
    requires Good(j, gid, m) && Readable(j) && Healthy(j, gid) && m != "" && actor != ""
    requires Completable(gid, GraphFold(j, gid).value, TaskFold(j).value.tasks, n, r)
    ensures var g, v, t := GraphFold(j, gid).value, TaskFold(j).value, NodeTask(gid, n);
      var entries, received := CompletePlan(m, j, gid, n, r, actor).entries,
        g.(nodes := g.nodes[n := Received(g.nodes[n], r)]);
      var w := v.(tasks := v.tasks[t := Change(v.tasks[t], v.tasks[t].revision + 1, ReleaseChanges(TaskCompleted))]);
      && |entries| == (if g.nodes[n].pending.None? then 3 else 2)
      && var crashed, full := Extend(j, m, now, entries[..|entries| - 1]), Extend(j, m, now, entries);
         && Good(crashed, gid, m) && Readable(crashed) && Healthy(crashed, gid)
         && TaskFold(crashed) == Success(w) && GraphFold(crashed, gid) == Success(received)
         && Good(full, gid, m) && Readable(full) && Healthy(full, gid)
         && TaskFold(full) == Success(w)
         && GraphFold(full, gid) == Success(received.(nodes := received.nodes[n := CompletedNode(received.nodes[n])]))
  {
    hide Good;
    hide Readable;
    hide TaskFold;
    hide GraphFold;
    hide Linked;
    hide DepsSound;
    hide CompletePlan;
    hide LawfulEntry;
    hide Change;
    var g, v := GraphFold(j, gid).value, TaskFold(j).value;
    CompleteInFull(m, j, gid, n, r, actor);
    var first := Recording(gid, g, n, r, actor);
    var u, c := CompletionUpdate(actor, gid, n, v.tasks), CompletionEntry(actor, gid, n, r);
    var received := Extend(j, m, now, first);
    ReceiptRecorded(m, j, gid, n, r, actor, now);
    TaskCompletedNext(m, received, gid, n, actor, now);
    ExtendAppend(j, m, now, first, [u]);
    var crashed := Extend(received, m, now, [u]);
    TaskDone(gid, v.tasks, n);
    var f := NodeCompleted(gid, n, r.claimed, r.material.evidence);
    OwnGraphEntry(crashed, gid, actor, f);
    LawfulStep(crashed, gid, m, now, c);
    ExtendSnoc(j, m, now, first + [u], c);
    CompletionApplied(gid, GraphFold(crashed, gid).value, TaskFold(crashed).value, n, f, actor);
    GoodUnfold(Extend(j, m, now, first + [u, c]), gid, m);
  }

  lemma TaskDone(gid: string, tasks: TaskMap, n: string)
    requires NodeTask(gid, n) in tasks
    ensures var t := tasks[NodeTask(gid, n)];
      Change(t, t.revision + 1, ReleaseChanges(TaskCompleted)).status.TaskCompleted?
  {
  }

  /** A crash after the task was completed: `reconcile` writes exactly the node's completion. */
  lemma CompletionCrashRecovered(m: string, j: seq<Event>, gid: string, n: string, r: Receipt, actor: string, now: real,
                                 repairer: string, later: real)
    requires Good(j, gid, m) && Readable(j) && Healthy(j, gid) && m != "" && actor != "" && repairer != ""
    requires Completable(gid, GraphFold(j, gid).value, TaskFold(j).value.tasks, n, r)
    requires Settled(gid, GraphFold(j, gid).value, TaskFold(j).value.tasks)
    ensures var plan := CompletePlan(m, j, gid, n, r, actor);
      && |plan.entries| == (if GraphFold(j, gid).value.nodes[n].pending.None? then 3 else 2)
      && var crashed := Extend(j, m, now, plan.entries[..|plan.entries| - 1]);
         && Readable(crashed)
         && SameContent(Extend(crashed, m, later, ReconcilePlan(m, crashed, gid, repairer).entries),
                        Extend(j, m, now, plan.entries))
  {
    hide Good;
    hide Readable;
    hide TaskFold;
    hide GraphFold;
    hide Linked;
    hide DepsSound;
    hide CompletePlan;
    hide ReconcilePlan;
    hide SameContent;
    hide Settled;
    var g, v := GraphFold(j, gid).value, TaskFold(j).value;
    CompleteInFull(m, j, gid, n, r, actor);
    CompletionStates(m, j, gid, n, r, actor, now);
    var before := Recording(gid, g, n, r, actor) + [CompletionUpdate(actor, gid, n, v.tasks)];
    CompletionRepair(m, Extend(j, m, now, before), gid, g, v, n, r, repairer);
    SplitContent(j, m, now, later, before, [CompletionEntry(actor, gid, n, r)], [CompletionEntry(repairer, gid, n, r)]);
  }

  lemma CompletionRepair(m: string, crashed: seq<Event>, gid: string, g: GraphView, v: TaskView, n: string, r: Receipt,
                         repairer: string)
    requires Readable(crashed) && Healthy(crashed, gid) && m != "" && repairer != ""
    requires Completable(gid, g, v.tasks, n, r) && Settled(gid, g, v.tasks)
    requires GraphFold(crashed, gid) == Success(g.(nodes := g.nodes[n := Received(g.nodes[n], r)]))
    requires var t := NodeTask(gid, n);
      TaskFold(crashed)
        == Success(v.(tasks := v.tasks[t := Change(v.tasks[t], v.tasks[t].revision + 1,
        ReleaseChanges(TaskCompleted))]))
    ensures ReconcilePlan(m, crashed, gid, repairer) == Plan([CompletionEntry(repairer, gid, n, r)], None)
  {
    hide Readable;
    hide TaskFold;
    hide GraphFold;
    hide DepsSound;
    hide StartRepairs;
    hide CompletionRepairs;
    var g', tasks' := GraphFold(crashed, gid).value, TaskFold(crashed).value.tasks;
    forall k ensures !StartsHere(gid, g', tasks', k)
    ensures CompletesHere(gid, g', tasks', k) <==> k == n {
      assert !StartsHere(gid, g, v.tasks, k) && !CompletesHere(gid, g, v.tasks, k);
    }
    OrderDistinct(gid, g', tasks');
    OnlyCompletion(gid, g', tasks', n, repairer);
    assert [] + [CompletionEntry(repairer, gid, n, r)] == [CompletionEntry(repairer, gid, n, r)];
  }

  /** `complete_node` does not compare a new receipt with the one already recorded: for a call that
      gets past its checks, the journal stays replayable if and only if the two agree. */
  lemma CompleteReplayableIff(m: string, j: seq<Event>, gid: string, n: string, r: Receipt, actor: string, now: real)
    requires Good(j, gid, m) && Readable(j) && Healthy(j, gid) && m != "" && actor != ""
    requires Completing(gid, GraphFold(j, gid).value, n, r)
    ensures GraphFold(Extend(j, m, now, CompletePlan(m, j, gid, n, r, actor).entries), gid).Success?
       <==> ReceiptClash(GraphFold(j, gid).value.nodes[n], r).None?
  {
    hide Good;
    hide Readable;
    hide TaskFold;
    hide GraphFold;
    hide Linked;
    hide DepsSound;
    hide CompletePlan;
    hide Lawful;
    if ReceiptClash(GraphFold(j, gid).value.nodes[n], r).None? {
      OneReceiptLawful(m, j, gid, n, r, actor, now);
      var entries := CompletePlan(m, j, gid, n, r, actor).entries;
      LawfulKeeps(j, gid, m, now, entries, |entries|);
      assert entries[..|entries|] == entries;
      GoodUnfold(Extend(j, m, now, entries), gid, m);
    } else {
      ClashRejected(m, j, gid, n, r, actor, now);
    }
  }

  /** A crash inside `fail_node` is not repaired: `reconcile` writes nothing about the node, and a
      retry, before it or after it, fails the task a second time before it fails the node. */
  lemma FailCrashNotRepaired(m: string, j: seq<Event>, gid: string, n: string, actor: string, error: string, now: real,
                             repairer: string, later: real, retrier: string)
    requires Good(j, gid, m) && Readable(j) && Healthy(j, gid) && m != "" && actor != "" && repairer != ""
      && retrier != ""
    requires n in GraphFold(j, gid).value.nodes && GraphFold(j, gid).value.nodes[n].status == Running
    ensures var plan := FailPlan(m, j, gid, n, actor, error); var t := NodeTask(gid, n);
      && |plan.entries| == 2 && t in TaskFold(j).value.tasks
      && var crashed := Extend(j, m, now, plan.entries[..1]);
         var again := [Update(retrier, t, TaskFold(j).value.tasks[t].revision + 2, ReleaseChanges(TaskFailed)),
                       GraphEntry(retrier, NodeFailed(gid, n, error))];
         && Readable(crashed) && Healthy(crashed, gid)
         && FailPlan(m, crashed, gid, n, retrier, error).entries == again
         && var repairs := ReconcilePlan(m, crashed, gid, repairer).entries;
            var repaired := Extend(crashed, m, later, repairs);
            && (forall e :: e in repairs ==> !AboutNode(e.body, n))
            && (Reconcilable(gid, GraphFold(crashed, gid).value, TaskFold(crashed).value.tasks) ==>
                  Readable(repaired) && FailPlan(m, repaired, gid, n, retrier, error).entries == again)
  {
    hide Good;
    hide Readable;
    hide TaskFold;
    hide GraphFold;
    hide Linked;
    hide DepsSound;
    hide FailPlan;
    hide ReconcilePlan;
    hide Reconciled;
    hide Reconcilable;
    hide AboutNode;
    var g, v, t := GraphFold(j, gid).value, TaskFold(j).value, NodeTask(gid, n);
    FailPlanned(m, j, gid, n, actor, error);
    var u := Update(actor, t, v.tasks[t].revision + 1, ReleaseChanges(TaskFailed));
    assert [u, GraphEntry(actor, NodeFailed(gid, n, error))][..1] == [u];
    var crashed := Extend(j, m, now, [u]);
    TaskFailedNext(m, j, gid, n, actor, now);
    FailPlanned(m, crashed, gid, n, retrier, error);
    RepairsElsewhere(m, crashed, gid, n, repairer);
    var repaired := Extend(crashed, m, later, ReconcilePlan(m, crashed, gid, repairer).entries);
    if Reconcilable(gid, GraphFold(crashed, gid).value, TaskFold(crashed).value.tasks) {
      RepairedState(m, crashed, gid, repairer, later);
      FailedLeftAlone(gid, g, TaskFold(crashed).value.tasks, n);
      FailPlanned(m, repaired, gid, n, retrier, error);
    }
  }

  predicate AboutNode(b: Body, n: string) {
    b.Graph? && (match b.graphFact
      case NodeStarted(_, k, _, _) => k == n
      case NodeReceipt(_, k, _, _, _) => k == n
      case NodeCompleted(_, k, _, _) => k == n
      case NodeFailed(_, k, _) => k == n
      case _ => false)
  }

  /** The state after the first event of `fail_node`. */
  lemma TaskFailedNext(m: string, j: seq<Event>, gid: string, n: string, actor: string, now: real)
    requires Good(j, gid, m) && Healthy(j, gid) && n in GraphFold(j, gid).value.nodes
    requires GraphFold(j, gid).value.nodes[n].status == Running && NodeTask(gid, n) in TaskFold(j).value.tasks
    ensures var v := TaskFold(j).value; var t := NodeTask(gid, n);
      var crashed := Extend(j, m, now, [Update(actor, t, v.tasks[t].revision + 1, ReleaseChanges(TaskFailed))]);
      && Good(crashed, gid, m) && Readable(crashed) && Healthy(crashed, gid)
      && GraphFold(crashed, gid) == GraphFold(j, gid)
      && TaskFold(crashed)
        == Success(v.(tasks := v.tasks[t := Change(v.tasks[t], v.tasks[t].revision + 1, ReleaseChanges(TaskFailed))]))
  {
    hide Good;
    hide Readable;
    hide TaskFold;
    hide GraphFold;
    hide Linked;
    hide DepsSound;
    hide LawfulEntry;
    var v, t := TaskFold(j).value, NodeTask(gid, n);
    var u := Update(actor, t, v.tasks[t].revision + 1, ReleaseChanges(TaskFailed));
    OwnTaskEntry(j, gid, actor, n, v.tasks[t].revision + 1, ReleaseChanges(TaskFailed));
    LawfulStep(j, gid, m, now, u);
    ExtendOne(j, m, now, u);
    GoodUnfold(Extend(j, m, now, [u]), gid, m);
    UpdateApplied(gid, GraphFold(j, gid).value, v, n, ReleaseChanges(TaskFailed), u);
  }

  /** No repair concerns a running node whose task failed. */
  lemma RepairsElsewhere(m: string, j: seq<Event>, gid: string, n: string, repairer: string)
    requires Readable(j) && Healthy(j, gid)
    requires n in GraphFold(j, gid).value.nodes && GraphFold(j, gid).value.nodes[n].status == Running
    requires NodeTask(gid, n) in TaskFold(j).value.tasks && TaskFold(j).value.tasks[NodeTask(gid, n)].status.TaskFailed?
    ensures forall e :: e in ReconcilePlan(m, j, gid, repairer).entries ==> !AboutNode(e.body, n)
  {
    hide Readable;
    hide TaskFold;
    hide GraphFold;
    hide AboutNode;
    hide StartRepairs;
    hide CompletionRepairs;
    var g, tasks := GraphFold(j, gid).value, TaskFold(j).value.tasks;
    NotRepaired(gid, g, tasks, n, g.order, repairer);
  }

  lemma {:induction false} NotRepaired(gid: string, g: GraphView, tasks: TaskMap, n: string, order: seq<string>,
                                       actor: string)
    requires !StartsHere(gid, g, tasks, n) && !CompletesHere(gid, g, tasks, n)
    ensures forall e :: e in StartRepairs(gid, g, tasks, order, actor) ==> !AboutNode(e.body, n)
    ensures forall e :: e in CompletionRepairs(gid, g, tasks, order, actor) ==> !AboutNode(e.body, n)
  {
    if order != [] { NotRepaired(gid, g, tasks, n, order[..|order| - 1], actor); }
  }

  lemma FailedLeftAlone(gid: string, g: GraphView, tasks: TaskMap, n: string)
    requires n in g.nodes && g.nodes[n].status == Running && NodeTask(gid, n) in tasks
      && tasks[NodeTask(gid, n)].status.TaskFailed?
    ensures n in Reconciled(gid, g, tasks).nodes && Reconciled(gid, g, tasks).nodes[n] == g.nodes[n]
  {
    ReconciledNode(gid, g, tasks, n);
  }

  lemma FailPlanned(m: string, j: seq<Event>, gid: string, n: string, actor: string, error: string)
    requires Readable(j) && Healthy(j, gid) && m != "" && actor != ""
    requires n in GraphFold(j, gid).value.nodes && GraphFold(j, gid).value.nodes[n].status == Running
    ensures var t := NodeTask(gid, n);
      && t in TaskFold(j).value.tasks
      && FailPlan(m, j, gid, n, actor, error) == Plan(
           [Update(actor, t, TaskFold(j).value.tasks[t].revision + 1, ReleaseChanges(TaskFailed)),
            GraphEntry(actor, NodeFailed(gid, n, error))], None)
  {
    hide Readable;
    hide TaskFold;
    hide GraphFold;
    hide UpdateTaskPlan;
    hide DepsSound;
    var v, t := TaskFold(j).value, NodeTask(gid, n);
    assert NodeLinked(gid, GraphFold(j, gid).value, v.tasks, n);
    UpdatePlanned(j, gid, actor, t, ReleaseChanges(TaskFailed));
    FailPut(m, j, gid, n, error, actor);
  }

  lemma StartedGraphReconciles(gid: string, g: GraphView, tasks: TaskMap, n: string)
    requires StartsHere(gid, g, tasks, n) && n in Elements(g.order)
    ensures Reconciled(gid, g.(nodes := g.nodes[n := StartedNode(g.nodes[n], tasks[NodeTask(gid, n)])]), tasks)
         == Reconciled(gid, g, tasks)
  {
    hide Recompleted;
    var g' := g.(nodes := g.nodes[n := StartedNode(g.nodes[n], tasks[NodeTask(gid, n)])]);
    assert Restarted(gid, g', tasks, g.order).nodes == Restarted(gid, g, tasks, g.order).nodes;
  }

  lemma CompletedGraphReconciles(gid: string, g: GraphView, tasks: TaskMap, n: string)
    requires CompletesHere(gid, g, tasks, n) && n in Elements(g.order)
    ensures Reconciled(gid, g.(nodes := g.nodes[n := CompletedNode(g.nodes[n])]), tasks) == Reconciled(gid, g, tasks)
  {
    hide Restarted;
    hide Recompleted;
    var g' := g.(nodes := g.nodes[n := CompletedNode(g.nodes[n])]);
    var a, b := Restarted(gid, g', tasks, g.order), Restarted(gid, g, tasks, g.order);
    assert n in g.order;
    SameRestarts(gid, g, g', tasks, n);
    SameRecompletions(gid, a, b, tasks, g.order, n);
  }

  /** A completed node is not started again, whether or not its completion was written. */
  lemma SameRestarts(gid: string, g: GraphView, g': GraphView, tasks: TaskMap, n: string)
    requires CompletesHere(gid, g, tasks, n) && g' == g.(nodes := g.nodes[n := CompletedNode(g.nodes[n])])
    ensures var a, b := Restarted(gid, g', tasks, g.order), Restarted(gid, g, tasks, g.order);
      a == b.(nodes := b.nodes[n := g'.nodes[n]]) && b.nodes.Keys == g.nodes.Keys && b.nodes[n] == g.nodes[n]
  {
    var a, b := Restarted(gid, g', tasks, g.order), Restarted(gid, g, tasks, g.order);
    forall k | k in g.nodes ensures a.nodes[k] == b.nodes[n := g'.nodes[n]][k] {
    }
    assert a.nodes == b.nodes[n := g'.nodes[n]];
  }

  lemma SameRecompletions(gid: string, a: GraphView, b: GraphView, tasks: TaskMap, order: seq<string>, n: string)
    requires n in order && CompletesHere(gid, b, tasks, n)
    requires a == b.(nodes := b.nodes[n := CompletedNode(b.nodes[n])])
    ensures Recompleted(gid, a, tasks, order) == Recompleted(gid, b, tasks, order)
  {
    forall k | k in b.nodes
      ensures Recompleted(gid, a, tasks, order).nodes[k] == Recompleted(gid, b, tasks, order).nodes[k] {
    }
    assert Recompleted(gid, a, tasks, order).nodes == Recompleted(gid, b, tasks, order).nodes;
  }

  /** What a journal reads as after a complete `reconcile`. */
  ghost predicate Converge(m: string, a: seq<Event>, b: seq<Event>, gid: string, repairer: string, later: real) {
    && Readable(a) && Readable(b)
    && var a' := Extend(a, m, later, ReconcilePlan(m, a, gid, repairer).entries);
       var b' := Extend(b, m, later, ReconcilePlan(m, b, gid, repairer).entries);
       TaskFold(a') == TaskFold(b') && GraphFold(a', gid) == GraphFold(b', gid) && GraphFold(a', gid).Success?
  }

  lemma ConvergeBy(m: string, a: seq<Event>, b: seq<Event>, gid: string, repairer: string, later: real)
    requires Good(a, gid, m) && Good(b, gid, m) && Healthy(a, gid) && Healthy(b, gid) && m != "" && repairer != ""
    requires Readable(a) && Readable(b)
    requires TaskFold(a) == TaskFold(b)
    requires Reconcilable(gid, GraphFold(a, gid).value, TaskFold(a).value.tasks)
    requires Reconcilable(gid, GraphFold(b, gid).value, TaskFold(b).value.tasks)
    requires Reconciled(gid, GraphFold(a, gid).value, TaskFold(a).value.tasks)
          == Reconciled(gid, GraphFold(b, gid).value, TaskFold(b).value.tasks)
    ensures Converge(m, a, b, gid, repairer, later)
  {
    hide Good;
    hide Readable;
    hide TaskFold;
    hide GraphFold;
    hide Linked;
    hide DepsSound;
    hide ReconcilePlan;
    hide Reconciled;
    hide Reconcilable;
    hide Lawful;
    ReconcileLawful(m, a, gid, repairer, later);
    ReconcileLawful(m, b, gid, repairer, later);
  }

  /** In any state of a run, settled or not: a lease crashed before the node's start and the whole
      `lease_node` read the same after `reconcile`. */
  lemma LeaseCrashConverges(m: string, j: seq<Event>, gid: string, n: string, worker: string, ttl: int, lease: string,
                            actor: string, now: real, repairer: string, later: real)
    requires Good(j, gid, m) && Readable(j) && Healthy(j, gid) && m != "" && actor != "" && repairer != ""
    requires ttl > 0 && worker != "" && lease != ""
    requires Ready(gid, GraphFold(j, gid).value, TaskFold(j).value.tasks, n)
    ensures var entries := LeasePlan(m, j, gid, n, worker, ttl, lease, actor, now).entries;
      && |entries| == 2
      && Converge(m, Extend(j, m, now, entries[..1]), Extend(j, m, now, entries), gid, repairer, later)
  {
    hide Good;
    hide Readable;
    hide TaskFold;
    hide GraphFold;
    hide Linked;
    hide DepsSound;
    hide LeasePlan;
    hide Converge;
    hide Reconciled;
    hide LawfulEntry;
    var g, v := GraphFold(j, gid).value, TaskFold(j).value;
    var until := now + ttl as real;
    var u, s := LeaseUpdate(actor, gid, n, v.tasks, worker, lease, until), StartEntry(actor, gid, n, worker, lease);
    LeasePlanned(m, j, gid, n, worker, ttl, lease, actor, now);
    assert [u, s][..1] == [u] && [u, s] == [u] + [s];
    var crashed := Extend(j, m, now, [u]);
    LeasedOnce(m, j, gid, n, worker, lease, actor, now, until);
    var tasks' := TaskFold(crashed).value.tasks;
    var t := tasks'[NodeTask(gid, n)];
    var f := NodeStarted(gid, n, worker, lease);
    OwnGraphEntry(crashed, gid, actor, f);
    LawfulStep(crashed, gid, m, now, s);
    ExtendSnoc(j, m, now, [u], s);
    StartApplied(gid, g, TaskFold(crashed).value, n, t, f, actor);
    var full := Extend(j, m, now, [u, s]);
    GoodUnfold(full, gid, m);
    OrderDistinct(gid, g, v.tasks);
    StartedGraphReconciles(gid, g, tasks', n);
    ConvergeBy(m, crashed, full, gid, repairer, later);
  }

  /** Likewise for a completion crashed before the node's own event. */
  lemma CompletionCrashConverges(m: string, j: seq<Event>, gid: string, n: string, r: Receipt, actor: string, now: real,
                                 repairer: string, later: real)
    requires Good(j, gid, m) && Readable(j) && Healthy(j, gid) && m != "" && actor != "" && repairer != ""
    requires Completable(gid, GraphFold(j, gid).value, TaskFold(j).value.tasks, n, r)
    requires Reconcilable(gid, GraphFold(j, gid).value, TaskFold(j).value.tasks)
    ensures var entries := CompletePlan(m, j, gid, n, r, actor).entries;
      && |entries| == (if GraphFold(j, gid).value.nodes[n].pending.None? then 3 else 2)
      && Converge(m, Extend(j, m, now, entries[..|entries| - 1]), Extend(j, m, now, entries), gid, repairer, later)
  {
    hide Good;
    hide Readable;
    hide TaskFold;
    hide GraphFold;
    hide Linked;
    hide DepsSound;
    hide CompletePlan;
    hide Converge;
    hide Reconciled;
    hide Reconcilable;
    var g, v := GraphFold(j, gid).value, TaskFold(j).value;
    CompletionStates(m, j, gid, n, r, actor, now);
    var entries := CompletePlan(m, j, gid, n, r, actor).entries;
    var crashed, full := Extend(j, m, now, entries[..|entries| - 1]), Extend(j, m, now, entries);
    var g' := GraphFold(crashed, gid).value;
    OrderDistinct(gid, g, v.tasks);
    assert n in g.nodes.Keys;
    CompletedGraphReconciles(gid, g', TaskFold(crashed).value.tasks, n);
    StillReconcilable(gid, g, v.tasks, g', TaskFold(crashed).value.tasks, n);
    ConvergeBy(m, crashed, full, gid, repairer, later);
  }

  /** And for one crashed before the task's event: `reconcile` and then a retry with the receipt
      lead where the whole `complete_node` and then `reconcile` lead. */
  lemma ReceiptCrashConverges(m: string, j: seq<Event>, gid: string, n: string, r: Receipt, actor: string, now: real,
                              repairer: string, later: real, retrier: string, last: real)
    requires Good(j, gid, m) && Readable(j) && Healthy(j, gid) && m != "" && actor != "" && repairer != ""
      && retrier != ""
    requires Completable(gid, GraphFold(j, gid).value, TaskFold(j).value.tasks, n, r)
    requires Reconcilable(gid, GraphFold(j, gid).value, TaskFold(j).value.tasks)
    ensures var entries := CompletePlan(m, j, gid, n, r, actor).entries;
      && |entries| >= 2
      && var crashed, full := Extend(j, m, now, entries[..|entries| - 2]), Extend(j, m, now, entries);
         && Readable(crashed) && Readable(full)
         && var repaired := Extend(crashed, m, later, ReconcilePlan(m, crashed, gid, repairer).entries);
            var after := Extend(full, m, later, ReconcilePlan(m, full, gid, repairer).entries);
            && Readable(repaired)
            && var retried := Extend(repaired, m, last, CompletePlan(m, repaired, gid, n, r, retrier).entries);
               && TaskFold(retried) == TaskFold(after) && TaskFold(after).Success?
               && GraphFold(retried, gid) == GraphFold(after, gid) && GraphFold(after, gid).Success?
  {
    hide Good;
    hide Readable;
    hide TaskFold;
    hide GraphFold;
    hide Linked;
    hide DepsSound;
    hide CompletePlan;
    hide ReconcilePlan;
    hide Reconciled;
    hide Reconcilable;
    hide Lawful;
    hide Change;
    var g, v := GraphFold(j, gid).value, TaskFold(j).value;
    CompleteInFull(m, j, gid, n, r, actor);
    ReceiptRecorded(m, j, gid, n, r, actor, now);
    CompletionStates(m, j, gid, n, r, actor, now);
    var entries, first := CompletePlan(m, j, gid, n, r, actor).entries, Recording(gid, g, n, r, actor);
    var crashed, full := Extend(j, m, now, first), Extend(j, m, now, entries);
    var g1, w := GraphFold(crashed, gid).value, TaskFold(full).value;
    RepairedState(m, crashed, gid, repairer, later);
    var repaired := Extend(crashed, m, later, ReconcilePlan(m, crashed, gid, repairer).entries);
    StillReconcilable(gid, g, v.tasks, g1, v.tasks, n);
    RepairedState(m, crashed, gid, repairer, later);
    LeftAlone(gid, g1, v.tasks, n);
    CompletionStates(m, repaired, gid, n, r, retrier, last);
    StillReconcilable(gid, g, v.tasks, g1, w.tasks, n);
    RepairedState(m, full, gid, repairer, later);
    CompletedApart(gid, g1, v.tasks, w.tasks, n);
    ReceivedAgain(GraphFold(repaired, gid).value, n, g.nodes[n], r);
  }

  /** The journal after a `reconcile` that is due. */
  lemma RepairedState(m: string, j: seq<Event>, gid: string, repairer: string, later: real)
    requires Good(j, gid, m) && Readable(j) && Healthy(j, gid) && m != "" && repairer != ""
    ensures var g, v := GraphFold(j, gid).value, TaskFold(j).value;
      var repaired := Extend(j, m, later, ReconcilePlan(m, j, gid, repairer).entries);
      Reconcilable(gid, g, v.tasks) ==>
        && Good(repaired, gid, m) && Readable(repaired) && Healthy(repaired, gid)
        && TaskFold(repaired) == Success(v) && GraphFold(repaired, gid) == Success(Reconciled(gid, g, v.tasks))
  {
    hide Good;
    hide Readable;
    hide TaskFold;
    hide GraphFold;
    hide Linked;
    hide DepsSound;
    hide ReconcilePlan;
    hide Reconciled;
    hide Reconcilable;
    hide Lawful;
    var g, v := GraphFold(j, gid).value, TaskFold(j).value;
    if Reconcilable(gid, g, v.tasks) {
      var entries := ReconcilePlan(m, j, gid, repairer).entries;
      ReconcileLawful(m, j, gid, repairer, later);
      LawfulKeeps(j, gid, m, later, entries, |entries|);
      assert entries[..|entries|] == entries;
      GoodUnfold(Extend(j, m, later, entries), gid, m);
    }
  }

  /** What `reconcile` makes of one node. */
  lemma ReconciledNode(gid: string, g: GraphView, tasks: TaskMap, k: string)
    requires k in g.nodes
    ensures Reconciled(gid, g, tasks).nodes.Keys == g.nodes.Keys
    ensures Reconciled(gid, g, tasks).nodes[k] ==
      if k in g.order && StartsHere(gid, g, tasks, k) then StartedNode(g.nodes[k], tasks[NodeTask(gid, k)])
      else if k in g.order && CompletesHere(gid, g, tasks, k) then CompletedNode(g.nodes[k])
      else g.nodes[k]
  {
    assert Restarted(gid, g, tasks, g.order).nodes.Keys == g.nodes.Keys;
    assert Reconciled(gid, g, tasks).nodes.Keys == g.nodes.Keys;
  }

  /** A node that runs under a live lease is none of the repairs. */
  lemma LeftAlone(gid: string, g: GraphView, tasks: TaskMap, n: string)
    requires n in g.nodes && g.nodes[n].status == Running && NodeTask(gid, n) in tasks
      && Leased(tasks[NodeTask(gid, n)])
    ensures n in Reconciled(gid, g, tasks).nodes && Reconciled(gid, g, tasks).nodes[n] == g.nodes[n]
  {
    ReconciledNode(gid, g, tasks, n);
  }

  /** Completing such a node before the repairs or after them is the same. */
  lemma CompletedApart(gid: string, g: GraphView, tasks: TaskMap, tasks': TaskMap, n: string)
    requires n in g.nodes && g.nodes[n].status == Running && NodeTask(gid, n) in tasks
      && Leased(tasks[NodeTask(gid, n)])
    requires NodeTask(gid, n) in tasks' && tasks' == tasks[NodeTask(gid, n) := tasks'[NodeTask(gid, n)]]
    ensures var a, b := Reconciled(gid, g, tasks), Reconciled(gid, g.(nodes := g.nodes[n := CompletedNode(g.nodes[n])]),
      tasks');
      n in a.nodes && b == a.(nodes := a.nodes[n := CompletedNode(g.nodes[n])])
  {
    hide Reconciled;
    var done := g.(nodes := g.nodes[n := CompletedNode(g.nodes[n])]);
    var a, b := Reconciled(gid, g, tasks), Reconciled(gid, done, tasks');
    ReconciledNode(gid, g, tasks, n);
    ReconciledNode(gid, done, tasks', n);
    forall k | k in g.nodes ensures b.nodes[k] == a.nodes[n := CompletedNode(g.nodes[n])][k] {
      ReconciledNode(gid, g, tasks, k);
      ReconciledNode(gid, done, tasks', k);
    }
    assert b.nodes == a.nodes[n := CompletedNode(g.nodes[n])];
    ReconciledShape(gid, g, tasks);
    ReconciledShape(gid, done, tasks');
  }

  lemma ReconciledShape(gid: string, g: GraphView, tasks: TaskMap)
    ensures Reconciled(gid, g, tasks) == g.(nodes := Reconciled(gid, g, tasks).nodes)
  {
  }

  lemma ReceivedAgain(g: GraphView, n: string, node: NodeState, r: Receipt)
    requires n in g.nodes && g.nodes[n] == Received(node, r)
    ensures Received(g.nodes[n], r) == g.nodes[n] && g.(nodes := g.nodes[n := Received(g.nodes[n], r)]) == g
  {
    assert g.nodes[n := Received(g.nodes[n], r)] == g.nodes;
  }

  lemma StillReconcilable(gid: string, g: GraphView, tasks: TaskMap, g': GraphView, tasks': TaskMap, n: string)
    requires Reconcilable(gid, g, tasks) && n in g.nodes && g.nodes[n].status == Running && n in g'.nodes
      && g'.nodes[n].status == Running
    requires g'.status == g.status && (forall k :: k in g'.nodes && k != n ==>
      k in g.nodes && g'.nodes[k] == g.nodes[k])
    requires forall k :: k != n && NodeTask(gid, k) in tasks' ==>
      NodeTask(gid, k) in tasks && tasks'[NodeTask(gid, k)] == tasks[NodeTask(gid, k)]
    ensures Reconcilable(gid, g', tasks')
    ensures Reconcilable(gid, g'.(nodes := g'.nodes[n := CompletedNode(g'.nodes[n])]), tasks')
  {
    if g.status != Running {
      var done := g'.(nodes := g'.nodes[n := CompletedNode(g'.nodes[n])]);
      forall k ensures !StartsHere(gid, g', tasks', k) && !StartsHere(gid, done, tasks', k) {
        assert !StartsHere(gid, g, tasks, k);
      }
    }
  }
}
