/** Every operation of the graph engine, cut short anywhere, follows the rules of the graph. */
module GraphSafety {
  import opened Base
  import opened Ordering
  import opened Digraph
  import opened Journal
  import opened Tasks
  import opened Records
  import opened GraphLog
  import opened PoolLog
  import opened LoopLog
  import opened Store
  import opened Projection
  import opened GraphRules
  import opened GraphHistory
  import opened Runtime
  import opened GraphPlans

  /** The tables are consistent and the journal follows the rules of the graph. */
  ghost predicate Good(j: seq<Event>, gid: string, m: string) {
    Sound(j, m) && Generated(j, gid)
  }

  /** An event of the graph or its tasks, allowed now and stored under its key. */
  ghost predicate LawfulEntry(j: seq<Event>, gid: string, e: Entry) {
    && Own(gid, e.body) && EnabledAt(j, gid, e.body)
    && (e.body.Task? ==> e.key == TaskKeyOf(e.body.taskFact))
    && (e.body.Graph? ==> e.key == GraphKeyOf(e.body.graphFact))
  }

  ghost predicate Lawful(j: seq<Event>, gid: string, m: string, now: real, entries: seq<Entry>) {
    forall k :: 0 <= k < |entries| ==> LawfulEntry(Extend(j, m, now, entries[..k]), gid, entries[k])
  }

  lemma GoodUnfold(j: seq<Event>, gid: string, m: string)
    requires Good(j, gid, m)
    ensures Sound(j, m) && Readable(j) && Healthy(j, gid)
  {
    hide Readable;
    GeneratedHealthy(j, gid);
    SoundReadable(j, m);
  }

  /** What the rules allow, the journal accepts: the key is unused and both replays go on. */
  lemma LawfulAccepted(j: seq<Event>, gid: string, m: string, e: Entry)
    requires Good(j, gid, m) && LawfulEntry(j, gid, e)
    ensures Acceptable(j, e)
  {
    hide Sound;
    hide Acceptable;
    GoodUnfold(j, gid, m);
    if e.body.Task? {
      TaskEntryAccepted(j, gid, e);
    } else {
      GraphEntryAccepted(j, gid, e);
    }
  }

  lemma TaskEntryAccepted(j: seq<Event>, gid: string, e: Entry)
    requires Readable(j) && Healthy(j, gid) && LawfulEntry(j, gid, e) && e.body.Task?
    ensures Acceptable(j, e)
  {
    hide RecordFold;
    hide RecordKeyed;
    hide GraphFold;
    hide GraphKeyed;
    hide TaskFold;
    hide DepsSound;
    hide Linked;
    hide Acceptable;
    var f, v := e.body.taskFact, TaskFold(j).value;
    EnabledApplies(gid, GraphFold(j, gid).value, v, e.body);
    if f.TaskCreated? {
      CreationAcceptable(j, e, f.task, f.subject, f.blockedBy);
    } else {
      UpdateAcceptable(j, e, f.task, f.changes);
    }
  }

  lemma GraphEntryAccepted(j: seq<Event>, gid: string, e: Entry)
    requires Readable(j) && Healthy(j, gid) && LawfulEntry(j, gid, e) && e.body.Graph?
    ensures Acceptable(j, e)
  {
    hide RecordFold;
    hide RecordKeyed;
    hide TaskFold;
    hide TaskKeyed;
    hide GraphFold;
    hide DepsSound;
    var f, g := e.body.graphFact, GraphFold(j, gid).value;
    assert Own(gid, e.body) && Concerns(e.body, gid);
    FactNotTraced(gid, g, TaskFold(j).value.tasks, f);
    UnusedGraphKey(j, gid, e.key.graphKey);
  }

  lemma FactNotTraced(gid: string, g: GraphView, tasks: TaskMap, f: GraphFact)
    requires FactEnabled(gid, g, tasks, f) && f.graph == gid
    ensures GraphKeyOf(f).OfGraph? && GraphKeyOf(f).graphKey.graph == gid && !GraphTraced(g, GraphKeyOf(f).graphKey)
  {
  }

  /** One lawful entry: the state it leads to. */
  lemma LawfulStep(j: seq<Event>, gid: string, m: string, now: real, e: Entry)
    requires Good(j, gid, m) && LawfulEntry(j, gid, e)
    ensures var j' := j + [Stamp(m, |j| + 1, now, e)];
      && Good(j', gid, m) && Healthy(j', gid)
      && TaskFold(j') == TaskStep(TaskFold(j).value, e.body)
      && GraphFold(j', gid) == GraphStep(gid, GraphFold(j, gid).value, e.body)
  {
    hide Sound;
    hide Acceptable;
    hide Enabled;
    hide TaskStep;
    hide GraphStep;
    hide Healthy;
    var event := Stamp(m, |j| + 1, now, e);
    LawfulAccepted(j, gid, m, e);
    EntryKeeps(j, m, now, e);
    GeneratedSnoc(j, gid, event);
    GeneratedHealthy(j + [event], gid);
    TaskFoldAppend(j, event);
    GraphFoldAppend(j, gid, event);
  }

  /** A lawful list, cut short anywhere, leaves a good journal. */
  lemma {:induction false} LawfulKeeps(j: seq<Event>, gid: string, m: string, now: real, entries: seq<Entry>, k: nat)
    requires Good(j, gid, m) && Lawful(j, gid, m, now, entries) && k <= |entries|
    ensures Good(Extend(j, m, now, entries[..k]), gid, m)
  {
    hide Good;
    hide LawfulEntry;
    if k == 0 {
      ExtendNone(j, m, now);
      assert entries[..0] == [];
    } else {
      LawfulKeeps(j, gid, m, now, entries, k - 1);
      PrefixSnoc(j, m, now, entries, k);
      LawfulStep(Extend(j, m, now, entries[..k - 1]), gid, m, now, entries[k - 1]);
    }
  }

  lemma LawfulNone(j: seq<Event>, gid: string, m: string, now: real)
    ensures Lawful(j, gid, m, now, [])
  {
  }

  lemma LawfulSnoc(j: seq<Event>, gid: string, m: string, now: real, entries: seq<Entry>, e: Entry)
    requires Lawful(j, gid, m, now, entries) && LawfulEntry(Extend(j, m, now, entries), gid, e)
    ensures Lawful(j, gid, m, now, entries + [e])
  {
    hide LawfulEntry;
    var all := entries + [e];
    forall k | 0 <= k < |all| ensures LawfulEntry(Extend(j, m, now, all[..k]), gid, all[k]) {
      assert all[..k] == if k < |entries| then entries[..k] else entries;
    }
  }

  lemma LawfulOne(j: seq<Event>, gid: string, m: string, now: real, e: Entry)
    requires LawfulEntry(j, gid, e)
    ensures Lawful(j, gid, m, now, [e])
  {
    hide LawfulEntry;
    ExtendNone(j, m, now);
    LawfulSnoc(j, gid, m, now, [], e);
    assert [] + [e] == [e];
  }

  lemma LawfulTwo(j: seq<Event>, gid: string, m: string, now: real, a: Entry, b: Entry)
    requires LawfulEntry(j, gid, a) && LawfulEntry(j + [Stamp(m, |j| + 1, now, a)], gid, b)
    ensures Lawful(j, gid, m, now, [a, b])
  {
    hide LawfulEntry;
    LawfulOne(j, gid, m, now, a);
    ExtendOne(j, m, now, a);
    LawfulSnoc(j, gid, m, now, [a], b);
    assert [a] + [b] == [a, b];
  }

  /** Lists that are lawful one after the other are lawful together. */
  lemma {:induction false} LawfulAppend(j: seq<Event>, gid: string, m: string, now: real, a: seq<Entry>, b: seq<Entry>)
    requires Lawful(j, gid, m, now, a) && Lawful(Extend(j, m, now, a), gid, m, now, b)
    ensures Lawful(j, gid, m, now, a + b)
  {
    hide LawfulEntry;
    var all := a + b;
    forall k | 0 <= k < |all| ensures LawfulEntry(Extend(j, m, now, all[..k]), gid, all[k]) {
      if k < |a| {
        assert all[..k] == a[..k];
      } else {
        var i := k - |a|;
        assert all[..k] == a + b[..i];
        ExtendAppend(j, m, now, a, b[..i]);
        assert LawfulEntry(Extend(Extend(j, m, now, a), m, now, b[..i]), gid, b[i]);
      }
    }
  }

  /** `DepsDone` is "every dependency is completed", and misses no task the invariant promises. */
  lemma {:induction false} DepsDoneMeaning(gid: string, tasks: TaskMap, deps: seq<string>)
    ensures DepsDone(gid, tasks, deps) == Success(true) <==> DepsCompleted(gid, tasks, deps)
    ensures (forall i :: 0 <= i < |deps| ==> NodeTask(gid, deps[i]) in tasks) ==> DepsDone(gid, tasks, deps).Success?
  {
    if deps != [] {
      DepsDoneMeaning(gid, tasks, deps[1..]);
      assert forall i :: 0 < i < |deps| ==> deps[i] == deps[1..][i - 1];
      if DepsCompleted(gid, tasks, deps[1..]) && NodeTask(gid, deps[0]) in tasks
        && tasks[NodeTask(gid, deps[0])].status.TaskCompleted? {
        forall i | 0 <= i < |deps|
          ensures NodeTask(gid, deps[i]) in tasks && tasks[NodeTask(gid, deps[i])].status.TaskCompleted? {
          if i > 0 { assert deps[1..][i - 1] == deps[i]; }
        }
      }
    }
  }

  /** A node that may be leased. */
  ghost predicate Ready(gid: string, g: GraphView, tasks: TaskMap, n: string) {
    && g.status == Running && n in g.nodes && g.nodes[n].status == Pending
    && NodeTask(gid, n) in tasks && Waiting(tasks[NodeTask(gid, n)])
    && DepsCompleted(gid, tasks, g.nodes[n].blockedBy)
  }

  /** Under the invariant `ready_nodes` misses no task and lists exactly the ready nodes, sorted. */
  lemma ReadyNodesExact(gid: string, g: GraphView, tasks: TaskMap)
    requires Linked(gid, g, tasks)
    ensures ReadyNodes(gid, g, tasks).Success?
    ensures Ascending(ReadyNodes(gid, g, tasks).value)
    ensures forall n :: n in ReadyNodes(gid, g, tasks).value <==> Ready(gid, g, tasks, n)
  {
    if g.status == Running {
      ReadyAmongExact(gid, g, tasks, g.order);
      var ready := ReadyAmong(gid, g, tasks, g.order).value;
      SortDistinct(ready);
      forall n ensures n in Sort(ready) <==> Ready(gid, g, tasks, n) {
        assert n in Elements(Sort(ready)) <==> n in Elements(ready);
        assert n in g.nodes ==> n in Elements(g.order);
      }
    }
  }

  lemma {:induction false} ReadyAmongExact(gid: string, g: GraphView, tasks: TaskMap, order: seq<string>)
    requires Linked(gid, g, tasks) && g.status == Running && Distinct(order)
    ensures ReadyAmong(gid, g, tasks, order).Success?
    ensures Distinct(ReadyAmong(gid, g, tasks, order).value)
    ensures forall n :: n in ReadyAmong(gid, g, tasks, order).value <==> n in order && Ready(gid, g, tasks, n)
  {
    hide Ready;
    hide NodeReady;
    hide Linked;
    if order != [] {
      var k := |order| - 1;
      ReadyAmongExact(gid, g, tasks, order[..k]);
      NodeReadyExact(gid, g, tasks, order[k]);
      assert forall n :: n in order <==> n in order[..k] || n == order[k];
    }
  }

  lemma NodeReadyExact(gid: string, g: GraphView, tasks: TaskMap, n: string)
    requires Linked(gid, g, tasks) && g.status == Running
    ensures NodeReady(gid, g, tasks, n).Success? && (NodeReady(gid, g, tasks, n).value <==> Ready(gid, g, tasks, n))
  {
    assert NodeLinked(gid, g, tasks, n);
    if n in g.nodes {
      var deps := g.nodes[n].blockedBy;
      DepsDoneMeaning(gid, tasks, deps);
      forall i | 0 <= i < |deps| ensures NodeTask(gid, deps[i]) in tasks {
        assert DependsOn(NodeDeps(g.nodes), n, deps[i]);
        assert NodeLinked(gid, g, tasks, deps[i]);
      }
    }
  }

  lemma OwnTaskEntry(j: seq<Event>, gid: string, actor: string, n: string, revision: int, c: Changes)
    requires Healthy(j, gid) && UpdateEnabled(gid, GraphFold(j, gid).value, TaskFold(j).value.tasks, n, revision, c)
    ensures LawfulEntry(j, gid, Update(actor, NodeTask(gid, n), revision, c))
  {
  }

  lemma OwnGraphEntry(j: seq<Event>, gid: string, actor: string, f: GraphFact)
    requires Healthy(j, gid) && f.graph == gid && FactEnabled(gid, GraphFold(j, gid).value, TaskFold(j).value.tasks, f)
    ensures LawfulEntry(j, gid, GraphEntry(actor, f))
  {
  }

  /** The update of a node's own task is never refused: the dependencies stay as they are. */
  lemma UpdatePlanned(j: seq<Event>, gid: string, actor: string, t: TaskId, c: Changes)
    requires Healthy(j, gid) && t in TaskFold(j).value.tasks && c.blockedBy.None?
    ensures var v := TaskFold(j).value;
      UpdateTaskPlan(v, actor, t, v.tasks[t].revision, c) == Plan([Update(actor, t, v.tasks[t].revision + 1, c)], None)
  {
    hide TaskFold;
    hide GraphFold;
    hide Linked;
    hide DepsSound;
    var v := TaskFold(j).value;
    SameDeps(v.tasks, v.tasks[t := Change(v.tasks[t], v.tasks[t].revision + 1, c)]);
  }

  function LeaseUpdate(actor: string, gid: string, n: string, tasks: TaskMap, worker: string, lease: string,
                       until: real): Entry
    requires NodeTask(gid, n) in tasks
  {
    Update(actor, NodeTask(gid, n), tasks[NodeTask(gid, n)].revision + 1, LeaseChanges(worker, lease, until))
  }

  function StartEntry(actor: string, gid: string, n: string, worker: string, lease: string): Entry {
    GraphEntry(actor, NodeStarted(gid, n, worker, lease))
  }

  /** `lease_node` writes exactly when the node is ready: the lease and then the node's start. */
  lemma LeasePlanned(m: string, j: seq<Event>, gid: string, n: string, worker: string, ttl: int,
                     lease: string, actor: string, now: real)
    requires Readable(j) && Healthy(j, gid)
    ensures var g, tasks := GraphFold(j, gid).value, TaskFold(j).value.tasks;
      var plan := LeasePlan(m, j, gid, n, worker, ttl, lease, actor, now);
      if !Ready(gid, g, tasks, n) then plan == Plan([], Some(Conflict))
      else if ttl <= 0 then plan == Plan([], Some(ValueFault))
      else
        var u := LeaseUpdate(actor, gid, n, tasks, worker, lease, now + ttl as real);
        plan == if m == "" || actor == "" then Plan([u], Some(ValueFault))
                else Plan([u, StartEntry(actor, gid, n, worker, lease)], None)
  {
    hide Readable;
    hide TaskFold;
    hide GraphFold;
    hide Linked;
    hide UpdateTaskPlan;
    hide DepsSound;
    hide ReadyNodes;
    var g, tasks := GraphFold(j, gid).value, TaskFold(j).value.tasks;
    ReadyNodesExact(gid, g, tasks);
    if Ready(gid, g, tasks, n) && ttl > 0 {
      UpdatePlanned(j, gid, actor, NodeTask(gid, n), LeaseChanges(worker, lease, now + ttl as real));
      StartKeyFresh(j, gid, n, worker, lease, actor);
    }
  }

  lemma LeaseEntriesLawful(j: seq<Event>, gid: string, m: string, n: string, worker: string,
                           lease: string, actor: string, now: real, until: real)
    requires Good(j, gid, m) && Healthy(j, gid) && Ready(gid, GraphFold(j, gid).value, TaskFold(j).value.tasks, n)
    ensures var u := LeaseUpdate(actor, gid, n, TaskFold(j).value.tasks, worker, lease, until);
      Lawful(j, gid, m, now, [u]) && Lawful(j, gid, m, now, [u, StartEntry(actor, gid, n, worker, lease)])
  {
    hide Good;
    hide LawfulEntry;
    hide Lawful;
    hide TaskFold;
    hide GraphFold;
    hide Linked;
    hide DepsSound;
    var g, v := GraphFold(j, gid).value, TaskFold(j).value;
    var u := LeaseUpdate(actor, gid, n, v.tasks, worker, lease, until);
    OwnTaskEntry(j, gid, actor, n, v.tasks[NodeTask(gid, n)].revision + 1, LeaseChanges(worker, lease, until));
    LawfulStep(j, gid, m, now, u);
    StartAfterLease(gid, g, v, n, worker, lease, until, u);
    OwnGraphEntry(j + [Stamp(m, |j| + 1, now, u)], gid, actor, NodeStarted(gid, n, worker, lease));
    LawfulOne(j, gid, m, now, u);
    LawfulTwo(j, gid, m, now, u, StartEntry(actor, gid, n, worker, lease));
  }

  /** `lease_node` follows the rules. */
  lemma LeaseLawful(m: string, j: seq<Event>, gid: string, n: string, worker: string, ttl: int,
                    lease: string, actor: string, now: real)
    requires Good(j, gid, m)
    ensures Readable(j) && Lawful(j, gid, m, now, LeasePlan(m, j, gid, n, worker, ttl, lease, actor, now).entries)
  {
    hide Good;
    hide Readable;
    hide Lawful;
    hide LeasePlan;
    hide Ready;
    hide TaskFold;
    hide GraphFold;
    GoodUnfold(j, gid, m);
    LeasePlanned(m, j, gid, n, worker, ttl, lease, actor, now);
    LawfulNone(j, gid, m, now);
    if Ready(gid, GraphFold(j, gid).value, TaskFold(j).value.tasks, n) && ttl > 0 {
      LeaseEntriesLawful(j, gid, m, n, worker, lease, actor, now, now + ttl as real);
    }
  }

  lemma StartKeyFresh(j: seq<Event>, gid: string, n: string, worker: string, lease: string, actor: string)
    requires Readable(j) && GraphFold(j, gid).Success?
    requires n in GraphFold(j, gid).value.nodes && GraphFold(j, gid).value.nodes[n].status == Pending
    ensures Unused(j, GraphEntry(actor, NodeStarted(gid, n, worker, lease)).key)
  {
    UnusedGraphKey(j, gid, NodeStartKey(gid, n, lease));
  }

  lemma StartAfterLease(gid: string, g: GraphView, v: TaskView, n: string, worker: string, lease: string, until: real,
                        u: Entry)
    requires Ready(gid, g, v.tasks, n) && u == Update(u.actor, NodeTask(gid, n), v.tasks[NodeTask(gid, n)].revision + 1,
      LeaseChanges(worker, lease, until))
    requires TaskStep(v, u.body).Success?
    ensures GraphStep(gid, g, u.body) == Success(g)
    ensures FactEnabled(gid, g, TaskStep(v, u.body).value.tasks, NodeStarted(gid, n, worker, lease))
  {
  }

  function ReceiptEntry(actor: string, gid: string, n: string, r: Receipt): Entry {
    GraphEntry(actor, NodeReceipt(gid, n, r.claimed, r.material.evidence, r.material.actor))
  }

  function CompletionUpdate(actor: string, gid: string, n: string, tasks: TaskMap): Entry
    requires NodeTask(gid, n) in tasks
  {
    Update(actor, NodeTask(gid, n), tasks[NodeTask(gid, n)].revision + 1, ReleaseChanges(TaskCompleted))
  }

  function CompletionEntry(actor: string, gid: string, n: string, r: Receipt): Entry {
    GraphEntry(actor, NodeCompleted(gid, n, r.claimed, r.material.evidence))
  }

  /** The journal holds the pending receipt of a node as `complete_node` wrote it. */
  lemma {:induction false} PendingStored(j: seq<Event>, gid: string, n: string, d: Digest)
    requires Generated(j, gid) && GraphKeyed(j) && Healthy(j, gid)
    requires n in GraphFold(j, gid).value.nodes && GraphFold(j, gid).value.nodes[n].pending == Some(d)
    ensures Stored(j, OfGraph(NodeReceiptKey(gid, n, d)),
      Graph(NodeReceipt(gid, n, d, d.material.evidence, d.material.actor)))
  {
    var k := |j| - 1;
    var before := j[..k];
    GeneratedPrefix(j, gid, k);
    GeneratedHealthy(before, gid);
    var g := GraphFold(before, gid).value;
    assert EnabledAt(before, gid, j[k].body);
    if n in g.nodes && g.nodes[n].pending == Some(d) {
      PendingStored(before, gid, n, d);
      var i :| 0 <= i < k && before[i].key == OfGraph(NodeReceiptKey(gid, n, d))
               && before[i].body == Graph(NodeReceipt(gid, n, d, d.material.evidence, d.material.actor));
      assert j[i] == before[i];
    } else {
      PendingEvent(gid, g, TaskFold(before).value, j[k], n, d);
      assert GraphKeyFits(j[k].key, j[k].body);
    }
  }

  lemma PendingEvent(gid: string, g: GraphView, v: TaskView, e: Event, n: string, d: Digest)
    requires Linked(gid, g, v.tasks) && Enabled(gid, g, v, e.body) && GraphStep(gid, g, e.body).Success?
    requires var g' := GraphStep(gid, g, e.body).value; n in g'.nodes && g'.nodes[n].pending == Some(d)
    requires !(n in g.nodes && g.nodes[n].pending == Some(d))
    ensures e.body == Graph(NodeReceipt(gid, n, d, d.material.evidence, d.material.actor))
    ensures Passing(d.material, gid, n) && GraphStep(gid, g, e.body).value.nodes[n].owner == Some(d.material.actor)
  {
    if e.body.Graph? && e.body.graphFact.GraphCreated? && Concerns(e.body, gid) {
      FreshGraph(e.body.graphFact.nodes);
    }
  }

  /** What the graph shows of a pending receipt is what the digest was taken of. */
  lemma {:induction false} PendingKnown(j: seq<Event>, gid: string, n: string, d: Digest)
    requires Generated(j, gid) && Healthy(j, gid)
    requires n in GraphFold(j, gid).value.nodes && GraphFold(j, gid).value.nodes[n].pending == Some(d)
    ensures GraphFold(j, gid).value.nodes[n].pendingEvidence == d.material.evidence
    ensures GraphFold(j, gid).value.nodes[n].receiptActor == Some(d.material.actor)
    ensures GraphFold(j, gid).value.nodes[n].owner == Some(d.material.actor) && Passing(d.material, gid, n)
  {
    hide DepsSound;
    var k := |j| - 1;
    var before := j[..k];
    GeneratedPrefix(j, gid, k);
    GeneratedHealthy(before, gid);
    var g := GraphFold(before, gid).value;
    assert EnabledAt(before, gid, j[k].body);
    if n in g.nodes && g.nodes[n].pending == Some(d) {
      PendingKnown(before, gid, n, d);
      PendingKeeps(gid, g, TaskFold(before).value, j[k], n, d);
    } else {
      PendingEvent(gid, g, TaskFold(before).value, j[k], n, d);
    }
  }

  lemma PendingKeeps(gid: string, g: GraphView, v: TaskView, e: Event, n: string, d: Digest)
    requires Linked(gid, g, v.tasks) && Enabled(gid, g, v, e.body) && GraphStep(gid, g, e.body).Success?
    requires n in g.nodes && g.nodes[n].pending == Some(d) && n in GraphStep(gid, g, e.body).value.nodes
    ensures var node := GraphStep(gid, g, e.body).value.nodes[n];
      && node.pendingEvidence == g.nodes[n].pendingEvidence && node.receiptActor == g.nodes[n].receiptActor
      && node.owner == g.nodes[n].owner
  {
    assert NodeLinked(gid, g, v.tasks, n);
  }

  /** `complete_node` gets past its checks. */
  predicate Completing(gid: string, g: GraphView, n: string, r: Receipt) {
    && ValidReceipt(r, gid, n) && n in g.nodes && g.nodes[n].status == Running
    && g.nodes[n].owner == Some(r.material.actor)
  }

  /** What `complete_node` writes for a receipt that does not clash with the one recorded: the
      receipt if it is new, the completion of the task unless it happened, and the node's. */
  lemma CompletePlanned(m: string, j: seq<Event>, gid: string, n: string, r: Receipt, actor: string)
    requires Good(j, gid, m) && Readable(j) && Healthy(j, gid)
    requires n in GraphFold(j, gid).value.nodes ==> ReceiptClash(GraphFold(j, gid).value.nodes[n], r).None?
    ensures var g, tasks := GraphFold(j, gid).value, TaskFold(j).value.tasks;
      var plan := CompletePlan(m, j, gid, n, r, actor);
      if !Completing(gid, g, n, r) then plan.entries == []
      else if m == "" || actor == "" then plan == Plan([], Some(ValueFault))
      else
        var t := NodeTask(gid, n);
        var recorded := if g.nodes[n].pending.None? then [ReceiptEntry(actor, gid, n, r)] else [];
        && t in tasks
        && (tasks[t].status.TaskCompleted? ==> plan == Plan(recorded + [CompletionEntry(actor, gid, n, r)], None))
        && (Leased(tasks[t]) ==>
              plan == Plan(recorded + [CompletionUpdate(actor, gid, n, tasks), CompletionEntry(actor, gid, n, r)],
                None))
        && (!tasks[t].status.TaskCompleted? && !Leased(tasks[t]) ==> plan == Plan(recorded, Some(GraphTransitionFault)))
  {
    hide Sound;
    hide TaskFold;
    hide GraphFold;
    hide UpdateTaskPlan;
    hide DepsSound;
    hide RecordKeyed;
    hide RecordFold;
    hide TaskKeyed;
    hide PutPlan;
    hide Generated;
    var g, v := GraphFold(j, gid).value, TaskFold(j).value;
    if Completing(gid, g, n, r) {
      assert NodeLinked(gid, g, v.tasks, n);
      CompletionPuts(m, j, gid, n, r, actor);
      UpdatePlanned(j, gid, actor, NodeTask(gid, n), ReleaseChanges(TaskCompleted));
    }
  }

  lemma CompletionPuts(m: string, j: seq<Event>, gid: string, n: string, r: Receipt, actor: string)
    requires GraphKeyed(j) && Generated(j, gid) && Healthy(j, gid) && Completing(gid, GraphFold(j, gid).value, n, r)
    requires ReceiptClash(GraphFold(j, gid).value.nodes[n], r).None?
    ensures var nameless := m == "" || actor == "";
      && PutPlan(m, j, ReceiptEntry(actor, gid, n, r)) ==
           (if nameless then Plan([], Some(ValueFault))
            else if GraphFold(j, gid).value.nodes[n].pending.None? then Plan([ReceiptEntry(actor, gid, n, r)], None)
            else Plan([], None))
      && PutPlan(m, j, CompletionEntry(actor, gid, n, r)) ==
           (if nameless then Plan([], Some(ValueFault)) else Plan([CompletionEntry(actor, gid, n, r)], None))
  {
    hide Generated;
    hide GraphFold;
    hide TaskFold;
    hide Linked;
    hide DepsSound;
    var node := GraphFold(j, gid).value.nodes[n];
    UnusedGraphKey(j, gid, NodeCompleteKey(gid, n, r.claimed));
    if node.pending.None? {
      UnusedGraphKey(j, gid, NodeReceiptKey(gid, n, r.claimed));
    } else {
      PendingStored(j, gid, n, r.claimed);
    }
  }

  lemma ClashRejected(m: string, j: seq<Event>, gid: string, n: string, r: Receipt, actor: string, now: real)
    requires Readable(j) && Healthy(j, gid) && m != "" && actor != ""
    requires Completing(gid, GraphFold(j, gid).value, n, r) && ReceiptClash(GraphFold(j, gid).value.nodes[n], r).Some?
    ensures GraphFold(Extend(j, m, now, CompletePlan(m, j, gid, n, r, actor).entries), gid).Failure?
  {
    hide TaskFold;
    hide Linked;
    hide DepsSound;
    hide TaskKeyed;
    hide UpdateTaskPlan;
    var e := ReceiptEntry(actor, gid, n, r);
    ReceiptFresh(m, j, gid, n, r, actor);
    hide GraphFold;
    var entries := CompletePlan(m, j, gid, n, r, actor).entries;
    assert entries != [] && entries[0] == e;
    FirstRejected(m, j, gid, n, r, actor, now, entries);
  }

  lemma ReceiptFresh(m: string, j: seq<Event>, gid: string, n: string, r: Receipt, actor: string)
    requires Readable(j) && GraphFold(j, gid).Success? && m != "" && actor != ""
    requires Completing(gid, GraphFold(j, gid).value, n, r) && ReceiptClash(GraphFold(j, gid).value.nodes[n], r).Some?
    ensures PutPlan(m, j, ReceiptEntry(actor, gid, n, r)) == Plan([ReceiptEntry(actor, gid, n, r)], None)
  {
    UnusedGraphKey(j, gid, NodeReceiptKey(gid, n, r.claimed));
  }

  lemma FirstRejected(m: string, j: seq<Event>, gid: string, n: string, r: Receipt, actor: string, now: real,
                      entries: seq<Entry>)
    requires GraphFold(j, gid).Success? && n in GraphFold(j, gid).value.nodes
    requires ReceiptClash(GraphFold(j, gid).value.nodes[n], r).Some?
    requires entries != [] && entries[0] == ReceiptEntry(actor, gid, n, r)
    ensures GraphFold(Extend(j, m, now, entries), gid).Failure?
  {
    var j' := Extend(j, m, now, entries);
    assert entries == [entries[0]] + entries[1..];
    ExtendAppend(j, m, now, [entries[0]], entries[1..]);
    ExtendOne(j, m, now, entries[0]);
    var first := j + [Stamp(m, |j| + 1, now, entries[0])];
    GraphFoldAppend(j, gid, Stamp(m, |j| + 1, now, entries[0]));
    assert j'[..|first|] == first;
    if GraphFold(j', gid).Success? { GraphFoldPrefix(j', gid, |first|); }
  }

  /** `complete_node` gets past its checks with a receipt that is not the one recorded. */
  predicate Clashing(gid: string, g: GraphView, n: string, r: Receipt) {
    Completing(gid, g, n, r) && ReceiptClash(g.nodes[n], r).Some?
  }

  /** `complete_node` follows the rules if and only if it gets no second receipt past its checks. */
  lemma CompleteLawful(m: string, j: seq<Event>, gid: string, n: string, r: Receipt, actor: string, now: real)
    requires Good(j, gid, m)
    ensures Readable(j) && Healthy(j, gid)
    ensures Lawful(j, gid, m, now, CompletePlan(m, j, gid, n, r, actor).entries)
       <==> !Clashing(gid, GraphFold(j, gid).value, n, r) || m == "" || actor == ""
  {
    hide Good;
    hide Readable;
    hide Lawful;
    hide CompletePlan;
    hide TaskFold;
    hide GraphFold;
    hide Linked;
    hide DepsSound;
    hide ReceiptClash;
    GoodUnfold(j, gid, m);
    LawfulNone(j, gid, m, now);
    var g := GraphFold(j, gid).value;
    if !Completing(gid, g, n, r) || m == "" || actor == "" {
      NothingCompleted(m, j, gid, n, r, actor);
    } else if ReceiptClash(g.nodes[n], r).None? {
      OneReceiptLawful(m, j, gid, n, r, actor, now);
    } else {
      ClashRejected(m, j, gid, n, r, actor, now);
      var entries := CompletePlan(m, j, gid, n, r, actor).entries;
      if Lawful(j, gid, m, now, entries) {
        LawfulKeeps(j, gid, m, now, entries, |entries|);
        assert entries[..|entries|] == entries;
        GoodUnfold(Extend(j, m, now, entries), gid, m);
      }
    }
  }

  lemma NothingCompleted(m: string, j: seq<Event>, gid: string, n: string, r: Receipt, actor: string)
    requires Readable(j) && GraphFold(j, gid).Success?
    requires !Completing(gid, GraphFold(j, gid).value, n, r) || m == "" || actor == ""
    ensures CompletePlan(m, j, gid, n, r, actor).entries == []
  {
    hide GraphFold;
    hide TaskFold;
    hide RecordFold;
    hide Keyed;
    hide DepsSound;
  }

  lemma OneReceiptLawful(m: string, j: seq<Event>, gid: string, n: string, r: Receipt, actor: string, now: real)
    requires Good(j, gid, m) && Readable(j) && Healthy(j, gid) && m != "" && actor != ""
    requires Completing(gid, GraphFold(j, gid).value, n, r) && ReceiptClash(GraphFold(j, gid).value.nodes[n], r).None?
    ensures Lawful(j, gid, m, now, CompletePlan(m, j, gid, n, r, actor).entries)
  {
    hide Good;
    hide Readable;
    hide Lawful;
    hide CompletePlan;
    hide TaskFold;
    hide GraphFold;
    hide Linked;
    CompletePlanned(m, j, gid, n, r, actor);
    LawfulNone(j, gid, m, now);
    var g, tasks := GraphFold(j, gid).value, TaskFold(j).value.tasks;
    if g.nodes[n].pending.None? {
      ReceiptLawful(j, gid, m, now, n, r, actor);
    } else {
      FinishLawful(j, gid, m, now, n, r, actor);
      assert [] + [CompletionEntry(actor, gid, n, r)] == [CompletionEntry(actor, gid, n, r)];
      var both := [CompletionUpdate(actor, gid, n, tasks), CompletionEntry(actor, gid, n, r)];
      assert [] + both == both;
    }
  }

  /** From a recorded receipt on: complete the task unless it is completed, then the node. */
  lemma FinishLawful(j: seq<Event>, gid: string, m: string, now: real, n: string, r: Receipt, actor: string)
    requires Good(j, gid, m) && Healthy(j, gid) && Completing(gid, GraphFold(j, gid).value, n, r)
    requires GraphFold(j, gid).value.nodes[n].pending == Some(r.claimed) && NodeTask(gid, n) in TaskFold(j).value.tasks
    ensures Lawful(j, gid, m, now, [])
    ensures var t := TaskFold(j).value.tasks[NodeTask(gid, n)];
      && (t.status.TaskCompleted? ==> Lawful(j, gid, m, now, [CompletionEntry(actor, gid, n, r)]))
      && (Leased(t) ==> Lawful(j, gid, m, now,
            [CompletionUpdate(actor, gid, n, TaskFold(j).value.tasks), CompletionEntry(actor, gid, n, r)]))
  {
    hide Good;
    hide Lawful;
    hide LawfulEntry;
    hide TaskFold;
    hide GraphFold;
    hide Linked;
    hide DepsSound;
    LawfulNone(j, gid, m, now);
    var g, v := GraphFold(j, gid).value, TaskFold(j).value;
    var t := NodeTask(gid, n);
    var f := NodeCompleted(gid, n, r.claimed, r.material.evidence);
    if v.tasks[t].status.TaskCompleted? {
      OwnGraphEntry(j, gid, actor, f);
      LawfulOne(j, gid, m, now, GraphEntry(actor, f));
    } else if Leased(v.tasks[t]) {
      var u := CompletionUpdate(actor, gid, n, v.tasks);
      OwnTaskEntry(j, gid, actor, n, v.tasks[t].revision + 1, ReleaseChanges(TaskCompleted));
      LawfulStep(j, gid, m, now, u);
      CompletionAfterUpdate(gid, g, v, n, r.claimed, r.material.evidence, u);
      OwnGraphEntry(j + [Stamp(m, |j| + 1, now, u)], gid, actor, f);
      LawfulTwo(j, gid, m, now, u, GraphEntry(actor, f));
    }
  }

  lemma CompletionAfterUpdate(gid: string, g: GraphView, v: TaskView, n: string, d: Digest, evidence: seq<string>,
                              u: Entry)
    requires n in g.nodes && g.nodes[n].status == Running && g.nodes[n].pending == Some(d)
      && NodeTask(gid, n) in v.tasks
    requires u == CompletionUpdate(u.actor, gid, n, v.tasks) && TaskStep(v, u.body).Success?
    ensures GraphStep(gid, g, u.body) == Success(g)
    ensures FactEnabled(gid, g, TaskStep(v, u.body).value.tasks, NodeCompleted(gid, n, d, evidence))
  {
  }

  /** A new receipt, then as `FinishLawful`. */
  lemma ReceiptLawful(j: seq<Event>, gid: string, m: string, now: real, n: string, r: Receipt, actor: string)
    requires Good(j, gid, m) && Healthy(j, gid) && Completing(gid, GraphFold(j, gid).value, n, r)
    requires GraphFold(j, gid).value.nodes[n].pending.None? && NodeTask(gid, n) in TaskFold(j).value.tasks
    ensures var t := TaskFold(j).value.tasks[NodeTask(gid, n)]; var recorded := [ReceiptEntry(actor, gid, n, r)];
      && Lawful(j, gid, m, now, recorded)
      && (t.status.TaskCompleted? ==> Lawful(j, gid, m, now, recorded + [CompletionEntry(actor, gid, n, r)]))
      && (Leased(t) ==> Lawful(j, gid, m, now,
            recorded + [CompletionUpdate(actor, gid, n, TaskFold(j).value.tasks), CompletionEntry(actor, gid, n, r)]))
  {
    hide Good;
    hide Lawful;
    hide LawfulEntry;
    hide TaskFold;
    hide GraphFold;
    hide Linked;
    hide DepsSound;
    var f := NodeReceipt(gid, n, r.claimed, r.material.evidence, r.material.actor);
    var e := GraphEntry(actor, f);
    OwnGraphEntry(j, gid, actor, f);
    LawfulOne(j, gid, m, now, e);
    LawfulStep(j, gid, m, now, e);
    var j' := j + [Stamp(m, |j| + 1, now, e)];
    ExtendOne(j, m, now, e);
    FinishLawful(j', gid, m, now, n, r, actor);
    var t := TaskFold(j).value.tasks[NodeTask(gid, n)];
    if t.status.TaskCompleted? {
      LawfulAppend(j, gid, m, now, [e], [CompletionEntry(actor, gid, n, r)]);
    } else if Leased(t) {
      LawfulAppend(j, gid, m, now, [e], [CompletionUpdate(actor, gid, n, TaskFold(j).value.tasks),
        CompletionEntry(actor, gid, n, r)]);
    }
  }

  /** `fail_node` follows the rules. */
  lemma FailLawful(m: string, j: seq<Event>, gid: string, n: string, actor: string, error: string, now: real)
    requires Good(j, gid, m)
    ensures Readable(j) && Lawful(j, gid, m, now, FailPlan(m, j, gid, n, actor, error).entries)
  {
    hide Good;
    hide Readable;
    hide Lawful;
    hide LawfulEntry;
    hide TaskFold;
    hide GraphFold;
    hide DepsSound;
    hide UpdateTaskPlan;
    GoodUnfold(j, gid, m);
    LawfulNone(j, gid, m, now);
    var g, v, t := GraphFold(j, gid).value, TaskFold(j).value, NodeTask(gid, n);
    assert NodeLinked(gid, g, v.tasks, n);
    if n in g.nodes && g.nodes[n].status == Running {
      var u := Update(actor, t, v.tasks[t].revision + 1, ReleaseChanges(TaskFailed));
      var f := NodeFailed(gid, n, error);
      UpdatePlanned(j, gid, actor, t, ReleaseChanges(TaskFailed));
      OwnTaskEntry(j, gid, actor, n, v.tasks[t].revision + 1, ReleaseChanges(TaskFailed));
      LawfulStep(j, gid, m, now, u);
      FailureAfterUpdate(gid, g, v, n, error, u);
      OwnGraphEntry(j + [Stamp(m, |j| + 1, now, u)], gid, actor, f);
      LawfulOne(j, gid, m, now, u);
      LawfulTwo(j, gid, m, now, u, GraphEntry(actor, f));
      FailPut(m, j, gid, n, error, actor);
      assert [u] + [GraphEntry(actor, f)] == [u, GraphEntry(actor, f)] && [u] + [] == [u];
    }
  }

  lemma FailPut(m: string, j: seq<Event>, gid: string, n: string, error: string, actor: string)
    requires Readable(j) && GraphFold(j, gid).Success?
    requires n in GraphFold(j, gid).value.nodes && GraphFold(j, gid).value.nodes[n].status == Running
    ensures var e := GraphEntry(actor, NodeFailed(gid, n, error));
      PutPlan(m, j, e) == if m == "" || actor == "" then Plan([], Some(ValueFault)) else Plan([e], None)
  {
    UnusedGraphKey(j, gid, NodeFailKey(gid, n, error));
  }

  lemma FailureAfterUpdate(gid: string, g: GraphView, v: TaskView, n: string, error: string, u: Entry)
    requires n in g.nodes && g.nodes[n].status == Running && NodeTask(gid, n) in v.tasks
    requires u == Update(u.actor, NodeTask(gid, n), v.tasks[NodeTask(gid, n)].revision + 1, ReleaseChanges(TaskFailed))
    requires TaskStep(v, u.body).Success?
    ensures GraphStep(gid, g, u.body) == Success(g)
    ensures FactEnabled(gid, g, TaskStep(v, u.body).value.tasks, NodeFailed(gid, n, error))
  {
  }
}
