/** `GraphScheduler.dispatch_ready`: what one dispatch writes over pool and graph together. */
module Scheduling {
  import opened Base
  import opened Journal
  import opened Tasks
  import opened Records
  import opened GraphLog
  import opened PoolLog
  import opened Store
  import opened Projection
  import opened Runtime
  import opened GraphRules
  import opened GraphHistory
  import opened GraphPlans
  import opened GraphSafety
  import opened GraphLifecycle
  import opened GraphProgress
  import opened GraphCalls
  import opened PoolRules
  import opened PoolCalls

  /** A ready node, the worker it is offered to, and the lease id its lease would get. */
  datatype Offer = Offer(node: string, worker: string, lease: string)

  datatype Assignment = Assignment(node: string, task: TaskId, worker: string, run: RunId, slot: int)

  /** What a dispatch writes, the exception it ends with, and the assignments it returns. */
  datatype Dispatch = Dispatch(entries: seq<Entry>, fault: Option<Error>, assignments: seq<Assignment>)

  function RunOf(gid: string, o: Offer): RunId { NodeRun(gid, o.node, o.worker) }

  /** An acquisition leaves a well-kept journal in which the run holds its slot. */
  lemma AcquireSound(m: string, j: seq<Event>, pool: string, run: RunId, task: TaskId, worker: string, actor: string,
                     now: real)
    requires Sound(j, m) && AcquirePlan(m, j, pool, run, task, worker, actor).fault.None?
    ensures var j' := Extend(j, m, now, AcquirePlan(m, j, pool, run, task, worker, actor).entries);
      && Sound(j', m) && TaskFold(j') == TaskFold(j) && PoolFold(j, pool).Success?
      && PoolFold(j', pool).Success? && run in PoolFold(j', pool).value.active
      && (run in PoolFold(j, pool).value.active ==> j' == j)
      && (run !in PoolFold(j, pool).value.active ==>
            var v := PoolFold(j, pool).value;
            && v.configured && |v.active| < v.target && FreeFrom(UsedSlots(v), 0, v.target).Some?
            && AcquirePlan(m, j, pool, run, task, worker, actor).entries
               == [PoolEntry(actor, LastSeq(j, pool), SlotAcquired(pool, run, task, worker,
                 FreeFrom(UsedSlots(v), 0, v.target).value))]
            && PoolFold(j', pool)
              == Success(v.(active := v.active[run := SlotUse(task, worker,
              FreeFrom(UsedSlots(v), 0, v.target).value)])))
  {
    hide Sound;
    hide TaskFold;
    hide PoolFold;
    hide PutPlan;
    hide PoolApply;
    hide FreeFrom;
    hide Acceptable;
    var v, plan := PoolFold(j, pool).value, AcquirePlan(m, j, pool, run, task, worker, actor);
    if run in v.active {
      ExtendNone(j, m, now);
    } else {
      SlotsSuffice(v);
      var slot := FreeFrom(UsedSlots(v), 0, v.target).value;
      var f := SlotAcquired(pool, run, task, worker, slot);
      PutIsOneOrNone(m, j, PoolEntry(actor, LastSeq(j, pool), f));
      var e := PoolEntry(actor, LastSeq(j, pool), f);
      SoundReadable(j, m);
      PoolPutAcceptable(m, j, f, actor, e);
      ExtendOne(j, m, now, e);
      EntryKeeps(j, m, now, e);
      PoolFoldAppend(j, pool, Stamp(m, |j| + 1, now, e));
      PoolFactReads(j, Stamp(m, |j| + 1, now, e));
      AcquireApplies(v, pool, run, task, worker, slot);
    }
  }

  lemma PoolFactReads(j: seq<Event>, e: Event)
    requires e.body.Pool?
    ensures TaskFold(j + [e]) == TaskFold(j)
    ensures forall gid :: GraphFold(j + [e], gid) == GraphFold(j, gid)
  {
    TaskFoldAppend(j, e);
    forall gid ensures GraphFold(j + [e], gid) == GraphFold(j, gid) {
      GraphFoldAppend(j, gid, e);
    }
  }

  /** A lease, refused or not, leaves a well-kept journal. */
  lemma LeaseSound(m: string, j: seq<Event>, gid: string, n: string, worker: string, ttl: int, lease: string,
                   actor: string, now: real)
    requires Sound(j, m)
    ensures Readable(j)
    ensures Sound(Extend(j, m, now, LeasePlan(m, j, gid, n, worker, ttl, lease, actor, now).entries), m)
  {
    hide Sound;
    hide Readable;
    hide TaskFold;
    hide GraphFold;
    hide PutPlan;
    hide UpdateTaskPlan;
    hide Acceptable;
    hide LeasePlan;
    hide Extend;
    SoundReadable(j, m);
    ExtendNone(j, m, now);
    var entries := LeasePlan(m, j, gid, n, worker, ttl, lease, actor, now).entries;
    if entries != [] {
      LeaseShape(m, j, gid, n, worker, ttl, lease, actor, now);
      var v, t := TaskFold(j).value, NodeTask(gid, n);
      var c := LeaseChanges(worker, lease, now + ttl as real);
      var e := GraphEntry(actor, NodeStarted(gid, n, worker, lease));
      var u := Update(actor, t, v.tasks[t].revision + 1, c);
      UpdateOneMore(j, m, now, u, t, v, c);
      ExtendOne(j, m, now, u);
      PutLater(m, j, now, [u], e);
      FactSound(m, Extend(j, m, now, [u]), actor, NodeStarted(gid, n, worker, lease), now);
      ExtendAppend(j, m, now, [u], PutPlan(m, j, e).entries);
    }
  }

  /** What `lease_node` writes, when it writes: the accepted lease of the task and then the start. */
  lemma LeaseShape(m: string, j: seq<Event>, gid: string, n: string, worker: string, ttl: int, lease: string,
                   actor: string, now: real)
    requires Readable(j) && LeasePlan(m, j, gid, n, worker, ttl, lease, actor, now).entries != []
    ensures TaskFold(j).Success? && NodeTask(gid, n) in TaskFold(j).value.tasks
    ensures
      var v, t, c := TaskFold(j).value, NodeTask(gid, n), LeaseChanges(worker, lease, now + ttl as real);
      && UpdateTaskPlan(v, actor, t, v.tasks[t].revision, c)
         == Plan([Update(actor, t, v.tasks[t].revision + 1, c)], None)
      && LeasePlan(m, j, gid, n, worker, ttl, lease, actor, now).entries
         == [Update(actor, t, v.tasks[t].revision + 1, c)]
            + PutPlan(m, j, GraphEntry(actor, NodeStarted(gid, n, worker, lease))).entries
  {
    hide TaskFold;
    hide GraphFold;
    hide PutPlan;
    hide UpdateTaskPlan;
    hide ReadyNodes;
    hide LeaseChanges;
    var v, t, c := TaskFold(j).value, NodeTask(gid, n), LeaseChanges(worker, lease, now + ttl as real);
    UpdateHasEntry(v, actor, t, v.tasks[t].revision, c);
    NeverCrashes(m, j, GraphEntry(actor, NodeStarted(gid, n, worker, lease)), v, actor, t, v.tasks[t].revision, c);
  }

  /** Putting a fact of a graph leaves a well-kept journal. */
  lemma FactSound(m: string, j: seq<Event>, actor: string, f: GraphFact, now: real)
    requires Sound(j, m)
    ensures Sound(Extend(j, m, now, PutPlan(m, j, GraphEntry(actor, f)).entries), m)
  {
    hide Sound;
    hide Readable;
    hide Acceptable;
    var e := GraphEntry(actor, f);
    PutEntries(m, j, e);
    ExtendNone(j, m, now);
    if PutPlan(m, j, e).entries != [] {
      SoundReadable(j, m);
      GraphAcceptable(j, actor, f);
      EntryKeeps(j, m, now, e);
      ExtendOne(j, m, now, e);
    }
  }

  lemma UpdateHasEntry(v: TaskView, actor: string, t: TaskId, expected: int, c: Changes)
    ensures UpdateTaskPlan(v, actor, t, expected, c).fault.Some? ==>
      UpdateTaskPlan(v, actor, t, expected, c).entries == []
  {
  }

  lemma PutEntries(m: string, j: seq<Event>, e: Entry)
    ensures PutPlan(m, j, e).entries == [] || (PutPlan(m, j, e) == Plan([e], None) && Unused(j, e.key))
  {
  }

  /** The loop of `dispatch_ready` over the offers. */
  ghost function DispatchOf(m: string, j: seq<Event>, gid: string, pool: string, offers: seq<Offer>,
                            ttl: int, actor: string, now: real): Dispatch
    requires Sound(j, m)
    decreases |offers|
  {
    if offers == [] then Dispatch([], None, [])
    else
      var o, run, task := offers[0], RunOf(gid, offers[0]), NodeTask(gid, offers[0].node);
      var acquired := AcquirePlan(m, j, pool, run, task, o.worker, actor);
      if acquired.fault == Some(PoolBackpressure) then Dispatch([], None, [])
      else if acquired.fault.Some? then Dispatch(acquired.entries, acquired.fault, [])
      else
        AcquireSound(m, j, pool, run, task, o.worker, actor, now);
        var j1 := Extend(j, m, now, acquired.entries);
        LeaseSound(m, j1, gid, o.node, o.worker, ttl, o.lease, actor, now);
        var leased := LeasePlan(m, j1, gid, o.node, o.worker, ttl, o.lease, actor, now);
        var j2 := Extend(j1, m, now, leased.entries);
        if leased.fault.Some? then
          var released := ReleasePlan(m, j2, pool, run, actor);
          Dispatch(acquired.entries + leased.entries + released.entries,
                   if released.fault.Some? then released.fault else leased.fault, [])
        else
          var rest := DispatchOf(m, j2, gid, pool, offers[1..], ttl, actor, now);
          Dispatch(acquired.entries + leased.entries + rest.entries, rest.fault,
                   [Assignment(o.node, task, o.worker, run, PoolFold(j1, pool).value.active[run].slot)]
                   + rest.assignments)
  }

  /** Leasing one ready node leaves every other ready node ready. */
  lemma LeaseKeepsOthersReady(gid: string, g: GraphView, tasks: TaskMap, n: string, other: string,
                              worker: string, lease: string, until: real)
    requires Ready(gid, g, tasks, n) && Ready(gid, g, tasks, other) && n != other
    ensures var t := NodeTask(gid, n);
      Ready(gid, g.(nodes := g.nodes[n := g.nodes[n].(status := Running, owner := Some(worker), lease := Some(lease))]),
            tasks[t := Change(tasks[t], tasks[t].revision + 1, LeaseChanges(worker, lease, until))], other)
  {
    assert forall i :: 0 <= i < |g.nodes[other].blockedBy| ==> g.nodes[other].blockedBy[i] != n;
  }

  /** Entries that are not the pool's leave its projection and its keys alone. */
  lemma {:induction false} ForeignToPool(m: string, j: seq<Event>, pool: string, now: real, entries: seq<Entry>,
                                         run: RunId)
    requires forall e :: e in entries ==> !e.body.Pool? && !e.key.OfPool?
    ensures var j' := Extend(j, m, now, entries);
      && PoolFold(j', pool) == PoolFold(j, pool)
      && (PoolLawful(j, pool) ==> PoolLawful(j', pool))
      && (Unused(j, OfPool(AcquireKey(pool, run))) ==> Unused(j', OfPool(AcquireKey(pool, run))))
    decreases |entries|
  {
    hide PoolFold;
    hide PoolLawful;
    if entries == [] {
      ExtendNone(j, m, now);
    } else {
      var k := |entries| - 1;
      var before, e := Extend(j, m, now, entries[..k]), entries[k];
      ForeignToPool(m, j, pool, now, entries[..k], run);
      assert entries == entries[..k] + [e] && e in entries;
      ExtendSnoc(j, m, now, entries[..k], e);
      var event := Stamp(m, |before| + 1, now, e);
      PoolFoldAppend(before, pool, event);
      UnusedSnoc(before, event, OfPool(AcquireKey(pool, run)));
      if PoolLawful(j, pool) { PoolLawfulSnoc(before, pool, event); }
    }
  }

  lemma LeaseIsForeign(m: string, j: seq<Event>, gid: string, n: string, worker: string, ttl: int, lease: string,
                       actor: string, now: real)
    requires Readable(j)
    ensures forall e :: e in LeasePlan(m, j, gid, n, worker, ttl, lease, actor, now).entries ==>
      !e.body.Pool? && !e.key.OfPool?
  {
    hide TaskFold;
    hide GraphFold;
    hide RecordFold;
    hide Keyed;
    hide ReadyNodes;
  }

  /** A journal in which each offer names a different ready node and a new run. */
  ghost predicate Dispatchable(m: string, j: seq<Event>, gid: string, pool: string, offers: seq<Offer>) {
    && Good(j, gid, m) && Healthy(j, gid) && PoolGood(j, m, pool)
    && PoolFold(j, pool).Success? && PoolFold(j, pool).value.configured
    && (forall a, b :: 0 <= a < b < |offers| ==> offers[a].node != offers[b].node)
    && (forall i :: 0 <= i < |offers| ==> Ready(gid, GraphFold(j, gid).value, TaskFold(j).value.tasks, offers[i].node))
    && (forall i :: 0 <= i < |offers| ==> Unused(j, OfPool(AcquireKey(pool, RunOf(gid, offers[i])))))
  }

  /** From `j` to `after` the offer was taken: its run has the lowest slot no run held, its node
      runs for its worker, and nothing else of pool or graph changed. */
  ghost predicate Taken(j: seq<Event>, after: seq<Event>, gid: string, pool: string, o: Offer) {
    && PoolFold(j, pool).Success? && GraphFold(j, gid).Success? && o.node in GraphFold(j, gid).value.nodes
    && var v, g := PoolFold(j, pool).value, GraphFold(j, gid).value;
       && FreeFrom(UsedSlots(v), 0, v.target).Some?
       && PoolFold(after, pool) == Success(v.(active := v.active[RunOf(gid, o) :=
            SlotUse(NodeTask(gid, o.node), o.worker, FreeFrom(UsedSlots(v), 0, v.target).value)]))
       && GraphFold(after, gid) == Success(g.(nodes := g.nodes[o.node :=
            g.nodes[o.node].(status := Running, owner := Some(o.worker), lease := Some(o.lease))]))
  }

  /** The slot part of taking an offer. */
  lemma SlotTaken(m: string, j: seq<Event>, gid: string, pool: string, offers: seq<Offer>, actor: string, now: real)
    requires Dispatchable(m, j, gid, pool, offers) && offers != [] && m != "" && actor != ""
    requires |PoolFold(j, pool).value.active| < PoolFold(j, pool).value.target
    ensures var run := RunOf(gid, offers[0]);
      var plan := AcquirePlan(m, j, pool, run, NodeTask(gid, offers[0].node), offers[0].worker, actor);
      var j1 := Extend(j, m, now, plan.entries);
      && plan.fault.None? && |plan.entries| == 1 && run !in PoolFold(j, pool).value.active
      && Good(j1, gid, m) && Healthy(j1, gid) && PoolGood(j1, m, pool)
      && TaskFold(j1) == TaskFold(j) && GraphFold(j1, gid) == GraphFold(j, gid)
      && (forall i :: 1 <= i < |offers| ==> Unused(j1, OfPool(AcquireKey(pool, RunOf(gid, offers[i])))))
  {
    hide Good;
    hide Healthy;
    hide PoolLawful;
    hide Sound;
    hide TaskFold;
    hide GraphFold;
    hide PoolFold;
    hide FreeFrom;
    hide Acceptable;
    hide Ready;
    hide PoolEnabled;
    hide EnabledAt;
    var o, run := offers[0], RunOf(gid, offers[0]);
    var v := PoolFold(j, pool).value;
    PoolGoodFacts(j, m, pool);
    assert KeysTell(j, pool, run);
    SlotsSuffice(v);
    var f := SlotAcquired(pool, run, NodeTask(gid, o.node), o.worker, FreeFrom(UsedSlots(v), 0, v.target).value);
    var e := PoolEntry(actor, LastSeq(j, pool), f);
    SoundReadable(j, m);
    PoolCallLawful(m, j, pool, Acquire(run, NodeTask(gid, o.node), o.worker), actor, e);
    ExtendOne(j, m, now, e);
    var event := Stamp(m, |j| + 1, now, e);
    PoolFactReads(j, event);
    EntryKeeps(j, m, now, e);
    PoolLawfulSnoc(j, pool, event);
    PoolIsForeign(m, j, gid, e);
    SafeStep(j, gid, m, now, e);
    GoodUnfold(j + [event], gid, m);
    forall i | 1 <= i < |offers| ensures Unused(j + [event], OfPool(AcquireKey(pool, RunOf(gid, offers[i])))) {
      UnusedSnoc(j, event, OfPool(AcquireKey(pool, RunOf(gid, offers[i]))));
    }
  }

  lemma PoolIsForeign(m: string, j: seq<Event>, gid: string, e: Entry)
    requires Good(j, gid, m) && Acceptable(j, e) && e.body.Pool?
    ensures EnabledAt(j, gid, e.body)
  {
    hide Good;
    hide Acceptable;
    ForeignEnabled(j, gid, m, e);
  }

  /** The lease part of taking an offer. */
  lemma LeaseTaken(m: string, j: seq<Event>, gid: string, pool: string, offers: seq<Offer>, ttl: int, actor: string,
                   now: real)
    requires Good(j, gid, m) && Healthy(j, gid) && PoolGood(j, m, pool) && Readable(j) && offers != []
    requires PoolFold(j, pool).Success? && PoolFold(j, pool).value.configured
    requires forall a, b :: 0 <= a < b < |offers| ==> offers[a].node != offers[b].node
    requires forall i :: 0 <= i < |offers| ==>
      Ready(gid, GraphFold(j, gid).value, TaskFold(j).value.tasks, offers[i].node)
    requires forall i :: 1 <= i < |offers| ==> Unused(j, OfPool(AcquireKey(pool, RunOf(gid, offers[i]))))
    requires m != "" && actor != "" && ttl > 0
    ensures var o := offers[0];
      var leased := LeasePlan(m, j, gid, o.node, o.worker, ttl, o.lease, actor, now);
      var j' := Extend(j, m, now, leased.entries);
      && leased.fault.None? && |leased.entries| == 2
      && Dispatchable(m, j', gid, pool, offers[1..]) && PoolFold(j', pool) == PoolFold(j, pool)
      && o.node in GraphFold(j, gid).value.nodes
      && var g := GraphFold(j, gid).value;
         GraphFold(j', gid) == Success(g.(nodes := g.nodes[o.node :=
            g.nodes[o.node].(status := Running, owner := Some(o.worker), lease := Some(o.lease))]))
  {
    hide Good;
    hide Healthy;
    hide PoolLawful;
    hide Readable;
    hide Sound;
    hide TaskFold;
    hide GraphFold;
    hide PoolFold;
    hide Ready;
    hide LeasePlan;
    hide Linked;
    hide Change;
    var o := offers[0];
    HealthyLinked(j, gid);
    var g, tasks := GraphFold(j, gid).value, TaskFold(j).value.tasks;
    ReadyHere(gid, g, tasks, o.node);
    LeasedNode(m, j, gid, o.node, o.worker, ttl, o.lease, actor, now);
    LeasePlanned(m, j, gid, o.node, o.worker, ttl, o.lease, actor, now);
    LeaseIsForeign(m, j, gid, o.node, o.worker, ttl, o.lease, actor, now);
    LeaseSound(m, j, gid, o.node, o.worker, ttl, o.lease, actor, now);
    var entries := LeasePlan(m, j, gid, o.node, o.worker, ttl, o.lease, actor, now).entries;
    var j' := Extend(j, m, now, entries);
    HealthyLinked(j', gid);
    var rest := offers[1..];
    ForeignToPool(m, j, pool, now, entries, RunOf(gid, o));
    forall i | 0 <= i < |rest|
      ensures Unused(j', OfPool(AcquireKey(pool, RunOf(gid, rest[i]))))
      ensures Ready(gid, GraphFold(j', gid).value, TaskFold(j').value.tasks, rest[i].node) {
      assert rest[i] == offers[i + 1];
      ForeignToPool(m, j, pool, now, entries, RunOf(gid, rest[i]));
      LeaseKeepsOthersReady(gid, g, tasks, o.node, rest[i].node, o.worker, o.lease, now + ttl as real);
    }
  }

  /** Taking the first offer: three events, and the other offers are as good as before. */
  lemma OfferTaken(m: string, j: seq<Event>, gid: string, pool: string, offers: seq<Offer>, ttl: int, actor: string,
                   now: real)
    requires Dispatchable(m, j, gid, pool, offers) && offers != [] && m != "" && actor != "" && ttl > 0
    requires |PoolFold(j, pool).value.active| < PoolFold(j, pool).value.target
    ensures var o := offers[0];
      var acquired := AcquirePlan(m, j, pool, RunOf(gid, o), NodeTask(gid, o.node), o.worker, actor);
      var j1 := Extend(j, m, now, acquired.entries);
      && acquired.fault.None? && |acquired.entries| == 1 && Readable(j1)
      && var leased := LeasePlan(m, j1, gid, o.node, o.worker, ttl, o.lease, actor, now);
         var j2 := Extend(j1, m, now, leased.entries);
         && leased.fault.None? && |leased.entries| == 2
         && Dispatchable(m, j2, gid, pool, offers[1..])
         && PoolFold(j1, pool) == PoolFold(j2, pool)
         && RunOf(gid, o) !in PoolFold(j, pool).value.active
         && Taken(j, j2, gid, pool, o)
  {
    hide Good;
    hide Healthy;
    hide PoolLawful;
    hide Readable;
    hide Sound;
    hide TaskFold;
    hide GraphFold;
    hide PoolFold;
    hide FreeFrom;
    hide Ready;
    hide AcquirePlan;
    hide LeasePlan;
    hide Linked;
    var o := offers[0];
    var run := RunOf(gid, o);
    var acquired := AcquirePlan(m, j, pool, run, NodeTask(gid, o.node), o.worker, actor);
    SlotTaken(m, j, gid, pool, offers, actor, now);
    AcquireSound(m, j, pool, run, NodeTask(gid, o.node), o.worker, actor, now);
    var j1 := Extend(j, m, now, acquired.entries);
    GoodUnfold(j1, gid, m);
    HealthyLinked(j1, gid);
    LeaseTaken(m, j1, gid, pool, offers, ttl, actor, now);
  }

  function FreeSlots(v: PoolView): nat {
    if |v.active| <= v.target then v.target - |v.active| else 0
  }

  /** From `j` to `after` exactly the offers of `taken` were assigned: each run holds the slot its
      assignment names, each node runs for its worker, and nothing else changed. */
  ghost predicate Dispatched(j: seq<Event>, after: seq<Event>, gid: string, pool: string,
                             taken: seq<Offer>, assignments: seq<Assignment>) {
    && PoolFold(j, pool).Success? && PoolFold(after, pool).Success?
    && GraphFold(j, gid).Success? && GraphFold(after, gid).Success?
    && |assignments| == |taken|
    && SlotsDispatched(PoolFold(j, pool).value, PoolFold(after, pool).value, gid, taken, assignments)
    && NodesDispatched(GraphFold(j, gid).value, GraphFold(after, gid).value, taken)
  }

  ghost predicate SlotsDispatched(v: PoolView, w: PoolView, gid: string, taken: seq<Offer>,
                                  assignments: seq<Assignment>)
    requires |assignments| == |taken|
  {
    && w.configured == v.configured && w.target == v.target && |w.active| == |v.active| + |taken|
    && (forall run :: run in v.active ==> run in w.active && w.active[run] == v.active[run])
    && (forall run :: run in w.active && run !in v.active ==> exists i ::
      0 <= i < |taken| && run == RunOf(gid, taken[i]))
    && (forall i :: 0 <= i < |taken| ==> RunOf(gid, taken[i]) !in v.active && Assigns(w, gid, taken[i], assignments[i]))
  }

  /** The assignment of the offer names the slot its run holds. */
  predicate Assigns(w: PoolView, gid: string, o: Offer, a: Assignment) {
    RunOf(gid, o) in w.active
    && a == Assignment(o.node, NodeTask(gid, o.node), o.worker, RunOf(gid, o), w.active[RunOf(gid, o)].slot)
  }

  ghost predicate NodesDispatched(g: GraphView, h: GraphView, taken: seq<Offer>) {
    && h.status == g.status && h.order == g.order && h.nodes.Keys == g.nodes.Keys
    && (forall i :: 0 <= i < |taken| ==> StartsNode(g, h, taken[i]))
    && (forall n :: n in g.nodes && (forall i :: 0 <= i < |taken| ==> taken[i].node != n) ==> h.nodes[n] == g.nodes[n])
  }

  predicate StartsNode(g: GraphView, h: GraphView, o: Offer) {
    && o.node in g.nodes && o.node in h.nodes
    && h.nodes[o.node] == g.nodes[o.node].(status := Running, owner := Some(o.worker), lease := Some(o.lease))
  }

  lemma NothingDispatched(j: seq<Event>, gid: string, pool: string)
    requires PoolFold(j, pool).Success? && GraphFold(j, gid).Success?
    ensures Dispatched(j, j, gid, pool, [], [])
  {
  }

  lemma SlotsCons(v: PoolView, w: PoolView, last: PoolView, gid: string, o: Offer, slot: int,
                  rest: seq<Offer>, assignments: seq<Assignment>)
    requires RunOf(gid, o) !in v.active && |assignments| == |rest|
    requires w == v.(active := v.active[RunOf(gid, o) := SlotUse(NodeTask(gid, o.node), o.worker, slot)])
    requires SlotsDispatched(w, last, gid, rest, assignments)
    ensures SlotsDispatched(v, last, gid, [o] + rest,
      [Assignment(o.node, NodeTask(gid, o.node), o.worker, RunOf(gid, o), slot)] + assignments)
  {
    var first := Assignment(o.node, NodeTask(gid, o.node), o.worker, RunOf(gid, o), slot);
    var taken, all := [o] + rest, [first] + assignments;
    assert RunOf(gid, o) in w.active && last.active[RunOf(gid, o)] == w.active[RunOf(gid, o)];
    assert Assigns(last, gid, o, first);
    SlotsConsOffers(v, w, last, gid, o, first, rest, assignments);
    SlotsConsRuns(v, w, last, gid, o, rest);
  }

  lemma SlotsConsOffers(v: PoolView, w: PoolView, last: PoolView, gid: string, o: Offer, first: Assignment,
                        rest: seq<Offer>, assignments: seq<Assignment>)
    requires RunOf(gid, o) !in v.active && |assignments| == |rest|
      && (forall run :: run in v.active ==> run in w.active)
    requires Assigns(last, gid, o, first)
    requires forall i :: 0 <= i < |rest| ==>
      RunOf(gid, rest[i]) !in w.active && Assigns(last, gid, rest[i], assignments[i])
    ensures var taken, all := [o] + rest, [first] + assignments;
      forall i :: 0 <= i < |taken| ==> RunOf(gid, taken[i]) !in v.active && Assigns(last, gid, taken[i], all[i])
  {
    hide Assigns;
    var taken, all := [o] + rest, [first] + assignments;
    forall i | 0 <= i < |taken| ensures RunOf(gid, taken[i]) !in v.active && Assigns(last, gid, taken[i], all[i]) {
      if i > 0 { assert taken[i] == rest[i - 1] && all[i] == assignments[i - 1]; }
    }
  }

  lemma SlotsConsRuns(v: PoolView, w: PoolView, last: PoolView, gid: string, o: Offer, rest: seq<Offer>)
    requires forall run :: run in w.active ==> run in v.active || run == RunOf(gid, o)
    requires forall run :: run in last.active && run !in w.active ==> exists i ::
      0 <= i < |rest| && run == RunOf(gid, rest[i])
    ensures var taken := [o] + rest;
      forall run :: run in last.active && run !in v.active ==> exists i ::
        0 <= i < |taken| && run == RunOf(gid, taken[i])
  {
    var taken := [o] + rest;
    forall run | run in last.active && run !in v.active
      ensures exists i :: 0 <= i < |taken| && run == RunOf(gid, taken[i]) {
      if run in w.active {
        assert run == RunOf(gid, taken[0]);
      } else {
        var i :| 0 <= i < |rest| && run == RunOf(gid, rest[i]);
        assert run == RunOf(gid, taken[i + 1]);
      }
    }
  }

  lemma NodesCons(g: GraphView, h: GraphView, last: GraphView, o: Offer, rest: seq<Offer>)
    requires o.node in g.nodes && forall i :: 0 <= i < |rest| ==> rest[i].node != o.node
    requires h == g.(nodes := g.nodes[o.node := g.nodes[o.node].(status := Running, owner := Some(o.worker),
      lease := Some(o.lease))])
    requires NodesDispatched(h, last, rest)
    ensures NodesDispatched(g, last, [o] + rest)
  {
    var taken := [o] + rest;
    forall i | 0 <= i < |taken| ensures StartsNode(g, last, taken[i]) {
      if i > 0 { assert taken[i] == rest[i - 1]; }
    }
    forall n | n in g.nodes && (forall i :: 0 <= i < |taken| ==> taken[i].node != n)
      ensures last.nodes[n] == g.nodes[n] {
      assert taken[0].node != n;
      forall i | 0 <= i < |rest| ensures rest[i].node != n { assert taken[i + 1] == rest[i]; }
    }
  }

  /** `dispatch_ready` assigns exactly the first min(offers, free slots) nodes, each to its worker
      and to a slot of its own; it never fails, and backpressure ends it without a trace. */
  lemma {:induction false} DispatchExact(m: string, j: seq<Event>, gid: string, pool: string, offers: seq<Offer>,
                                         ttl: int, actor: string, now: real)
    requires Dispatchable(m, j, gid, pool, offers) && m != "" && actor != "" && ttl > 0
    ensures var d := DispatchOf(m, j, gid, pool, offers, ttl, actor, now);
      var k := Min(|offers|, FreeSlots(PoolFold(j, pool).value)); var j' := Extend(j, m, now, d.entries);
      && d.fault.None? && |d.entries| == 3 * k
      && Good(j', gid, m) && PoolGood(j', m, pool)
      && Dispatched(j, j', gid, pool, offers[..k], d.assignments)
    decreases |offers|
  {
    hide Good;
    hide Healthy;
    hide PoolLawful;
    hide Sound;
    hide Readable;
    hide TaskFold;
    hide GraphFold;
    hide PoolFold;
    hide FreeFrom;
    hide Ready;
    hide AcquirePlan;
    hide LeasePlan;
    hide SlotsDispatched;
    hide NodesDispatched;
    hide PoolInvariant;
    hide PoolKeyOf;
    hide UsedSlots;
    var v, k := PoolFold(j, pool).value, Min(|offers|, FreeSlots(PoolFold(j, pool).value));
    PoolGoodFacts(j, m, pool);
    HealthyLinked(j, gid);
    DispatchEnds(m, j, gid, pool, offers, ttl, actor, now);
    if k == 0 {
      ExtendNone(j, m, now);
      NothingDispatched(j, gid, pool);
      assert offers[..0] == [];
    } else {
      OfferTaken(m, j, gid, pool, offers, ttl, actor, now);
      DispatchGoesOn(m, j, gid, pool, offers, ttl, actor, now);
      var o := offers[0];
      var run := RunOf(gid, o);
      var acquired := AcquirePlan(m, j, pool, run, NodeTask(gid, o.node), o.worker, actor);
      var j1 := Extend(j, m, now, acquired.entries);
      var leased := LeasePlan(m, j1, gid, o.node, o.worker, ttl, o.lease, actor, now);
      var j2 := Extend(j1, m, now, leased.entries);
      var rest := DispatchOf(m, j2, gid, pool, offers[1..], ttl, actor, now);
      DispatchExact(m, j2, gid, pool, offers[1..], ttl, actor, now);
      ExtendAppend(j, m, now, acquired.entries, leased.entries);
      ExtendAppend(j, m, now, acquired.entries + leased.entries, rest.entries);
      var j' := Extend(j2, m, now, rest.entries);
      assert offers[..k] == [o] + offers[1..][..k - 1];
      var slot := FreeFrom(UsedSlots(v), 0, v.target).value;
      SlotsCons(v, PoolFold(j2, pool).value, PoolFold(j', pool).value, gid, o, slot, offers[1..][..k - 1],
        rest.assignments);
      NodesCons(GraphFold(j, gid).value, GraphFold(j2, gid).value, GraphFold(j', gid).value, o, offers[1..][..k - 1]);
    }
  }

  /** With no offer or no free slot the dispatch is over. */
  lemma DispatchEnds(m: string, j: seq<Event>, gid: string, pool: string, offers: seq<Offer>, ttl: int, actor: string,
                     now: real)
    requires Dispatchable(m, j, gid, pool, offers) && PoolInvariant(PoolFold(j, pool).value)
    requires forall run :: KeysTell(j, pool, run)
    ensures offers == [] || FreeSlots(PoolFold(j, pool).value) == 0 ==>
      DispatchOf(m, j, gid, pool, offers, ttl, actor, now) == Dispatch([], None, [])
  {
    hide Good;
    hide Healthy;
    hide PoolLawful;
    hide Sound;
    hide TaskFold;
    hide GraphFold;
    hide PoolFold;
    hide LeasePlan;
    if offers != [] {
      assert KeysTell(j, pool, RunOf(gid, offers[0]));
    }
  }

  lemma DispatchGoesOn(m: string, j: seq<Event>, gid: string, pool: string, offers: seq<Offer>, ttl: int, actor: string,
                       now: real)
    requires Sound(j, m) && offers != []
    requires var o := offers[0];
      AcquirePlan(m, j, pool, RunOf(gid, o), NodeTask(gid, o.node), o.worker, actor).fault.None?
    ensures var o := offers[0]; var run := RunOf(gid, o);
      var acquired := AcquirePlan(m, j, pool, run, NodeTask(gid, o.node), o.worker, actor);
      var j1 := Extend(j, m, now, acquired.entries);
      && Readable(j1) && PoolFold(j1, pool).Success? && run in PoolFold(j1, pool).value.active
      && var leased := LeasePlan(m, j1, gid, o.node, o.worker, ttl, o.lease, actor, now);
         var j2 := Extend(j1, m, now, leased.entries);
         && Sound(j2, m)
         && (leased.fault.None? ==>
              var rest := DispatchOf(m, j2, gid, pool, offers[1..], ttl, actor, now);
              DispatchOf(m, j, gid, pool, offers, ttl, actor, now) ==
                Dispatch(acquired.entries + leased.entries + rest.entries, rest.fault,
                         [Assignment(o.node, NodeTask(gid, o.node), o.worker, run,
                         PoolFold(j1, pool).value.active[run].slot)]
                         + rest.assignments))
         && (leased.fault.Some? ==>
              var released := ReleasePlan(m, j2, pool, run, actor);
              DispatchOf(m, j, gid, pool, offers, ttl, actor, now) ==
                Dispatch(acquired.entries + leased.entries + released.entries,
                         if released.fault.Some? then released.fault else leased.fault, []))
  {
    hide Sound;
    hide Readable;
    hide TaskFold;
    hide GraphFold;
    hide PoolFold;
    hide AcquirePlan;
    hide LeasePlan;
    hide ReleasePlan;
    var o := offers[0];
    AcquireSound(m, j, pool, RunOf(gid, o), NodeTask(gid, o.node), o.worker, actor, now);
    var j1 := Extend(j, m, now, AcquirePlan(m, j, pool, RunOf(gid, o), NodeTask(gid, o.node), o.worker, actor).entries);
    LeaseSound(m, j1, gid, o.node, o.worker, ttl, o.lease, actor, now);
  }

  /** When a lease fails, the compensating release leaves the active set as it was before the
      node if and only if the run was not active already. */
  lemma CompensationRestoresIff(m: string, j: seq<Event>, gid: string, pool: string, o: Offer, ttl: int, actor: string,
                                now: real)
    requires Sound(j, m) && m != "" && actor != ""
    requires var acquired := AcquirePlan(m, j, pool, RunOf(gid, o), NodeTask(gid, o.node), o.worker, actor);
      acquired.fault.None? && DispatchOf(m, j, gid, pool, [o], ttl, actor, now).fault.Some?
    ensures var j' := Extend(j, m, now, DispatchOf(m, j, gid, pool, [o], ttl, actor, now).entries);
      && PoolFold(j, pool).Success? && PoolFold(j', pool).Success?
      && (PoolFold(j', pool).value.active == PoolFold(j, pool).value.active
          <==> RunOf(gid, o) !in PoolFold(j, pool).value.active)
  {
    hide Sound;
    hide Readable;
    hide TaskFold;
    hide GraphFold;
    hide PoolFold;
    hide AcquirePlan;
    hide LeasePlan;
    hide ReleasePlan;
    hide PoolApply;
    hide FreeFrom;
    hide DispatchOf;
    var run := RunOf(gid, o);
    var acquired := AcquirePlan(m, j, pool, run, NodeTask(gid, o.node), o.worker, actor);
    AcquireSound(m, j, pool, run, NodeTask(gid, o.node), o.worker, actor, now);
    DispatchGoesOn(m, j, gid, pool, [o], ttl, actor, now);
    var j1 := Extend(j, m, now, acquired.entries);
    var leased := LeasePlan(m, j1, gid, o.node, o.worker, ttl, o.lease, actor, now);
    var j2 := Extend(j1, m, now, leased.entries);
    assert [o][1..] == [];
    NoOffers(m, j2, gid, pool, ttl, actor, now);
    LeaseIsForeign(m, j1, gid, o.node, o.worker, ttl, o.lease, actor, now);
    ForeignToPool(m, j1, pool, now, leased.entries, run);
    ReleaseGoes(m, j2, pool, run, actor, now);
    ExtendAppend(j, m, now, acquired.entries, leased.entries);
    ExtendAppend(j, m, now, acquired.entries + leased.entries, ReleasePlan(m, j2, pool, run, actor).entries);
  }

  lemma NoOffers(m: string, j: seq<Event>, gid: string, pool: string, ttl: int, actor: string, now: real)
    requires Sound(j, m)
    ensures DispatchOf(m, j, gid, pool, [], ttl, actor, now) == Dispatch([], None, [])
  {
  }

  /** The release of an active run always goes through. */
  lemma ReleaseGoes(m: string, j: seq<Event>, pool: string, run: RunId, actor: string, now: real)
    requires Sound(j, m) && PoolFold(j, pool).Success? && run in PoolFold(j, pool).value.active && m != ""
      && actor != ""
    ensures var plan := ReleasePlan(m, j, pool, run, actor); var v := PoolFold(j, pool).value;
      && plan.fault.None?
      && PoolFold(Extend(j, m, now, plan.entries), pool) == Success(v.(active := v.active - {run}))
  {
    hide PoolFold;
    hide TaskFold;
    hide RecordFold;
    hide PoolApply;
    ActiveByKeys(j, pool, run);
    var e := PoolEntry(actor, LastSeq(j, pool), SlotReleased(pool, run));
    ExtendOne(j, m, now, e);
    PoolFoldAppend(j, pool, Stamp(m, |j| + 1, now, e));
    ReleaseApplies(PoolFold(j, pool).value, pool, run);
  }

  /** Two dispatchers that read the same node as ready and offer it to the same worker: the second
      one is answered with the first one's slot, its lease is refused, and its compensating release
      gives that slot away, while the node runs under the first one's lease. */
  lemma SecondDispatcher(m: string, j: seq<Event>, gid: string, pool: string, o: Offer, ttl: int, actor: string,
                         now: real,
                         second: string, lease: string, later: real)
    requires Dispatchable(m, j, gid, pool, [o]) && FreeSlots(PoolFold(j, pool).value) > 0
    requires m != "" && actor != "" && second != "" && ttl > 0
    ensures var first := DispatchOf(m, j, gid, pool, [o], ttl, actor, now);
      var j1 := Extend(j, m, now, first.entries);
      && first.fault.None? && Sound(j1, m) && PoolFold(j1, pool).Success? && GraphFold(j1, gid).Success?
      && RunOf(gid, o) in PoolFold(j1, pool).value.active
      && o.node in GraphFold(j1, gid).value.nodes && GraphFold(j1, gid).value.nodes[o.node].status == Running
      && var again := DispatchOf(m, j1, gid, pool, [Offer(o.node, o.worker, lease)], ttl, second, later);
         var j2 := Extend(j1, m, later, again.entries);
         && again.fault == Some(Conflict)
         && PoolFold(j2, pool)
           == Success(PoolFold(j1, pool).value.(active := PoolFold(j1, pool).value.active - {RunOf(gid, o)}))
         && GraphFold(j2, gid) == GraphFold(j1, gid)
  {
    hide Good;
    hide Healthy;
    hide Sound;
    hide Readable;
    hide TaskFold;
    hide GraphFold;
    hide PoolFold;
    hide LeasePlan;
    hide ReleasePlan;
    hide PoolGood;
    hide Dispatchable;
    hide DispatchOf;
    hide AcquirePlan;
    hide FreeFrom;
    var j1 := FirstDispatch(m, j, gid, pool, o, ttl, actor, now);
    var again, run := Offer(o.node, o.worker, lease), RunOf(gid, o);
    var v := PoolFold(j1, pool).value;
    HeldRun(m, j1, pool, run, NodeTask(gid, o.node), o.worker, second);
    ExtendNone(j1, m, later);
    LeaseRefused(m, j1, gid, o.node, o.worker, ttl, lease, second, later);
    DispatchGoesOn(m, j1, gid, pool, [again], ttl, second, later);
    ReleaseGoes(m, j1, pool, run, second, later);
    ReleaseReads(m, j1, gid, pool, run, second, later);
    assert [] + [] + ReleasePlan(m, j1, pool, run, second).entries == ReleasePlan(m, j1, pool, run, second).entries;
  }

  lemma HeldRun(m: string, j: seq<Event>, pool: string, run: RunId, task: TaskId, worker: string, actor: string)
    requires PoolFold(j, pool).Success? && PoolFold(j, pool).value.configured && run in PoolFold(j, pool).value.active
    requires PoolFold(j, pool).value.active[run].task == task && PoolFold(j, pool).value.active[run].worker == worker
    ensures AcquirePlan(m, j, pool, run, task, worker, actor) == Plan([], None)
  {
  }

  lemma LeaseRefused(m: string, j: seq<Event>, gid: string, n: string, worker: string, ttl: int, lease: string,
                     actor: string, now: real)
    requires Readable(j) && Healthy(j, gid)
    requires n in GraphFold(j, gid).value.nodes && GraphFold(j, gid).value.nodes[n].status == Running
    ensures LeasePlan(m, j, gid, n, worker, ttl, lease, actor, now) == Plan([], Some(Conflict))
  {
    hide Readable;
    hide Healthy;
    hide GraphFold;
    hide LeasePlan;
    HealthyLinked(j, gid);
    LeasePlanned(m, j, gid, n, worker, ttl, lease, actor, now);
  }

  lemma ReleaseReads(m: string, j: seq<Event>, gid: string, pool: string, run: RunId, actor: string, now: real)
    requires ReleasePlan(m, j, pool, run, actor).fault.None?
    ensures GraphFold(Extend(j, m, now, ReleasePlan(m, j, pool, run, actor).entries), gid) == GraphFold(j, gid)
  {
    hide GraphFold;
    hide PoolFold;
    var e := PoolEntry(actor, LastSeq(j, pool), SlotReleased(pool, run));
    ExtendNone(j, m, now);
    ExtendOne(j, m, now, e);
    PoolFactReads(j, Stamp(m, |j| + 1, now, e));
  }

  /** The journal after an undisturbed dispatch of one offer. */
  lemma FirstDispatch(m: string, j: seq<Event>, gid: string, pool: string, o: Offer, ttl: int, actor: string, now: real)
    returns (j1: seq<Event>)
    requires Dispatchable(m, j, gid, pool, [o]) && FreeSlots(PoolFold(j, pool).value) > 0
    requires m != "" && actor != "" && ttl > 0
    ensures var first := DispatchOf(m, j, gid, pool, [o], ttl, actor, now);
      first.fault.None? && j1 == Extend(j, m, now, first.entries)
    ensures Sound(j1, m) && Readable(j1) && Healthy(j1, gid) && PoolFold(j1, pool).Success?
      && PoolFold(j1, pool).value.configured
    ensures var v, run := PoolFold(j1, pool).value, RunOf(gid, o);
      run in v.active && v.active[run].task == NodeTask(gid, o.node) && v.active[run].worker == o.worker
    ensures GraphFold(j1, gid).Success? && o.node in GraphFold(j1, gid).value.nodes
      && GraphFold(j1, gid).value.nodes[o.node].status == Running
  {
    hide Good;
    hide Healthy;
    hide Sound;
    hide Readable;
    hide TaskFold;
    hide GraphFold;
    hide PoolFold;
    hide AcquirePlan;
    hide LeasePlan;
    hide PoolGood;
    hide DispatchOf;
    hide FreeFrom;
    hide Ready;
    var run, task := RunOf(gid, o), NodeTask(gid, o.node);
    OfferTaken(m, j, gid, pool, [o], ttl, actor, now);
    DispatchableSound(m, j, gid, pool, [o]);
    var acquired := AcquirePlan(m, j, pool, run, task, o.worker, actor);
    var held := Extend(j, m, now, acquired.entries);
    var leased := LeasePlan(m, held, gid, o.node, o.worker, ttl, o.lease, actor, now);
    j1 := Extend(held, m, now, leased.entries);
    DispatchGoesOn(m, j, gid, pool, [o], ttl, actor, now);
    var rest: seq<Offer> := [o][1..];
    assert rest == [];
    DispatchableSound(m, j1, gid, pool, rest);
    NoOffers(m, j1, gid, pool, ttl, actor, now);
    ExtendAppend(j, m, now, acquired.entries, leased.entries);
    assert acquired.entries + leased.entries + [] == acquired.entries + leased.entries;
    GoodUnfold(j1, gid, m);
  }

  lemma DispatchableSound(m: string, j: seq<Event>, gid: string, pool: string, offers: seq<Offer>)
    requires Dispatchable(m, j, gid, pool, offers)
    ensures Sound(j, m) && Good(j, gid, m) && Healthy(j, gid)
    ensures PoolFold(j, pool).Success? && PoolFold(j, pool).value.configured
  {
  }

  /** The workers with a name, in order. */
  function NamedWorkers(workers: seq<string>): seq<string> {
    if workers == [] then []
    else
      var earlier := NamedWorkers(workers[..|workers| - 1]);
      if workers[|workers| - 1] == "" then earlier else earlier + [workers[|workers| - 1]]
  }

  lemma {:induction false} FewerNamed(workers: seq<string>)
    ensures |NamedWorkers(workers)| <= |workers|
  {
    if workers != [] { FewerNamed(workers[..|workers| - 1]); }
  }

  function OfferedNodes(offers: seq<Offer>): seq<string> {
    seq(|offers|, i requires 0 <= i < |offers| => offers[i].node)
  }

  function OfferedTo(offers: seq<Offer>): seq<string> {
    seq(|offers|, i requires 0 <= i < |offers| => offers[i].worker)
  }

  /** `zip(ready, workers)`, with a lease id for each: the first ready nodes go to the first workers,
      and one of the two lists is used up. */
  function Offers(ready: seq<string>, workers: seq<string>, leases: seq<string>): (r: seq<Offer>)
    requires |workers| <= |leases|
    ensures OfferedNodes(r) <= ready && OfferedTo(r) <= workers
    ensures OfferedNodes(r) == ready || OfferedTo(r) == workers
  {
    seq(Min(|ready|, |workers|), i requires 0 <= i < Min(|ready|, |workers|) => Offer(ready[i], workers[i], leases[i]))
  }

  /** `dispatch_ready`. */
  ghost function DispatchReadyOf(m: string, j: seq<Event>, gid: string, pool: string, workers: seq<string>,
                                 leases: seq<string>, ttl: int, actor: string, now: real): Dispatch
    requires Sound(j, m) && TaskFold(j).Success? && |workers| <= |leases|
  {
    FewerNamed(workers);
    if ttl <= 0 then Dispatch([], Some(ValueFault), [])
    else if NamedWorkers(workers) == [] then Dispatch([], None, [])
    else
      match ReadyReport(gid, j)
      case Failure(error) => Dispatch([], Some(error), [])
      case Success(ready) => DispatchOf(m, j, gid, pool, Offers(ready, NamedWorkers(workers), leases), ttl, actor, now)
  }

  /** With new run ids, on a journal that follows the rules, the nodes assigned are exactly the
      first min(ready, named workers, free slots) ready nodes, in order. */
  lemma DispatchReadyExact(m: string, j: seq<Event>, gid: string, pool: string, workers: seq<string>,
                           leases: seq<string>, ttl: int, actor: string, now: real)
    requires Good(j, gid, m) && Healthy(j, gid) && PoolGood(j, m, pool) && m != "" && actor != "" && ttl > 0
    requires PoolFold(j, pool).Success? && PoolFold(j, pool).value.configured && |workers| <= |leases|
    requires forall n, w :: Ready(gid, GraphFold(j, gid).value, TaskFold(j).value.tasks, n) && w in workers ==>
      Unused(j, OfPool(AcquireKey(pool, NodeRun(gid, n, w))))
    ensures var d := DispatchReadyOf(m, j, gid, pool, workers, leases, ttl, actor, now);
      && ReadyReport(gid, j).Success? && |NamedWorkers(workers)| <= |leases|
      && var ready, named := ReadyReport(gid, j).value, NamedWorkers(workers);
         var k := Min(Min(|ready|, |named|), FreeSlots(PoolFold(j, pool).value));
           var j' := Extend(j, m, now, d.entries);
         && d.fault.None? && |d.assignments| == k && |d.entries| == 3 * k
         && (forall i :: 0 <= i < k ==> d.assignments[i].node == ready[i] && d.assignments[i].worker == named[i])
         && (forall a, b :: 0 <= a < b < k ==> d.assignments[a].slot != d.assignments[b].slot)
         && Dispatched(j, j', gid, pool, Offers(ready, named, leases)[..k], d.assignments)
         && Good(j', gid, m) && PoolGood(j', m, pool)
  {
    hide Good;
    hide PoolGood;
    hide Healthy;
    hide Sound;
    hide TaskFold;
    hide GraphFold;
    hide PoolFold;
    hide Ready;
    hide DispatchOf;
    hide Dispatched;
    hide ReadyNodes;
    hide Linked;
    FewerNamed(workers);
    HealthyLinked(j, gid);
    PoolGoodSound(j, m, pool);
    ReadyNodesExact(gid, GraphFold(j, gid).value, TaskFold(j).value.tasks);
    var ready, named := ReadyReport(gid, j).value, NamedWorkers(workers);
    var offers := Offers(ready, named, leases);
    AllNamed(workers);
    forall i | 0 <= i < |offers|
      ensures Ready(gid, GraphFold(j, gid).value, TaskFold(j).value.tasks, offers[i].node)
      ensures Unused(j, OfPool(AcquireKey(pool, RunOf(gid, offers[i])))) {
      assert ready[i] in ready && named[i] in named;
    }
    if named == [] {
      ExtendNone(j, m, now);
      NothingDispatched(j, gid, pool);
      assert offers[..0] == [];
    } else {
      DispatchExact(m, j, gid, pool, offers, ttl, actor, now);
      var d, taken := DispatchOf(m, j, gid, pool, offers, ttl, actor, now),
        offers[..Min(|offers|, FreeSlots(PoolFold(j, pool).value))];
      var after := Extend(j, m, now, d.entries);
      AssignmentsNamed(j, after, gid, pool, taken, d.assignments);
      SlotsApart(m, j, after, gid, pool, taken, d.assignments);
    }
  }

  lemma PoolGoodSound(j: seq<Event>, m: string, pool: string)
    requires PoolGood(j, m, pool)
    ensures Sound(j, m)
  {
  }

  lemma {:induction false} AllNamed(workers: seq<string>)
    ensures forall w :: w in NamedWorkers(workers) ==> w in workers
  {
    if workers != [] { AllNamed(workers[..|workers| - 1]); }
  }

  /** The slots a dispatch hands out differ, since its runs do. */
  lemma SlotsApart(m: string, j: seq<Event>, after: seq<Event>, gid: string, pool: string, taken: seq<Offer>,
                   assignments: seq<Assignment>)
    requires Dispatched(j, after, gid, pool, taken, assignments) && PoolGood(after, m, pool)
    requires forall a, b :: 0 <= a < b < |taken| ==> taken[a].node != taken[b].node
    ensures forall a, b :: 0 <= a < b < |assignments| ==> assignments[a].slot != assignments[b].slot
  {
    hide PoolFold;
    hide PoolGood;
    hide NodesDispatched;
    PoolGoodFacts(after, m, pool);
    var w := PoolFold(after, pool).value;
    forall a, b | 0 <= a < b < |taken| ensures assignments[a].slot != assignments[b].slot {
      assert Assigns(w, gid, taken[a], assignments[a]) && Assigns(w, gid, taken[b], assignments[b]);
      assert RunOf(gid, taken[a]) != RunOf(gid, taken[b]);
    }
  }

  lemma AssignmentsNamed(j: seq<Event>, after: seq<Event>, gid: string, pool: string, taken: seq<Offer>,
                         assignments: seq<Assignment>)
    requires Dispatched(j, after, gid, pool, taken, assignments)
    ensures |assignments| == |taken|
    ensures forall i :: 0 <= i < |taken| ==>
      assignments[i].node == taken[i].node && assignments[i].worker == taken[i].worker
  {
    forall i | 0 <= i < |taken|
      ensures assignments[i].node == taken[i].node && assignments[i].worker == taken[i].worker {
      assert Assigns(PoolFold(after, pool).value, gid, taken[i], assignments[i]);
    }
  }
}
