/** `GraphScheduler` as the class that drives a graph engine and a runtime pool. */
module SchedulerCalls {
  import opened Base
  import opened Journal
  import opened Tasks
  import opened Records
  import opened GraphLog
  import opened PoolLog
  import opened Store
  import opened Projection
  import opened GraphPlans
  import opened GraphCalls
  import opened PoolRules
  import opened PoolCalls
  import opened Scheduling

  /** A dispatch of which a part is done. */
  function Prefixed(done: seq<Entry>, assignments: seq<Assignment>, rest: Dispatch): Dispatch {
    Dispatch(done + rest.entries, rest.fault, assignments + rest.assignments)
  }

  lemma PrefixedNothing(d: Dispatch)
    ensures Prefixed([], [], d) == d
  {
    assert [] + d.entries == d.entries && [] + d.assignments == d.assignments;
  }

  lemma PrefixedTwice(done: seq<Entry>, assignments: seq<Assignment>, more: seq<Entry>, a: Assignment, rest: Dispatch)
    ensures Prefixed(done, assignments, Dispatch(more + rest.entries, rest.fault, [a] + rest.assignments))
         == Prefixed(done + more, assignments + [a], rest)
  {
    assert done + (more + rest.entries) == (done + more) + rest.entries;
    assert assignments + ([a] + rest.assignments) == (assignments + [a]) + rest.assignments;
  }

  lemma FirstAndRest<T>(x: T, rest: seq<T>)
    ensures var all := [x] + rest; all != [] && all[0] == x && all[1..] == rest
  {
  }

  lemma PoolNeverCrashes(m: string, j: seq<Event>, pool: string, run: RunId, task: TaskId, worker: string,
                         actor: string)
    ensures AcquirePlan(m, j, pool, run, task, worker, actor).fault != Some(Crashed)
    ensures ReleasePlan(m, j, pool, run, actor).fault != Some(Crashed)
    ensures AcquirePlan(m, j, pool, run, task, worker, actor).fault.Some? ==>
      AcquirePlan(m, j, pool, run, task, worker, actor).entries == []
  {
    hide PoolFold;
  }

  lemma LeaseNeverCrashes(m: string, j: seq<Event>, gid: string, n: string, worker: string, ttl: int, lease: string,
                          actor: string, now: real)
    requires Readable(j)
    ensures LeasePlan(m, j, gid, n, worker, ttl, lease, actor, now).fault != Some(Crashed)
  {
    hide Readable;
    hide TaskFold;
    hide GraphFold;
    hide ReadyAmong;
    if GraphFold(j, gid).Success? {
      PoolReadable(j);
      ReadyErrors(gid, GraphFold(j, gid).value, TaskFold(j).value.tasks);
    }
  }

  lemma PoolReadable(j: seq<Event>)
    requires Readable(j)
    ensures TaskFold(j).Success?
  {
  }

  lemma ReadyErrors(gid: string, g: GraphView, tasks: TaskMap)
    ensures GraphPlans.ReadyNodes(gid, g, tasks).Failure? ==> GraphPlans.ReadyNodes(gid, g, tasks).error == KeyFault
  {
    if g.status == Running { ReadyAmongErrors(gid, g, tasks, g.order); }
  }

  lemma {:induction false} ReadyAmongErrors(gid: string, g: GraphView, tasks: TaskMap, order: seq<string>)
    ensures ReadyAmong(gid, g, tasks, order).Failure? ==> ReadyAmong(gid, g, tasks, order).error == KeyFault
  {
    if order != [] {
      ReadyAmongErrors(gid, g, tasks, order[..|order| - 1]);
      var n := order[|order| - 1];
      if n in g.nodes { DepsErrors(gid, tasks, g.nodes[n].blockedBy); }
    }
  }

  lemma {:induction false} DepsErrors(gid: string, tasks: TaskMap, deps: seq<string>)
    ensures DepsDone(gid, tasks, deps).Failure? ==> DepsDone(gid, tasks, deps).error == KeyFault
  {
    if deps != [] { DepsErrors(gid, tasks, deps[1..]); }
  }

  /** An exception that is not the crash comes after everything planned was written. */
  lemma RanFull(m: string, now: real, p: Plan, a: map<string, Tables>, fa: nat, b: map<string, Tables>, fb: nat,
                error: Error)
    requires Ran(m, now, p, a, fa, b, fb, Some(error)) && error != Crashed
    ensures p.fault == Some(error) && Ran(m, now, Plan(p.entries, None), a, fa, b, fb, None)
  {
  }

  /** The process died while the first of two plans was carried out. */
  lemma RanCut(m: string, now: real, done: seq<Entry>, p: Plan, more: seq<Entry>, fault: Option<Error>,
               a: map<string, Tables>, fa: nat, at: map<string, Tables>, left: nat, b: map<string, Tables>, fb: nat)
    requires Ran(m, now, Plan(done, None), a, fa, at, left, None) && Ran(m, now, p, at, left, b, fb, Some(Crashed))
    requires p.fault != Some(Crashed)
    ensures Ran(m, now, Plan(done + (p.entries + more), fault), a, fa, b, fb, Some(Crashed))
  {
    RanThen(m, now, Plan(done, None), p, a, fa, at, left, b, fb, Some(Crashed));
    RanCrashed(m, now, Plan(done + p.entries, p.fault), more, fault, a, fa, b, fb);
    assert (done + p.entries) + more == done + (p.entries + more);
  }

  class GraphScheduler {
    const engine: GraphEngine
    const pool: LocalRuntimePool

    constructor (engine: GraphEngine, pool: LocalRuntimePool)
      requires engine.runtime == pool.runtime
      ensures this.engine == engine && this.pool == pool
    {
      this.engine := engine;
      this.pool := pool;
    }

    /** One offer: acquire a slot, lease the node, and give the slot back if the lease fails.
        `r` is the assignment; None means that there was no free slot. */
    method TakeOffer(gid: string, o: Offer, ttl: int, actor: string, now: real, ghost rest: seq<Offer>,
                     ghost done: seq<Entry>, ghost before: map<string, Tables>, ghost fuel: nat)
      returns (r: Result<Option<Assignment>>, ghost added: seq<Entry>)
      requires engine.runtime == pool.runtime && engine.runtime.Valid()
      requires Ran(engine.runtime.mission, now, Plan(done, None), before, fuel,
                   engine.runtime.store.missions, engine.runtime.store.fuel, None)
      requires Sound(engine.runtime.Events(), engine.runtime.mission)
      modifies engine.runtime.store
      ensures engine.runtime.Valid() && Sound(engine.runtime.Events(), engine.runtime.mission)
      ensures var m := engine.runtime.mission;
        var d := DispatchOf(m, old(engine.runtime.Events()), gid, pool.pool, [o] + rest, ttl, actor, now);
        match r
        case Failure(error) =>
          Ran(m, now, Plan(done + d.entries, d.fault), before, fuel, engine.runtime.store.missions,
            engine.runtime.store.fuel, Some(error))
        case Success(None) =>
          && d == Dispatch([], None, []) && added == []
          && Ran(m, now, Plan(done, None), before, fuel, engine.runtime.store.missions, engine.runtime.store.fuel, None)
        case Success(Some(a)) =>
          && Ran(m, now, Plan(done + added, None), before, fuel, engine.runtime.store.missions,
            engine.runtime.store.fuel, None)
          && var next := DispatchOf(m, engine.runtime.Events(), gid, pool.pool, rest, ttl, actor, now);
             d == Dispatch(added + next.entries, next.fault, [a] + next.assignments)
    {
      hide Ran;
      hide WellKept;
      hide Sound;
      hide Readable;
      hide TaskFold;
      hide RecordFold;
      hide GraphFold;
      hide PoolFold;
      hide AcquirePlan;
      hide LeasePlan;
      hide ReleasePlan;
      hide DispatchOf;
      hide LeasePart;
      hide RunOf;
      ghost var m, j := engine.runtime.mission, engine.runtime.Events();
      ghost var s0, f0 := engine.runtime.store.missions, engine.runtime.store.fuel;
      added := [];
      var run, task := RunOf(gid, o), NodeTask(gid, o.node);
      ghost var offers := [o] + rest;
      FirstAndRest(o, rest);
      ghost var acquired := AcquirePlan(m, j, pool.pool, run, task, o.worker, actor);
      PoolNeverCrashes(m, j, pool.pool, run, task, o.worker, actor);
      var slot := pool.Acquire(run, task, o.worker, actor, now);
      ghost var s1, f1 := engine.runtime.store.missions, engine.runtime.store.fuel;
      KeptReads(Rows(s1, m), m);
      if slot.Failure? {
        RefusedOffer(m, now, j, gid, pool.pool, offers, ttl, actor, done, before, fuel, s0, f0, s1, f1, slot.error);
        if slot.error == PoolBackpressure {
          return Success(None), [];
        }
        return Failure(slot.error), [];
      }
      RanJournal(m, now, acquired, s0, f0, s1, f1);
      DispatchGoesOn(m, j, gid, pool.pool, offers, ttl, actor, now);
      RanThen(m, now, Plan(done, None), acquired, before, fuel, s0, f0, s1, f1, None);
      ghost var j1 := engine.runtime.Events();
      var leased := LeaseOrGiveBack(gid, o, ttl, actor, now, done + acquired.entries, before, fuel);
      ghost var s2, f2 := engine.runtime.store.missions, engine.runtime.store.fuel;
      if leased.Failure? {
        OfferLost(m, now, j, gid, pool.pool, offers, ttl, actor, done, before, fuel, s2, f2, leased.error);
        return Failure(leased.error), [];
      }
      ghost var leasing := LeasePlan(m, j1, gid, o.node, o.worker, ttl, o.lease, actor, now);
      added := acquired.entries + leasing.entries;
      Regroup(done, acquired.entries, leasing.entries);
      return Success(Some(Assignment(o.node, task, o.worker, run, slot.value.slot))), added;
    }

    /** The loop over the offers. */
    method TakeOffers(gid: string, offers: seq<Offer>, ttl: int, actor: string, now: real)
      returns (r: Result<seq<Assignment>>)
      requires engine.runtime == pool.runtime && engine.runtime.Valid()
      modifies engine.runtime.store
      ensures engine.runtime.Valid()
      ensures var d := DispatchOf(engine.runtime.mission, old(engine.runtime.Events()), gid, pool.pool, offers, ttl,
        actor, now);
        && Ran(engine.runtime.mission, now, Plan(d.entries, d.fault), old(engine.runtime.store.missions),
          old(engine.runtime.store.fuel),
               engine.runtime.store.missions, engine.runtime.store.fuel, FaultOf(r))
        && (r.Success? ==> r.value == d.assignments)
    {
      hide Ran;
      hide WellKept;
      hide Sound;
      hide DispatchOf;
      ghost var m, j := engine.runtime.mission, engine.runtime.Events();
      ghost var before, fuel := engine.runtime.store.missions, engine.runtime.store.fuel;
      KeptReads(Rows(before, m), m);
      ghost var d := DispatchOf(m, j, gid, pool.pool, offers, ttl, actor, now);
      ghost var done: seq<Entry> := [];
      var assignments: seq<Assignment> := [];
      RanNothing(m, now, before, fuel, None);
      PrefixedNothing(d);
      for i := 0 to |offers|
        invariant engine.runtime.Valid() && Sound(engine.runtime.Events(), m)
        invariant Ran(m, now, Plan(done, None), before, fuel, engine.runtime.store.missions, engine.runtime.store.fuel,
          None)
        invariant d == Prefixed(done, assignments, DispatchOf(m, engine.runtime.Events(), gid, pool.pool, offers[i..],
          ttl, actor, now))
      {
        assert offers[i..] == [offers[i]] + offers[i + 1..];
        var taken;
        ghost var added;
        taken, added := TakeOffer(gid, offers[i], ttl, actor, now, offers[i + 1..], done, before, fuel);
        if taken.Failure? {
          return Failure(taken.error);
        }
        if taken.value.None? {
          assert done + [] == done && assignments + [] == assignments;
          return Success(assignments);
        }
        ghost var rest := DispatchOf(m, engine.runtime.Events(), gid, pool.pool, offers[i + 1..], ttl, actor, now);
        PrefixedTwice(done, assignments, added, taken.value.value, rest);
        done := done + added;
        assignments := assignments + [taken.value.value];
      }
      assert offers[|offers|..] == [];
      NoOffers(m, engine.runtime.Events(), gid, pool.pool, ttl, actor, now);
      assert done + [] == done && assignments + [] == assignments;
      r := Success(assignments);
    }

    /** `dispatch_ready`.  `leases` are the lease ids its leases would draw. */
    method DispatchReady(gid: string, workers: seq<string>, leases: seq<string>, ttl: int, actor: string, now: real)
      returns (r: Result<seq<Assignment>>)
      requires engine.runtime == pool.runtime && engine.runtime.Valid() && |workers| <= |leases|
      modifies engine.runtime.store
      ensures engine.runtime.Valid()
      ensures var d := DispatchReadyOf(engine.runtime.mission, old(engine.runtime.Events()), gid, pool.pool, workers,
        leases, ttl, actor, now);
        && Ran(engine.runtime.mission, now, Plan(d.entries, d.fault), old(engine.runtime.store.missions),
          old(engine.runtime.store.fuel),
               engine.runtime.store.missions, engine.runtime.store.fuel, FaultOf(r))
        && (r.Success? ==> r.value == d.assignments)
    {
      hide Ran;
      hide WellKept;
      hide Sound;
      hide DispatchOf;
      hide TaskFold;
      ghost var m, before, fuel := engine.runtime.mission, engine.runtime.store.missions, engine.runtime.store.fuel;
      KeptReads(Rows(before, m), m);
      if ttl <= 0 {
        RanNothing(m, now, before, fuel, Some(ValueFault));
        return Failure(ValueFault);
      }
      var named := [];
      for i := 0 to |workers|
        invariant named == NamedWorkers(workers[..i])
      {
        assert workers[..i + 1][..i] == workers[..i];
        if workers[i] != "" {
          named := named + [workers[i]];
        }
      }
      assert workers[..|workers|] == workers;
      FewerNamed(workers);
      if named == [] {
        RanNothing(m, now, before, fuel, None);
        return Success([]);
      }
      var ready := engine.ReadyNodes(gid);
      if ready.Failure? {
        RanNothing(m, now, before, fuel, Some(ready.error));
        return Failure(ready.error);
      }
      r := TakeOffers(gid, Offers(ready.value, named, leases), ttl, actor, now);
    }

    /** `release_assignment`. */
    method ReleaseAssignment(a: Assignment, actor: string, now: real) returns (r: Result<PoolView>)
      requires pool.runtime.Valid()
      modifies pool.runtime.store
      ensures pool.runtime.Valid()
      ensures Ran(pool.runtime.mission, now, ReleasePlan(pool.runtime.mission, old(pool.runtime.Events()), pool.pool,
        a.run, actor),
                  old(pool.runtime.store.missions), old(pool.runtime.store.fuel),
                  pool.runtime.store.missions, pool.runtime.store.fuel, FaultOf(r))
    {
      hide Ran;
      r := pool.Release(a.run, actor, now);
    }

    /** The lease of an offer whose slot was acquired, with the compensating release. */
    method LeaseOrGiveBack(gid: string, o: Offer, ttl: int, actor: string, now: real,
                           ghost done: seq<Entry>, ghost before: map<string, Tables>, ghost fuel: nat)
                           returns (r: Result<TaskState>)
      requires engine.runtime == pool.runtime && engine.runtime.Valid()
      requires Ran(engine.runtime.mission, now, Plan(done, None), before, fuel,
                   engine.runtime.store.missions, engine.runtime.store.fuel, None)
      requires Sound(engine.runtime.Events(), engine.runtime.mission)
      modifies engine.runtime.store
      ensures engine.runtime.Valid() && Sound(engine.runtime.Events(), engine.runtime.mission)
      ensures var m, j1 := engine.runtime.mission, old(engine.runtime.Events());
        var leasing := LeasePlan(m, j1, gid, o.node, o.worker, ttl, o.lease, actor, now);
        match r
        case Success(_) =>
          && leasing.fault.None? && engine.runtime.Events() == Extend(j1, m, now, leasing.entries)
          && Ran(m, now, Plan(done + leasing.entries, None), before, fuel, engine.runtime.store.missions,
            engine.runtime.store.fuel, None)
        case Failure(error) =>
          var part := LeasePart(m, j1, gid, pool.pool, o, ttl, actor, now);
          Ran(m, now, Plan(done + part.entries, part.fault), before, fuel, engine.runtime.store.missions,
            engine.runtime.store.fuel, Some(error))
          && (leasing.fault.None? ==> error == Crashed)
    {
      hide Ran;
      hide WellKept;
      hide Sound;
      hide Readable;
      hide TaskFold;
      hide RecordFold;
      hide GraphFold;
      hide PoolFold;
      hide LeasePlan;
      hide ReleasePlan;
      ghost var m, j1 := engine.runtime.mission, engine.runtime.Events();
      ghost var s1, f1 := engine.runtime.store.missions, engine.runtime.store.fuel;
      SoundReadable(j1, m);
      ghost var leasing := LeasePlan(m, j1, gid, o.node, o.worker, ttl, o.lease, actor, now);
      var run := RunOf(gid, o);
      LeaseNeverCrashes(m, j1, gid, o.node, o.worker, ttl, o.lease, actor, now);
      r := engine.LeaseNode(gid, o.node, o.worker, ttl, o.lease, actor, now);
      ghost var s2, f2 := engine.runtime.store.missions, engine.runtime.store.fuel;
      KeptReads(Rows(s2, m), m);
      if r.Success? {
        RanJournal(m, now, leasing, s1, f1, s2, f2);
        RanThen(m, now, Plan(done, None), leasing, before, fuel, s1, f1, s2, f2, None);
        return;
      }
      ghost var part := LeasePart(m, j1, gid, pool.pool, o, ttl, actor, now);
      if r.error == Crashed {
        ghost var more := part.entries[|leasing.entries|..];
        assert part.entries == leasing.entries + more;
        RanCut(m, now, done, leasing, more, part.fault, before, fuel, s1, f1, s2, f2);
        return;
      }
      RanFull(m, now, leasing, s1, f1, s2, f2, r.error);
      RanJournal(m, now, Plan(leasing.entries, None), s1, f1, s2, f2);
      RanThen(m, now, Plan(done, None), Plan(leasing.entries, None), before, fuel, s1, f1, s2, f2, None);
      ghost var releasing := ReleasePlan(m, engine.runtime.Events(), pool.pool, run, actor);
      PoolNeverCrashes(m, engine.runtime.Events(), pool.pool, run, NodeTask(gid, o.node), o.worker, actor);
      var released := pool.Release(run, actor, now);
      ghost var s3, f3 := engine.runtime.store.missions, engine.runtime.store.fuel;
      KeptReads(Rows(s3, m), m);
      GaveBack(m, now, done + leasing.entries, releasing, r.error, before, fuel, s2, f2, s3, f3, FaultOf(released));
      assert (done + leasing.entries) + releasing.entries == done + part.entries;
      if released.Failure? {
        r := Failure(released.error);
      }
    }
  }

  /** The lease of an offer and, if it fails, the release of its slot. */
  ghost function LeasePart(m: string, j1: seq<Event>, gid: string, pool: string, o: Offer, ttl: int, actor: string,
                           now: real): Plan
    requires Readable(j1)
  {
    var leasing := LeasePlan(m, j1, gid, o.node, o.worker, ttl, o.lease, actor, now);
    if leasing.fault.None? then leasing
    else
      var releasing := ReleasePlan(m, Extend(j1, m, now, leasing.entries), pool, RunOf(gid, o), actor);
      Plan(leasing.entries + releasing.entries, if releasing.fault.Some? then releasing.fault else leasing.fault)
  }

  /** An offer whose lease failed or was cut short ends the whole dispatch. */
  lemma OfferLost(m: string, now: real, j: seq<Event>, gid: string, pool: string, offers: seq<Offer>, ttl: int,
                  actor: string,
                  done: seq<Entry>, a: map<string, Tables>, fa: nat, b: map<string, Tables>, fb: nat, error: Error)
    requires Sound(j, m) && offers != []
    requires var o := offers[0];
      AcquirePlan(m, j, pool, RunOf(gid, o), NodeTask(gid, o.node), o.worker, actor).fault.None?
    requires var o := offers[0];
      var acquired := AcquirePlan(m, j, pool, RunOf(gid, o), NodeTask(gid, o.node), o.worker, actor);
      var j1 := Extend(j, m, now, acquired.entries);
      && Readable(j1)
      && var part := LeasePart(m, j1, gid, pool, o, ttl, actor, now);
         && (LeasePlan(m, j1, gid, o.node, o.worker, ttl, o.lease, actor, now).fault.None? ==> error == Crashed)
         && Ran(m, now, Plan((done + acquired.entries) + part.entries, part.fault), a, fa, b, fb, Some(error))
    ensures var d := DispatchOf(m, j, gid, pool, offers, ttl, actor, now);
      Ran(m, now, Plan(done + d.entries, d.fault), a, fa, b, fb, Some(error))
  {
    hide Ran;
    hide Sound;
    hide Readable;
    hide AcquirePlan;
    hide LeasePlan;
    hide ReleasePlan;
    hide PoolFold;
    hide DispatchOf;
    DispatchGoesOn(m, j, gid, pool, offers, ttl, actor, now);
    var o := offers[0];
    var acquired := AcquirePlan(m, j, pool, RunOf(gid, o), NodeTask(gid, o.node), o.worker, actor);
    var part := LeasePart(m, Extend(j, m, now, acquired.entries), gid, pool, o, ttl, actor, now);
    var d := DispatchOf(m, j, gid, pool, offers, ttl, actor, now);
    if part.fault.None? {
      var more := d.entries[|acquired.entries + part.entries|..];
      assert d.entries == acquired.entries + part.entries + more;
      assert (done + acquired.entries) + part.entries + more == done + d.entries;
      RanCrashed(m, now, Plan((done + acquired.entries) + part.entries, part.fault), more, d.fault, a, fa, b, fb);
    } else {
      assert d.entries == acquired.entries + part.entries && d.fault == part.fault;
      assert (done + acquired.entries) + part.entries == done + d.entries;
    }
  }

  /** An acquisition that was refused: backpressure ends the dispatch quietly. */
  lemma RefusedOffer(m: string, now: real, j: seq<Event>, gid: string, pool: string, offers: seq<Offer>, ttl: int,
                     actor: string,
                     done: seq<Entry>, a: map<string, Tables>, fa: nat, at: map<string, Tables>, left: nat,
                     b: map<string, Tables>, fb: nat, error: Error)
    requires Sound(j, m) && offers != []
    requires Ran(m, now, Plan(done, None), a, fa, at, left, None)
    requires var o := offers[0];
      Ran(m, now, AcquirePlan(m, j, pool, RunOf(gid, o), NodeTask(gid, o.node), o.worker, actor), at, left, b, fb,
        Some(error))
    ensures var d := DispatchOf(m, j, gid, pool, offers, ttl, actor, now);
      if error == PoolBackpressure then d == Dispatch([], None, []) && Ran(m, now, Plan(done, None), a, fa, b, fb, None)
      else Ran(m, now, Plan(done + d.entries, d.fault), a, fa, b, fb, Some(error))
  {
    hide Ran;
    hide Sound;
    hide AcquirePlan;
    hide LeasePlan;
    hide ReleasePlan;
    hide PoolFold;
    hide GraphFold;
    hide TaskFold;
    var o := offers[0];
    var acquired := AcquirePlan(m, j, pool, RunOf(gid, o), NodeTask(gid, o.node), o.worker, actor);
    PoolNeverCrashes(m, j, pool, RunOf(gid, o), NodeTask(gid, o.node), o.worker, actor);
    var d := DispatchOf(m, j, gid, pool, offers, ttl, actor, now);
    if error == Crashed {
      CrashNeedsEntries(m, now, acquired, at, left, b, fb);
      DispatchGoesOn(m, j, gid, pool, offers, ttl, actor, now);
      var more := d.entries[|acquired.entries|..];
      assert d.entries == acquired.entries + more;
      RanCut(m, now, done, acquired, more, d.fault, a, fa, at, left, b, fb);
    } else {
      RanFull(m, now, acquired, at, left, b, fb, error);
      RanThen(m, now, Plan(done, None), acquired, a, fa, at, left, b, fb, Some(error));
      RanThen(m, now, Plan(done, None), Plan(acquired.entries, None), a, fa, at, left, b, fb, None);
      assert done + [] == done;
    }
  }

  lemma CrashNeedsEntries(m: string, now: real, p: Plan, a: map<string, Tables>, fa: nat, b: map<string, Tables>,
                          fb: nat)
    requires Ran(m, now, p, a, fa, b, fb, Some(Crashed)) && p.fault != Some(Crashed)
    ensures p.entries != []
  {
  }

  /** After a failed lease the slot was given back, or that failed too. */
  lemma GaveBack(m: string, now: real, done: seq<Entry>, releasing: Plan, leaseError: Error,
                 a: map<string, Tables>, fa: nat, at: map<string, Tables>, left: nat,
                 b: map<string, Tables>, fb: nat, fault: Option<Error>)
    requires Ran(m, now, Plan(done, None), a, fa, at, left, None) && Ran(m, now, releasing, at, left, b, fb, fault)
    requires releasing.fault != Some(Crashed)
    ensures Ran(m, now, Plan(done + releasing.entries, if releasing.fault.Some? then releasing.fault
      else Some(leaseError)), a, fa, b, fb,
                if fault.Some? then fault else Some(leaseError))
  {
    RanThen(m, now, Plan(done, None), releasing, a, fa, at, left, b, fb, fault);
    if fault.None? {
    } else if fault == Some(Crashed) {
      RanCrashed(m, now, Plan(done + releasing.entries, releasing.fault), [],
                 if releasing.fault.Some? then releasing.fault else Some(leaseError), a, fa, b, fb);
      assert done + releasing.entries + [] == done + releasing.entries;
    }
  }
}
