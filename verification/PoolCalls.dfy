/** `LocalRuntimePool` as the class that replays the pool, decides and writes. */
module PoolCalls {
  import opened Base
  import opened Journal
  import opened Tasks
  import opened Records
  import opened PoolLog
  import opened Store
  import opened Projection
  import opened RuntimeCalls
  import opened PoolRules

  class LocalRuntimePool {
    const runtime: MissionRuntime
    const pool: string

    constructor (runtime: MissionRuntime, pool: string)
      ensures this.runtime == runtime && this.pool == pool
    {
      this.runtime := runtime;
      this.pool := pool;
    }

    /** One append of a pool event, under the key its version gives it. */
    method Put(actor: string, last: int, f: PoolFact, now: real) returns (r: Result<Event>)
      requires runtime.Valid() && f.pool == pool && last == LastSeq(runtime.Events(), pool)
      modifies runtime.store
      ensures runtime.Valid()
      ensures Ran(runtime.mission, now, PutPlan(runtime.mission, old(runtime.Events()), PoolEntry(actor, last, f)),
                  old(runtime.store.missions), old(runtime.store.fuel), runtime.store.missions, runtime.store.fuel,
                  FaultOf(r))
      ensures TaskFold(runtime.Events()) == old(TaskFold(runtime.Events()))
    {
      hide Ran;
      hide WellKept;
      hide TaskFold;
      hide RecordFold;
      hide Acceptable;
      hide PoolKeyOf;
      ghost var m, before, fuel := runtime.mission, runtime.store.missions, runtime.store.fuel;
      ghost var e := PoolEntry(actor, last, f);
      KeptReads(Rows(before, m), m);
      if PutPlan(m, runtime.Events(), e) == Plan([e], None) {
        PoolPutAcceptable(m, runtime.Events(), f, actor, e);
      }
      r := runtime.store.Append(runtime.mission, actor, PoolKeyOf(last, f), Pool(f), now);
      PutKept(m, now, e, before, fuel, runtime.store.missions, runtime.store.fuel, FaultOf(r));
    }

    /** `configure`. */
    method Configure(target: int, actor: string, now: real) returns (r: Result<PoolView>)
      requires runtime.Valid()
      modifies runtime.store
      ensures runtime.Valid()
      ensures Ran(runtime.mission, now, ConfigurePlan(runtime.mission, old(runtime.Events()), pool, target, actor),
                  old(runtime.store.missions), old(runtime.store.fuel), runtime.store.missions, runtime.store.fuel,
                  FaultOf(r))
      ensures r.Success? ==> r == PoolFold(runtime.Events(), pool)
      ensures TaskFold(runtime.Events()) == old(TaskFold(runtime.Events()))
    {
      hide Ran;
      hide runtime.Valid;
      hide PoolFold;
      hide PutPlan;
      hide TaskFold;
      hide PoolApply;
      ghost var m, before, fuel := runtime.mission, runtime.store.missions, runtime.store.fuel;
      ghost var j := runtime.Events();
      if target < 1 {
        RanNothing(m, now, before, fuel, Some(ValueFault));
        return Failure(ValueFault);
      }
      var current, last := ReplayPool(runtime.Events(), pool);
      if current.Failure? {
        RanNothing(m, now, before, fuel, Some(current.error));
        return current;
      }
      if target < |current.value.active| {
        RanNothing(m, now, before, fuel, Some(PoolFault));
        return Failure(PoolFault);
      }
      var f := PoolConfigured(pool, target);
      var stored := Put(actor, last, f, now);
      if stored.Failure? {
        return Failure(stored.error);
      }
      PoolReads(m, j, pool, now, actor, f, before, fuel, runtime.store.missions, runtime.store.fuel);
      ConfigureApplies(current.value, pool, target);
      r, last := ReplayPool(runtime.Events(), pool);
    }

    /** `configure_from_metrics`. */
    method ConfigureFromMetrics(metrics: Metrics, limit: int, actor: string, now: real) returns (r: Result<PoolView>)
      requires runtime.Valid()
      modifies runtime.store
      ensures runtime.Valid()
      ensures var v := old(PoolFold(runtime.Events(), pool));
        var plan := if v.Failure? then Plan([], Some(PoolReplayRejected))
                    else ConfigurePlan(runtime.mission, old(runtime.Events()), pool,
                      MetricsTarget(TeamSize(metrics, limit), v.value), actor);
        Ran(runtime.mission, now, plan, old(runtime.store.missions), old(runtime.store.fuel),
            runtime.store.missions, runtime.store.fuel, FaultOf(r))
      ensures r.Success? ==> r == PoolFold(runtime.Events(), pool)
    {
      hide Ran;
      hide runtime.Valid;
      hide PoolFold;
      hide ConfigurePlan;
      var current, _ := ReplayPool(runtime.Events(), pool);
      if current.Failure? {
        RanNothing(runtime.mission, now, runtime.store.missions, runtime.store.fuel, Some(current.error));
        return current;
      }
      r := Configure(MetricsTarget(TeamSize(metrics, limit), current.value), actor, now);
    }

    /** `acquire`, with its search for the lowest free slot. */
    method Acquire(run: RunId, task: TaskId, worker: string, actor: string, now: real) returns (r: Result<SlotUse>)
      requires runtime.Valid()
      modifies runtime.store
      ensures runtime.Valid()
      ensures Ran(runtime.mission, now, AcquirePlan(runtime.mission, old(runtime.Events()), pool, run, task, worker,
        actor),
                  old(runtime.store.missions), old(runtime.store.fuel), runtime.store.missions, runtime.store.fuel,
                  FaultOf(r))
      ensures r.Success? ==>
        var v := PoolFold(runtime.Events(), pool);
        v.Success? && run in v.value.active && v.value.active[run] == r.value
      ensures TaskFold(runtime.Events()) == old(TaskFold(runtime.Events()))
    {
      hide Ran;
      hide runtime.Valid;
      hide PoolFold;
      hide PutPlan;
      hide TaskFold;
      hide PoolApply;
      hide FreeFrom;
      ghost var m, before, fuel := runtime.mission, runtime.store.missions, runtime.store.fuel;
      ghost var j := runtime.Events();
      var state, last := ReplayPool(runtime.Events(), pool);
      if state.Failure? {
        RanNothing(m, now, before, fuel, Some(state.error));
        return Failure(state.error);
      }
      var v := state.value;
      if !v.configured {
        RanNothing(m, now, before, fuel, Some(PoolFault));
        return Failure(PoolFault);
      }
      if run in v.active {
        var existing := v.active[run];
        if existing.task != task || existing.worker != worker {
          RanNothing(m, now, before, fuel, Some(PoolFault));
          return Failure(PoolFault);
        }
        RanNothing(m, now, before, fuel, None);
        return Success(existing);
      }
      if |v.active| >= v.target {
        RanNothing(m, now, before, fuel, Some(PoolBackpressure));
        return Failure(PoolBackpressure);
      }
      var slot := LowestFree(v);
      var f := SlotAcquired(pool, run, task, worker, slot);
      var stored := Put(actor, last, f, now);
      if stored.Failure? {
        AcquireFailed(m, j, pool, run, task, worker, actor, slot, now, before, fuel, runtime.store.missions,
          runtime.store.fuel, stored.error);
        return Failure(stored.error);
      }
      PoolReads(m, j, pool, now, actor, f, before, fuel, runtime.store.missions, runtime.store.fuel);
      AcquireApplies(v, pool, run, task, worker, slot);
      AcquireEnds(m, j, pool, run, task, worker, actor, slot, now, before, fuel, runtime.store.missions,
        runtime.store.fuel);
      state, last := ReplayPool(runtime.Events(), pool);
      if run !in state.value.active {
        return Failure(KeyFault);
      }
      r := Success(state.value.active[run]);
    }

    /** `next(index for index in range(target) if index not in used)`. */
    method LowestFree(v: PoolView) returns (slot: nat)
      requires |v.active| < v.target
      ensures FreeFrom(UsedSlots(v), 0, v.target) == Some(slot)
    {
      var used := UsedSlots(v);
      SlotsSuffice(v);
      slot := 0;
      while slot in used
        invariant FreeFrom(used, 0, v.target) == FreeFrom(used, slot, v.target)
        invariant slot < v.target
        decreases v.target - slot
      {
        slot := slot + 1;
      }
    }

    /** `release`. */
    method Release(run: RunId, actor: string, now: real) returns (r: Result<PoolView>)
      requires runtime.Valid()
      modifies runtime.store
      ensures runtime.Valid()
      ensures Ran(runtime.mission, now, ReleasePlan(runtime.mission, old(runtime.Events()), pool, run, actor),
                  old(runtime.store.missions), old(runtime.store.fuel), runtime.store.missions, runtime.store.fuel,
                  FaultOf(r))
      ensures r.Success? ==> r == PoolFold(runtime.Events(), pool)
      ensures TaskFold(runtime.Events()) == old(TaskFold(runtime.Events()))
    {
      hide Ran;
      hide runtime.Valid;
      hide PoolFold;
      hide PutPlan;
      hide TaskFold;
      hide PoolApply;
      ghost var m, before, fuel := runtime.mission, runtime.store.missions, runtime.store.fuel;
      ghost var j := runtime.Events();
      var state, last := ReplayPool(runtime.Events(), pool);
      if state.Failure? {
        RanNothing(m, now, before, fuel, Some(state.error));
        return state;
      }
      if run !in state.value.active {
        RanNothing(m, now, before, fuel, Some(PoolFault));
        return Failure(PoolFault);
      }
      var f := SlotReleased(pool, run);
      var stored := Put(actor, last, f, now);
      if stored.Failure? {
        return Failure(stored.error);
      }
      PoolReads(m, j, pool, now, actor, f, before, fuel, runtime.store.missions, runtime.store.fuel);
      ReleaseApplies(state.value, pool, run);
      r, last := ReplayPool(runtime.Events(), pool);
    }
  }

  /** The pool as read after an append that went through. */
  lemma PoolReads(m: string, j: seq<Event>, pool: string, now: real, actor: string, f: PoolFact,
                  a: map<string, Tables>, fa: nat, b: map<string, Tables>, fb: nat)
    requires PoolFold(j, pool).Success? && f.pool == pool && j == Rows(a, m).journal
    requires Ran(m, now, PutPlan(m, j, PoolEntry(actor, LastSeq(j, pool), f)), a, fa, b, fb, None)
    ensures PoolFold(Rows(b, m).journal, pool) == PoolFold(j, pool)
         || PoolFold(Rows(b, m).journal, pool) == PoolApply(PoolFold(j, pool).value, f)
    ensures PutPlan(m, j, PoolEntry(actor, LastSeq(j, pool), f)).entries != [] ==>
      PoolFold(Rows(b, m).journal, pool) == PoolApply(PoolFold(j, pool).value, f)
    ensures PutPlan(m, j, PoolEntry(actor, LastSeq(j, pool), f)).entries == [] ==>
      PoolFold(Rows(b, m).journal, pool) == PoolFold(j, pool)
  {
    hide PoolApply;
    var e := PoolEntry(actor, LastSeq(j, pool), f);
    ExtendNone(j, m, now);
    ExtendOne(j, m, now, e);
    PoolFoldAppend(j, pool, Stamp(m, |j| + 1, now, e));
    assert [e][..1] == [e];
  }

  lemma ConfigureApplies(v: PoolView, pool: string, target: int)
    requires target >= 1
    ensures PoolApply(v, PoolConfigured(pool, target)).Success?
  {
  }

  lemma AcquireApplies(v: PoolView, pool: string, run: RunId, task: TaskId, worker: string, slot: int)
    requires v.configured && run !in v.active
    ensures PoolApply(v, SlotAcquired(pool, run, task, worker, slot))
      == Success(v.(active := v.active[run := SlotUse(task, worker, slot)]))
  {
  }

  lemma ReleaseApplies(v: PoolView, pool: string, run: RunId)
    requires run in v.active
    ensures PoolApply(v, SlotReleased(pool, run)) == Success(v.(active := v.active - {run}))
  {
  }

  lemma AcquireEnds(m: string, j: seq<Event>, pool: string, run: RunId, task: TaskId, worker: string, actor: string,
                    slot: int,
                    now: real, a: map<string, Tables>, fa: nat, b: map<string, Tables>, fb: nat)
    requires PoolFold(j, pool).Success?
    requires var v := PoolFold(j, pool).value;
      v.configured && run !in v.active && |v.active| < v.target && FreeFrom(UsedSlots(v), 0, v.target) == Some(slot)
    requires var put := PutPlan(m, j, PoolEntry(actor, LastSeq(j, pool), SlotAcquired(pool, run, task, worker, slot)));
      Ran(m, now, put, a, fa, b, fb, None)
    ensures var put := PutPlan(m, j, PoolEntry(actor, LastSeq(j, pool), SlotAcquired(pool, run, task, worker, slot)));
      var plan := AcquirePlan(m, j, pool, run, task, worker, actor);
      Ran(m, now, plan, a, fa, b, fb, if put.entries == [] then Some(KeyFault) else None)
  {
    hide PutPlan;
    hide PoolFold;
    hide FreeFrom;
  }

  lemma AcquireFailed(m: string, j: seq<Event>, pool: string, run: RunId, task: TaskId, worker: string, actor: string,
                      slot: int,
                      now: real, a: map<string, Tables>, fa: nat, b: map<string, Tables>, fb: nat, error: Error)
    requires PoolFold(j, pool).Success?
    requires var v := PoolFold(j, pool).value;
      v.configured && run !in v.active && |v.active| < v.target && FreeFrom(UsedSlots(v), 0, v.target) == Some(slot)
    requires var put := PutPlan(m, j, PoolEntry(actor, LastSeq(j, pool), SlotAcquired(pool, run, task, worker, slot)));
      Ran(m, now, put, a, fa, b, fb, Some(error))
    ensures Ran(m, now, AcquirePlan(m, j, pool, run, task, worker, actor), a, fa, b, fb, Some(error))
  {
    hide PutPlan;
    hide PoolFold;
    hide FreeFrom;
  }
}
