/** `BoundedLoopController` as the class that replays the loop, decides and writes. */
module LoopCalls {
  import opened Base
  import opened Journal
  import opened Tasks
  import opened Records
  import opened LoopLog
  import opened Store
  import opened Projection
  import opened RuntimeCalls
  import opened GraphCalls
  import opened PoolCalls
  import opened LoopRules

  class BoundedLoopController {
    const runtime: MissionRuntime

    constructor (runtime: MissionRuntime)
      ensures this.runtime == runtime
    {
      this.runtime := runtime;
    }

    /** One append of a loop event. */
    method Put(actor: string, f: LoopFact, now: real) returns (r: Result<Event>)
      requires runtime.Valid()
      modifies runtime.store
      ensures runtime.Valid()
      ensures Ran(runtime.mission, now, PutPlan(runtime.mission, old(runtime.Events()), LoopEntry(actor, f)),
                  old(runtime.store.missions), old(runtime.store.fuel), runtime.store.missions, runtime.store.fuel,
                  FaultOf(r))
    {
      hide Ran;
      hide WellKept;
      hide TaskFold;
      hide RecordFold;
      hide Acceptable;
      hide LoopKeyOf;
      ghost var m, before, fuel := runtime.mission, runtime.store.missions, runtime.store.fuel;
      ghost var e := LoopEntry(actor, f);
      KeptReads(Rows(before, m), m);
      if PutPlan(m, runtime.Events(), e) == Plan([e], None) {
        LoopAcceptable(runtime.Events(), actor, f);
      }
      r := runtime.store.Append(runtime.mission, actor, LoopKeyOf(f), Loop(f), now);
      PutKept(m, now, e, before, fuel, runtime.store.missions, runtime.store.fuel, FaultOf(r));
    }

    /** `projection`. */
    method View(loop: string) returns (r: Result<LoopView>)
      ensures r.Success? <==> LoopFold(runtime.Events(), loop).Success?
      ensures r.Success? ==> r == LoopFold(runtime.Events(), loop)
      ensures r.Failure? ==> r.error == LoopReplayRejected
    {
      r := ReplayLoop(runtime.Events(), loop);
    }

    /** `_exhaust`: it reads the loop again and leaves one that is not active alone. */
    method Exhaust(loop: string, actor: string, reason: string, now: real) returns (fault: Option<Error>)
      requires runtime.Valid() && LoopFold(runtime.Events(), loop).Success?
      modifies runtime.store
      ensures runtime.Valid()
      ensures var v := old(LoopFold(runtime.Events(), loop)).value;
        Ran(runtime.mission, now,
            if v.status.LoopActive? then PutPlan(runtime.mission, old(runtime.Events()),
              LoopEntry(actor, LoopExhausted(loop, v.iteration, reason)))
            else Plan([], None),
            old(runtime.store.missions), old(runtime.store.fuel), runtime.store.missions, runtime.store.fuel, fault)
    {
      hide Ran;
      hide runtime.Valid;
      hide LoopFold;
      hide PutPlan;
      var state := View(loop);
      if !state.value.status.LoopActive? {
        RanNothing(runtime.mission, now, runtime.store.missions, runtime.store.fuel, None);
        return None;
      }
      var stored := Put(actor, LoopExhausted(loop, state.value.iteration, reason), now);
      fault := FaultOf(stored);
    }

    /** `_enforce_limits`: status, then timeout, then iterations, then budget. */
    method EnforceLimits(loop: string, state: LoopView, actor: string, clock: real, cost: int, now: real)
      returns (fault: Option<Error>)
      requires runtime.Valid() && LoopFold(runtime.Events(), loop) == Success(state)
      modifies runtime.store
      ensures runtime.Valid()
      ensures Ran(runtime.mission, now, LimitPlan(runtime.mission, old(runtime.Events()), loop, state,
        LimitOf(state, clock, cost), actor),
                  old(runtime.store.missions), old(runtime.store.fuel), runtime.store.missions, runtime.store.fuel,
                  fault)
      ensures LimitOf(state, clock, cost).Within? <==> fault.None?
      ensures fault.None? <==>
        && state.status.LoopActive? && clock - state.startedAt < state.timeout
        && !(state.iteration >= state.maxIterations && (state.phase.ReadyToRun? || state.phase.Repaired?))
        && (state.budget.Some? ==> state.used + cost <= state.budget.value)
      ensures fault.None? ==>
        runtime.store.missions == old(runtime.store.missions) && runtime.store.fuel == old(runtime.store.fuel)
    {
      hide Ran;
      hide runtime.Valid;
      hide LoopFold;
      hide PutPlan;
      ghost var m, before, fuel := runtime.mission, runtime.store.missions, runtime.store.fuel;
      ghost var j := runtime.Events();
      if !state.status.LoopActive? {
        RanNothing(m, now, before, fuel, Some(LoopTransitionFault));
        return Some(LoopTransitionFault);
      }
      var reason;
      if clock - state.startedAt >= state.timeout {
        reason := "timeout";
      } else if state.iteration >= state.maxIterations && (state.phase.ReadyToRun? || state.phase.Repaired?) {
        reason := "max_iterations";
      } else if state.budget.Some? && state.used + cost > state.budget.value {
        reason := "budget";
      } else {
        RanNothing(m, now, before, fuel, None);
        return None;
      }
      fault := Exhaust(loop, actor, reason, now);
      ghost var put := PutPlan(m, j, LoopEntry(actor, LoopExhausted(loop, state.iteration, reason)));
      PutNeverCrashes(m, j, LoopEntry(actor, LoopExhausted(loop, state.iteration, reason)));
      ExhaustedThen(m, now, put, before, fuel, runtime.store.missions, runtime.store.fuel, fault);
      if fault.None? {
        fault := Some(LoopLimitExceeded);
      }
    }

    /** `create`. */
    method Create(loop: string, policy: Policy, actor: string, now: real) returns (r: Result<LoopView>)
      requires runtime.Valid()
      modifies runtime.store
      ensures runtime.Valid()
      ensures Ran(runtime.mission, now, CreateLoopPlan(runtime.mission, old(runtime.Events()), loop, policy, actor),
                  old(runtime.store.missions), old(runtime.store.fuel), runtime.store.missions, runtime.store.fuel,
                  if r == Failure(LoopReplayRejected) then None else FaultOf(r))
      ensures r.Success? ==> r == LoopFold(runtime.Events(), loop)
      ensures r == Failure(LoopReplayRejected) ==> LoopFold(runtime.Events(), loop).Failure?
    {
      hide Ran;
      hide runtime.Valid;
      hide LoopFold;
      hide PutPlan;
      ghost var m, before, fuel := runtime.mission, runtime.store.missions, runtime.store.fuel;
      if !ValidPolicy(policy) {
        RanNothing(m, now, before, fuel, Some(ValueFault));
        return Failure(ValueFault);
      }
      var f := LoopCreated(loop, policy.maxIterations, policy.timeout, policy.budget);
      ghost var j := runtime.Events();
      var stored := Put(actor, f, now);
      if stored.Failure? {
        PutFaults(m, now, j, LoopEntry(actor, f), before, fuel, runtime.store.missions, runtime.store.fuel,
          stored.error);
        return Failure(stored.error);
      }
      r := View(loop);
    }

    /** `begin_iteration`. */
    method BeginIteration(loop: string, cost: int, actor: string, clock: real, now: real) returns (r: Result<LoopView>)
      requires runtime.Valid()
      modifies runtime.store
      ensures runtime.Valid()
      ensures Ran(runtime.mission, now, BeginPlan(runtime.mission, old(runtime.Events()), loop, cost, clock, actor),
                  old(runtime.store.missions), old(runtime.store.fuel), runtime.store.missions, runtime.store.fuel,
                  FaultOf(r))
      ensures r.Success? ==> r == LoopFold(runtime.Events(), loop)
    {
      hide Ran;
      hide runtime.Valid;
      hide LoopFold;
      hide PutPlan;
      hide LimitOf;
      hide LimitPlan;
      hide LoopApply;
      ghost var m, before, fuel := runtime.mission, runtime.store.missions, runtime.store.fuel;
      ghost var j := runtime.Events();
      if cost < 1 {
        RanNothing(m, now, before, fuel, Some(ValueFault));
        return Failure(ValueFault);
      }
      var state := View(loop);
      if state.Failure? {
        RanNothing(m, now, before, fuel, Some(state.error));
        return state;
      }
      var v := state.value;
      var fault := EnforceLimits(loop, v, actor, clock, cost, now);
      if fault.Some? {
        return Failure(fault.value);
      }
      WithinIsActive(v, clock, cost);
      if !v.phase.ReadyToRun? && !v.phase.Repaired? {
        RanNothing(m, now, before, fuel, Some(LoopTransitionFault));
        return Failure(LoopTransitionFault);
      }
      var f := IterationStarted(loop, v.iteration + 1, cost);
      var stored := Put(actor, f, now);
      if stored.Failure? {
        return Failure(stored.error);
      }
      LoopReads(m, j, loop, now, actor, f, before, fuel, runtime.store.missions, runtime.store.fuel);
      StepApplies(v, f, now);
      r := View(loop);
    }

    /** `validation_failed`. */
    method ValidationFailed(loop: string, evidence: seq<string>, actor: string, clock: real, now: real)
      returns (r: Result<LoopView>)
      requires runtime.Valid()
      modifies runtime.store
      ensures runtime.Valid()
      ensures Ran(runtime.mission, now, FailedPlan(runtime.mission, old(runtime.Events()), loop, evidence, clock,
        actor),
                  old(runtime.store.missions), old(runtime.store.fuel), runtime.store.missions, runtime.store.fuel,
                  FaultOf(r))
      ensures r.Success? ==> r == LoopFold(runtime.Events(), loop)
    {
      hide Ran;
      hide runtime.Valid;
      hide LoopFold;
      hide PutPlan;
      hide LimitOf;
      hide LimitPlan;
      hide LoopApply;
      ghost var m, before, fuel := runtime.mission, runtime.store.missions, runtime.store.fuel;
      ghost var j := runtime.Events();
      if evidence == [] {
        RanNothing(m, now, before, fuel, Some(LoopTransitionFault));
        return Failure(LoopTransitionFault);
      }
      var state := View(loop);
      if state.Failure? {
        RanNothing(m, now, before, fuel, Some(state.error));
        return state;
      }
      var v := state.value;
      var fault := EnforceLimits(loop, v, actor, clock, 0, now);
      if fault.Some? {
        return Failure(fault.value);
      }
      WithinIsActive(v, clock, 0);
      if !v.phase.Executing? {
        RanNothing(m, now, before, fuel, Some(LoopTransitionFault));
        return Failure(LoopTransitionFault);
      }
      var f := LoopFact.ValidationFailed(loop, v.iteration, evidence);
      ghost var last := LoopExhausted(loop, v.iteration, "max_iterations");
      ghost var failed, ended := PutPlan(m, j, LoopEntry(actor, f)), PutPlan(m, j, LoopEntry(actor, last));
      PutNeverCrashes(m, j, LoopEntry(actor, f));
      var stored := Put(actor, f, now);
      ghost var middle, left := runtime.store.missions, runtime.store.fuel;
      if stored.Failure? {
        FailedEarly(m, now, failed, ended, before, fuel, middle, left, stored.error);
        return Failure(stored.error);
      }
      RanJournal(m, now, failed, before, fuel, middle, left);
      LoopReads(m, j, loop, now, actor, f, before, fuel, middle, left);
      StepApplies(v, f, now);
      StillActive(v, f, now);
      state := View(loop);
      if state.value.iteration >= state.value.maxIterations {
        LaterExhaustion(m, j, now, LoopEntry(actor, f), LoopEntry(actor, last));
        ghost var j1 := runtime.Events();
        fault := Exhaust(loop, actor, "max_iterations", now);
        RanThen(m, now, failed, ended, before, fuel, middle, left, runtime.store.missions, runtime.store.fuel, fault);
        if fault.Some? {
          return Failure(fault.value);
        }
        LoopReads(m, j1, loop, now, actor, last, middle, left, runtime.store.missions, runtime.store.fuel);
        StepApplies(state.value, last, now);
      }
      r := View(loop);
    }

    /** `repair_completed`. */
    method RepairCompleted(loop: string, evidence: seq<string>, actor: string, clock: real, now: real)
      returns (r: Result<LoopView>)
      requires runtime.Valid()
      modifies runtime.store
      ensures runtime.Valid()
      ensures Ran(runtime.mission, now, RepairedPlan(runtime.mission, old(runtime.Events()), loop, evidence, clock,
        actor),
                  old(runtime.store.missions), old(runtime.store.fuel), runtime.store.missions, runtime.store.fuel,
                  FaultOf(r))
      ensures r.Success? ==> r == LoopFold(runtime.Events(), loop)
    {
      hide Ran;
      hide runtime.Valid;
      hide LoopFold;
      hide PutPlan;
      hide LimitOf;
      hide LimitPlan;
      hide LoopApply;
      ghost var m, before, fuel := runtime.mission, runtime.store.missions, runtime.store.fuel;
      ghost var j := runtime.Events();
      if evidence == [] {
        RanNothing(m, now, before, fuel, Some(LoopTransitionFault));
        return Failure(LoopTransitionFault);
      }
      var state := View(loop);
      if state.Failure? {
        RanNothing(m, now, before, fuel, Some(state.error));
        return state;
      }
      var v := state.value;
      var fault := EnforceLimits(loop, v, actor, clock, 0, now);
      if fault.Some? {
        return Failure(fault.value);
      }
      WithinIsActive(v, clock, 0);
      if !v.phase.NeedsRepair? {
        RanNothing(m, now, before, fuel, Some(LoopTransitionFault));
        return Failure(LoopTransitionFault);
      }
      var f := LoopFact.RepairCompleted(loop, v.iteration, evidence);
      var stored := Put(actor, f, now);
      if stored.Failure? {
        return Failure(stored.error);
      }
      LoopReads(m, j, loop, now, actor, f, before, fuel, runtime.store.missions, runtime.store.fuel);
      StepApplies(v, f, now);
      r := View(loop);
    }

    /** `validation_passed`. */
    method ValidationPassed(loop: string, evidence: seq<string>, actor: string, clock: real, now: real)
      returns (r: Result<LoopView>)
      requires runtime.Valid()
      modifies runtime.store
      ensures runtime.Valid()
      ensures Ran(runtime.mission, now, PassedPlan(runtime.mission, old(runtime.Events()), loop, evidence, clock,
        actor),
                  old(runtime.store.missions), old(runtime.store.fuel), runtime.store.missions, runtime.store.fuel,
                  FaultOf(r))
      ensures r.Success? ==> r == LoopFold(runtime.Events(), loop)
    {
      hide Ran;
      hide runtime.Valid;
      hide LoopFold;
      hide PutPlan;
      hide LimitOf;
      hide LimitPlan;
      hide LoopApply;
      ghost var m, before, fuel := runtime.mission, runtime.store.missions, runtime.store.fuel;
      ghost var j := runtime.Events();
      if evidence == [] {
        RanNothing(m, now, before, fuel, Some(LoopTransitionFault));
        return Failure(LoopTransitionFault);
      }
      var state := View(loop);
      if state.Failure? {
        RanNothing(m, now, before, fuel, Some(state.error));
        return state;
      }
      var v := state.value;
      var fault := EnforceLimits(loop, v, actor, clock, 0, now);
      if fault.Some? {
        return Failure(fault.value);
      }
      WithinIsActive(v, clock, 0);
      if !v.phase.Executing? {
        RanNothing(m, now, before, fuel, Some(LoopTransitionFault));
        return Failure(LoopTransitionFault);
      }
      var f := LoopCompleted(loop, v.iteration, evidence);
      var stored := Put(actor, f, now);
      if stored.Failure? {
        return Failure(stored.error);
      }
      LoopReads(m, j, loop, now, actor, f, before, fuel, runtime.store.missions, runtime.store.fuel);
      StepApplies(v, f, now);
      r := View(loop);
    }
  }

  lemma WithinIsActive(v: LoopView, clock: real, cost: int)
    requires LimitOf(v, clock, cost).Within?
    ensures v.status.LoopActive?
  {
  }

  lemma PutFaults(m: string, now: real, j: seq<Event>, e: Entry, a: map<string, Tables>, fa: nat,
                  b: map<string, Tables>, fb: nat, error: Error)
    requires Ran(m, now, PutPlan(m, j, e), a, fa, b, fb, Some(error))
    ensures error == ValueFault || error == Conflict || error == Crashed
  {
  }

  /** The exhaustion went through, or did not; either way the call then fails. */
  lemma ExhaustedThen(m: string, now: real, put: Plan, a: map<string, Tables>, fa: nat, b: map<string, Tables>, fb: nat,
                      fault: Option<Error>)
    requires Ran(m, now, put, a, fa, b, fb, fault) && put.fault != Some(Crashed)
    ensures Ran(m, now, PutThen(put, Some(LoopLimitExceeded)), a, fa, b, fb, if fault.None? then Some(LoopLimitExceeded)
      else fault)
  {
  }

  lemma FailedEarly(m: string, now: real, failed: Plan, ended: Plan, a: map<string, Tables>, fa: nat,
                    b: map<string, Tables>, fb: nat, error: Error)
    requires Ran(m, now, failed, a, fa, b, fb, Some(error)) && failed.fault != Some(Crashed)
    ensures failed.fault.None? ==>
      Ran(m, now, Plan(failed.entries + ended.entries, ended.fault), a, fa, b, fb, Some(error))
  {
    if failed.fault.None? { RanCrashed(m, now, failed, ended.entries, ended.fault, a, fa, b, fb); }
  }

  /** The loop as read after an append that went through. */
  lemma LoopReads(m: string, j: seq<Event>, loop: string, now: real, actor: string, f: LoopFact,
                  a: map<string, Tables>, fa: nat, b: map<string, Tables>, fb: nat)
    requires LoopFold(j, loop).Success? && f.loop == loop && j == Rows(a, m).journal
    requires Ran(m, now, PutPlan(m, j, LoopEntry(actor, f)), a, fa, b, fb, None)
    ensures LoopFold(Rows(b, m).journal, loop) == LoopFold(j, loop)
         || LoopFold(Rows(b, m).journal, loop) == LoopApply(LoopFold(j, loop).value, f, now)
  {
    hide LoopApply;
    var e := LoopEntry(actor, f);
    ExtendNone(j, m, now);
    ExtendOne(j, m, now, e);
    LoopFoldAppend(j, loop, Stamp(m, |j| + 1, now, e));
    assert [e][..1] == [e];
  }

  lemma StepApplies(v: LoopView, f: LoopFact, at: real)
    requires v.status.LoopActive?
    requires match f
      case LoopCreated(_, _, _, _) => false
      case IterationStarted(_, iteration, _) => BetweenIterations(v) && iteration == v.iteration + 1
      case ValidationFailed(_, _, _) => v.phase.Executing?
      case RepairCompleted(_, _, _) => v.phase.NeedsRepair?
      case LoopCompleted(_, _, evidence) => v.phase.Executing? && evidence != []
      case LoopExhausted(_, _, _) => true
    ensures LoopApply(v, f, at).Success?
  {
  }

  lemma StillActive(v: LoopView, f: LoopFact, at: real)
    requires v.status.LoopActive? && f.ValidationFailed? && LoopApply(v, f, at).Success?
    ensures var w := LoopApply(v, f, at).value;
      w.status.LoopActive? && w.iteration == v.iteration && w.maxIterations == v.maxIterations
  {
  }

  lemma LaterExhaustion(m: string, j: seq<Event>, now: real, first: Entry, second: Entry)
    requires first.key != second.key && PutPlan(m, j, first).fault.None?
    ensures PutPlan(m, Extend(j, m, now, PutPlan(m, j, first).entries), second) == PutPlan(m, j, second)
  {
    hide PutPlan;
    PutIsOneOrNone(m, j, first);
    PutLater(m, j, now, PutPlan(m, j, first).entries, second);
  }
}
