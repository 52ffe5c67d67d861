/** `BoundedLoopController`: what each call writes, and the bounds that hold over every run. */
module LoopRules {
  import opened Base
  import opened Journal
  import opened Tasks
  import opened Records
  import opened GraphLog
  import opened LoopLog
  import opened Store
  import opened Projection

  datatype Policy = Policy(maxIterations: int, timeout: real, budget: Option<int>)

  /** `LoopPolicy.validate`. */
  predicate ValidPolicy(p: Policy) {
    p.maxIterations >= 1 && p.timeout > 0.0 && (p.budget.Some? ==> p.budget.value >= 1)
  }

  function LoopEntry(actor: string, f: LoopFact): Entry {
    Entry(actor, LoopKeyOf(f), Loop(f))
  }

  /** What `_enforce_limits` finds: nothing, a loop it refuses, or a limit it exhausts the loop for. */
  datatype Limit = Within | Refused(error: Error) | Reached(reason: string)

  predicate BetweenIterations(v: LoopView) { v.phase.ReadyToRun? || v.phase.Repaired? }

  function LimitOf(v: LoopView, clock: real, cost: int): Limit {
    if !v.status.LoopActive? then Refused(LoopTransitionFault)
    else if clock - v.startedAt >= v.timeout then Reached("timeout")
    else if v.iteration >= v.maxIterations && BetweenIterations(v) then Reached("max_iterations")
    else if v.budget.Some? && v.used + cost > v.budget.value then Reached("budget")
    else Within
  }

  function PutThen(p: Plan, fault: Option<Error>): Plan {
    if p.fault.Some? then p else Plan(p.entries, fault)
  }

  ghost function LimitPlan(m: string, j: seq<Event>, loop: string, v: LoopView, limit: Limit, actor: string): Plan {
    match limit
    case Within => Plan([], None)
    case Refused(error) => Plan([], Some(error))
    case Reached(reason) =>
      PutThen(PutPlan(m, j, LoopEntry(actor, LoopExhausted(loop, v.iteration, reason))), Some(LoopLimitExceeded))
  }

  ghost function CreateLoopPlan(m: string, j: seq<Event>, loop: string, p: Policy, actor: string): Plan {
    if !ValidPolicy(p) then Plan([], Some(ValueFault))
    else PutPlan(m, j, LoopEntry(actor, LoopCreated(loop, p.maxIterations, p.timeout, p.budget)))
  }

  ghost function BeginPlan(m: string, j: seq<Event>, loop: string, cost: int, clock: real, actor: string): Plan {
    if cost < 1 then Plan([], Some(ValueFault))
    else if LoopFold(j, loop).Failure? then Plan([], Some(LoopReplayRejected))
    else
      var v := LoopFold(j, loop).value;
      var limit := LimitOf(v, clock, cost);
      if !limit.Within? then LimitPlan(m, j, loop, v, limit, actor)
      else if !BetweenIterations(v) then Plan([], Some(LoopTransitionFault))
      else PutPlan(m, j, LoopEntry(actor, IterationStarted(loop, v.iteration + 1, cost)))
  }

  /** A validation that failed in the last iteration exhausts the loop at once. */
  ghost function FailedPlan(m: string, j: seq<Event>, loop: string, evidence: seq<string>, clock: real,
                            actor: string): Plan {
    if evidence == [] then Plan([], Some(LoopTransitionFault))
    else if LoopFold(j, loop).Failure? then Plan([], Some(LoopReplayRejected))
    else
      var v := LoopFold(j, loop).value;
      var limit := LimitOf(v, clock, 0);
      if !limit.Within? then LimitPlan(m, j, loop, v, limit, actor)
      else if !v.phase.Executing? then Plan([], Some(LoopTransitionFault))
      else
        var failed := PutPlan(m, j, LoopEntry(actor, ValidationFailed(loop, v.iteration, evidence)));
        var exhausted := PutPlan(m, j, LoopEntry(actor, LoopExhausted(loop, v.iteration, "max_iterations")));
        if failed.fault.None? && v.iteration >= v.maxIterations
          then Plan(failed.entries + exhausted.entries, exhausted.fault)
        else failed
  }

  ghost function RepairedPlan(m: string, j: seq<Event>, loop: string, evidence: seq<string>, clock: real,
                              actor: string): Plan {
    if evidence == [] then Plan([], Some(LoopTransitionFault))
    else if LoopFold(j, loop).Failure? then Plan([], Some(LoopReplayRejected))
    else
      var v := LoopFold(j, loop).value;
      var limit := LimitOf(v, clock, 0);
      if !limit.Within? then LimitPlan(m, j, loop, v, limit, actor)
      else if !v.phase.NeedsRepair? then Plan([], Some(LoopTransitionFault))
      else PutPlan(m, j, LoopEntry(actor, RepairCompleted(loop, v.iteration, evidence)))
  }

  ghost function PassedPlan(m: string, j: seq<Event>, loop: string, evidence: seq<string>, clock: real,
                            actor: string): Plan {
    if evidence == [] then Plan([], Some(LoopTransitionFault))
    else if LoopFold(j, loop).Failure? then Plan([], Some(LoopReplayRejected))
    else
      var v := LoopFold(j, loop).value;
      var limit := LimitOf(v, clock, 0);
      if !limit.Within? then LimitPlan(m, j, loop, v, limit, actor)
      else if !v.phase.Executing? then Plan([], Some(LoopTransitionFault))
      else PutPlan(m, j, LoopEntry(actor, LoopCompleted(loop, v.iteration, evidence)))
  }

  /** What a loop event needs when it is written. */
  predicate LoopEnabled(v: LoopView, f: LoopFact) {
    match f
    case LoopCreated(_, maxIterations, timeout, budget) =>
      v.status.LoopAbsent? && ValidPolicy(Policy(maxIterations, timeout, budget))
    case IterationStarted(_, iteration, cost) =>
      && v.status.LoopActive? && BetweenIterations(v) && iteration == v.iteration + 1 <= v.maxIterations
      && cost >= 1 && (v.budget.Some? ==> v.used + cost <= v.budget.value)
    case ValidationFailed(_, iteration, _) => v.status.LoopActive? && v.phase.Executing? && iteration == v.iteration
    case RepairCompleted(_, iteration, _) => v.status.LoopActive? && v.phase.NeedsRepair? && iteration == v.iteration
    case LoopCompleted(_, iteration, evidence) =>
      v.status.LoopActive? && v.phase.Executing? && iteration == v.iteration && evidence != []
    case LoopExhausted(_, iteration, _) => v.status.LoopActive? && iteration == v.iteration
  }

  /** How many events of the loop the journal holds. */
  function LoopEvents(j: seq<Event>, loop: string): nat {
    if j == [] then 0
    else LoopEvents(j[..|j| - 1], loop) + if OfThisLoop(j[|j| - 1].body, loop) then 1 else 0
  }

  /** The loop's bounds, and how many events `count` its phase allows. */
  predicate LoopInvariant(v: LoopView, count: nat) {
    match v.status
    case LoopAbsent => v == NO_LOOP && count == 0
    case _ =>
      && v.maxIterations >= 1 && 0 <= v.iteration <= v.maxIterations && v.iteration <= v.used
      && (v.budget.Some? ==> v.used <= v.budget.value)
      && match v.phase
         case ReadyToRun => v.status.LoopActive? && v.iteration == 0 && count == 1
         case Executing => v.status.LoopActive? && v.iteration >= 1 && count == 3 * v.iteration - 1
         case NeedsRepair => v.status.LoopActive? && v.iteration >= 1 && count == 3 * v.iteration
         case Repaired => v.status.LoopActive? && v.iteration >= 1 && count == 3 * v.iteration + 1
         case Finished => v.status.LoopDone? && v.iteration >= 1 && count == 3 * v.iteration
         case Exhausted => v.status.LoopBroken? && count <= 3 * v.iteration + 2
         case NoPhase => false
  }

  lemma EnabledKeepsLoop(v: LoopView, count: nat, f: LoopFact, at: real)
    requires LoopInvariant(v, count) && LoopEnabled(v, f)
    ensures LoopApply(v, f, at).Success? && LoopInvariant(LoopApply(v, f, at).value, count + 1)
  {
  }

  /** Each event of the loop was allowed when it was written. */
  ghost predicate LoopLawful(j: seq<Event>, loop: string) {
    forall k :: 0 <= k < |j| && OfThisLoop(j[k].body, loop) ==>
      LoopFold(j[..k], loop).Success? && LoopEnabled(LoopFold(j[..k], loop).value, j[k].body.loopFact)
  }

  lemma LoopLawfulPrefix(j: seq<Event>, loop: string, n: nat)
    requires LoopLawful(j, loop) && n <= |j|
    ensures LoopLawful(j[..n], loop)
    ensures n < |j| && OfThisLoop(j[n].body, loop) ==>
      LoopFold(j[..n], loop).Success? && LoopEnabled(LoopFold(j[..n], loop).value, j[n].body.loopFact)
  {
    hide LoopFold;
    hide LoopEnabled;
    forall k | 0 <= k < n && OfThisLoop(j[..n][k].body, loop)
      ensures LoopFold(j[..n][..k], loop).Success? && LoopEnabled(LoopFold(j[..n][..k], loop).value,
        j[..n][k].body.loopFact) {
      assert j[..n][..k] == j[..k];
    }
  }

  lemma LoopLawfulSnoc(j: seq<Event>, loop: string, e: Event)
    requires LoopLawful(j, loop)
    requires OfThisLoop(e.body, loop) ==>
      LoopFold(j, loop).Success? && LoopEnabled(LoopFold(j, loop).value, e.body.loopFact)
    ensures LoopLawful(j + [e], loop)
  {
    hide LoopFold;
    hide LoopEnabled;
    var j' := j + [e];
    forall k | 0 <= k < |j'| && OfThisLoop(j'[k].body, loop)
      ensures LoopFold(j'[..k], loop).Success? && LoopEnabled(LoopFold(j'[..k], loop).value, j'[k].body.loopFact) {
      assert j'[..k] == if k < |j| then j[..k] else j;
    }
  }

  /** Such a journal is never rejected, and the bounds hold of it: no more iterations than the
      policy allows, no more units than the budget, at most 3 * max + 2 events. */
  lemma {:induction false} LawfulLoop(j: seq<Event>, loop: string)
    requires LoopLawful(j, loop)
    ensures LoopFold(j, loop).Success? && LoopInvariant(LoopFold(j, loop).value, LoopEvents(j, loop))
  {
    hide LoopInvariant;
    hide LoopApply;
    hide LoopEnabled;
    if j == [] {
      NoLoopInvariant();
    } else {
      var n := |j| - 1;
      LoopLawfulPrefix(j, loop, n);
      LawfulLoop(j[..n], loop);
      if OfThisLoop(j[n].body, loop) {
        EnabledKeepsLoop(LoopFold(j[..n], loop).value, LoopEvents(j[..n], loop), j[n].body.loopFact, j[n].at);
      }
    }
  }

  lemma NoLoopInvariant()
    ensures LoopInvariant(NO_LOOP, 0)
  {
  }

  /** What a used key of the loop says about every later projection. */
  predicate LoopTraced(v: LoopView, key: LoopKey) {
    match key
    case LoopCreateKey(_) => !v.status.LoopAbsent?
    case IterationKey(_, i) => v.iteration >= i
    case FailKey(_, i) =>
      v.iteration > i || (v.iteration == i && (v.phase.NeedsRepair? || v.phase.Repaired? || v.phase.Exhausted?))
    case RepairKey(_, i) => v.iteration > i || (v.iteration == i && (v.phase.Repaired? || v.phase.Exhausted?))
    case CompleteKey(_) => v.phase.Finished?
    case ExhaustKey(_, _, _) => v.phase.Exhausted?
  }

  lemma LoopTraceStays(v: LoopView, count: nat, key: LoopKey, f: LoopFact, at: real)
    requires LoopInvariant(v, count) && LoopTraced(v, key) && LoopEnabled(v, f)
    ensures LoopApply(v, f, at).Success? && LoopTraced(LoopApply(v, f, at).value, key)
  {
  }

  lemma NewKeyTraced(v: LoopView, f: LoopFact, at: real)
    requires LoopEnabled(v, f) && LoopApply(v, f, at).Success?
    ensures LoopTraced(LoopApply(v, f, at).value, LoopKeyOf(f).loopKey)
  {
  }

  lemma {:induction false} UsedLoopKeyTraced(j: seq<Event>, loop: string, i: nat)
    requires LoopKeyed(j) && LoopLawful(j, loop)
    requires i < |j| && j[i].key.OfLoop? && j[i].key.loopKey.loop == loop
    ensures LoopFold(j, loop).Success? && LoopTraced(LoopFold(j, loop).value, j[i].key.loopKey)
    decreases |j|
  {
    hide LoopApply;
    hide LoopEnabled;
    hide LoopTraced;
    hide LoopInvariant;
    var n := |j| - 1;
    LawfulLoop(j, loop);
    LoopLawfulPrefix(j, loop, n);
    LawfulLoop(j[..n], loop);
    var v := LoopFold(j[..n], loop).value;
    if i < n {
      UsedLoopKeyTraced(j[..n], loop, i);
      if OfThisLoop(j[n].body, loop) {
        LoopTraceStays(v, LoopEvents(j[..n], loop), j[i].key.loopKey, j[n].body.loopFact, j[n].at);
      }
    } else {
      assert LoopKeyFits(j[n].key, j[n].body);
      NewKeyTraced(v, j[n].body.loopFact, j[n].at);
    }
  }

  /** A loop key whose trace the projection lacks is unused. */
  lemma UnusedLoopKey(j: seq<Event>, loop: string, key: LoopKey)
    requires LoopKeyed(j) && LoopLawful(j, loop) && key.loop == loop
    ensures LoopFold(j, loop).Success?
    ensures !LoopTraced(LoopFold(j, loop).value, key) ==> Unused(j, OfLoop(key))
  {
    hide LoopTraced;
    LawfulLoop(j, loop);
    if !LoopTraced(LoopFold(j, loop).value, key) {
      forall i | 0 <= i < |j| ensures j[i].key != OfLoop(key) {
        if j[i].key == OfLoop(key) { UsedLoopKeyTraced(j, loop, i); }
      }
    }
  }

  /** An event that is allowed goes under a key not used before. */
  lemma EnabledKeyUnused(j: seq<Event>, loop: string, f: LoopFact)
    requires LoopKeyed(j) && LoopLawful(j, loop) && f.loop == loop
    requires LoopFold(j, loop).Success? && LoopEnabled(LoopFold(j, loop).value, f)
    ensures Unused(j, LoopKeyOf(f))
  {
    hide LoopFold;
    hide LoopInvariant;
    LawfulLoop(j, loop);
    EnabledNotTraced(LoopFold(j, loop).value, LoopEvents(j, loop), f);
    UnusedLoopKey(j, loop, LoopKeyOf(f).loopKey);
  }

  lemma EnabledNotTraced(v: LoopView, count: nat, f: LoopFact)
    requires LoopInvariant(v, count) && LoopEnabled(v, f)
    ensures !LoopTraced(v, LoopKeyOf(f).loopKey)
  {
  }

  /** A finished or exhausted loop stays as it is, whatever is called. */
  lemma {:induction false} TerminalAbsorbs(j: seq<Event>, later: seq<Event>, loop: string)
    requires LoopLawful(later, loop) && j <= later
    requires LoopFold(j, loop).Success? && (LoopFold(j, loop).value.status.LoopDone?
      || LoopFold(j, loop).value.status.LoopBroken?)
    ensures LoopFold(later, loop) == LoopFold(j, loop) && LoopEvents(later, loop) == LoopEvents(j, loop)
    decreases |later|
  {
    if j == later {
    } else {
      var n := |later| - 1;
      assert j <= later[..n];
      LoopLawfulPrefix(later, loop, n);
      TerminalAbsorbs(j, later[..n], loop);
    }
  }

  datatype LoopOperation =
    | CreateLoop(policy: Policy)
    | BeginIteration(cost: int)
    | FailValidation(evidence: seq<string>)
    | CompleteRepair(evidence: seq<string>)
    | PassValidation(evidence: seq<string>)
    | Elsewhere(entries: seq<Entry>)

  ghost function LoopEntries(m: string, j: seq<Event>, loop: string, op: LoopOperation, clock: real,
                             actor: string): seq<Entry> {
    match op
    case CreateLoop(policy) => CreateLoopPlan(m, j, loop, policy, actor).entries
    case BeginIteration(cost) => BeginPlan(m, j, loop, cost, clock, actor).entries
    case FailValidation(evidence) => FailedPlan(m, j, loop, evidence, clock, actor).entries
    case CompleteRepair(evidence) => RepairedPlan(m, j, loop, evidence, clock, actor).entries
    case PassValidation(evidence) => PassedPlan(m, j, loop, evidence, clock, actor).entries
    case Elsewhere(entries) => entries
  }

  ghost predicate LoopGood(j: seq<Event>, m: string, loop: string) {
    Sound(j, m) && LoopLawful(j, loop)
  }

  /** The first event a call writes is allowed and goes under a new key. */
  lemma FirstEntry(m: string, j: seq<Event>, loop: string, op: LoopOperation, clock: real, actor: string)
    requires LoopLawful(j, loop) && LoopKeyed(j) && !op.Elsewhere? && LoopEntries(m, j, loop, op, clock, actor) != []
    ensures var e := LoopEntries(m, j, loop, op, clock, actor)[0];
      && e.actor == actor && e.body.Loop? && e.body.loopFact.loop == loop && e == LoopEntry(actor, e.body.loopFact)
      && LoopFold(j, loop).Success? && LoopEnabled(LoopFold(j, loop).value, e.body.loopFact) && Unused(j, e.key)
  {
    hide LoopFold;
    hide LoopInvariant;
    hide PutPlan;
    hide LoopKeyOf;
    hide LoopLawful;
    hide LoopKeyed;
    LawfulLoop(j, loop);
    var v, e := LoopFold(j, loop).value, LoopEntries(m, j, loop, op, clock, actor)[0];
    PutsOwn(m, j, actor);
    if op.CreateLoop? {
      CreatedWhenUnused(m, j, loop, op.policy, actor);
    } else {
      EnabledKeyUnused(j, loop, e.body.loopFact);
    }
  }

  lemma PutsOwn(m: string, j: seq<Event>, actor: string)
    ensures forall f: LoopFact :: var e := LoopEntry(actor, f);
      PutPlan(m, j, e).entries == [] || PutPlan(m, j, e) == Plan([e], None)
  {
  }

  lemma CreatedWhenUnused(m: string, j: seq<Event>, loop: string, p: Policy, actor: string)
    requires LoopLawful(j, loop) && LoopKeyed(j) && LoopFold(j, loop).Success?
    requires CreateLoopPlan(m, j, loop, p, actor).entries != []
    ensures LoopFold(j, loop).value.status.LoopAbsent?
    ensures Unused(j, LoopKeyOf(LoopCreated(loop, p.maxIterations, p.timeout, p.budget)))
  {
    NeverCreatedLoop(j, loop);
  }

  lemma {:induction false} NeverCreatedLoop(j: seq<Event>, loop: string)
    requires LoopKeyed(j) && LoopFold(j, loop).Success?
    ensures Unused(j, OfLoop(LoopCreateKey(loop))) ==> LoopFold(j, loop).value.status.LoopAbsent?
  {
    if j != [] {
      var n := |j| - 1;
      NeverCreatedLoop(j[..n], loop);
      if Unused(j, OfLoop(LoopCreateKey(loop))) {
        assert j[n].key != OfLoop(LoopCreateKey(loop)) && LoopKeyFits(j[n].key, j[n].body);
        assert Unused(j[..n], OfLoop(LoopCreateKey(loop)));
      }
    }
  }

  /** Only a failed validation in the last iteration writes a second event. */
  lemma SecondEntry(m: string, j: seq<Event>, loop: string, op: LoopOperation, clock: real, actor: string)
    requires !op.Elsewhere? && LoopFold(j, loop).Success?
    ensures var entries := LoopEntries(m, j, loop, op, clock, actor);
      && |entries| <= 2
      && (|entries| == 2 ==>
            && op.FailValidation? && LoopFold(j, loop).value.status.LoopActive?
            && entries == [LoopEntry(actor, ValidationFailed(loop, LoopFold(j, loop).value.iteration, op.evidence)),
                           LoopEntry(actor, LoopExhausted(loop, LoopFold(j, loop).value.iteration, "max_iterations"))])
  {
    hide LoopFold;
    hide PutPlan;
    hide LoopKeyOf;
    PutsOwn(m, j, actor);
  }

  /** One allowed loop event keeps everything. */
  lemma LoopStepKeeps(j: seq<Event>, m: string, loop: string, now: real, actor: string, f: LoopFact)
    requires LoopGood(j, m, loop) && f.loop == loop && Unused(j, LoopKeyOf(f))
    requires LoopFold(j, loop).Success? && LoopEnabled(LoopFold(j, loop).value, f)
    ensures LoopGood(j + [Stamp(m, |j| + 1, now, LoopEntry(actor, f))], m, loop)
  {
    hide LoopFold;
    hide LoopEnabled;
    hide Sound;
    LoopSound(j, m);
    LoopAcceptable(j, actor, f);
    EntryKeeps(j, m, now, LoopEntry(actor, f));
    LoopLawfulSnoc(j, loop, Stamp(m, |j| + 1, now, LoopEntry(actor, f)));
  }

  lemma LoopSound(j: seq<Event>, m: string)
    requires Sound(j, m)
    ensures Readable(j) && LoopKeyed(j)
  {
  }

  lemma LoopAcceptable(j: seq<Event>, actor: string, f: LoopFact)
    requires Readable(j) && Unused(j, LoopKeyOf(f))
    ensures Acceptable(j, LoopEntry(actor, f))
  {
  }

  /** A call of the controller, however many of its events its process lives to write. */
  lemma LoopCallKeeps(m: string, j: seq<Event>, loop: string, op: LoopOperation, clock: real, actor: string, now: real,
                      k: nat)
    requires LoopGood(j, m, loop) && !op.Elsewhere? && k <= |LoopEntries(m, j, loop, op, clock, actor)|
    ensures LoopGood(Extend(j, m, now, LoopEntries(m, j, loop, op, clock, actor)[..k]), m, loop)
  {
    hide Sound;
    hide LoopLawful;
    hide LoopFold;
    hide LoopEntries;
    hide LoopEnabled;
    LoopSound(j, m);
    var entries := LoopEntries(m, j, loop, op, clock, actor);
    if k == 0 {
      assert entries[..0] == [];
      ExtendNone(j, m, now);
    } else {
      FirstEntry(m, j, loop, op, clock, actor);
      var f := entries[0].body.loopFact;
      LoopStepKeeps(j, m, loop, now, actor, f);
      ExtendOne(j, m, now, entries[0]);
      assert entries[..1] == [entries[0]];
      SecondEntry(m, j, loop, op, clock, actor);
      if k == 2 {
        var before, e := Extend(j, m, now, [entries[0]]), entries[1];
        assert entries[..2] == [entries[0]] + [e];
        FailureThenExhaustion(j, m, loop, now, actor, LoopFold(j, loop).value, entries[0], e, op.evidence);
        LoopStepKeeps(before, m, loop, now, actor, e.body.loopFact);
        ExtendSnoc(j, m, now, [entries[0]], e);
      }
    }
  }

  lemma FailureThenExhaustion(j: seq<Event>, m: string, loop: string, now: real, actor: string, v: LoopView,
                              first: Entry, second: Entry, evidence: seq<string>)
    requires LoopFold(j, loop) == Success(v) && LoopEnabled(v, ValidationFailed(loop, v.iteration, evidence))
    requires first == LoopEntry(actor, ValidationFailed(loop, v.iteration, evidence))
    requires second == LoopEntry(actor, LoopExhausted(loop, v.iteration, "max_iterations"))
    requires LoopGood(Extend(j, m, now, [first]), m, loop)
    ensures var before := Extend(j, m, now, [first]);
      && LoopFold(before, loop).Success? && LoopEnabled(LoopFold(before, loop).value, second.body.loopFact)
      && Unused(before, LoopKeyOf(second.body.loopFact))
  {
    hide LoopFold;
    hide Sound;
    hide LoopLawful;
    ExtendOne(j, m, now, first);
    LoopFoldAppend(j, loop, Stamp(m, |j| + 1, now, first));
    LoopSound(Extend(j, m, now, [first]), m);
    EnabledKeyUnused(Extend(j, m, now, [first]), loop, second.body.loopFact);
  }

  /** An operation, the clock it reads, its time, and how many events its process writes. */
  datatype LoopTurn = LoopTurn(op: LoopOperation, clock: real, actor: string, now: real, fuel: nat)

  ghost function LoopAfter(m: string, j: seq<Event>, loop: string, t: LoopTurn): seq<Event> {
    var entries := LoopEntries(m, j, loop, t.op, t.clock, t.actor);
    Extend(j, m, t.now, entries[..Min(t.fuel, |entries|)])
  }

  ghost predicate IsLoopRun(m: string, loop: string, turns: seq<LoopTurn>, states: seq<seq<Event>>) {
    && |states| == |turns| + 1 && states[0] == []
    && forall i :: 0 <= i < |turns| ==>
         && states[i + 1] == LoopAfter(m, states[i], loop, turns[i])
         && (turns[i].op.Elsewhere? ==>
               Admissible(states[i], m, turns[i].now, turns[i].op.entries)
               && forall e :: e in turns[i].op.entries ==> !OfThisLoop(e.body, loop))
  }

  /** Over every run, with every clock and with crashes anywhere: `replay_loop` never raises, the
      iteration stays within the policy and below the units used, the units within the budget,
      and the loop has written at most 3 * max + 2 events. */
  lemma {:induction false} EveryLoopRun(m: string, loop: string, turns: seq<LoopTurn>, states: seq<seq<Event>>, i: nat)
    requires IsLoopRun(m, loop, turns, states) && i <= |turns|
    ensures LoopGood(states[i], m, loop) && LoopFold(states[i], loop).Success?
    ensures var v := LoopFold(states[i], loop).value;
      && v.iteration <= v.maxIterations && v.iteration <= v.used && (v.budget.Some? ==> v.used <= v.budget.value)
      && LoopEvents(states[i], loop) <= 3 * v.maxIterations + 2
  {
    hide LoopGood;
    hide LoopFold;
    hide LoopAfter;
    if i == 0 {
      NothingGood(m, loop);
    } else {
      EveryLoopRun(m, loop, turns, states, i - 1);
      assert states[i - 1 + 1] == LoopAfter(m, states[i - 1], loop, turns[i - 1]);
      LoopTurnKeeps(m, states[i - 1], loop, turns[i - 1]);
    }
    LoopGoodBounds(states[i], m, loop);
  }

  lemma NothingGood(m: string, loop: string)
    ensures LoopGood([], m, loop)
  {
    NothingWellKept(m);
    assert TablesFor([]) == NO_ROWS;
  }

  lemma LoopTurnKeeps(m: string, j: seq<Event>, loop: string, t: LoopTurn)
    requires LoopGood(j, m, loop)
    requires t.op.Elsewhere? ==>
      Admissible(j, m, t.now, t.op.entries) && forall e :: e in t.op.entries ==> !OfThisLoop(e.body, loop)
    ensures LoopGood(LoopAfter(m, j, loop, t), m, loop)
  {
    hide LoopGood;
    hide Admissible;
    if t.op.Elsewhere? {
      ElsewhereKeepsLoop(j, m, loop, t.now, t.op.entries, Min(t.fuel, |t.op.entries|));
    } else {
      LoopCallKeeps(m, j, loop, t.op, t.clock, t.actor, t.now,
        Min(t.fuel, |LoopEntries(m, j, loop, t.op, t.clock, t.actor)|));
    }
  }

  lemma LoopGoodBounds(j: seq<Event>, m: string, loop: string)
    requires LoopGood(j, m, loop)
    ensures LoopFold(j, loop).Success?
    ensures var v := LoopFold(j, loop).value;
      && v.iteration <= v.maxIterations && v.iteration <= v.used && (v.budget.Some? ==> v.used <= v.budget.value)
      && LoopEvents(j, loop) <= 3 * v.maxIterations + 2
  {
    hide Sound;
    LawfulLoop(j, loop);
  }

  lemma {:induction false} ElsewhereKeepsLoop(j: seq<Event>, m: string, loop: string, now: real, entries: seq<Entry>,
                                              k: nat)
    requires LoopGood(j, m, loop) && Admissible(j, m, now, entries) && k <= |entries|
    requires forall e :: e in entries ==> !OfThisLoop(e.body, loop)
    ensures LoopGood(Extend(j, m, now, entries[..k]), m, loop)
  {
    hide Sound;
    hide Acceptable;
    hide LoopLawful;
    if k == 0 {
      assert entries[..0] == [];
      ExtendNone(j, m, now);
    } else {
      ElsewhereKeepsLoop(j, m, loop, now, entries, k - 1);
      PrefixSnoc(j, m, now, entries, k);
      var before, e := Extend(j, m, now, entries[..k - 1]), entries[k - 1];
      EntryKeeps(before, m, now, e);
      LoopLawfulSnoc(before, loop, Stamp(m, |before| + 1, now, e));
    }
  }
}
