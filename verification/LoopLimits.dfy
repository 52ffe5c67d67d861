/** What the limits of a bounded loop are, in its fields and the clock: when a call of the controller
    goes through, when it exhausts the loop and for which reason, and when it raises. */
module LoopLimits {
  import opened Base
  import opened Journal
  import opened Tasks
  import opened Records
  import opened LoopLog
  import opened Store
  import opened Projection
  import opened LoopRules

  /** An active loop can be exhausted, for any reason. */
  lemma ExhaustionWritten(m: string, j: seq<Event>, loop: string, actor: string, reason: string)
    requires LoopGood(j, m, loop) && m != "" && actor != ""
    ensures LoopFold(j, loop).Success?
    ensures var v := LoopFold(j, loop).value;
      var e := LoopEntry(actor, LoopExhausted(loop, v.iteration, reason));
      v.status.LoopActive? ==> PutPlan(m, j, e) == Plan([e], None)
  {
    hide LoopFold;
    hide Readable;
    hide Numbered;
    LoopSound(j, m);
    LawfulLoop(j, loop);
    var v := LoopFold(j, loop).value;
    if v.status.LoopActive? { EnabledKeyUnused(j, loop, LoopExhausted(loop, v.iteration, reason)); }
  }

  /** `_enforce_limits` passes exactly while the loop is active, its time is not over, its last
      iteration is not behind it, and the cost fits the budget.  Otherwise it raises, and an active
      loop is exhausted with the first limit reached: time, then iterations, then budget. */
  lemma LimitsEnforced(m: string, j: seq<Event>, loop: string, clock: real, cost: int, actor: string)
    requires LoopGood(j, m, loop) && m != "" && actor != ""
    ensures LoopFold(j, loop).Success?
    ensures var v := LoopFold(j, loop).value;
      var plan := LimitPlan(m, j, loop, v, LimitOf(v, clock, cost), actor);
      var late, over := clock - v.startedAt >= v.timeout, v.budget.Some? && v.used + cost > v.budget.value;
      var last := v.iteration >= v.maxIterations && (v.phase.ReadyToRun? || v.phase.Repaired?);
      && (plan.fault.None? <==> v.status.LoopActive? && !late && !last && !over)
      && (plan.fault.None? ==> plan.entries == [])
      && (!v.status.LoopActive? ==> plan == Plan([], Some(LoopTransitionFault)))
      && (v.status.LoopActive? && (late || last || over) ==>
            plan == Plan([LoopEntry(actor, LoopExhausted(loop, v.iteration,
              if late then "timeout" else if last then "max_iterations" else "budget"))], Some(LoopLimitExceeded)))
  {
    hide LoopFold;
    hide LoopGood;
    hide PutPlan;
    ExhaustionWritten(m, j, loop, actor, "timeout");
    ExhaustionWritten(m, j, loop, actor, "max_iterations");
    ExhaustionWritten(m, j, loop, actor, "budget");
  }

  /** What a call of the controller writes and raises. */
  ghost function PlanOf(m: string, j: seq<Event>, loop: string, op: LoopOperation, clock: real, actor: string): Plan {
    match op
    case CreateLoop(policy) => CreateLoopPlan(m, j, loop, policy, actor)
    case BeginIteration(cost) => BeginPlan(m, j, loop, cost, clock, actor)
    case FailValidation(evidence) => FailedPlan(m, j, loop, evidence, clock, actor)
    case CompleteRepair(evidence) => RepairedPlan(m, j, loop, evidence, clock, actor)
    case PassValidation(evidence) => PassedPlan(m, j, loop, evidence, clock, actor)
    case Elsewhere(entries) => Plan(entries, None)
  }

  /** A step needs a positive cost or some evidence, then the limits, then its phase; with them it
      writes its event, and a validation that failed in the last iteration exhausts the loop too. */
  lemma StepAnswers(m: string, j: seq<Event>, loop: string, op: LoopOperation, clock: real, actor: string)
    requires LoopGood(j, m, loop) && m != "" && actor != "" && !op.CreateLoop? && !op.Elsewhere?
    ensures LoopFold(j, loop).Success?
    ensures var v, plan := LoopFold(j, loop).value, PlanOf(m, j, loop, op, clock, actor);
      var limits := LimitPlan(m, j, loop, v, LimitOf(v, clock, if op.BeginIteration? then op.cost else 0), actor);
      var proper := if op.BeginIteration? then op.cost >= 1 else op.evidence != [];
      var due := if op.BeginIteration? then v.phase.ReadyToRun? || v.phase.Repaired?
        else if op.CompleteRepair? then v.phase.NeedsRepair? else v.phase.Executing?;
      if !proper then plan == Plan([], Some(if op.BeginIteration? then ValueFault else LoopTransitionFault))
      else if limits.fault.Some? then plan == limits
      else if !due then plan == Plan([], Some(LoopTransitionFault))
      else plan == Plan(StepEntries(loop, v, op, actor), None)
  {
    hide LoopFold;
    hide LoopGood;
    hide PutPlan;
    hide LoopKeyOf;
    LimitsEnforced(m, j, loop, clock, if op.BeginIteration? then op.cost else 0, actor);
    var v := LoopFold(j, loop).value;
    if op.BeginIteration? {
      StepWritten(m, j, loop, IterationStarted(loop, v.iteration + 1, op.cost), actor);
    } else {
      StepWritten(m, j, loop, ValidationFailed(loop, v.iteration, op.evidence), actor);
      StepWritten(m, j, loop, RepairCompleted(loop, v.iteration, op.evidence), actor);
      StepWritten(m, j, loop, LoopCompleted(loop, v.iteration, op.evidence), actor);
      ExhaustionWritten(m, j, loop, actor, "max_iterations");
    }
  }

  /** No step gets past a loop whose events do not replay. */
  lemma UnreadableLoop(m: string, j: seq<Event>, loop: string, op: LoopOperation, clock: real, actor: string)
    requires LoopFold(j, loop).Failure? && !op.CreateLoop? && !op.Elsewhere?
    requires if op.BeginIteration? then op.cost >= 1 else op.evidence != []
    ensures PlanOf(m, j, loop, op, clock, actor) == Plan([], Some(LoopReplayRejected))
  {
    hide LoopFold;
  }

  function StepEntries(loop: string, v: LoopView, op: LoopOperation, actor: string): seq<Entry> {
    match op
    case BeginIteration(cost) => [LoopEntry(actor, IterationStarted(loop, v.iteration + 1, cost))]
    case FailValidation(evidence) =>
      [LoopEntry(actor, ValidationFailed(loop, v.iteration, evidence))]
      + if v.iteration >= v.maxIterations then [LoopEntry(actor, LoopExhausted(loop, v.iteration, "max_iterations"))]
        else []
    case CompleteRepair(evidence) => [LoopEntry(actor, RepairCompleted(loop, v.iteration, evidence))]
    case PassValidation(evidence) => [LoopEntry(actor, LoopCompleted(loop, v.iteration, evidence))]
    case _ => []
  }

  lemma StepWritten(m: string, j: seq<Event>, loop: string, f: LoopFact, actor: string)
    requires LoopGood(j, m, loop) && m != "" && actor != "" && f.loop == loop
    ensures LoopFold(j, loop).Success?
    ensures LoopEnabled(LoopFold(j, loop).value, f) ==>
      PutPlan(m, j, LoopEntry(actor, f)) == Plan([LoopEntry(actor, f)], None)
  {
    hide LoopFold;
    hide Readable;
    hide Numbered;
    hide LoopEnabled;
    LoopSound(j, m);
    LawfulLoop(j, loop);
    if LoopEnabled(LoopFold(j, loop).value, f) { EnabledKeyUnused(j, loop, f); }
  }

  /** The creation the loop's bounds and clock come from. */
  lemma {:induction false} CreatedBy(j: seq<Event>, loop: string) returns (c: nat)
    requires LoopFold(j, loop).Success? && !LoopFold(j, loop).value.status.LoopAbsent?
    ensures c < |j| && OfThisLoop(j[c].body, loop)
    ensures var v := LoopFold(j, loop).value;
      j[c].body.loopFact == LoopCreated(loop, v.maxIterations, v.timeout, v.budget) && v.startedAt == j[c].at
  {
    var n := |j| - 1;
    var v := LoopFold(j[..n], loop).value;
    if v.status.LoopAbsent? {
      c := n;
    } else {
      c := CreatedBy(j[..n], loop);
      assert j[..n][c] == j[c];
    }
  }

  /** Creating a loop: a policy of at least one iteration, a positive time and, if there is one, a
      positive budget; the same creation again changes nothing, another one is a conflict. */
  lemma CreateAnswers(m: string, j: seq<Event>, loop: string, p: Policy, actor: string)
    requires LoopGood(j, m, loop) && m != "" && actor != ""
    ensures LoopFold(j, loop).Success?
    ensures var v, plan := LoopFold(j, loop).value, CreateLoopPlan(m, j, loop, p, actor);
      if p.maxIterations < 1 || p.timeout <= 0.0 || (p.budget.Some? && p.budget.value < 1) then
        plan == Plan([], Some(ValueFault))
      else if v.status.LoopAbsent? then
        plan == Plan([LoopEntry(actor, LoopCreated(loop, p.maxIterations, p.timeout, p.budget))], None)
      else
        plan == Plan([], if p == Policy(v.maxIterations, v.timeout, v.budget) then None else Some(Conflict))
  {
    hide LoopFold;
    hide LoopLawful;
    hide Keyed;
    LoopSound(j, m);
    LawfulLoop(j, loop);
    var f := LoopCreated(loop, p.maxIterations, p.timeout, p.budget);
    if ValidPolicy(p) {
      StepWritten(m, j, loop, f, actor);
      if !LoopFold(j, loop).value.status.LoopAbsent? {
        var c := CreatedBy(j, loop);
        CreationStored(j, loop, f, c);
      }
    }
  }

  lemma CreationStored(j: seq<Event>, loop: string, f: LoopFact, c: nat)
    requires LoopKeyed(j) && UniqueKeys(j) && f.LoopCreated? && f.loop == loop
    requires c < |j| && OfThisLoop(j[c].body, loop) && j[c].body.loopFact.LoopCreated?
    ensures !Unused(j, LoopKeyOf(f)) && (Stored(j, LoopKeyOf(f), Loop(f)) <==> j[c].body.loopFact == f)
  {
    assert LoopKeyFits(j[c].key, j[c].body);
    assert j[c].key == LoopKeyOf(f);
  }

  /** The loop's creation at `c` and the clock: its time is not over. */
  predicate InTime(j: seq<Event>, loop: string, c: int, clock: real) {
    && 0 <= c < |j| && OfThisLoop(j[c].body, loop) && j[c].body.loopFact.LoopCreated?
    && clock < j[c].at + j[c].body.loopFact.timeout
  }

  predicate Overdue(j: seq<Event>, loop: string, c: int, clock: real) {
    && 0 <= c < |j| && OfThisLoop(j[c].body, loop) && j[c].body.loopFact.LoopCreated?
    && clock >= j[c].at + j[c].body.loopFact.timeout
  }

  /** What an event of the loop says about the clock of the call that wrote it: all but the creation
      and an exhaustion is written in time, an exhaustion for the timeout after it. */
  ghost predicate Timely(j: seq<Event>, loop: string, f: LoopFact, clock: real) {
    match f
    case LoopCreated(_, _, _, _) => true
    case LoopExhausted(_, _, reason) => reason == "timeout" <==> exists c :: Overdue(j, loop, c, clock)
    case _ => exists c :: InTime(j, loop, c, clock)
  }

  lemma OneCreation(j: seq<Event>, m: string, loop: string, c: nat, d: nat)
    requires LoopGood(j, m, loop) && c < |j| && d < |j|
    requires OfThisLoop(j[c].body, loop) && j[c].body.loopFact.LoopCreated?
    requires OfThisLoop(j[d].body, loop) && j[d].body.loopFact.LoopCreated?
    ensures c == d
  {
    hide TaskFold;
    hide RecordFold;
    hide LoopFold;
    assert LoopKeyFits(j[c].key, j[c].body) && LoopKeyFits(j[d].key, j[d].body);
    assert UniqueKeys(j);
  }

  lemma EntryTimely(m: string, j: seq<Event>, loop: string, op: LoopOperation, clock: real, actor: string, i: nat)
    requires LoopGood(j, m, loop) && m != "" && actor != "" && !op.Elsewhere?
    requires i < |LoopEntries(m, j, loop, op, clock, actor)|
    ensures var e := LoopEntries(m, j, loop, op, clock, actor)[i];
      e.body.Loop? && e.body.loopFact.loop == loop && Timely(j, loop, e.body.loopFact, clock)
  {
    hide LoopGood;
    hide LoopFold;
    hide PutPlan;
    hide LoopKeyOf;
    if op.CreateLoop? {
      PutsOwn(m, j, actor);
    } else {
      StepAnswers(m, j, loop, op, clock, actor);
      LimitsEnforced(m, j, loop, clock, if op.BeginIteration? then op.cost else 0, actor);
      var v := LoopFold(j, loop).value;
      if v.status.LoopActive? {
        var c := CreatedBy(j, loop);
        assert if clock - v.startedAt < v.timeout then InTime(j, loop, c, clock) else Overdue(j, loop, c, clock);
        forall d | Overdue(j, loop, d, clock) ensures d == c { OneCreation(j, m, loop, c, d); }
      }
    }
  }

  lemma UnnamedWriteNothing(m: string, j: seq<Event>, loop: string, op: LoopOperation, clock: real, actor: string)
    requires (m == "" || actor == "") && !op.Elsewhere?
    ensures LoopEntries(m, j, loop, op, clock, actor) == []
  {
    hide LoopFold;
    hide LoopKeyOf;
    hide LimitOf;
  }

  /** Over every run, with every clock and with crashes anywhere: whatever a call writes about the loop
      was in time when the call read the clock, and the loop is exhausted for the timeout exactly
      when it was not. */
  lemma EveryWriteTimely(m: string, loop: string, turns: seq<LoopTurn>, states: seq<seq<Event>>, i: nat, k: nat)
    requires IsLoopRun(m, loop, turns, states) && i < |turns| && !turns[i].op.Elsewhere?
    requires |states[i]| <= k < |states[i + 1]|
    ensures var b := states[i + 1][k].body;
      b.Loop? && b.loopFact.loop == loop && Timely(states[i], loop, b.loopFact, turns[i].clock)
  {
    hide LoopGood;
    hide LoopFold;
    hide LoopEntries;
    hide Timely;
    var j, t := states[i], turns[i];
    EveryLoopRun(m, loop, turns, states, i);
    assert states[i + 1] == LoopAfter(m, j, loop, t);
    var entries := LoopEntries(m, j, loop, t.op, t.clock, t.actor);
    if m == "" || t.actor == "" {
      UnnamedWriteNothing(m, j, loop, t.op, t.clock, t.actor);
      assert false;
    } else {
      EntryTimely(m, j, loop, t.op, t.clock, t.actor, k - |j|);
      var part := entries[..Min(t.fuel, |entries|)];
      assert Extend(j, m, t.now, part)[|j| + (k - |j|)] == Stamp(m, k + 1, t.now, part[k - |j|]);
    }
  }

  /** What the projection adds up: the units are the costs of the iterations that began, their number
      is the iteration, and the evidence is all that was recorded, in order. */
  function Costs(j: seq<Event>, loop: string): int {
    if j == [] then 0
    else
      var b := j[|j| - 1].body;
      Costs(j[..|j| - 1], loop)
      + if OfThisLoop(b, loop) && b.loopFact.IterationStarted? then b.loopFact.cost else 0
  }

  function Iterations(j: seq<Event>, loop: string): nat {
    if j == [] then 0
    else
      var b := j[|j| - 1].body;
      Iterations(j[..|j| - 1], loop) + if OfThisLoop(b, loop) && b.loopFact.IterationStarted? then 1 else 0
  }

  function EvidenceOf(b: Body, loop: string): seq<string> {
    if !OfThisLoop(b, loop) then []
    else match b.loopFact
      case ValidationFailed(_, _, evidence) => evidence
      case RepairCompleted(_, _, evidence) => evidence
      case LoopCompleted(_, _, evidence) => evidence
      case _ => []
  }

  function Evidence(j: seq<Event>, loop: string): seq<string> {
    if j == [] then [] else Evidence(j[..|j| - 1], loop) + EvidenceOf(j[|j| - 1].body, loop)
  }

  lemma {:induction false} LoopAccounts(j: seq<Event>, loop: string)
    requires LoopFold(j, loop).Success?
    ensures var v := LoopFold(j, loop).value;
      && v.used == Costs(j, loop) && v.iteration == Iterations(j, loop) && v.evidence == Evidence(j, loop)
      && (v.status.LoopBroken? ==> exists i ::
            && 0 <= i < |j| && OfThisLoop(j[i].body, loop)
            && j[i].body.loopFact.LoopExhausted? && Some(j[i].body.loopFact.reason) == v.reason)
  {
    if j != [] {
      var n := |j| - 1;
      LoopAccounts(j[..n], loop);
      var v, w := LoopFold(j[..n], loop).value, LoopFold(j, loop).value;
      assert Evidence(j[..n], loop) + [] == Evidence(j[..n], loop);
      if v.status.LoopBroken? {
        var i :| 0 <= i < n && OfThisLoop(j[..n][i].body, loop)
          && j[..n][i].body.loopFact.LoopExhausted? && Some(j[..n][i].body.loopFact.reason) == v.reason;
        assert j[i] == j[..n][i];
      }
    }
  }
}
