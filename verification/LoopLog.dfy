/** `replay_loop`: the fold of one bounded loop's events, and the keys they are stored under. */
module LoopLog {
  import opened Base
  import opened Journal

  datatype LoopStatus = LoopAbsent | LoopActive | LoopDone | LoopBroken
  datatype LoopPhase = NoPhase | ReadyToRun | Executing | NeedsRepair | Repaired | Finished | Exhausted

  datatype LoopView = LoopView(
    status: LoopStatus, phase: LoopPhase, iteration: int, maxIterations: int,
    timeout: real, budget: Option<int>, used: int, startedAt: real,
    evidence: seq<string>, reason: Option<string>)

  const NO_LOOP := LoopView(LoopAbsent, NoPhase, 0, 0, 0.0, None, 0, 0.0, [], None)

  function LoopApply(v: LoopView, f: LoopFact, at: real): Result<LoopView> {
    match f
    case LoopCreated(_, maxIterations, timeout, budget) =>
      if !v.status.LoopAbsent? then Failure(LoopReplayRejected)
      else Success(v.(status := LoopActive, phase := ReadyToRun, maxIterations := maxIterations,
                      timeout := timeout, budget := budget, startedAt := at))
    case IterationStarted(_, iteration, cost) =>
      if !v.status.LoopActive? || !(v.phase.ReadyToRun? || v.phase.Repaired?) || iteration != v.iteration + 1 then
        Failure(LoopReplayRejected)
      else Success(v.(iteration := iteration, used := v.used + cost, phase := Executing))
    case ValidationFailed(_, _, evidence) =>
      if !v.status.LoopActive? || !v.phase.Executing? then Failure(LoopReplayRejected)
      else Success(v.(phase := NeedsRepair, evidence := v.evidence + evidence))
    case RepairCompleted(_, _, evidence) =>
      if !v.status.LoopActive? || !v.phase.NeedsRepair? then Failure(LoopReplayRejected)
      else Success(v.(phase := Repaired, evidence := v.evidence + evidence))
    case LoopCompleted(_, _, evidence) =>
      if !v.status.LoopActive? || !v.phase.Executing? || evidence == [] then Failure(LoopReplayRejected)
      else Success(v.(status := LoopDone, phase := Finished, evidence := v.evidence + evidence))
    case LoopExhausted(_, _, reason) =>
      if !v.status.LoopActive? then Failure(LoopReplayRejected)
      else Success(v.(status := LoopBroken, phase := Exhausted, reason := Some(reason)))
  }

  predicate OfThisLoop(b: Body, loop: string) { b.Loop? && b.loopFact.loop == loop }

  function LoopStep(loop: string, v: LoopView, e: Event): Result<LoopView> {
    if OfThisLoop(e.body, loop) then LoopApply(v, e.body.loopFact, e.at) else Success(v)
  }

  function LoopFold(j: seq<Event>, loop: string): Result<LoopView> {
    if j == [] then Success(NO_LOOP)
    else
      var v :- LoopFold(j[..|j| - 1], loop);
      LoopStep(loop, v, j[|j| - 1])
  }

  lemma LoopFoldAppend(j: seq<Event>, loop: string, e: Event)
    ensures LoopFold(j + [e], loop) ==
      if LoopFold(j, loop).Failure? then LoopFold(j, loop) else LoopStep(loop, LoopFold(j, loop).value, e)
  {
    assert (j + [e])[..|j|] == j;
  }

  lemma {:induction false} LoopFoldPrefix(j: seq<Event>, loop: string, k: nat)
    requires k <= |j| && LoopFold(j, loop).Success?
    ensures LoopFold(j[..k], loop).Success?
    decreases |j|
  {
    if k == |j| {
      assert j[..k] == j;
    } else {
      var n := |j| - 1;
      LoopFoldPrefix(j[..n], loop, k);
      assert j[..n][..k] == j[..k];
    }
  }

  /** `replay_loop`: a loop over the events that updates the state in place. */
  method ReplayLoop(j: seq<Event>, loop: string) returns (r: Result<LoopView>)
    ensures r.Success? <==> LoopFold(j, loop).Success?
    ensures r.Success? ==> r == LoopFold(j, loop)
    ensures r.Failure? ==> r.error == LoopReplayRejected
  {
    var v := NO_LOOP;
    for n := 0 to |j|
      invariant LoopFold(j[..n], loop) == Success(v)
    {
      assert j[..n + 1] == j[..n] + [j[n]];
      LoopFoldAppend(j[..n], loop, j[n]);
      if j[n].body.Loop? && j[n].body.loopFact.loop == loop {
        var next := LoopApply(v, j[n].body.loopFact, j[n].at);
        if next.Failure? {
          if LoopFold(j, loop).Success? { LoopFoldPrefix(j, loop, n + 1); }
          return Failure(LoopReplayRejected);
        }
        v := next.value;
      }
    }
    assert j[..|j|] == j;
    r := Success(v);
  }

  function LoopKeyOf(f: LoopFact): Key {
    OfLoop(match f
      case LoopCreated(l, _, _, _) => LoopCreateKey(l)
      case IterationStarted(l, i, _) => IterationKey(l, i)
      case ValidationFailed(l, i, _) => FailKey(l, i)
      case RepairCompleted(l, i, _) => RepairKey(l, i)
      case LoopCompleted(l, _, _) => CompleteKey(l)
      case LoopExhausted(l, i, reason) => ExhaustKey(l, reason, i))
  }

  ghost predicate LoopKeyFits(key: Key, body: Body) {
    && (body.Loop? ==> key == LoopKeyOf(body.loopFact))
    && (key.OfLoop? ==> body.Loop?)
  }

  ghost predicate LoopKeyed(j: seq<Event>) {
    forall i :: 0 <= i < |j| ==> LoopKeyFits(j[i].key, j[i].body)
  }
}
