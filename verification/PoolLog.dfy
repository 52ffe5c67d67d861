/** `replay_pool`: the fold of one pool's events, and the keys they are stored under. */
module PoolLog {
  import opened Base
  import opened Journal

  datatype SlotUse = SlotUse(task: TaskId, worker: string, slot: int)

  datatype PoolView = PoolView(configured: bool, target: int, active: map<RunId, SlotUse>)

  const NO_POOL := PoolView(false, 0, map[])

  function PoolApply(v: PoolView, f: PoolFact): Result<PoolView> {
    match f
    case PoolConfigured(_, target) =>
      if target < 1 then Failure(PoolReplayRejected) else Success(v.(configured := true, target := target))
    case SlotAcquired(_, run, task, worker, slot) =>
      if !v.configured || run in v.active then Failure(PoolReplayRejected)
      else Success(v.(active := v.active[run := SlotUse(task, worker, slot)]))
    case SlotReleased(_, run) =>
      if run !in v.active then Failure(PoolReplayRejected)
      else Success(v.(active := v.active - {run}))
  }

  predicate OfThisPool(b: Body, pool: string) { b.Pool? && b.poolFact.pool == pool }

  function PoolStep(pool: string, v: PoolView, b: Body): Result<PoolView> {
    if OfThisPool(b, pool) then PoolApply(v, b.poolFact) else Success(v)
  }

  function PoolFold(j: seq<Event>, pool: string): Result<PoolView> {
    if j == [] then Success(NO_POOL)
    else
      var v :- PoolFold(j[..|j| - 1], pool);
      PoolStep(pool, v, j[|j| - 1].body)
  }

  /** `last_event_seq`: the number of the pool's latest event, 0 if it has none. */
  function LastSeq(j: seq<Event>, pool: string): int {
    if j == [] then 0
    else if OfThisPool(j[|j| - 1].body, pool) then j[|j| - 1].seqNo
    else LastSeq(j[..|j| - 1], pool)
  }

  lemma PoolFoldAppend(j: seq<Event>, pool: string, e: Event)
    ensures PoolFold(j + [e], pool) ==
      if PoolFold(j, pool).Failure? then PoolFold(j, pool) else PoolStep(pool, PoolFold(j, pool).value, e.body)
    ensures LastSeq(j + [e], pool) == if OfThisPool(e.body, pool) then e.seqNo else LastSeq(j, pool)
  {
    assert (j + [e])[..|j|] == j;
  }

  lemma {:induction false} PoolFoldPrefix(j: seq<Event>, pool: string, k: nat)
    requires k <= |j| && PoolFold(j, pool).Success?
    ensures PoolFold(j[..k], pool).Success?
    decreases |j|
  {
    if k == |j| {
      assert j[..k] == j;
    } else {
      var n := |j| - 1;
      PoolFoldPrefix(j[..n], pool, k);
      assert j[..n][..k] == j[..k];
    }
  }

  /** `replay_pool`: a loop over the events that updates the state in place. */
  method ReplayPool(j: seq<Event>, pool: string) returns (r: Result<PoolView>, last: int)
    ensures r.Success? <==> PoolFold(j, pool).Success?
    ensures r.Success? ==> r == PoolFold(j, pool) && last == LastSeq(j, pool)
    ensures r.Failure? ==> r.error == PoolReplayRejected
  {
    var v := NO_POOL;
    last := 0;
    for n := 0 to |j|
      invariant PoolFold(j[..n], pool) == Success(v) && last == LastSeq(j[..n], pool)
    {
      assert j[..n + 1] == j[..n] + [j[n]];
      PoolFoldAppend(j[..n], pool, j[n]);
      if j[n].body.Pool? && j[n].body.poolFact.pool == pool {
        last := j[n].seqNo;
        var next := PoolApply(v, j[n].body.poolFact);
        if next.Failure? {
          if PoolFold(j, pool).Success? { PoolFoldPrefix(j, pool, n + 1); }
          return Failure(PoolReplayRejected), last;
        }
        v := next.value;
      }
    }
    assert j[..|j|] == j;
    r := Success(v);
  }

  function PoolKeyOf(last: int, f: PoolFact): Key {
    OfPool(match f
      case PoolConfigured(p, target) => ConfigureKey(p, target, last + 1)
      case SlotAcquired(p, run, _, _, _) => AcquireKey(p, run)
      case SlotReleased(p, run) => ReleaseKey(p, run))
  }

  /** The version in a configuration key is one past the pool's latest event. */
  ghost predicate PoolKeyFits(before: seq<Event>, key: Key, body: Body) {
    && (body.Pool? ==> key == PoolKeyOf(LastSeq(before, body.poolFact.pool), body.poolFact))
    && (key.OfPool? ==> body.Pool?)
  }

  ghost predicate PoolKeyed(j: seq<Event>) {
    forall i :: 0 <= i < |j| ==> PoolKeyFits(j[..i], j[i].key, j[i].body)
  }

  lemma PoolKeyedAppend(j: seq<Event>, e: Event)
    requires PoolKeyed(j) && PoolKeyFits(j, e.key, e.body)
    ensures PoolKeyed(j + [e])
  {
    var j' := j + [e];
    forall i | 0 <= i < |j'| ensures PoolKeyFits(j'[..i], j'[i].key, j'[i].body) {
      assert j'[..i] == if i < |j| then j[..i] else j;
    }
  }
}
