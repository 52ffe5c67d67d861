/** What the calls of the runtime pool answer, in the fields of its projection, and what two calls in a
    row come to. */
module PoolAnswers {
  import opened Base
  import opened Journal
  import opened PoolLog
  import opened Store
  import opened Projection
  import opened PoolRules

  /** `configure`: a target below one or below the active runs is refused, any other is written. */
  lemma ConfigureAnswers(m: string, j: seq<Event>, pool: string, target: int, actor: string)
    requires PoolGood(j, m, pool) && m != "" && actor != ""
    ensures PoolFold(j, pool).Success?
    ensures var plan, v := ConfigurePlan(m, j, pool, target, actor), PoolFold(j, pool).value;
      if target < 1 then plan == Plan([], Some(ValueFault))
      else if target < |v.active| then plan == Plan([], Some(PoolFault))
      else
        plan.fault.None? && |plan.entries| == 1 && plan.entries[0].actor == actor
        && plan.entries[0].body == Pool(PoolConfigured(pool, target))
  {
    hide PoolFold;
    hide PoolGood;
    hide LastSeq;
    PoolGoodFacts(j, m, pool);
    if target >= 1 { TargetWritten(m, j, pool, target, actor); }
  }

  /** `acquire`: an unconfigured pool refuses; a run that is active gets its slot again for the same task
      and worker and is refused for others; a full pool pushes back; a run that was active before
      is refused for good; any other run gets the lowest slot no active run has. */
  lemma AcquireAnswers(m: string, j: seq<Event>, pool: string, run: RunId, task: TaskId, worker: string, actor: string)
    requires PoolGood(j, m, pool) && m != "" && actor != ""
    ensures PoolFold(j, pool).Success?
    ensures var plan, v := AcquirePlan(m, j, pool, run, task, worker, actor), PoolFold(j, pool).value;
      if !v.configured then plan == Plan([], Some(PoolFault))
      else if run in v.active then
        plan == Plan([], if v.active[run].task == task && v.active[run].worker == worker then None else Some(PoolFault))
      else if |v.active| >= v.target then plan == Plan([], Some(PoolBackpressure))
      else if !Unused(j, OfPool(AcquireKey(pool, run))) then
        exists slot ::
          && !InUse(v, slot) && (forall s :: 0 <= s < slot ==> InUse(v, s))
          && plan == Plan([], Some(
               if Stored(j, OfPool(AcquireKey(pool, run)), Pool(SlotAcquired(pool, run, task, worker, slot)))
               then KeyFault else Conflict))
      else
        && plan.fault.None? && |plan.entries| == 1 && plan.entries[0].actor == actor
        && plan.entries[0].body.Pool? && plan.entries[0].body.poolFact.SlotAcquired?
        && var f := plan.entries[0].body.poolFact;
           && f == SlotAcquired(pool, run, task, worker, f.slot) && 0 <= f.slot < v.target
           && !InUse(v, f.slot) && forall s :: 0 <= s < f.slot ==> InUse(v, s)
  {
    hide PoolFold;
    hide PoolGood;
    hide FreeFrom;
    PoolGoodFacts(j, m, pool);
    var v := PoolFold(j, pool).value;
    if v.configured && run !in v.active && |v.active| < v.target {
      SlotsSuffice(v);
      UsedSlotsInUse(v);
    }
  }

  /** Some active run has the slot. */
  ghost predicate InUse(v: PoolView, slot: int) {
    exists run :: run in v.active && v.active[run].slot == slot
  }

  lemma UsedSlotsInUse(v: PoolView)
    ensures forall slot :: slot in UsedSlots(v) <==> InUse(v, slot)
  {
  }

  /** `release`: a run that is not active is refused, any other is released. */
  lemma ReleaseAnswers(m: string, j: seq<Event>, pool: string, run: RunId, actor: string)
    requires PoolGood(j, m, pool) && m != "" && actor != ""
    ensures PoolFold(j, pool).Success?
    ensures var plan, v := ReleasePlan(m, j, pool, run, actor), PoolFold(j, pool).value;
      if run !in v.active then plan == Plan([], Some(PoolFault))
      else
        plan.fault.None? && |plan.entries| == 1 && plan.entries[0].actor == actor
        && plan.entries[0].body == Pool(SlotReleased(pool, run))
  {
    hide PoolFold;
    hide LastSeq;
    PoolGoodFacts(j, m, pool);
    ActiveByKeys(j, pool, run);
  }

  /** No call gets past a journal whose pool events do not replay. */
  lemma UnreadablePool(m: string, j: seq<Event>, pool: string, run: RunId, task: TaskId, worker: string, target: int,
                       actor: string)
    requires PoolFold(j, pool).Failure?
    ensures AcquirePlan(m, j, pool, run, task, worker, actor) == Plan([], Some(PoolReplayRejected))
    ensures ReleasePlan(m, j, pool, run, actor) == Plan([], Some(PoolReplayRejected))
    ensures target >= 1 ==> ConfigurePlan(m, j, pool, target, actor) == Plan([], Some(PoolReplayRejected))
  {
  }

  /** One event of a call, applied. */
  lemma PoolEventApplied(m: string, j: seq<Event>, pool: string, op: PoolOperation, actor: string, e: Entry, now: real)
    requires PoolGood(j, m, pool) && Readable(j) && !op.Elsewhere? && PoolEntries(m, j, pool, op, actor) == [e]
    ensures var j' := Extend(j, m, now, [e]);
      && PoolGood(j', m, pool) && Readable(j') && e.body.Pool?
      && PoolFold(j, pool).Success? && PoolFold(j', pool) == PoolApply(PoolFold(j, pool).value, e.body.poolFact)
      && !Unused(j', e.key)
  {
    hide Readable;
    hide Acceptable;
    hide PoolFold;
    hide PoolApply;
    hide PoolLawful;
    hide PoolEnabled;
    hide PoolEntries;
    hide Sound;
    PoolCallLawful(m, j, pool, op, actor, e);
    EntryKeeps(j, m, now, e);
    ExtendOne(j, m, now, e);
    var event := Stamp(m, |j| + 1, now, e);
    PoolFoldAppend(j, pool, event);
    PoolLawfulSnoc(j, pool, event);
    SoundReadable(j + [event], m);
    assert (j + [event])[|j|].key == e.key;
  }

  lemma Removed<K, V>(active: map<K, V>, k: K, v: V)
    requires k !in active
    ensures active[k := v] - {k} == active
  {
  }

  /** A slot taken and given back: in between the run is active with its slot, and taking it again
      changes nothing for the same task and worker; afterwards the pool is as it was before, and the
      run never gets a slot again. */
  lemma TakenAndGivenBack(m: string, j: seq<Event>, pool: string, run: RunId, task: TaskId, worker: string,
                          actor: string, now: real, other: string, later: real)
    requires PoolGood(j, m, pool) && Readable(j) && m != "" && actor != "" && other != ""
    requires AcquirePlan(m, j, pool, run, task, worker, actor).fault.None?
    requires PoolFold(j, pool).Success? && run !in PoolFold(j, pool).value.active
    ensures var v, j1 := PoolFold(j, pool).value,
        Extend(j, m, now, AcquirePlan(m, j, pool, run, task, worker, actor).entries);
      && PoolGood(j1, m, pool) && PoolFold(j1, pool).Success?
      && (exists slot :: !InUse(v, slot)
           && PoolFold(j1, pool).value == v.(active := v.active[run := SlotUse(task, worker, slot)]))
      && AcquirePlan(m, j1, pool, run, task, worker, other) == Plan([], None)
      && var j2 := Extend(j1, m, later, ReleasePlan(m, j1, pool, run, other).entries);
         && PoolGood(j2, m, pool) && PoolFold(j2, pool) == PoolFold(j, pool)
         && AcquirePlan(m, j2, pool, run, task, worker, actor).fault.Some?
  {
    hide Readable;
    hide PoolFold;
    hide PoolGood;
    hide AcquirePlan;
    hide ReleasePlan;
    hide InUse;
    var v := PoolFold(j, pool).value;
    AcquireAnswers(m, j, pool, run, task, worker, actor);
    var e := AcquirePlan(m, j, pool, run, task, worker, actor).entries[0];
    assert AcquirePlan(m, j, pool, run, task, worker, actor).entries == [e];
    PoolEventApplied(m, j, pool, Acquire(run, task, worker), actor, e, now);
    var j1 := Extend(j, m, now, [e]);
    AcquireAnswers(m, j1, pool, run, task, worker, other);
    ReleaseAnswers(m, j1, pool, run, other);
    var f := ReleasePlan(m, j1, pool, run, other).entries[0];
    assert ReleasePlan(m, j1, pool, run, other).entries == [f];
    PoolEventApplied(m, j1, pool, Release(run), other, f, later);
    Removed(v.active, run, SlotUse(task, worker, e.body.poolFact.slot));
    assert PoolFold(Extend(j1, m, later, [f]), pool).value == v;
    EarlierKeyUsed(m, j, pool, run, task, worker, actor, now, e, f, later);
    AcquireAnswers(m, Extend(j1, m, later, [f]), pool, run, task, worker, actor);
  }

  lemma EarlierKeyUsed(m: string, j: seq<Event>, pool: string, run: RunId, task: TaskId, worker: string, actor: string,
                       now: real, e: Entry, f: Entry, later: real)
    requires AcquirePlan(m, j, pool, run, task, worker, actor).entries == [e]
    ensures !Unused(Extend(Extend(j, m, now, [e]), m, later, [f]), OfPool(AcquireKey(pool, run)))
  {
    hide PoolFold;
    hide FreeFrom;
    var j1 := Extend(j, m, now, [e]);
    var j2 := Extend(j1, m, later, [f]);
    assert j1[|j| + 0] == Stamp(m, |j| + 1, now, e);
    assert j2[|j|] == j2[..|j1|][|j|];
  }

  /** The policy's table: the size recommended for the pressure, and never more than the limit. */
  lemma TeamExactly(x: Metrics, limit: int)
    ensures var failing := x.successRate < 0.8;
      var starved := x.complete && (x.memory >= 0.9 || x.cpu >= 0.35);
      var pressed := (x.complete && (x.memory >= 0.75 || x.cpu >= 0.15)) || x.queue >= 500.0 || x.retries > 0;
      var idle := x.complete && x.memory < 0.7 && x.cpu < 0.1 && x.queue < 250.0 && x.retries == 0;
      var waiting := x.toolCalls > 0 && x.duration > 0.0 && x.toolTime / x.duration >= 0.5;
      var team := if failing || starved then 1 else if pressed then 2
        else if idle && waiting && x.successRate == 1.0 then 8 else 4;
      TeamSize(x, limit) == if limit < 1 then 1 else if limit < team then limit else team
  {
  }

  /** More pressure never recommends more workers. */
  lemma PressureShrinks(x: Metrics, y: Metrics, limit: int)
    requires y.successRate <= x.successRate && y.memory >= x.memory && y.cpu >= x.cpu && y.queue >= x.queue
      && y.retries >= x.retries
    requires y.complete == x.complete && y.toolCalls == x.toolCalls && y.toolTime == x.toolTime
      && y.duration == x.duration
    requires x.successRate <= 1.0 && x.retries >= 0
    ensures TeamSize(y, limit) <= TeamSize(x, limit)
  {
    TeamExactly(x, limit);
    TeamExactly(y, limit);
  }
}
