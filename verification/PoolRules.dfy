/** `LocalRuntimePool`: what each call writes, and what every sequence of calls keeps. */
module PoolRules {
  import opened Base
  import opened Journal
  import opened Tasks
  import opened Records
  import opened GraphLog
  import opened PoolLog
  import opened LoopLog
  import opened Store
  import opened Projection

  function PoolEntry(actor: string, last: int, f: PoolFact): Entry {
    Entry(actor, PoolKeyOf(last, f), Pool(f))
  }

  function UsedSlots(v: PoolView): set<int> { set run | run in v.active :: v.active[run].slot }

  /** The first index from `s` on, below `limit`, that is not used. */
  function FreeFrom(used: set<int>, s: nat, limit: int): Option<int>
    decreases limit - s
  {
    if s >= limit then None
    else if s !in used then Some(s)
    else FreeFrom(used, s + 1, limit)
  }

  ghost function ConfigurePlan(m: string, j: seq<Event>, pool: string, target: int, actor: string): Plan {
    if target < 1 then Plan([], Some(ValueFault))
    else if PoolFold(j, pool).Failure? then Plan([], Some(PoolReplayRejected))
    else if target < |PoolFold(j, pool).value.active| then Plan([], Some(PoolFault))
    else PutPlan(m, j, PoolEntry(actor, LastSeq(j, pool), PoolConfigured(pool, target)))
  }

  /** A run id that was acquired and released before is found under its key: the slot is not
      acquired again, and the lookup of the run that follows fails. */
  ghost function AcquirePlan(m: string, j: seq<Event>, pool: string, run: RunId, task: TaskId, worker: string,
                             actor: string): Plan {
    if PoolFold(j, pool).Failure? then Plan([], Some(PoolReplayRejected))
    else
      var v := PoolFold(j, pool).value;
      if !v.configured then Plan([], Some(PoolFault))
      else if run in v.active then
        Plan([], if v.active[run].task == task && v.active[run].worker == worker then None else Some(PoolFault))
      else if |v.active| >= v.target then Plan([], Some(PoolBackpressure))
      else
        SlotsSuffice(v);
        var put := PutPlan(m, j, PoolEntry(actor, LastSeq(j, pool),
          SlotAcquired(pool, run, task, worker, FreeFrom(UsedSlots(v), 0, v.target).value)));
        if put.entries == [] && put.fault.None? then Plan([], Some(KeyFault)) else put
  }

  ghost function ReleasePlan(m: string, j: seq<Event>, pool: string, run: RunId, actor: string): Plan {
    if PoolFold(j, pool).Failure? then Plan([], Some(PoolReplayRejected))
    else if run !in PoolFold(j, pool).value.active then Plan([], Some(PoolFault))
    else PutPlan(m, j, PoolEntry(actor, LastSeq(j, pool), SlotReleased(pool, run)))
  }

  lemma {:induction false} FewSlots(v: PoolView)
    ensures |UsedSlots(v)| <= |v.active|
    decreases |v.active|
  {
    if v.active != map[] {
      var run :| run in v.active;
      var w := v.(active := v.active - {run});
      FewSlots(w);
      assert v.active == w.active[run := v.active[run]];
      assert UsedSlots(v) == UsedSlots(w) + {v.active[run].slot};
    }
  }

  function Range(n: nat): set<int> { if n == 0 then {} else Range(n - 1) + {n - 1} }

  lemma {:induction false} RangeCount(n: nat)
    ensures |Range(n)| == n && forall i :: i in Range(n) <==> 0 <= i < n
  {
    if n > 0 { RangeCount(n - 1); }
  }

  lemma {:induction false} FreeFromLeast(used: set<int>, s: nat, limit: int)
    ensures match FreeFrom(used, s, limit)
      case Some(slot) => s <= slot < limit && slot !in used && forall i :: s <= i < slot ==> i in used
      case None => forall i :: s <= i < limit ==> i in used
    decreases limit - s
  {
    if s < limit && s in used { FreeFromLeast(used, s + 1, limit); }
  }

  /** With fewer active runs than slots the search for the lowest free slot succeeds, whatever
      slots the runs hold: even after the pool was shrunk below some of them. */
  lemma SlotsSuffice(v: PoolView)
    requires |v.active| < v.target
    ensures FreeFrom(UsedSlots(v), 0, v.target).Some?
    ensures var slot := FreeFrom(UsedSlots(v), 0, v.target).value;
      0 <= slot < v.target && slot !in UsedSlots(v) && forall i :: 0 <= i < slot ==> i in UsedSlots(v)
  {
    var used := UsedSlots(v);
    FreeFromLeast(used, 0, v.target);
    if FreeFrom(used, 0, v.target).None? {
      FewSlots(v);
      RangeCount(v.target);
      assert forall i :: 0 <= i < v.target ==> i in used;
      assert Range(v.target) <= used;
      SubsetCount(Range(v.target), used);
      assert false;
    }
  }

  /** The pool invariant. */
  ghost predicate PoolInvariant(v: PoolView) {
    && (if v.configured then v.target >= 1 && |v.active| <= v.target else v.active == map[])
    && (forall run :: run in v.active ==> v.active[run].slot >= 0)
    && (forall a, b :: a in v.active && b in v.active && a != b ==> v.active[a].slot != v.active[b].slot)
  }

  /** What a pool event needs when it is written. */
  ghost predicate PoolEnabled(v: PoolView, f: PoolFact) {
    match f
    case PoolConfigured(_, target) => target >= 1 && |v.active| <= target
    case SlotAcquired(_, run, _, _, slot) =>
      v.configured && run !in v.active && |v.active| < v.target && Some(slot) == FreeFrom(UsedSlots(v), 0, v.target)
    case SlotReleased(_, run) => run in v.active
  }

  lemma EnabledKeepsPool(v: PoolView, f: PoolFact)
    requires PoolInvariant(v) && PoolEnabled(v, f)
    ensures PoolApply(v, f).Success? && PoolInvariant(PoolApply(v, f).value)
  {
    match f {
      case PoolConfigured(_, target) =>
      case SlotAcquired(_, run, task, worker, slot) =>
        SlotsSuffice(v);
        assert forall r :: r in v.active ==> v.active[r].slot in UsedSlots(v);
      case SlotReleased(_, run) =>
        SubsetCount((v.active - {run}).Keys, v.active.Keys);
    }
  }

  /** Each event of the pool was allowed when it was written. */
  ghost predicate PoolLawful(j: seq<Event>, pool: string) {
    forall k :: 0 <= k < |j| && OfThisPool(j[k].body, pool) ==>
      PoolFold(j[..k], pool).Success? && PoolEnabled(PoolFold(j[..k], pool).value, j[k].body.poolFact)
  }

  lemma PoolLawfulSnoc(j: seq<Event>, pool: string, e: Event)
    requires PoolLawful(j, pool)
    requires OfThisPool(e.body, pool) ==>
      PoolFold(j, pool).Success? && PoolEnabled(PoolFold(j, pool).value, e.body.poolFact)
    ensures PoolLawful(j + [e], pool)
  {
    var j' := j + [e];
    forall k | 0 <= k < |j'| && OfThisPool(j'[k].body, pool)
      ensures PoolFold(j'[..k], pool).Success? && PoolEnabled(PoolFold(j'[..k], pool).value, j'[k].body.poolFact) {
      assert j'[..k] == if k < |j| then j[..k] else j;
    }
  }

  /** Such a journal is never rejected, and its projection meets the pool invariant. */
  lemma {:induction false} LawfulPool(j: seq<Event>, pool: string)
    requires PoolLawful(j, pool)
    ensures PoolFold(j, pool).Success? && PoolInvariant(PoolFold(j, pool).value)
  {
    if j != [] {
      var n := |j| - 1;
      assert PoolLawful(j[..n], pool) by {
        forall k | 0 <= k < n && OfThisPool(j[..n][k].body, pool)
          ensures PoolFold(j[..n][..k], pool).Success? && PoolEnabled(PoolFold(j[..n][..k], pool).value,
            j[..n][k].body.poolFact) {
          assert j[..n][..k] == j[..k];
        }
      }
      LawfulPool(j[..n], pool);
      if OfThisPool(j[n].body, pool) {
        EnabledKeepsPool(PoolFold(j[..n], pool).value, j[n].body.poolFact);
      }
    }
  }

  /** What the keys of a pool tell of a run: it is active exactly when its acquisition is stored
      and its release is not, and no release is stored without the acquisition. */
  ghost predicate KeysTell(j: seq<Event>, pool: string, run: RunId) {
    var acquired, released := !Unused(j, OfPool(AcquireKey(pool, run))), !Unused(j, OfPool(ReleaseKey(pool, run)));
    && (released ==> acquired)
    && PoolFold(j, pool).Success?
    && (run in PoolFold(j, pool).value.active <==> acquired && !released)
  }

  lemma UnusedSnoc(j: seq<Event>, e: Event, key: Key)
    ensures Unused(j + [e], key) <==> Unused(j, key) && e.key != key
  {
    var j' := j + [e];
    assert j'[|j|] == e;
    if Unused(j', key) {
      forall i | 0 <= i < |j| ensures j[i].key != key { assert j'[i] == j[i]; }
    }
  }

  lemma PoolKeyedPrefix(j: seq<Event>, k: nat)
    requires PoolKeyed(j) && k <= |j|
    ensures PoolKeyed(j[..k])
    ensures k < |j| ==> PoolKeyFits(j[..k], j[k].key, j[k].body)
  {
    hide PoolKeyFits;
    forall i | 0 <= i < k ensures PoolKeyFits(j[..k][..i], j[..k][i].key, j[..k][i].body) {
      assert j[..k][..i] == j[..i] && PoolKeyFits(j[..i], j[i].key, j[i].body);
    }
  }

  lemma {:induction false} ActiveByKeys(j: seq<Event>, pool: string, run: RunId)
    requires PoolKeyed(j) && UniqueKeys(j) && PoolFold(j, pool).Success?
    ensures KeysTell(j, pool, run)
  {
    hide KeysTell;
    if j == [] {
      NoKeysTell(pool, run);
    } else {
      var n := |j| - 1;
      PoolFoldPrefix(j, pool, n);
      PoolKeyedPrefix(j, n);
      ActiveByKeys(j[..n], pool, run);
      assert j == j[..n] + [j[n]];
      ActiveByKeysSnoc(j[..n], pool, run, j[n]);
    }
  }

  lemma NoKeysTell(pool: string, run: RunId)
    ensures KeysTell([], pool, run)
  {
  }

  lemma ActiveByKeysSnoc(j: seq<Event>, pool: string, run: RunId, e: Event)
    requires KeysTell(j, pool, run) && PoolFold(j, pool).Success? && PoolFold(j + [e], pool).Success?
    requires PoolKeyFits(j, e.key, e.body) && UniqueKeys(j + [e])
    ensures KeysTell(j + [e], pool, run)
  {
    hide PoolFold;
    hide LastSeq;
    var acquired, released := OfPool(AcquireKey(pool, run)), OfPool(ReleaseKey(pool, run));
    UnusedSnoc(j, e, acquired);
    UnusedSnoc(j, e, released);
    NewKey(j, e);
    PoolFoldAppend(j, pool, e);
  }

  lemma NewKey(j: seq<Event>, e: Event)
    requires UniqueKeys(j + [e])
    ensures Unused(j, e.key)
  {
    var j' := j + [e];
    forall i | 0 <= i < |j| ensures j[i].key != e.key {
      assert j'[i] == j[i] && j'[|j|] == e;
    }
  }

  /** A released run never becomes active again: not in this journal, not in any later one. */
  lemma ReleasedForGood(j: seq<Event>, later: seq<Event>, pool: string, run: RunId)
    requires PoolKeyed(later) && UniqueKeys(later) && PoolFold(later, pool).Success?
    requires j <= later && !Unused(j, OfPool(ReleaseKey(pool, run)))
    ensures run !in PoolFold(later, pool).value.active
    ensures forall m, task, worker, actor ::
      var plan := AcquirePlan(m, later, pool, run, task, worker, actor); plan.entries == [] && plan.fault.Some?
  {
    ActiveByKeys(later, pool, run);
    var i :| 0 <= i < |j| && j[i].key == OfPool(ReleaseKey(pool, run));
    assert later[i] == j[i];
  }

  lemma {:induction false} VersionsBelow(j: seq<Event>, pool: string, i: nat)
    requires forall k :: 0 <= k < |j| ==> j[k].seqNo == k + 1
    requires i < |j| && OfThisPool(j[i].body, pool)
    ensures LastSeq(j[..i], pool) < j[i].seqNo <= LastSeq(j, pool)
    decreases |j|
  {
    LastSeqBound(j[..i], pool);
    var n := |j| - 1;
    if i < n {
      assert j[..n][..i] == j[..i];
      VersionsBelow(j[..n], pool, i);
      LastSeqBound(j[..n], pool);
    }
  }

  lemma {:induction false} LastSeqBound(j: seq<Event>, pool: string)
    requires forall k :: 0 <= k < |j| ==> j[k].seqNo == k + 1
    ensures 0 <= LastSeq(j, pool) <= |j|
  {
    if j != [] && !OfThisPool(j[|j| - 1].body, pool) { LastSeqBound(j[..|j| - 1], pool); }
  }

  /** A configuration is never confused with an earlier one: its version is new. */
  lemma ConfigureIsNew(j: seq<Event>, pool: string, target: int)
    requires PoolKeyed(j) && (forall k :: 0 <= k < |j| ==> j[k].seqNo == k + 1)
    ensures Unused(j, OfPool(ConfigureKey(pool, target, LastSeq(j, pool) + 1)))
  {
    forall i | 0 <= i < |j| ensures j[i].key != OfPool(ConfigureKey(pool, target, LastSeq(j, pool) + 1)) {
      assert PoolKeyFits(j[..i], j[i].key, j[i].body);
      if j[i].key == OfPool(ConfigureKey(pool, target, LastSeq(j, pool) + 1)) {
        assert OfThisPool(j[i].body, pool);
        VersionsBelow(j, pool, i);
      }
    }
  }

  /** What `policy` reads of the metrics; a figure that is missing reads as zero. */
  datatype Metrics = Metrics(
    successRate: real, complete: bool, memory: real, cpu: real, queue: real, retries: int,
    toolCalls: int, toolTime: real, duration: real)

  /** The share of the time that tools took, at most one. */
  function ToolRatio(x: Metrics): (ratio: real)
    ensures ratio <= 1.0
  {
    if x.duration <= 0.0 then 0.0
    else if x.toolTime / x.duration < 1.0 then x.toolTime / x.duration
    else 1.0
  }

  /** The team size `policy` recommends: positive, within the limit when there is one, and above
      four for work that waits on tools only. */
  function TeamSize(x: Metrics, limit: int): (team: int)
    ensures 1 <= team <= 8 && (limit >= 1 ==> team <= limit)
    ensures team > 4 ==> x.successRate == 1.0 && x.complete && x.retries == 0 && x.toolCalls > 0
    ensures x.successRate < 0.8 || (x.complete && x.memory >= 0.9) ==> team == 1
  {
    var most := if limit < 1 then 1 else limit;
    var team :=
      if x.successRate < 0.8 then 1
      else if x.complete && (x.memory >= 0.9 || x.cpu >= 0.35) then 1
      else if (x.complete && (x.memory >= 0.75 || x.cpu >= 0.15)) || x.queue >= 500.0 || x.retries > 0 then 2
      else if x.complete && x.successRate == 1.0 && x.toolCalls > 0 && ToolRatio(x) >= 0.5
              && x.memory < 0.7 && x.cpu < 0.1 && x.queue < 250.0 && x.retries == 0 then 8
      else 4;
    Min(most, team)
  }

  /** The number of slots `configure_from_metrics` asks for: the recommended team, or the active
      runs when they are more. */
  function MetricsTarget(requested: int, v: PoolView): (target: int)
    ensures target >= requested && target >= |v.active| && (target == requested || target == |v.active|)
  {
    if requested >= |v.active| then requested else |v.active|
  }

  datatype PoolOperation =
    | Configure(target: int)
    | Acquire(run: RunId, task: TaskId, worker: string)
    | Release(run: RunId)
    | Elsewhere(entries: seq<Entry>)

  ghost function PoolEntries(m: string, j: seq<Event>, pool: string, op: PoolOperation, actor: string): seq<Entry> {
    match op
    case Configure(target) => ConfigurePlan(m, j, pool, target, actor).entries
    case Acquire(run, task, worker) => AcquirePlan(m, j, pool, run, task, worker, actor).entries
    case Release(run) => ReleasePlan(m, j, pool, run, actor).entries
    case Elsewhere(entries) => entries
  }

  /** A well-kept journal whose pool events were all allowed. */
  ghost predicate PoolGood(j: seq<Event>, m: string, pool: string) {
    Sound(j, m) && PoolLawful(j, pool)
  }

  /** A target of at least one slot and of the active runs is always written. */
  lemma TargetWritten(m: string, j: seq<Event>, pool: string, target: int, actor: string)
    requires PoolGood(j, m, pool) && target >= 1 && m != "" && actor != ""
    ensures PoolFold(j, pool).Success?
    ensures target >= |PoolFold(j, pool).value.active| ==>
      ConfigurePlan(m, j, pool, target, actor)
        == Plan([PoolEntry(actor, LastSeq(j, pool), PoolConfigured(pool, target))], None)
  {
    hide PoolFold;
    hide PoolLawful;
    hide LastSeq;
    LawfulPool(j, pool);
    SoundReadable(j, m);
    ConfigureIsNew(j, pool, target);
  }

  /** A recommendation, whatever the metrics, is never refused for shrinking the pool. */
  lemma RecommendationWritten(m: string, j: seq<Event>, pool: string, x: Metrics, limit: int, actor: string)
    requires PoolGood(j, m, pool) && m != "" && actor != ""
    ensures PoolFold(j, pool).Success?
    ensures var target := MetricsTarget(TeamSize(x, limit), PoolFold(j, pool).value);
      ConfigurePlan(m, j, pool, target, actor)
        == Plan([PoolEntry(actor, LastSeq(j, pool), PoolConfigured(pool, target))], None)
  {
    hide PoolGood;
    hide PoolFold;
    hide LastSeq;
    hide ConfigurePlan;
    hide TeamSize;
    PoolGoodFacts(j, m, pool);
    TargetWritten(m, j, pool, MetricsTarget(TeamSize(x, limit), PoolFold(j, pool).value), actor);
  }

  /** A call of the pool writes at most one event, under a new key, and one that is allowed. */
  lemma PoolCallLawful(m: string, j: seq<Event>, pool: string, op: PoolOperation, actor: string, e: Entry)
    requires PoolGood(j, m, pool) && Readable(j) && !op.Elsewhere? && PoolEntries(m, j, pool, op, actor) == [e]
    ensures Acceptable(j, e) && OfThisPool(e.body, pool)
    ensures PoolFold(j, pool).Success? && PoolEnabled(PoolFold(j, pool).value, e.body.poolFact)
  {
    hide Sound;
    hide PoolFold;
    hide PoolApply;
    hide PutPlan;
    hide PoolLawful;
    hide FreeFrom;
    LawfulPool(j, pool);
    var v := PoolFold(j, pool).value;
    var last := LastSeq(j, pool);
    match op {
      case Configure(target) =>
        PoolPutAcceptable(m, j, PoolConfigured(pool, target), actor, e);
      case Acquire(run, task, worker) =>
        SlotsSuffice(v);
        PoolPutAcceptable(m, j, SlotAcquired(pool, run, task, worker, FreeFrom(UsedSlots(v), 0, v.target).value), actor,
          e);
      case Release(run) =>
        PoolPutAcceptable(m, j, SlotReleased(pool, run), actor, e);
    }
  }

  lemma PoolPutAcceptable(m: string, j: seq<Event>, f: PoolFact, actor: string, e: Entry)
    requires Readable(j) && PutPlan(m, j, PoolEntry(actor, LastSeq(j, f.pool), f)).entries == [e]
    ensures e == PoolEntry(actor, LastSeq(j, f.pool), f) && Acceptable(j, e)
  {
    hide TaskFold;
    hide RecordFold;
    hide Keyed;
    hide LastSeq;
  }

  /** An operation, its caller and time, and whether its process lived to write. */
  datatype PoolTurn = PoolTurn(op: PoolOperation, actor: string, now: real, fuel: nat)

  ghost function PoolAfter(m: string, j: seq<Event>, pool: string, t: PoolTurn): seq<Event> {
    var entries := PoolEntries(m, j, pool, t.op, t.actor);
    Extend(j, m, t.now, entries[..Min(t.fuel, |entries|)])
  }

  ghost predicate IsPoolRun(m: string, pool: string, turns: seq<PoolTurn>, states: seq<seq<Event>>) {
    && |states| == |turns| + 1 && states[0] == []
    && forall i :: 0 <= i < |turns| ==>
         && states[i + 1] == PoolAfter(m, states[i], pool, turns[i])
         && (turns[i].op.Elsewhere? ==>
               Admissible(states[i], m, turns[i].now, turns[i].op.entries)
               && forall e :: e in turns[i].op.entries ==> !OfThisPool(e.body, pool))
  }

  /** Over every run of configure, acquire and release, with crashes and with any other calls in
      between: the journal replays, never more runs are active than there are slots, and no two
      share a slot. */
  lemma {:induction false} EveryPoolRun(m: string, pool: string, turns: seq<PoolTurn>, states: seq<seq<Event>>, i: nat)
    requires IsPoolRun(m, pool, turns, states) && i <= |turns|
    ensures PoolGood(states[i], m, pool) && PoolFold(states[i], pool).Success?
    ensures PoolInvariant(PoolFold(states[i], pool).value)
    ensures forall run :: KeysTell(states[i], pool, run)
  {
    hide Admissible;
    hide PoolFold;
    hide PoolInvariant;
    hide KeysTell;
    hide PoolGood;
    hide PoolAfter;
    if i == 0 {
      NothingPoolGood(m, pool);
    } else {
      EveryPoolRun(m, pool, turns, states, i - 1);
      assert states[i - 1 + 1] == PoolAfter(m, states[i - 1], pool, turns[i - 1]);
      PoolStepKeeps(m, pool, states[i - 1], turns[i - 1]);
    }
    PoolGoodFacts(states[i], m, pool);
  }

  lemma NothingPoolGood(m: string, pool: string)
    ensures PoolGood([], m, pool)
  {
    NothingWellKept(m);
    assert TablesFor([]) == NO_ROWS;
  }

  lemma PoolGoodFacts(j: seq<Event>, m: string, pool: string)
    requires PoolGood(j, m, pool)
    ensures PoolFold(j, pool).Success? && PoolInvariant(PoolFold(j, pool).value)
    ensures forall run :: KeysTell(j, pool, run)
  {
    hide KeysTell;
    hide PoolInvariant;
    LawfulPool(j, pool);
    forall run ensures KeysTell(j, pool, run) {
      ActiveByKeys(j, pool, run);
    }
  }

  lemma PoolStepKeeps(m: string, pool: string, j: seq<Event>, t: PoolTurn)
    requires PoolGood(j, m, pool)
    requires t.op.Elsewhere? ==>
      Admissible(j, m, t.now, t.op.entries) && forall e :: e in t.op.entries ==> !OfThisPool(e.body, pool)
    ensures PoolGood(PoolAfter(m, j, pool, t), m, pool)
  {
    hide Sound;
    hide Acceptable;
    hide PoolLawful;
    hide PoolFold;
    hide PoolEnabled;
    hide ConfigurePlan;
    hide AcquirePlan;
    hide ReleasePlan;
    var entries := PoolEntries(m, j, pool, t.op, t.actor);
    var k := Min(t.fuel, |entries|);
    if t.op.Elsewhere? {
      ElsewhereKeepsPool(j, m, pool, t.now, entries, k);
    } else if k == 0 {
      assert entries[..0] == [];
      ExtendNone(j, m, t.now);
    } else {
      AtMostOne(m, j, pool, t.op, t.actor);
      var e := entries[0];
      assert entries == [e] && entries[..k] == [e];
      SoundReadable(j, m);
      PoolCallLawful(m, j, pool, t.op, t.actor, e);
      ExtendOne(j, m, t.now, e);
      EntryKeeps(j, m, t.now, e);
      PoolLawfulSnoc(j, pool, Stamp(m, |j| + 1, t.now, e));
    }
  }

  lemma AtMostOne(m: string, j: seq<Event>, pool: string, op: PoolOperation, actor: string)
    requires !op.Elsewhere?
    ensures |PoolEntries(m, j, pool, op, actor)| <= 1
  {
  }

  lemma {:induction false} ElsewhereKeepsPool(j: seq<Event>, m: string, pool: string, now: real, entries: seq<Entry>,
                                              k: nat)
    requires PoolGood(j, m, pool) && Admissible(j, m, now, entries) && k <= |entries|
    requires forall e :: e in entries ==> !OfThisPool(e.body, pool)
    ensures PoolGood(Extend(j, m, now, entries[..k]), m, pool)
  {
    hide Sound;
    hide Acceptable;
    hide PoolLawful;
    if k == 0 {
      assert entries[..0] == [];
      ExtendNone(j, m, now);
    } else {
      ElsewhereKeepsPool(j, m, pool, now, entries, k - 1);
      PrefixSnoc(j, m, now, entries, k);
      var before, e := Extend(j, m, now, entries[..k - 1]), entries[k - 1];
      EntryKeeps(before, m, now, e);
      PoolLawfulSnoc(before, pool, Stamp(m, |before| + 1, now, e));
    }
  }
}
