/** Where a dispatch stops and what it raises. */
module DispatchAnswers {
  import opened Base
  import opened Journal
  import opened Tasks
  import opened PoolLog
  import opened Store
  import opened Projection
  import opened GraphPlans
  import opened PoolRules
  import opened Scheduling

  /** The workers that have a name, in order: the list is filtered one by one. */
  lemma NamedExactly(workers: seq<string>, w: string)
    ensures NamedWorkers([]) == []
    ensures NamedWorkers(workers + [w]) == NamedWorkers(workers) + if w == "" then [] else [w]
  {
    assert (workers + [w])[..|workers|] == workers;
  }

  lemma {:induction false} NamedMembers(workers: seq<string>)
    ensures forall w :: multiset(NamedWorkers(workers))[w] == if w == "" then 0 else multiset(workers)[w]
  {
    if workers != [] {
      var n := |workers| - 1;
      NamedMembers(workers[..n]);
      assert workers == workers[..n] + [workers[n]];
    }
  }

  /** Before the first offer: a time that is not positive is refused, no named worker ends the call at once,
      and a graph that cannot be read raises. */
  lemma DispatchRefused(m: string, j: seq<Event>, gid: string, pool: string, workers: seq<string>,
                        leases: seq<string>, ttl: int, actor: string, now: real)
    requires Sound(j, m) && TaskFold(j).Success? && |workers| <= |leases|
    ensures var d := DispatchReadyOf(m, j, gid, pool, workers, leases, ttl, actor, now);
      var nobody := forall w :: w in workers ==> w == "";
      && (ttl <= 0 ==> d == Dispatch([], Some(ValueFault), []))
      && (ttl > 0 && nobody ==> d == Dispatch([], None, []))
      && (ttl > 0 && !nobody && ReadyReport(gid, j).Failure? ==>
            d == Dispatch([], Some(ReadyReport(gid, j).error), []))
      && (ttl > 0 && !nobody && ReadyReport(gid, j) == Success([]) ==> d == Dispatch([], None, []))
  {
    hide Sound;
    hide TaskFold;
    hide NamedWorkers;
    hide ReadyReport;
    NamedMembers(workers);
    var named := NamedWorkers(workers);
    if named != [] {
      assert multiset(named)[named[0]] > 0;
      assert named[0] in workers;
    } else {
      forall w | w in workers ensures w == "" { assert multiset(named)[w] == 0 && multiset(workers)[w] > 0; }
    }
  }

  /** At an offer: a full pool ends the dispatch without an exception, any other exception of the pool is
      raised, and so is that of the lease once the slot was given back. */
  lemma OfferEnds(m: string, j: seq<Event>, gid: string, pool: string, offers: seq<Offer>, ttl: int, actor: string,
                  now: real)
    requires Sound(j, m) && Readable(j) && offers != []
    ensures var d, o := DispatchOf(m, j, gid, pool, offers, ttl, actor, now), offers[0];
      var run, task := NodeRun(gid, o.node, o.worker), NodeTask(gid, o.node);
      var acquired := AcquirePlan(m, j, pool, run, task, o.worker, actor);
      var j1 := Extend(j, m, now, acquired.entries);
      && (acquired.fault == Some(PoolBackpressure) ==> d == Dispatch([], None, []))
      && (acquired.fault.Some? && acquired.fault != Some(PoolBackpressure) ==>
            d == Dispatch([], acquired.fault, []))
      && (acquired.fault.None? ==> Sound(j1, m) && Readable(j1))
      && (acquired.fault.None? ==>
            var leased := LeasePlan(m, j1, gid, o.node, o.worker, ttl, o.lease, actor, now);
            var j2 := Extend(j1, m, now, leased.entries);
            leased.fault.Some? ==>
              var released := ReleasePlan(m, j2, pool, run, actor);
              && d.assignments == [] && d.entries == acquired.entries + leased.entries + released.entries
              && (released.fault.None? ==> d.fault == leased.fault))
  {
    hide Sound;
    hide TaskFold;
    hide PoolFold;
    hide LeasePlan;
    hide ReleasePlan;
    hide PutPlan;
    var o := offers[0];
    var run, task := NodeRun(gid, o.node, o.worker), NodeTask(gid, o.node);
    var acquired := AcquirePlan(m, j, pool, run, task, o.worker, actor);
    AcquireEmpty(m, j, pool, run, task, o.worker, actor);
    if acquired.fault.None? {
      hide AcquirePlan;
      AcquireSound(m, j, pool, run, task, o.worker, actor, now);
      SoundReadable(Extend(j, m, now, acquired.entries), m);
    }
  }

  lemma AcquireEmpty(m: string, j: seq<Event>, pool: string, run: RunId, task: TaskId, worker: string, actor: string)
    ensures var plan := AcquirePlan(m, j, pool, run, task, worker, actor); plan.fault.Some? ==> plan.entries == []
  {
    hide PoolFold;
    hide FreeFrom;
  }
}
