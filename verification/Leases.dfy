/** Task leases and the clock: which leases `recover_expired_leases` takes back, in the fields of the
    tasks, and how long a lease lasts. */
module Leases {
  import opened Base
  import opened Journal
  import opened Tasks
  import opened Records
  import opened Projection
  import opened GraphRules
  import opened Runtime

  /** A task whose lease ended by `now` is blocked and free, one revision on; any other stays. */
  lemma ReleasedExactly(v: TaskView, now: real)
    requires Ordered(v)
    ensures var after := ReleasedTasks(v.tasks, v.order, now);
      && after.Keys == v.tasks.Keys
      && forall t :: t in v.tasks ==>
           var b := v.tasks[t];
           after[t] ==
             if b.status.TaskLeased? && b.leaseUntil.Some? && b.leaseUntil.value <= now then
               TaskState(b.revision + 1, TaskBlocked, b.subject, b.blockedBy, None, None, None)
             else b
  {
    forall t | t in v.tasks ensures t in v.order { assert t in Elements(v.order); }
  }

  /** The expired tasks among `order`, in that order. */
  function ExpiredAmong(tasks: TaskMap, order: seq<TaskId>, now: real): seq<TaskId> {
    if order == [] then []
    else
      var t := order[|order| - 1];
      var earlier := ExpiredAmong(tasks, order[..|order| - 1], now);
      if t in tasks && Expired(tasks[t], now) then earlier + [t] else earlier
  }

  lemma {:induction false} ReportedAmong(tasks: TaskMap, order: seq<TaskId>, now: real)
    ensures forall t :: t in ExpiredAmong(tasks, order, now) <==> t in order && t in tasks && Expired(tasks[t], now)
  {
    if order != [] {
      ReportedAmong(tasks, order[..|order| - 1], now);
      assert order == order[..|order| - 1] + [order[|order| - 1]];
    }
  }

  /** What is reported: the tasks whose lease ended, each once. */
  lemma ReportedExactly(v: TaskView, now: real)
    requires Ordered(v)
    ensures forall t :: t in ExpiredAmong(v.tasks, v.order, now) <==>
      && t in v.tasks && v.tasks[t].status.TaskLeased?
      && v.tasks[t].leaseUntil.Some? && v.tasks[t].leaseUntil.value <= now
    ensures Distinct(ExpiredAmong(v.tasks, v.order, now))
  {
    ReportedAmong(v.tasks, v.order, now);
    ReportedOnce(v.tasks, v.order, now);
    assert forall t :: t in v.order <==> t in Elements(v.order);
  }

  lemma {:induction false} ReportedOnce(tasks: TaskMap, order: seq<TaskId>, now: real)
    requires Distinct(order)
    ensures Distinct(ExpiredAmong(tasks, order, now))
  {
    if order != [] {
      var n := |order| - 1;
      ReportedOnce(tasks, order[..n], now);
      ReportedAmong(tasks, order[..n], now);
      assert order[n] !in order[..n];
    }
  }

  /** A lease taken at `taken` for `ttl` seconds is there until `taken + ttl`: a recovery before that
      leaves it, one from then on takes it back. */
  lemma LeaseLapses(m: string, j: seq<Event>, task: TaskId, expected: int, owner: string, ttl: int, lease: string,
                    actor: string, taken: real, recoverer: string, now: real)
    requires Sound(j, m) && Readable(j)
    requires CallPlan(m, j, LeaseTask(task, expected, owner, ttl, lease), actor, taken).fault.None?
    ensures ttl > 0 && task in TaskFold(j).value.tasks && TaskFold(j).value.tasks[task].revision == expected
    ensures
      var before := TaskFold(j).value.tasks[task];
      var j1 := Extend(j, m, taken, CallPlan(m, j, LeaseTask(task, expected, owner, ttl, lease), actor, taken).entries);
      && Sound(j1, m) && Readable(j1)
      && TaskFold(j1).value.tasks == TaskFold(j).value.tasks[task := TaskState(expected + 1, TaskLeased, before.subject,
           before.blockedBy, Some(owner), Some(lease), Some(taken + ttl as real))]
      && var j2 := Extend(j1, m, now, CallPlan(m, j1, RecoverExpired, recoverer, now).entries);
         && Sound(j2, m) && Readable(j2) && task in TaskFold(j2).value.tasks
         && TaskFold(j2).value.tasks[task] ==
              if now < taken + ttl as real then TaskFold(j1).value.tasks[task]
              else TaskState(expected + 2, TaskBlocked, before.subject, before.blockedBy, None, None, None)
  {
    hide Sound;
    hide Readable;
    hide TaskFold;
    hide RecordFold;
    hide DepsSound;
    hide Expired;
    hide ReleasedTasks;
    hide Releases;
    SoundReadable(j, m);
    var v, c := TaskFold(j).value, LeaseChanges(owner, lease, taken + ttl as real);
    var e := Update(actor, task, expected + 1, c);
    UpdateOneMore(j, m, taken, e, task, v, c);
    ExtendOne(j, m, taken, e);
    var j1 := Extend(j, m, taken, [e]);
    SoundReadable(j1, m);
    TaskFoldSound(j1);
    ReleasesAdmissible(j1, m, now, now, recoverer, TaskFold(j1).value.order);
    ReleasedExactly(TaskFold(j1).value, now);
    SoundReadable(Extend(j1, m, now, Releases(TaskFold(j1).value.tasks, TaskFold(j1).value.order, now, recoverer)), m);
  }
}
