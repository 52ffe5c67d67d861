/** `MissionRuntime` as the class that reads the store, decides and writes. */
module RuntimeCalls {
  import opened Base
  import opened Digraph
  import opened Journal
  import opened Tasks
  import opened Records
  import opened Store
  import opened Projection
  import opened GraphRules
  import opened Runtime
  import opened Leases

  /** One accepted entry, written or lost to a crash, leaves the tables consistent. */
  lemma OneEntryKept(m: string, now: real, e: Entry, before: map<string, Tables>, fuel: nat,
                     after: map<string, Tables>, left: nat, fault: Option<Error>)
    requires WellKept(Rows(before, m), m) && Acceptable(Rows(before, m).journal, e)
    requires Ran(m, now, Plan([e], None), before, fuel, after, left, fault) && Numbered(Rows(after, m), m)
    requires var v := TaskFold(Rows(before, m).journal).value;
      Rows(after, m).heads == Revisions(if fault.None? then TaskStep(v, e.body).value.tasks else v.tasks)
    ensures WellKept(Rows(after, m), m)
    ensures fault.None? ==>
      && TaskFold(Rows(after, m).journal) == TaskStep(TaskFold(Rows(before, m).journal).value, e.body)
      && RecordFold(Rows(after, m).journal) == RecordStep(RecordFold(Rows(before, m).journal).value, e.body)
    ensures fault.Some? ==> Rows(after, m).journal == Rows(before, m).journal
  {
    hide Acceptable;
    hide Sound;
    var j := Rows(before, m).journal;
    SoundIsWellKept(Rows(before, m), m);
    SoundIsWellKept(Rows(after, m), m);
    if fault.None? {
      assert [e][..1] == [e];
      ExtendOne(j, m, now, e);
      AcceptableFolds(j, m, now, e);
      EntryKeeps(j, m, now, e);
    } else {
      assert [e][..0] == [];
      ExtendNone(j, m, now);
    }
  }

  lemma AcceptableFolds(j: seq<Event>, m: string, now: real, e: Entry)
    requires Acceptable(j, e)
    ensures var j' := j + [Stamp(m, |j| + 1, now, e)];
      TaskFold(j') == TaskStep(TaskFold(j).value, e.body) && RecordFold(j') == RecordStep(RecordFold(j).value, e.body)
  {
    TaskFoldAppend(j, Stamp(m, |j| + 1, now, e));
    RecordFoldAppend(j, Stamp(m, |j| + 1, now, e));
  }

  lemma TaskUpdateWritten(m: string, task: TaskId, expected: int, actor: string, c: Changes, now: real,
                          before: map<string, Tables>, fuel: nat, after: map<string, Tables>, left: nat,
                          r: Result<Event>)
    requires WellKept(Rows(before, m), m) && Numbered(Rows(after, m), m)
    requires UpdateOutcome(m, task, expected, actor, c, now, before, fuel, after, left, r)
    requires var v := TaskFold(Rows(before, m).journal).value;
      UpdateTaskPlan(v, actor, task, expected, c) == Plan([Update(actor, task, expected + 1, c)], None)
    ensures WellKept(Rows(after, m), m)
    ensures Ran(m, now, Plan([Update(actor, task, expected + 1, c)], None), before, fuel, after, left, FaultOf(r))
    ensures var v := TaskFold(Rows(before, m).journal).value;
      r.Success? ==> TaskFold(Rows(after, m).journal)
                     == Success(v.(tasks := v.tasks[task := Change(v.tasks[task], expected + 1, c)]))
  {
    hide RecordFold;
    hide RecordKeyed;
    hide KeyFits;
    var j := Rows(before, m).journal;
    var tasks := TaskFold(j).value.tasks;
    var e := Update(actor, task, expected + 1, c);
    UpdateAcceptable(j, e, task, c);
    assert Revisions(tasks[task := Change(tasks[task], expected + 1, c)]) == Revisions(tasks)[task := expected + 1];
    OneEntryKept(m, now, e, before, fuel, after, left, FaultOf(r));
  }

  lemma TaskCreationWritten(m: string, task: TaskId, actor: string, subject: string, blockedBy: seq<TaskId>, now: real,
                            before: map<string, Tables>, fuel: nat, after: map<string, Tables>, left: nat,
                            r: Result<Event>)
    requires WellKept(Rows(before, m), m) && Numbered(Rows(after, m), m)
    requires CreationOutcome(m, task, actor, subject, blockedBy, now, before, fuel, after, left, r)
    requires var v := TaskFold(Rows(before, m).journal).value;
      CreateTaskPlan(v, actor, task, subject, blockedBy) == Plan([Creation(actor, task, subject, blockedBy)], None)
    ensures WellKept(Rows(after, m), m)
    ensures Ran(m, now, Plan([Creation(actor, task, subject, blockedBy)], None), before, fuel, after, left, FaultOf(r))
    ensures var v := TaskFold(Rows(before, m).journal).value;
      r.Success? ==> TaskFold(Rows(after, m).journal)
                     == Success(TaskView(v.tasks[task := NewTask(subject, blockedBy)], v.order + [task]))
  {
    hide RecordFold;
    hide RecordKeyed;
    hide KeyFits;
    var j := Rows(before, m).journal;
    var tasks := TaskFold(j).value.tasks;
    var e := Creation(actor, task, subject, blockedBy);
    CreationAcceptable(j, e, task, subject, blockedBy);
    assert Revisions(tasks[task := NewTask(subject, blockedBy)]) == Revisions(tasks)[task := 1];
    OneEntryKept(m, now, e, before, fuel, after, left, FaultOf(r));
  }

  /** An `append` of an event that is not a task event keeps the tables consistent. */
  lemma PutKept(m: string, now: real, e: Entry, before: map<string, Tables>, fuel: nat,
                after: map<string, Tables>, left: nat, fault: Option<Error>)
    requires WellKept(Rows(before, m), m) && Numbered(Rows(after, m), m)
      && Rows(after, m).heads == Rows(before, m).heads
    requires Ran(m, now, PutPlan(m, Rows(before, m).journal, e), before, fuel, after, left, fault)
    requires !e.body.Task?
    requires PutPlan(m, Rows(before, m).journal, e) == Plan([e], None) ==> Acceptable(Rows(before, m).journal, e)
    ensures WellKept(Rows(after, m), m)
    ensures TaskFold(Rows(after, m).journal) == TaskFold(Rows(before, m).journal)
    ensures !e.body.Record? ==> RecordFold(Rows(after, m).journal) == RecordFold(Rows(before, m).journal)
  {
    hide Acceptable;
    hide KeyFits;
    hide Keyed;
    hide RecordKeyed;
    var j := Rows(before, m).journal;
    if PutPlan(m, j, e) == Plan([e], None) {
      OneEntryKept(m, now, e, before, fuel, after, left, fault);
    } else {
      ExtendNone(j, m, now);
    }
  }

  /** A session resumed while active: if the event was written, no projection can be read. */
  lemma Unreadable(m: string, c: RecordCall, actor: string, now: real, before: map<string, Tables>, fuel: nat,
                   after: map<string, Tables>, left: nat, fault: Option<Error>)
    requires WellKept(Rows(before, m), m) && Readable(Rows(before, m).journal)
    requires var j := Rows(before, m).journal;
      var tasks, records := TaskFold(j).value.tasks, RecordFold(j).value;
      && !Permitted(records, c) && Asked(tasks, records, c).Write?
      && Ran(m, now, PutPlan(m, j, RequestEntry(actor, Asked(tasks, records, c).key, Asked(tasks, records, c).fact)),
             before, fuel, after, left, fault)
    ensures var j := Rows(before, m).journal;
      Ran(m, now, RecordPlan(m, j, TaskFold(j).value.tasks, RecordFold(j).value, c, actor), before, fuel, after, left,
          if fault.None? then Some(ReplayRejected) else fault)
    ensures fault.None? ==> Replay(Rows(after, m).journal) == Failure(ReplayRejected)
  {
    hide TaskFold;
    hide RecordFold;
    hide Replay;
    hide Keyed;
    var j := Rows(before, m).journal;
    var tasks, records := TaskFold(j).value.tasks, RecordFold(j).value;
    var s := c.session;
    SoundIsWellKept(Rows(before, m), m);
    SessionResumed(m, j, c, actor);
    if fault.None? {
      ResumeReadableIffInterrupted(m, j, s, c.stateRef, actor, now);
      var entries := RecordPlan(m, j, tasks, records, c, actor).entries;
      assert entries[..|entries|] == entries;
      RejectedSo(Rows(after, m).journal);
    }
  }

  lemma SessionResumed(m: string, j: seq<Event>, c: RecordCall, actor: string)
    requires Readable(j) && !Permitted(RecordFold(j).value, c)
    requires Asked(TaskFold(j).value.tasks, RecordFold(j).value, c).Write?
    ensures c.ResumeSession? && c.session in RecordFold(j).value.sessions
      && RecordFold(j).value.sessions[c.session].active
    ensures var request := Asked(TaskFold(j).value.tasks, RecordFold(j).value, c);
      var put := PutPlan(m, j, RequestEntry(actor, request.key, request.fact));
      RecordPlan(m, j, TaskFold(j).value.tasks, RecordFold(j).value, c, actor)
        == Plan(put.entries, if put.fault.None? then Some(ReplayRejected) else put.fault)
  {
  }

  lemma RejectedSo(j: seq<Event>)
    requires !Replay(j).Success?
    ensures Replay(j) == Failure(ReplayRejected)
  {
  }

  class MissionRuntime {
    const store: MissionStore
    const mission: string

    constructor (store: MissionStore, mission: string)
      ensures this.store == store && this.mission == mission
    {
      this.store := store;
      this.mission := mission;
    }

    ghost predicate Valid()
      reads store
    {
      store.Valid() && WellKept(Rows(store.missions, mission), mission)
    }

    function Events(): seq<Event>
      reads store
    {
      store.JournalOf(mission)
    }

    ghost function Tasks(): TaskView
      reads store
      requires TaskFold(Events()).Success?
    {
      TaskFold(Events()).value
    }

    ghost function Records(): RecordView
      reads store
      requires RecordFold(Events()).Success?
    {
      RecordFold(Events()).value
    }

    /** Under the invariant, reading the projection never raises. */
    method Projection() returns (p: Projected)
      requires Valid()
      ensures TaskFold(Events()) == Success(p.view) && RecordFold(Events()) == Success(p.records)
    {
      WellKeptReplays(Rows(store.missions, mission), mission);
      var r := ReplayEvents(store.JournalOf(mission));
      p := r.value;
    }

    method CreateTask(task: TaskId, subject: string, blockedBy: seq<TaskId>, actor: string, now: real)
      returns (r: Result<TaskState>)
      requires Valid()
      modifies store
      ensures Valid()
      ensures Ran(mission, now, CreateTaskPlan(old(Tasks()), actor, task, subject, blockedBy),
                  old(store.missions), old(store.fuel), store.missions, store.fuel, FaultOf(r))
      ensures r.Success? ==>
        && Tasks() == TaskView(old(Tasks()).tasks[task := NewTask(subject, blockedBy)], old(Tasks()).order + [task])
        && r.value == Tasks().tasks[task]
    {
      hide WellKept;
      hide Ran;
      hide CreationOutcome;
      hide UpdateOutcome;
      hide TaskFold;
      hide RecordFold;
      ghost var before, fuel := store.missions, store.fuel;
      var p := Projection();
      TaskFoldSound(Events());
      assert Numbered(Rows(before, mission), mission);
      if task in p.view.tasks {
        RanNothing(mission, now, before, fuel, Some(Conflict));
        return Failure(Conflict);
      }
      var temp := Deps(p.view.tasks)[task := blockedBy];
      assert temp == Deps(p.view.tasks[task := NewTask(subject, blockedBy)]);
      assert Elements(p.view.order + [task]) == temp.Keys by {
        assert forall t :: t in p.view.order <==> t in Elements(p.view.order);
      }
      var verdict := DetectCycle(temp, p.view.order + [task]);
      if !verdict.Clear? {
        RanNothing(mission, now, before, fuel, Some(ReplayRejected));
        return Failure(ReplayRejected);
      }
      var stored := store.AppendTaskCreated(mission, task, actor, subject, blockedBy, now);
      TaskCreationWritten(mission, task, actor, subject, blockedBy, now, before, fuel, store.missions, store.fuel,
        stored);
      if stored.Failure? {
        return Failure(stored.error);
      }
      p := Projection();
      r := Success(p.view.tasks[task]);
    }

    method UpdateTask(task: TaskId, expected: int, actor: string, changes: Changes, now: real)
      returns (r: Result<TaskState>)
      requires Valid()
      modifies store
      ensures Valid()
      ensures Ran(mission, now, UpdateTaskPlan(old(Tasks()), actor, task, expected, changes),
                  old(store.missions), old(store.fuel), store.missions, store.fuel, FaultOf(r))
      ensures r.Success? ==>
        && task in old(Tasks()).tasks
        && Tasks() == old(Tasks()).(tasks := old(Tasks()).tasks[task := Change(old(Tasks()).tasks[task], expected + 1,
          changes)])
        && r.value == Tasks().tasks[task]
    {
      hide WellKept;
      hide Ran;
      hide CreationOutcome;
      hide UpdateOutcome;
      hide TaskFold;
      hide RecordFold;
      ghost var before, fuel := store.missions, store.fuel;
      var p := Projection();
      TaskFoldSound(Events());
      assert Numbered(Rows(before, mission), mission);
      if task !in p.view.tasks {
        RanNothing(mission, now, before, fuel, Some(UnknownEntity));
        return Failure(UnknownEntity);
      }
      if p.view.tasks[task].revision != expected {
        RanNothing(mission, now, before, fuel, Some(Conflict));
        return Failure(Conflict);
      }
      var candidate := p.view.tasks[task := Change(p.view.tasks[task], expected + 1, changes)];
      var verdict := DetectCycle(Deps(candidate), p.view.order);
      if !verdict.Clear? {
        RanNothing(mission, now, before, fuel, Some(ReplayRejected));
        return Failure(ReplayRejected);
      }
      var stored := store.AppendTaskUpdated(mission, task, expected, actor, changes, now);
      TaskUpdateWritten(mission, task, expected, actor, changes, now, before, fuel, store.missions, store.fuel, stored);
      if stored.Failure? {
        return Failure(stored.error);
      }
      p := Projection();
      r := Success(p.view.tasks[task]);
    }

    method LeaseTask(task: TaskId, expected: int, owner: string, ttl: int, lease: string, actor: string, now: real)
      returns (r: Result<TaskState>)
      requires Valid()
      modifies store
      ensures Valid()
      ensures Ran(mission, now,
                  if ttl <= 0 then Plan([], Some(ValueFault))
                  else UpdateTaskPlan(old(Tasks()), actor, task, expected,
                    LeaseChanges(owner, lease, now + ttl as real)),
                  old(store.missions), old(store.fuel), store.missions, store.fuel, FaultOf(r))
      ensures r.Success? ==>
        && task in old(Tasks()).tasks
        && Tasks() == old(Tasks()).(tasks := old(Tasks()).tasks[task :=
             Change(old(Tasks()).tasks[task], expected + 1, LeaseChanges(owner, lease, now + ttl as real))])
        && r.value == Tasks().tasks[task]
    {
      if ttl <= 0 {
        RanNothing(mission, now, store.missions, store.fuel, Some(ValueFault));
        return Failure(ValueFault);
      }
      r := UpdateTask(task, expected, actor, LeaseChanges(owner, lease, now + ttl as real), now);
    }

    /** The calls about agents, executions, tools, messages and sessions: read the projection,
        decide, append, read again.  The second reading raises after a session was resumed that
        was still active; the journal is then rejected for good. */
    method Perform(c: RecordCall, actor: string, now: real) returns (r: Result<RecordView>)
      requires Valid()
      modifies store
      ensures store.Valid() && (old(Permitted(Records(), c)) ==> Valid())
      ensures Ran(mission, now, RecordPlan(mission, old(Events()), old(Tasks()).tasks, old(Records()), c, actor),
                  old(store.missions), old(store.fuel), store.missions, store.fuel, FaultOf(r))
      ensures r.Success? ==> Valid() && r.value == Records()
    {
      hide WellKept;
      hide Ran;
      hide TaskFold;
      hide RecordFold;
      hide Asked;
      hide Acceptable;
      hide Permitted;
      ghost var before, fuel := store.missions, store.fuel;
      var p := Projection();
      match Asked(p.view.tasks, p.records, c) {
        case Stop(fault) =>
          RanNothing(mission, now, before, fuel, fault);
          if fault.Some? {
            return Failure(fault.value);
          }
          r := Success(p.records);
        case Write(key, fact) =>
          r := PutRequest(c, key, fact, actor, now);
      }
    }

    method PutRequest(c: RecordCall, key: RecordKey, fact: RecordFact, actor: string, now: real)
      returns (r: Result<RecordView>)
      requires Valid() && Asked(Tasks().tasks, Records(), c) == Write(key, fact)
      modifies store
      ensures store.Valid() && (old(Permitted(Records(), c)) ==> Valid())
      ensures Ran(mission, now, RecordPlan(mission, old(Events()), old(Tasks()).tasks, old(Records()), c, actor),
                  old(store.missions), old(store.fuel), store.missions, store.fuel, FaultOf(r))
      ensures r.Success? ==> Valid() && r.value == Records()
    {
      hide WellKept;
      hide Ran;
      hide TaskFold;
      hide RecordFold;
      hide Asked;
      hide Acceptable;
      hide Permitted;
      hide Transacted;
      ghost var before, fuel := store.missions, store.fuel;
      ghost var j, e := Events(), RequestEntry(actor, key, fact);
      KeptReads(Rows(before, mission), mission);
      ghost var permitted := Permitted(Records(), c);
      if permitted && PutPlan(mission, j, e) == Plan([e], None) {
        RecordCallAcceptable(mission, j, c, actor, e);
      }
      var stored := store.Append(mission, actor, OfRecord(key), Record(fact), now);
      if permitted {
        PutKept(mission, now, e, before, fuel, store.missions, store.fuel, FaultOf(stored));
        WellKeptReplays(Rows(store.missions, mission), mission);
      } else {
        Unreadable(mission, c, actor, now, before, fuel, store.missions, store.fuel, FaultOf(stored));
      }
      if stored.Failure? {
        return Failure(stored.error);
      }
      var again := ReplayEvents(store.JournalOf(mission));
      if again.Failure? {
        return Failure(ReplayRejected);
      }
      r := Success(again.value.records);
    }

    /** One pass of `recover_expired_leases` over a snapshot of the tasks. */
    method ReleasePass(p: TaskView, actor: string, now: real) returns (r: Result<seq<TaskId>>)
      requires Valid() && TaskFold(Events()) == Success(p)
      modifies store
      ensures Valid()
      ensures Ran(mission, now, Plan(Releases(p.tasks, p.order, now, actor), None),
                  old(store.missions), old(store.fuel), store.missions, store.fuel, FaultOf(r))
      ensures r.Success? ==> r.value == ExpiredAmong(p.tasks, p.order, now)
      ensures r.Success? ==> forall t :: t in p.tasks ==>
        (t in r.value <==>
          p.tasks[t].status.TaskLeased? && p.tasks[t].leaseUntil.Some? && p.tasks[t].leaseUntil.value <= now)
      ensures r.Success? ==> TaskFold(Events()) == Success(p.(tasks := ReleasedTasks(p.tasks, p.order, now)))
    {
      hide WellKept;
      hide Ran;
      hide TaskFold;
      hide RecordFold;
      hide ReleasedTasks;
      hide Releases;
      hide ExpiredAmong;
      hide UpdateTaskPlan;
      hide Change;
      ghost var before, fuel := store.missions, store.fuel;
      TaskFoldSound(Events());
      RanNothing(mission, now, before, fuel, None);
      ReleasedNone(p.tasks, now, actor);
      ReportedExactly(p, now);
      var recovered: seq<TaskId> := [];
      for i := 0 to |p.order|
        invariant Valid() && TaskFold(Events()) == Success(p.(tasks := ReleasedTasks(p.tasks, p.order[..i], now)))
        invariant Ran(mission, now, Plan(Releases(p.tasks, p.order[..i], now, actor), None),
                      before, fuel, store.missions, store.fuel, None)
        invariant recovered == ExpiredAmong(p.tasks, p.order[..i], now)
      {
        var t := p.order[i];
        assert t in Elements(p.order);
        if Expired(p.tasks[t], now) {
          ReleaseStep(p, i, now, actor);
          ghost var at, left := store.missions, store.fuel;
          var u := UpdateTask(t, p.tasks[t].revision, actor, ReleaseChanges(TaskBlocked), now);
          KeptReads(Rows(store.missions, mission), mission);
          ReleaseUpdate(mission, now, actor, p, i, before, fuel, at, left, store.missions, store.fuel, FaultOf(u));
          if u.Failure? {
            return Failure(u.error);
          }
          recovered := recovered + [t];
        } else {
          ReleaseSkip(p, i, now, actor);
        }
      }
      assert p.order[..|p.order|] == p.order;
      r := Success(recovered);
    }

    /** `recover_expired_leases`: passes are repeated until one changes nothing.  The second
        pass never does. */
    method RecoverExpiredLeases(actor: string, now: real) returns (r: Result<seq<TaskId>>)
      requires Valid()
      modifies store
      ensures Valid()
      ensures Ran(mission, now, Plan(Releases(old(Tasks()).tasks, old(Tasks()).order, now, actor), None),
                  old(store.missions), old(store.fuel), store.missions, store.fuel, FaultOf(r))
      ensures r.Success? ==> r.value == ExpiredAmong(old(Tasks()).tasks, old(Tasks()).order, now)
      ensures r.Success? ==>
        Tasks() == old(Tasks()).(tasks := ReleasedTasks(old(Tasks()).tasks, old(Tasks()).order, now))
      ensures r.Success? ==> forall t :: t in Tasks().tasks ==> !Expired(Tasks().tasks[t], now)
      ensures r.Success? ==>
        Tasks().tasks.Keys == old(Tasks()).tasks.Keys
        && forall t :: t in Tasks().tasks ==>
             var b := old(Tasks()).tasks[t];
             if b.status.TaskLeased? && b.leaseUntil.Some? && b.leaseUntil.value <= now then
               t in r.value
               && Tasks().tasks[t] == TaskState(b.revision + 1, TaskBlocked, b.subject, b.blockedBy, None, None, None)
             else t !in r.value && Tasks().tasks[t] == b
    {
      hide WellKept;
      hide Ran;
      hide TaskFold;
      hide RecordFold;
      hide ReleasedTasks;
      hide Releases;
      hide ExpiredAmong;
      ghost var before, fuel := store.missions, store.fuel;
      var p := Projection();
      ghost var start := p.view;
      TaskFoldSound(Events());
      NothingLeftToRelease(start.tasks, start.order, now);
      ReleasedExactly(start, now);
      ReportedExactly(start, now);
      ReleasedDeps(start.tasks, start.order, now);
      var released := ReleasePass(p.view, actor, now);
      if released.Failure? {
        KeptReads(Rows(store.missions, mission), mission);
        return Failure(released.error);
      }
      var recovered := released.value;
      var changed := recovered != [];
      if !changed {
        NoneExpired(start, now);
      }
      while changed
        invariant Valid()
          && TaskFold(Events()) == Success(start.(tasks := ReleasedTasks(start.tasks, start.order, now)))
        invariant Ran(mission, now, Plan(Releases(start.tasks, start.order, now, actor), None),
                      before, fuel, store.missions, store.fuel, None)
        invariant recovered == ExpiredAmong(start.tasks, start.order, now)
        decreases changed
      {
        p := Projection();
        ghost var at, left := store.missions, store.fuel;
        IdlePass(p.view, now, actor);
        released := ReleasePass(p.view, actor, now);
        RanIdle(mission, now, at, left, store.missions, store.fuel, FaultOf(released),
                Plan(Releases(start.tasks, start.order, now, actor), None), before, fuel);
        recovered := recovered + released.value;
        changed := released.value != [];
      }
      r := Success(recovered);
    }

    /** Any call, as a turn of a run: journal, counter and heads end as `TurnTables` says. */
    method Play(turn: Turn) returns (fault: Option<Error>)
      requires Valid() && Readable(Events()) && TurnPermitted(Events(), turn) && turn.fuel == store.fuel
      modifies store
      ensures Valid()
      ensures Rows(store.missions, mission) == TurnTables(old(Rows(store.missions, mission)), mission, turn)
      ensures forall other :: other != mission ==> Rows(store.missions, other) == old(Rows(store.missions, other))
    {
      hide WellKept;
      hide TaskFold;
      hide RecordFold;
      hide Keyed;
      hide Asked;
      hide Permitted;
      hide TurnTables;
      hide Extend;
      ghost var before, fuel := store.missions, store.fuel;
      match turn.call {
        case CreateTask(task, subject, blockedBy) =>
          var r := CreateTask(task, subject, blockedBy, turn.actor, turn.now);
          fault := FaultOf(r);
        case UpdateTask(task, expected, changes) =>
          var r := UpdateTask(task, expected, turn.actor, changes, turn.now);
          fault := FaultOf(r);
        case LeaseTask(task, expected, owner, ttl, lease) =>
          var r := LeaseTask(task, expected, owner, ttl, lease, turn.actor, turn.now);
          fault := FaultOf(r);
        case RecoverExpired =>
          var r := RecoverExpiredLeases(turn.actor, turn.now);
          fault := FaultOf(r);
        case OnRecords(c) =>
          var r := Perform(c, turn.actor, turn.now);
          fault := FaultOf(r);
      }
      RanIsTurn(mission, turn, before, fuel, store.missions, store.fuel, fault);
    }
  }

  lemma NoneExpired(v: TaskView, now: real)
    requires ExpiredAmong(v.tasks, v.order, now) == []
    ensures forall i :: 0 <= i < |v.order| && v.order[i] in v.tasks ==> !Expired(v.tasks[v.order[i]], now)
  {
    ExpiredFound(v.tasks, v.order, now);
  }

  lemma {:induction false} ExpiredFound(tasks: TaskMap, order: seq<TaskId>, now: real)
    ensures forall t :: t in ExpiredAmong(tasks, order, now) <==> t in order && t in tasks && Expired(tasks[t], now)
  {
    if order != [] {
      ExpiredFound(tasks, order[..|order| - 1], now);
      assert order == order[..|order| - 1] + [order[|order| - 1]];
    }
  }

  /** A pass over tasks without expired leases asks for nothing and changes nothing. */
  lemma IdlePass(v: TaskView, now: real, actor: string)
    requires forall t :: t in v.tasks ==> !Expired(v.tasks[t], now)
    ensures Releases(v.tasks, v.order, now, actor) == [] && ExpiredAmong(v.tasks, v.order, now) == []
    ensures ReleasedTasks(v.tasks, v.order, now) == v.tasks
  {
    ExpiredFound(v.tasks, v.order, now);
    NoReleases(v.tasks, v.order, now, actor);
    if ExpiredAmong(v.tasks, v.order, now) != [] {
      assert ExpiredAmong(v.tasks, v.order, now)[0] in ExpiredAmong(v.tasks, v.order, now);
    }
  }

  lemma {:induction false} NoReleases(tasks: TaskMap, order: seq<TaskId>, now: real, actor: string)
    requires forall t :: t in tasks ==> !Expired(tasks[t], now)
    ensures Releases(tasks, order, now, actor) == []
  {
    if order != [] { NoReleases(tasks, order[..|order| - 1], now, actor); }
  }

  lemma RanIdle(m: string, now: real, at: map<string, Tables>, left: nat, after: map<string, Tables>, rest: nat,
                fault: Option<Error>, p: Plan, before: map<string, Tables>, fuel: nat)
    requires Ran(m, now, p, before, fuel, at, left, None) && p.fault.None?
    requires Ran(m, now, Plan([], None), at, left, after, rest, fault)
    ensures fault.None? && Ran(m, now, p, before, fuel, after, rest, None)
  {
    RanThen(m, now, p, Plan([], None), before, fuel, at, left, after, rest, fault);
    assert p.entries + [] == p.entries;
  }

  lemma ReleasedNone(tasks: TaskMap, now: real, actor: string)
    ensures Releases(tasks, [], now, actor) == [] && ExpiredAmong(tasks, [], now) == []
    ensures ReleasedTasks(tasks, [], now) == tasks
  {
  }

  lemma ReleaseSkip(v: TaskView, i: nat, now: real, actor: string)
    requires i < |v.order| && v.order[i] in v.tasks && !Expired(v.tasks[v.order[i]], now)
    ensures Releases(v.tasks, v.order[..i + 1], now, actor) == Releases(v.tasks, v.order[..i], now, actor)
    ensures ExpiredAmong(v.tasks, v.order[..i + 1], now) == ExpiredAmong(v.tasks, v.order[..i], now)
    ensures ReleasedTasks(v.tasks, v.order[..i + 1], now) == ReleasedTasks(v.tasks, v.order[..i], now)
  {
    assert v.order[..i + 1][..i] == v.order[..i];
    assert v.order[..i + 1] == v.order[..i] + [v.order[i]];
  }

  lemma ReleaseStep(v: TaskView, i: nat, now: real, actor: string)
    requires Ordered(v) && i < |v.order| && v.order[i] in v.tasks && Expired(v.tasks[v.order[i]], now)
    ensures var t := v.order[i]; var released := ReleasedTasks(v.tasks, v.order[..i], now);
      && released.Keys == v.tasks.Keys && released[t] == v.tasks[t]
      && Releases(v.tasks, v.order[..i + 1], now, actor)
         == Releases(v.tasks, v.order[..i], now, actor)
           + [Update(actor, t, v.tasks[t].revision + 1, ReleaseChanges(TaskBlocked))]
      && ExpiredAmong(v.tasks, v.order[..i + 1], now) == ExpiredAmong(v.tasks, v.order[..i], now) + [t]
      && ReleasedTasks(v.tasks, v.order[..i + 1], now)
         == released[t := Change(released[t], released[t].revision + 1, ReleaseChanges(TaskBlocked))]
  {
    hide ReleasedTasks;
    hide Releases;
    var t, rest := v.order[i], v.order[..i];
    assert v.order[..i + 1] == rest + [t] && v.order[..i + 1][..i] == rest;
    assert t !in rest;
    ReleasedSnoc(v.tasks, rest, t, now);
    ReleasesSnoc(v.tasks, rest, t, now, actor);
  }

  lemma ReleaseUpdate(m: string, now: real, actor: string, v: TaskView, i: nat,
                      before: map<string, Tables>, fuel: nat, at: map<string, Tables>, left: nat,
                      after: map<string, Tables>, rest: nat, fault: Option<Error>)
    requires Ordered(v) && DepsSound(v.tasks) && i < |v.order| && v.order[i] in v.tasks
      && Expired(v.tasks[v.order[i]], now)
    requires Ran(m, now, Plan(Releases(v.tasks, v.order[..i], now, actor), None), before, fuel, at, left, None)
    requires var t := v.order[i]; var current := v.(tasks := ReleasedTasks(v.tasks, v.order[..i], now));
      Ran(m, now, UpdateTaskPlan(current, actor, t, v.tasks[t].revision, ReleaseChanges(TaskBlocked)), at, left, after,
        rest, fault)
    ensures fault.None? ==>
      Ran(m, now, Plan(Releases(v.tasks, v.order[..i + 1], now, actor), None), before, fuel, after, rest, None)
    ensures fault.Some? ==>
      Ran(m, now, Plan(Releases(v.tasks, v.order, now, actor), None), before, fuel, after, rest, fault)
  {
    hide Ran;
    hide Releases;
    hide ReleasedTasks;
    hide ExpiredAmong;
    ReleaseStep(v, i, now, actor);
    var t := v.order[i];
    var released := ReleasedTasks(v.tasks, v.order[..i], now);
    ReleasedDeps(v.tasks, v.order[..i], now);
    SameDeps(v.tasks, released[t := Change(released[t], released[t].revision + 1, ReleaseChanges(TaskBlocked))]);
    var e := Update(actor, t, v.tasks[t].revision + 1, ReleaseChanges(TaskBlocked));
    RanThen(m, now, Plan(Releases(v.tasks, v.order[..i], now, actor), None), Plan([e], None),
            before, fuel, at, left, after, rest, fault);
    if fault.Some? {
      var more := ReleasesPrefix(v, i + 1, now, actor);
      OnlyCrashes(m, now, Plan([e], None), at, left, after, rest, fault);
      RanCrashed(m, now, Plan(Releases(v.tasks, v.order[..i + 1], now, actor), None), more, None, before, fuel, after,
        rest);
    }
  }

  lemma OnlyCrashes(m: string, now: real, p: Plan, at: map<string, Tables>, left: nat,
                    after: map<string, Tables>, rest: nat, fault: Option<Error>)
    requires Ran(m, now, p, at, left, after, rest, fault) && p.fault.None?
    ensures fault.None? || fault == Some(Crashed)
  {
  }

  lemma ReleasedDeps(tasks: TaskMap, order: seq<TaskId>, now: real)
    ensures var released := ReleasedTasks(tasks, order, now);
      released.Keys == tasks.Keys && forall t :: t in tasks ==> released[t].blockedBy == tasks[t].blockedBy
  {
  }

  lemma {:induction false} ReleasesPrefix(v: TaskView, i: nat, now: real, actor: string) returns (more: seq<Entry>)
    requires i <= |v.order|
    ensures Releases(v.tasks, v.order, now, actor) == Releases(v.tasks, v.order[..i], now, actor) + more
    decreases |v.order| - i
  {
    if i == |v.order| {
      assert v.order[..i] == v.order;
      more := [];
    } else {
      var rest := ReleasesPrefix(v, i + 1, now, actor);
      assert v.order[..i + 1][..i] == v.order[..i];
      var t := v.order[i];
      if t in v.tasks && Expired(v.tasks[t], now) {
        more := [Update(actor, t, v.tasks[t].revision + 1, ReleaseChanges(TaskBlocked))] + rest;
      } else {
        more := rest;
      }
    }
  }
}
