/** `MissionRuntime`: the calls that write tasks, agents, messages, executions, tool calls and
    sessions, and the proof that no sequence of them, wherever the processes die, makes the
    journal unreadable. */
module Runtime {
  import opened Base
  import opened Journal
  import opened Tasks
  import opened Records
  import opened Store
  import opened Projection
  import opened GraphLog
  import opened PoolLog
  import opened LoopLog
  import opened GraphRules

  ghost function CreateTaskPlan(v: TaskView, actor: string, task: TaskId, subject: string,
                                blockedBy: seq<TaskId>): Plan {
    if task in v.tasks then Plan([], Some(Conflict))
    else if !DepsSound(v.tasks[task := NewTask(subject, blockedBy)]) then Plan([], Some(ReplayRejected))
    else Plan([Creation(actor, task, subject, blockedBy)], None)
  }

  ghost function UpdateTaskPlan(v: TaskView, actor: string, task: TaskId, expected: int, c: Changes): Plan {
    if task !in v.tasks then Plan([], Some(UnknownEntity))
    else if v.tasks[task].revision != expected then Plan([], Some(Conflict))
    else if !DepsSound(v.tasks[task := Change(v.tasks[task], expected + 1, c)]) then Plan([], Some(ReplayRejected))
    else Plan([Update(actor, task, expected + 1, c)], None)
  }

  predicate Expired(t: TaskState, now: real) {
    t.status.TaskLeased? && t.leaseUntil.Some? && t.leaseUntil.value <= now
  }

  /** The releases of the expired leases among `order`. */
  function Releases(tasks: TaskMap, order: seq<TaskId>, now: real, actor: string): seq<Entry> {
    if order == [] then []
    else
      var t := order[|order| - 1];
      var earlier := Releases(tasks, order[..|order| - 1], now, actor);
      if t in tasks && Expired(tasks[t], now) then
        earlier + [Update(actor, t, tasks[t].revision + 1, ReleaseChanges(TaskBlocked))]
      else earlier
  }

  datatype RecordCall =
    | ProvisionAgent(agent: string, name: string, executorRef: string)
    | SettleAgent(agent: string, active: bool, error: Option<string>)
    | StartExecution(execution: string, agent: string, task: TaskId, executor: string)
    | FinishExecution(execution: string, success: bool, reason: string, artifacts: seq<string>)
    | RequestTool(toolCall: string, execution: string, tool: string, args: string)
    | FinishTool(toolCall: string, success: bool, result: Option<string>, errorClass: Option<string>)
    | QueueMessage(message: string, sender: string, target: string, content: string)
    | AckMessage(message: string, target: string)
    | CreateSession(session: string, agent: string, executorType: string, onTask: Option<TaskId>)
    | CheckpointSession(session: string, context: string, onTask: Option<TaskId>, stateRef: Option<string>)
    | MarkSessionMessage(session: string, message: string)
    | InterruptSession(session: string, reason: string)
    | ResumeSession(session: string, stateRef: Option<string>)

  /** What a call asks the journal to hold: an event, or nothing because its end is reached
      without one. */
  datatype Request = Write(key: RecordKey, fact: RecordFact) | Stop(fault: Option<Error>)

  function Asked(tasks: TaskMap, r: RecordView, c: RecordCall): Request {
    match c
    case ProvisionAgent(a, name, ref) => Write(AgentProvisioningKey(a), AgentProvisioning(a, name, ref))
    case SettleAgent(a, active, error) =>
      if a !in r.agents then Stop(Some(UnknownEntity))
      else if !r.agents[a].phase.Provisioning? then
        Stop(if r.agents[a].phase == (if active then AgentActive else AgentFailed) then None else Some(Conflict))
      else Write(AgentSettleKey(a, active), AgentSettled(a, active, error))
    case StartExecution(e, agent, task, executor) =>
      if task !in tasks then Stop(Some(UnknownEntity))
      else Write(ExecutionStartKey(e), ExecutionStarted(e, agent, task, executor))
    case FinishExecution(e, success, reason, artifacts) =>
      if e !in r.executions then Stop(Some(UnknownEntity))
      else if !r.executions[e].status.Open? then Stop(None)
      else Write(ExecutionFinishKey(e, success), ExecutionFinished(e, success, reason, artifacts))
    case RequestTool(call, execution, tool, args) =>
      if execution !in r.executions then Stop(Some(UnknownEntity))
      else Write(ToolRequestedKey(call), ToolRequested(call, execution, tool, args))
    case FinishTool(call, success, result, errorClass) =>
      if call !in r.tools then Stop(Some(UnknownEntity))
      else if !r.tools[call].status.Open? then Stop(None)
      else Write(ToolFinishKey(call, success), ToolFinished(call, success, result, errorClass))
    case QueueMessage(m, sender, target, content) =>
      Write(MessageQueuedKey(m), MessageQueued(m, sender, target, content))
    case AckMessage(m, target) =>
      if m !in r.messages then Stop(Some(UnknownEntity))
      else if r.messages[m].target != target then Stop(Some(Conflict))
      else if m in r.delivered then Stop(None)
      else Write(MessageDeliveredKey(m), MessageDelivered(m, target))
    case CreateSession(s, agent, executorType, task) =>
      Write(SessionCreateKey(s), SessionCreated(s, agent, executorType, task))
    case CheckpointSession(s, context, task, ref) =>
      if s !in r.sessions then Stop(Some(UnknownEntity))
      else
        var n := r.sessions[s].checkpoint + 1;
        Write(SessionCheckpointKey(s, n),
              SessionCheckpointed(s, n, context, if task.Some? then task else r.sessions[s].task, ref))
    case MarkSessionMessage(s, m) =>
      if s !in r.sessions then Stop(Some(UnknownEntity)) else Write(SessionMessageKey(s, m), SessionMessageSeen(s, m))
    case InterruptSession(s, reason) =>
      if s !in r.sessions then Stop(Some(UnknownEntity))
      else Write(SessionInterruptKey(s, r.sessions[s].resumes), SessionInterrupted(s, reason))
    case ResumeSession(s, ref) =>
      if s !in r.sessions then Stop(Some(UnknownEntity))
      else Write(SessionResumeKey(s, r.sessions[s].resumes + 1), SessionResumed(s, ref))
  }

  function RequestEntry(actor: string, key: RecordKey, fact: RecordFact): Entry {
    Entry(actor, OfRecord(key), Record(fact))
  }

  /** The one condition a sequence of record calls must meet: a session is resumed while
      interrupted, which `resume_session` does not check. */
  predicate Permitted(r: RecordView, c: RecordCall) {
    c.ResumeSession? && c.session in r.sessions ==> !r.sessions[c.session].active
  }

  /** A call reads the projection again after its append, which an event out of place rejects. */
  ghost function RecordPlan(m: string, j: seq<Event>, tasks: TaskMap, r: RecordView, c: RecordCall,
                            actor: string): Plan {
    match Asked(tasks, r, c)
    case Stop(fault) => Plan([], fault)
    case Write(key, fact) =>
      var put := PutPlan(m, j, RequestEntry(actor, key, fact));
      if put.fault.None? && !Permitted(r, c) then Plan(put.entries, Some(ReplayRejected)) else put
  }

  /** With what its unused key says about the records, the request is one the replay takes. */
  lemma RequestApplies(tasks: TaskMap, r: RecordView, c: RecordCall)
    requires Permitted(r, c) && Asked(tasks, r, c).Write? && RecordMissing(r, Asked(tasks, r, c).key)
    ensures ApplyRecord(r, Asked(tasks, r, c).fact).Success?
  {
  }

  lemma RequestKeyFits(tasks: TaskMap, r: RecordView, c: RecordCall)
    requires Asked(tasks, r, c).Write?
    ensures RecordKeyOf(r, Asked(tasks, r, c).fact) == Asked(tasks, r, c).key
  {
  }

  lemma RecordCallAcceptable(m: string, j: seq<Event>, c: RecordCall, actor: string, e: Entry)
    requires Readable(j) && Permitted(RecordFold(j).value, c)
    requires RecordPlan(m, j, TaskFold(j).value.tasks, RecordFold(j).value, c, actor).entries == [e]
    ensures Acceptable(j, e) && e.body.Record?
  {
    hide ApplyRecord;
    hide RecordKeyOf;
    hide Asked;
    var tasks, r := TaskFold(j).value.tasks, RecordFold(j).value;
    var request := Asked(tasks, r, c);
    assert request.Write? && e == RequestEntry(actor, request.key, request.fact) && Unused(j, e.key);
    UnusedRecordKeyMissing(j, request.key);
    RequestApplies(tasks, r, c);
    RequestKeyFits(tasks, r, c);
  }

  /** Resuming is the one call the key alone does not protect: the journal stays readable if and
      only if the session was interrupted when `resume_session` wrote its event. */
  lemma ResumeReadableIffInterrupted(m: string, j: seq<Event>, s: string, ref: Option<string>, actor: string, now: real)
    requires Sound(j, m) && m != "" && actor != "" && s in RecordFold(j).value.sessions
    ensures var plan := RecordPlan(m, j, TaskFold(j).value.tasks, RecordFold(j).value, ResumeSession(s, ref), actor);
      && |plan.entries| == 1
      && (Replay(Extend(j, m, now, plan.entries)).Success? <==> !RecordFold(j).value.sessions[s].active)
  {
    hide Asked;
    hide ApplyRecord;
    hide TaskKeyed;
    hide GraphKeyed;
    hide PoolKeyed;
    hide LoopKeyed;
    hide RecordKeyed;
    var tasks, r := TaskFold(j).value.tasks, RecordFold(j).value;
    var key := SessionResumeKey(s, r.sessions[s].resumes + 1);
    var e := RequestEntry(actor, key, SessionResumed(s, ref));
    ResumeStep(j, tasks, r, s, ref);
    ExtendOne(j, m, now, e);
    TaskFoldAppend(j, Stamp(m, |j| + 1, now, e));
    RecordFoldAppend(j, Stamp(m, |j| + 1, now, e));
  }

  lemma ResumeStep(j: seq<Event>, tasks: TaskMap, r: RecordView, s: string, ref: Option<string>)
    requires RecordKeyed(j) && RecordFold(j) == Success(r) && s in r.sessions
    ensures Unused(j, OfRecord(SessionResumeKey(s, r.sessions[s].resumes + 1)))
    ensures Asked(tasks, r, ResumeSession(s, ref)) == Write(SessionResumeKey(s, r.sessions[s].resumes + 1),
      SessionResumed(s, ref))
    ensures ApplyRecord(r, SessionResumed(s, ref)).Success? <==> !r.sessions[s].active
  {
    hide RecordFold;
    hide RecordKeyed;
    ResumeKeyNew(j, r, s);
  }

  lemma ResumeKeyNew(j: seq<Event>, r: RecordView, s: string)
    requires RecordKeyed(j) && RecordFold(j) == Success(r) && s in r.sessions
    ensures Unused(j, OfRecord(SessionResumeKey(s, r.sessions[s].resumes + 1)))
  {
    hide RecordFold;
    hide RecordKeyed;
    UnusedRecordKey(j, SessionResumeKey(s, r.sessions[s].resumes + 1));
  }

  /** The tasks after the expired leases among `order` were released. */
  function ReleasedTasks(tasks: TaskMap, order: seq<TaskId>, now: real): TaskMap {
    map t | t in tasks ::
      if t in order && Expired(tasks[t], now) then Change(tasks[t], tasks[t].revision + 1, ReleaseChanges(TaskBlocked))
      else tasks[t]
  }

  ghost predicate ReleasesGo(j: seq<Event>, m: string, now: real, at: real, actor: string, order: seq<TaskId>)
    requires TaskFold(j).Success?
  {
    var v := TaskFold(j).value;
    var entries := Releases(v.tasks, order, now, actor);
    && Admissible(j, m, at, entries)
    && Sound(Extend(j, m, at, entries), m)
    && TaskFold(Extend(j, m, at, entries)) == Success(v.(tasks := ReleasedTasks(v.tasks, order, now)))
  }

  /** Releasing one lease after another never meets a stale revision. */
  lemma {:induction false} ReleasesAdmissible(j: seq<Event>, m: string, now: real, at: real, actor: string,
                                              order: seq<TaskId>)
    requires Sound(j, m) && Distinct(order)
    ensures ReleasesGo(j, m, now, at, actor, order)
  {
    hide Sound;
    hide ReleasesGo;
    hide TaskFold;
    SoundFolds(j, m);
    var tasks := TaskFold(j).value.tasks;
    if order == [] {
      NothingReleased(j, m, now, at, actor);
    } else {
      var n := |order| - 1;
      var t, rest := order[n], order[..n];
      ReleasesAdmissible(j, m, now, at, actor, rest);
      assert order == rest + [t];
      if t in tasks && Expired(tasks[t], now) {
        ReleaseOneMore(j, m, now, at, actor, rest, t);
      } else {
        ReleaseNoMore(j, m, now, at, actor, rest, t);
      }
    }
  }

  lemma SoundFolds(j: seq<Event>, m: string)
    requires Sound(j, m)
    ensures TaskFold(j).Success? && RecordFold(j).Success?
  {
  }

  lemma NothingReleased(j: seq<Event>, m: string, now: real, at: real, actor: string)
    requires Sound(j, m) && TaskFold(j).Success?
    ensures ReleasesGo(j, m, now, at, actor, [])
  {
    hide Sound;
    ExtendNone(j, m, at);
    assert ReleasedTasks(TaskFold(j).value.tasks, [], now) == TaskFold(j).value.tasks;
  }

  lemma ReleaseNoMore(j: seq<Event>, m: string, now: real, at: real, actor: string, rest: seq<TaskId>, t: TaskId)
    requires TaskFold(j).Success? && ReleasesGo(j, m, now, at, actor, rest)
    requires !(t in TaskFold(j).value.tasks && Expired(TaskFold(j).value.tasks[t], now))
    ensures ReleasesGo(j, m, now, at, actor, rest + [t])
  {
    hide Sound;
    hide Admissible;
    var tasks := TaskFold(j).value.tasks;
    assert (rest + [t])[..|rest|] == rest;
    assert ReleasedTasks(tasks, rest + [t], now) == ReleasedTasks(tasks, rest, now);
  }

  lemma UpdateAcceptable(j: seq<Event>, e: Entry, t: TaskId, c: Changes)
    requires Readable(j) && t in TaskFold(j).value.tasks
    requires e == Update(e.actor, t, TaskFold(j).value.tasks[t].revision + 1, c)
    requires var tasks := TaskFold(j).value.tasks; DepsSound(tasks[t := Change(tasks[t], tasks[t].revision + 1, c)])
    ensures Acceptable(j, e)
    ensures var v := TaskFold(j).value;
      TaskStep(v, e.body) == Success(v.(tasks := v.tasks[t := Change(v.tasks[t], v.tasks[t].revision + 1, c)]))
  {
    UpdateAccepted(j, e, t, c);
  }

  lemma CreationAcceptable(j: seq<Event>, e: Entry, t: TaskId, subject: string, blockedBy: seq<TaskId>)
    requires Readable(j) && t !in TaskFold(j).value.tasks && e == Creation(e.actor, t, subject, blockedBy)
    requires DepsSound(TaskFold(j).value.tasks[t := NewTask(subject, blockedBy)])
    ensures Acceptable(j, e)
    ensures var v := TaskFold(j).value;
      TaskStep(v, e.body) == Success(TaskView(v.tasks[t := NewTask(subject, blockedBy)], v.order + [t]))
  {
    CreationAccepted(j, e, t, subject, blockedBy);
  }

  lemma ReleasedSnoc(tasks: TaskMap, rest: seq<TaskId>, t: TaskId, now: real)
    requires t in tasks && t !in rest && Expired(tasks[t], now)
    ensures var released := ReleasedTasks(tasks, rest, now);
      && released.Keys == tasks.Keys && released[t] == tasks[t]
      && ReleasedTasks(tasks, rest + [t], now)
         == released[t := Change(released[t], released[t].revision + 1, ReleaseChanges(TaskBlocked))]
  {
  }

  lemma ReleaseOneMore(j: seq<Event>, m: string, now: real, at: real, actor: string, rest: seq<TaskId>, t: TaskId)
    requires TaskFold(j).Success? && ReleasesGo(j, m, now, at, actor, rest)
    requires t in TaskFold(j).value.tasks && t !in rest && Expired(TaskFold(j).value.tasks[t], now)
    ensures ReleasesGo(j, m, now, at, actor, rest + [t])
  {
    hide Admissible;
    hide Sound;
    hide Acceptable;
    hide ReleasedTasks;
    hide Releases;
    hide TaskFold;
    hide Expired;
    var v := TaskFold(j).value;
    var earlier := Releases(v.tasks, rest, now, actor);
    var before := Extend(j, m, at, earlier);
    ReleasedSnoc(v.tasks, rest, t, now);
    ReleasesSnoc(v.tasks, rest, t, now, actor);
    var released := ReleasedTasks(v.tasks, rest, now);
    var e := Update(actor, t, v.tasks[t].revision + 1, ReleaseChanges(TaskBlocked));
    UpdateOneMore(before, m, at, e, t, TaskView(released, v.order), ReleaseChanges(TaskBlocked));
    AdmissibleSnoc(j, m, at, earlier, e);
    ExtendSnoc(j, m, at, earlier, e);
  }

  lemma ReleasesSnoc(tasks: TaskMap, rest: seq<TaskId>, t: TaskId, now: real, actor: string)
    requires t in tasks && Expired(tasks[t], now)
    ensures Releases(tasks, rest + [t], now, actor)
         == Releases(tasks, rest, now, actor) + [Update(actor, t, tasks[t].revision + 1, ReleaseChanges(TaskBlocked))]
  {
    assert (rest + [t])[..|rest|] == rest;
  }

  /** An update of the current revision that leaves the dependencies alone is accepted. */
  lemma UpdateOneMore(j: seq<Event>, m: string, at: real, e: Entry, t: TaskId, v: TaskView, c: Changes)
    requires Sound(j, m) && TaskFold(j) == Success(v) && t in v.tasks && c.blockedBy.None?
    requires e == Update(e.actor, t, v.tasks[t].revision + 1, c)
    ensures Acceptable(j, e)
    ensures var j' := j + [Stamp(m, |j| + 1, at, e)];
      Sound(j', m) && TaskFold(j') == Success(v.(tasks := v.tasks[t := Change(v.tasks[t], v.tasks[t].revision + 1, c)]))
  {
    TaskFoldSound(j);
    SameDeps(v.tasks, v.tasks[t := Change(v.tasks[t], v.tasks[t].revision + 1, c)]);
    UpdateAcceptable(j, e, t, c);
    EntryKeeps(j, m, at, e);
    TaskFoldAppend(j, Stamp(m, |j| + 1, at, e));
  }

  /** After one pass over all tasks no expired lease is left, so the outer loop of
      `recover_expired_leases` stops. */
  lemma NothingLeftToRelease(tasks: TaskMap, order: seq<TaskId>, now: real)
    requires Elements(order) == tasks.Keys
    ensures forall t :: t in tasks ==> !Expired(ReleasedTasks(tasks, order, now)[t], now)
  {
    assert forall t :: t in tasks ==> t in Elements(order);
  }

  /** Any call of the runtime. */
  datatype Call =
    | CreateTask(task: TaskId, subject: string, blockedBy: seq<TaskId>)
    | UpdateTask(task: TaskId, expected: int, changes: Changes)
    | LeaseTask(task: TaskId, expected: int, owner: string, ttl: int, lease: string)
    | RecoverExpired
    | OnRecords(call: RecordCall)

  /** What a call writes, given the journal it reads. */
  ghost function CallPlan(m: string, j: seq<Event>, c: Call, actor: string, now: real): Plan
    requires Readable(j)
  {
    var v := TaskFold(j).value;
    match c
    case CreateTask(task, subject, blockedBy) => CreateTaskPlan(v, actor, task, subject, blockedBy)
    case UpdateTask(task, expected, changes) => UpdateTaskPlan(v, actor, task, expected, changes)
    case LeaseTask(task, expected, owner, ttl, lease) =>
      if ttl <= 0 then Plan([], Some(ValueFault))
      else UpdateTaskPlan(v, actor, task, expected, LeaseChanges(owner, lease, now + ttl as real))
    case RecoverExpired => Plan(Releases(v.tasks, v.order, now, actor), None)
    case OnRecords(call) => RecordPlan(m, j, v.tasks, RecordFold(j).value, call, actor)
  }

  /** One call, in any consistent state: whatever it writes, the journal accepts, entry by entry. */
  lemma CallAdmissible(m: string, j: seq<Event>, c: Call, actor: string, now: real)
    requires Sound(j, m) && (c.OnRecords? ==> Permitted(RecordFold(j).value, c.call))
    ensures Admissible(j, m, now, CallPlan(m, j, c, actor, now).entries)
  {
    hide Acceptable;
    hide Asked;
    var v := TaskFold(j).value;
    var entries := CallPlan(m, j, c, actor, now).entries;
    if c.RecoverExpired? {
      TaskFoldSound(j);
      ReleasesAdmissible(j, m, now, now, actor, v.order);
    } else if entries != [] {
      var e := entries[0];
      assert entries == [e];
      match c {
        case CreateTask(task, subject, blockedBy) => CreationAcceptable(j, e, task, subject, blockedBy);
        case UpdateTask(task, _, changes) => UpdateAcceptable(j, e, task, changes);
        case LeaseTask(task, _, owner, ttl, lease) =>
          UpdateAcceptable(j, e, task, LeaseChanges(owner, lease, now + ttl as real));
        case OnRecords(call) => RecordCallAcceptable(m, j, call, actor, e);
      }
      AdmissibleOne(j, m, now, e);
    }
  }

  /** A call, its time, and how many events its process writes before it dies. */
  datatype Turn = Turn(call: Call, actor: string, now: real, fuel: nat)

  ghost function TurnPlan(m: string, j: seq<Event>, t: Turn): Plan
    requires Readable(j)
  {
    CallPlan(m, j, t.call, t.actor, t.now)
  }

  ghost predicate TurnPermitted(j: seq<Event>, t: Turn)
    requires Readable(j)
  {
    t.call.OnRecords? ==> Permitted(RecordFold(j).value, t.call.call)
  }

  /** One `update_task` on the tables: read the projection, decide, and one transaction. */
  ghost function UpdateTables(t: Tables, m: string, task: TaskId, expected: int, actor: string, c: Changes,
                              now: real): Tables {
    if TaskFold(t.journal).Failure? || UpdateTaskPlan(TaskFold(t.journal).value, actor, task, expected, c).fault.Some?
      then t
    else Committed(t, m, UpdatedCall(task, expected, actor, c), now)
  }

  /** A pass over the snapshot `v`: one `update_task` for each expired lease, as far as the process
      lives. */
  ghost function ReleaseTables(t: Tables, m: string, v: TaskView, order: seq<TaskId>, actor: string, now: real,
                               fuel: nat): Tables {
    if order == [] then t
    else
      var task, before := order[|order| - 1], ReleaseTables(t, m, v, order[..|order| - 1], actor, now, fuel);
      if task in v.tasks && Expired(v.tasks[task], now) && |before.journal| < |t.journal| + fuel then
        UpdateTables(before, m, task, v.tasks[task].revision, actor, ReleaseChanges(TaskBlocked), now)
      else before
  }

  /** The tables of the mission after a call: what it reads are journal and projection, what it
      writes are journal, counter and heads. */
  ghost function TurnTables(t: Tables, m: string, turn: Turn): Tables
    requires Readable(t.journal)
  {
    var v, records := TaskFold(t.journal).value, RecordFold(t.journal).value;
    match turn.call
    case RecoverExpired => ReleaseTables(t, m, v, v.order, turn.actor, turn.now, turn.fuel)
    case call =>
      if turn.fuel == 0 then t
      else match call
        case CreateTask(task, subject, blockedBy) =>
          if CreateTaskPlan(v, turn.actor, task, subject, blockedBy).fault.Some? then t
          else Committed(t, m, CreatedCall(task, turn.actor, subject, blockedBy), turn.now)
        case UpdateTask(task, expected, changes) => UpdateTables(t, m, task, expected, turn.actor, changes, turn.now)
        case LeaseTask(task, expected, owner, ttl, lease) =>
          if ttl <= 0 then t
          else UpdateTables(t, m, task, expected, turn.actor, LeaseChanges(owner, lease, turn.now + ttl as real),
            turn.now)
        case OnRecords(c) =>
          match Asked(v.tasks, records, c)
          case Stop(_) => t
          case Write(key, fact) => Committed(t, m, AppendCall(turn.actor, OfRecord(key), Record(fact)), turn.now)
  }

  /** A row the journal accepts, with the heads its replay gives, keeps the tables consistent. */
  lemma RowKept(t: Tables, m: string, now: real, e: Entry, heads: map<TaskId, int>)
    requires WellKept(t, m) && Acceptable(t.journal, e)
    requires heads == Revisions(TaskStep(TaskFold(t.journal).value, e.body).value.tasks)
    ensures WellKept(AddRow(t, m, now, e, heads), m)
    ensures AddRow(t, m, now, e, heads).journal == Extend(t.journal, m, now, [e])
    ensures TaskFold(AddRow(t, m, now, e, heads).journal) == TaskStep(TaskFold(t.journal).value, e.body)
  {
    hide Acceptable;
    hide Sound;
    hide TaskFold;
    SoundIsWellKept(t, m);
    EntryKeeps(t.journal, m, now, e);
    ExtendOne(t.journal, m, now, e);
    SoundIsWellKept(AddRow(t, m, now, e, heads), m);
    AcceptedStep(t.journal, m, now, e);
  }

  lemma AcceptedStep(j: seq<Event>, m: string, now: real, e: Entry)
    requires Acceptable(j, e)
    ensures TaskFold(j + [Stamp(m, |j| + 1, now, e)]) == TaskStep(TaskFold(j).value, e.body)
    ensures TaskFold(j).Success? && TaskStep(TaskFold(j).value, e.body).Success?
  {
    TaskFoldAppend(j, Stamp(m, |j| + 1, now, e));
  }

  /** `update_task` finds its compare-and-set satisfied whenever the replayed revision is the
      expected one: the head it compares is that revision. */
  lemma UpdateTablesKept(t: Tables, m: string, task: TaskId, expected: int, actor: string, c: Changes, now: real)
    requires WellKept(t, m)
    ensures WellKept(UpdateTables(t, m, task, expected, actor, c, now), m)
    ensures UpdateTables(t, m, task, expected, actor, c, now).journal
         == Extend(t.journal, m, now, UpdateTaskPlan(TaskFold(t.journal).value, actor, task, expected, c).entries)
  {
    hide Acceptable;
    hide TaskFold;
    hide RecordFold;
    hide Keyed;
    var v := TaskFold(t.journal).value;
    if UpdateTaskPlan(v, actor, task, expected, c).fault.Some? {
      ExtendNone(t.journal, m, now);
    } else {
      var e := Update(actor, task, expected + 1, c);
      UpdateAcceptable(t.journal, e, task, c);
      AcceptableUnused(t.journal, e);
      assert Revisions(v.tasks[task := Change(v.tasks[task], expected + 1, c)])
        == Revisions(v.tasks)[task := expected + 1];
      RowKept(t, m, now, e, t.heads[task := expected + 1]);
    }
  }

  lemma AcceptableUnused(j: seq<Event>, e: Entry)
    requires Acceptable(j, e)
    ensures Unused(j, e.key)
  {
  }

  ghost predicate PassKept(t: Tables, m: string, order: seq<TaskId>, actor: string, now: real, fuel: nat)
    requires TaskFold(t.journal).Success?
  {
    var v := TaskFold(t.journal).value;
    var after, entries := ReleaseTables(t, m, v, order, actor, now, fuel), Releases(v.tasks, order, now, actor);
    WellKept(after, m) && after.journal == Extend(t.journal, m, now, entries[..Min(fuel, |entries|)])
  }

  lemma {:induction false} ReleaseTablesKept(t: Tables, m: string, order: seq<TaskId>, actor: string, now: real,
                                             fuel: nat)
    requires WellKept(t, m) && Distinct(order) && TaskFold(t.journal).Success?
    ensures PassKept(t, m, order, actor, now, fuel)
  {
    hide WellKept;
    hide TaskFold;
    hide Expired;
    hide UpdateTables;
    if order == [] {
      ExtendNone(t.journal, m, now);
    } else {
      hide PassKept;
      var n := |order| - 1;
      ReleaseTablesKept(t, m, order[..n], actor, now, fuel);
      assert order == order[..n] + [order[n]];
      PassOneMore(t, m, order[..n], order[n], actor, now, fuel);
    }
  }

  lemma PassOneMore(t: Tables, m: string, rest: seq<TaskId>, task: TaskId, actor: string, now: real, fuel: nat)
    requires WellKept(t, m) && Distinct(rest) && task !in rest && TaskFold(t.journal).Success?
    requires PassKept(t, m, rest, actor, now, fuel)
    ensures PassKept(t, m, rest + [task], actor, now, fuel)
  {
    hide WellKept;
    hide TaskFold;
    hide Expired;
    hide UpdateTables;
    hide Releases;
    hide Extend;
    var v := TaskFold(t.journal).value;
    var before, earlier := ReleaseTables(t, m, v, rest, actor, now, fuel), Releases(v.tasks, rest, now, actor);
    assert (rest + [task])[..|rest|] == rest;
    if task in v.tasks && Expired(v.tasks[task], now) {
      var e := Update(actor, task, v.tasks[task].revision + 1, ReleaseChanges(TaskBlocked));
      ReleasesSnoc(v.tasks, rest, task, now, actor);
      CutOneMore(earlier, e, fuel);
      if fuel > |earlier| {
        ReleaseTablesNext(t, before, m, rest, task, actor, now);
        ExtendAppend(t.journal, m, now, earlier, [e]);
      }
    } else {
      ReleasesSame(v.tasks, rest, task, now, actor);
    }
  }

  lemma CutOneMore<T>(xs: seq<T>, x: T, fuel: nat)
    ensures xs[..Min(fuel, |xs|)] == if fuel <= |xs| then xs[..fuel] else xs
    ensures (xs + [x])[..Min(fuel, |xs + [x]|)] == if fuel <= |xs| then xs[..fuel] else xs + [x]
  {
  }

  lemma ReleasesSame(tasks: TaskMap, rest: seq<TaskId>, t: TaskId, now: real, actor: string)
    requires !(t in tasks && Expired(tasks[t], now))
    ensures Releases(tasks, rest + [t], now, actor) == Releases(tasks, rest, now, actor)
  {
    assert (rest + [t])[..|rest|] == rest;
  }

  /** The next release of a pass that got this far: the lease is still as the snapshot shows it. */
  lemma ReleaseTablesNext(t: Tables, before: Tables, m: string, rest: seq<TaskId>, task: TaskId, actor: string,
                          now: real)
    requires WellKept(t, m) && WellKept(before, m) && TaskFold(t.journal).Success? && Distinct(rest) && task !in rest
    requires var v := TaskFold(t.journal).value;
      && task in v.tasks && Expired(v.tasks[task], now)
      && before.journal == Extend(t.journal, m, now, Releases(v.tasks, rest, now, actor))
    ensures var v := TaskFold(t.journal).value;
      var e := Update(actor, task, v.tasks[task].revision + 1, ReleaseChanges(TaskBlocked));
      var after := UpdateTables(before, m, task, v.tasks[task].revision, actor, ReleaseChanges(TaskBlocked), now);
      WellKept(after, m) && after.journal == Extend(before.journal, m, now, [e])
  {
    hide WellKept;
    hide TaskFold;
    hide Expired;
    hide UpdateTables;
    hide Releases;
    hide ReleasedTasks;
    hide DepsSound;
    hide Sound;
    var v := TaskFold(t.journal).value;
    SoundIsWellKept(t, m);
    PassSoFar(t.journal, m, rest, actor, now);
    ReleasedSnoc(v.tasks, rest, task, now);
    var released := ReleasedTasks(v.tasks, rest, now);
    TaskFoldSound(before.journal);
    SameDeps(released,
      released[task := Change(released[task], released[task].revision + 1, ReleaseChanges(TaskBlocked))]);
    UpdateTablesKept(before, m, task, v.tasks[task].revision, actor, ReleaseChanges(TaskBlocked), now);
  }

  lemma PassSoFar(j: seq<Event>, m: string, rest: seq<TaskId>, actor: string, now: real)
    requires Sound(j, m) && Distinct(rest) && TaskFold(j).Success?
    ensures var v := TaskFold(j).value;
      TaskFold(Extend(j, m, now, Releases(v.tasks, rest, now, actor)))
        == Success(v.(tasks := ReleasedTasks(v.tasks, rest, now)))
  {
    hide Sound;
    hide TaskFold;
    hide Admissible;
    ReleasesAdmissible(j, m, now, now, actor, rest);
  }

  /** The tables after a call are consistent, and their journal is what its plan says. */
  lemma TurnKept(t: Tables, m: string, turn: Turn)
    requires WellKept(t, m) && Readable(t.journal) && TurnPermitted(t.journal, turn)
    ensures var after, entries := TurnTables(t, m, turn), TurnPlan(m, t.journal, turn).entries;
      WellKept(after, m) && after.journal == Extend(t.journal, m, turn.now, entries[..Min(turn.fuel, |entries|)])
  {
    hide WellKept;
    hide TaskFold;
    hide RecordFold;
    hide Keyed;
    hide UpdateTables;
    hide Asked;
    var v := TaskFold(t.journal).value;
    match turn.call {
      case RecoverExpired =>
        TaskFoldSound(t.journal);
        ReleaseTablesKept(t, m, v.order, turn.actor, turn.now, turn.fuel);
      case CreateTask(task, subject, blockedBy) =>
        CreateTablesKept(t, m, turn);
      case UpdateTask(task, expected, changes) =>
        UpdateTablesKept(t, m, task, expected, turn.actor, changes, turn.now);
        OneOrNone(t.journal, m, turn.now, UpdateTaskPlan(v, turn.actor, task, expected, changes).entries, turn.fuel);
      case LeaseTask(task, expected, owner, ttl, lease) =>
        var c := LeaseChanges(owner, lease, turn.now + ttl as real);
        UpdateTablesKept(t, m, task, expected, turn.actor, c, turn.now);
        OneOrNone(t.journal, m, turn.now, UpdateTaskPlan(v, turn.actor, task, expected, c).entries, turn.fuel);
      case OnRecords(c) =>
        RecordTablesKept(t, m, turn);
    }
  }

  lemma OneOrNone(j: seq<Event>, m: string, now: real, entries: seq<Entry>, fuel: nat)
    requires |entries| <= 1
    ensures Extend(j, m, now, []) == j
    ensures entries[..Min(fuel, |entries|)] == if fuel == 0 then [] else entries
  {
    ExtendNone(j, m, now);
  }

  lemma CreateTablesKept(t: Tables, m: string, turn: Turn)
    requires WellKept(t, m) && Readable(t.journal) && turn.call.CreateTask?
    ensures var after, entries := TurnTables(t, m, turn), TurnPlan(m, t.journal, turn).entries;
      WellKept(after, m) && after.journal == Extend(t.journal, m, turn.now, entries[..Min(turn.fuel, |entries|)])
  {
    hide TaskFold;
    hide RecordFold;
    hide Keyed;
    hide Acceptable;
    hide DepsSound;
    hide UpdateTables;
    hide ReleaseTables;
    hide Asked;
    var v, task := TaskFold(t.journal).value, turn.call.task;
    var plan := CreateTaskPlan(v, turn.actor, task, turn.call.subject, turn.call.blockedBy);
    OneOrNone(t.journal, m, turn.now, plan.entries, turn.fuel);
    if plan.fault.None? && turn.fuel > 0 {
      var e := Creation(turn.actor, task, turn.call.subject, turn.call.blockedBy);
      CreationAcceptable(t.journal, e, task, turn.call.subject, turn.call.blockedBy);
      AcceptableUnused(t.journal, e);
      assert Revisions(v.tasks[task := NewTask(turn.call.subject, turn.call.blockedBy)])
        == Revisions(v.tasks)[task := 1];
      RowKept(t, m, turn.now, e, t.heads[task := 1]);
    }
  }

  lemma RecordTablesKept(t: Tables, m: string, turn: Turn)
    requires WellKept(t, m) && Readable(t.journal) && turn.call.OnRecords? && TurnPermitted(t.journal, turn)
    ensures var after, entries := TurnTables(t, m, turn), TurnPlan(m, t.journal, turn).entries;
      WellKept(after, m) && after.journal == Extend(t.journal, m, turn.now, entries[..Min(turn.fuel, |entries|)])
  {
    hide TaskFold;
    hide RecordFold;
    hide Keyed;
    hide Acceptable;
    hide UpdateTables;
    hide ReleaseTables;
    hide Asked;
    hide Permitted;
    var plan := TurnPlan(m, t.journal, turn);
    OneOrNone(t.journal, m, turn.now, plan.entries, turn.fuel);
    if plan.entries != [] {
      RecordCallAcceptable(m, t.journal, turn.call.call, turn.actor, plan.entries[0]);
      RowKept(t, m, turn.now, plan.entries[0], t.heads);
    }
  }

  /** `states` are the tables of the mission along a run of calls from a store without it. */
  ghost predicate IsRun(m: string, turns: seq<Turn>, states: seq<Tables>) {
    && |states| == |turns| + 1 && states[0] == NO_ROWS
    && forall i :: 0 <= i < |turns| && Readable(states[i].journal) ==>
         TurnPermitted(states[i].journal, turns[i]) && states[i + 1] == TurnTables(states[i], m, turns[i])
  }

  /** Store and projection agree in every reachable state: the counter is one more than the number
      of events, numbers are 1..n, keys are unique, each head that the compare-and-set keeps is
      the replayed revision, and the journal replays. */
  lemma {:induction false} EveryRunConsistent(m: string, turns: seq<Turn>, states: seq<Tables>, i: nat)
    requires IsRun(m, turns, states) && i <= |turns|
    ensures WellKept(states[i], m) && Replay(states[i].journal).Success?
  {
    hide WellKept;
    hide TurnTables;
    if i == 0 {
      NothingWellKept(m);
    } else {
      EveryRunConsistent(m, turns, states, i - 1);
      KeptReads(states[i - 1], m);
      TurnKept(states[i - 1], m, turns[i - 1]);
      assert states[i - 1 + 1] == TurnTables(states[i - 1], m, turns[i - 1]);
    }
    WellKeptReplays(states[i], m);
  }

  /** What the class writes is a turn of such a run: tables consistent before and after, and a
      journal that grew as the plan says, leave no choice for counter and heads. */
  lemma RanIsTurn(m: string, turn: Turn, before: map<string, Tables>, fuel: nat,
                  after: map<string, Tables>, left: nat, fault: Option<Error>)
    requires WellKept(Rows(before, m), m) && WellKept(Rows(after, m), m) && Readable(Rows(before, m).journal)
    requires TurnPermitted(Rows(before, m).journal, turn) && turn.fuel == fuel
    requires Ran(m, turn.now, TurnPlan(m, Rows(before, m).journal, turn), before, fuel, after, left, fault)
    ensures Rows(after, m) == TurnTables(Rows(before, m), m, turn)
  {
    hide WellKept;
    hide Sound;
    hide TurnTables;
    hide TurnPlan;
    hide Readable;
    hide TurnPermitted;
    TurnKept(Rows(before, m), m, turn);
    SoundIsWellKept(Rows(after, m), m);
    SoundIsWellKept(TurnTables(Rows(before, m), m, turn), m);
  }
}
