/** What the calls of the runtime answer, in the fields of the projection: which are refused and how,
    and what the others leave behind. */
module RuntimeAnswers {
  import opened Base
  import opened Digraph
  import opened Journal
  import opened Tasks
  import opened Records
  import opened GraphLog
  import opened PoolLog
  import opened LoopLog
  import opened Store
  import opened Projection
  import opened Runtime

  /** `append`: a key not used before is written; under a used one the same content is the stored event,
      and another is a conflict. */
  lemma PutAnswers(m: string, j: seq<Event>, e: Entry)
    requires UniqueKeys(j)
    ensures m == "" || e.actor == "" ==> PutPlan(m, j, e) == Plan([], Some(ValueFault))
    ensures m != "" && e.actor != "" ==>
      && (PutPlan(m, j, e) == Plan([e], None) <==> forall i :: 0 <= i < |j| ==> j[i].key != e.key)
      && forall i :: 0 <= i < |j| && j[i].key == e.key ==>
           PutPlan(m, j, e) == Plan([], if j[i].body == e.body then None else Some(Conflict))
  {
  }

  /** `create_task`: a known task is a conflict; a dependency that is not a task is refused; any other
      task is created, pending and without a lease. */
  lemma CreateTaskAnswers(j: seq<Event>, actor: string, task: TaskId, subject: string, blockedBy: seq<TaskId>)
    requires TaskFold(j).Success?
    ensures var v := TaskFold(j).value; var plan := CreateTaskPlan(v, actor, task, subject, blockedBy);
      if task in v.tasks then plan == Plan([], Some(Conflict))
      else if exists d :: d in blockedBy && d !in v.tasks then plan == Plan([], Some(ReplayRejected))
      else
        && plan.fault.None? && |plan.entries| == 1 && plan.entries[0].actor == actor
        && plan.entries[0].body == Task(TaskCreated(task, subject, blockedBy))
        && TaskStep(v, plan.entries[0].body) == Success(TaskView(
             v.tasks[task := TaskState(1, TaskPending, subject, blockedBy, None, None, None)], v.order + [task]))
  {
    hide TaskFold;
    hide DepsSound;
    TaskFoldSound(j);
    var v := TaskFold(j).value;
    if task !in v.tasks { NewTaskExactly(v.tasks, task, subject, blockedBy); }
  }

  /** `update_task`: an unknown task and a revision that is not the current one are refused, and so are
      dependencies that are unknown or close a cycle; otherwise the given fields change, the others
      stay, and the revision is one higher. */
  lemma UpdateTaskAnswers(j: seq<Event>, actor: string, task: TaskId, expected: int, c: Changes)
    requires TaskFold(j).Success?
    ensures var v := TaskFold(j).value; var plan := UpdateTaskPlan(v, actor, task, expected, c);
      if task !in v.tasks then plan == Plan([], Some(UnknownEntity))
      else if v.tasks[task].revision != expected then plan == Plan([], Some(Conflict))
      else
        var t := v.tasks[task];
        var deps := Deps(v.tasks)[task := if c.blockedBy.Some? then c.blockedBy.value else t.blockedBy];
        if !(Closed(deps) && Acyclic(deps)) then plan == Plan([], Some(ReplayRejected))
        else
          && plan.fault.None? && |plan.entries| == 1 && plan.entries[0].actor == actor
          && plan.entries[0].body == Task(TaskUpdated(task, expected + 1, c))
          && TaskStep(v, plan.entries[0].body).Success?
          && var w := TaskStep(v, plan.entries[0].body).value;
             && w.order == v.order && w.tasks.Keys == v.tasks.Keys
             && (forall other :: other in v.tasks && other != task ==> w.tasks[other] == v.tasks[other])
             && w.tasks[task].revision == expected + 1
             && Some(w.tasks[task].status) == (if c.status.Some? then c.status else Some(t.status))
             && Some(w.tasks[task].subject) == (if c.subject.Some? then c.subject else Some(t.subject))
             && Some(w.tasks[task].blockedBy) == (if c.blockedBy.Some? then c.blockedBy else Some(t.blockedBy))
             && Some(w.tasks[task].owner) == (if c.owner.Some? then c.owner else Some(t.owner))
             && Some(w.tasks[task].lease) == (if c.lease.Some? then c.lease else Some(t.lease))
             && Some(w.tasks[task].leaseUntil) == (if c.leaseUntil.Some? then c.leaseUntil else Some(t.leaseUntil))
  {
    hide TaskFold;
    hide Closed;
    hide Acyclic;
    var v := TaskFold(j).value;
    if task in v.tasks {
      var changed := Change(v.tasks[task], expected + 1, c);
      assert Deps(v.tasks[task := changed]) == Deps(v.tasks)[task := changed.blockedBy];
    }
  }

  /** An update without dependencies of a known task at its revision always goes through. */
  lemma PlainUpdate(j: seq<Event>, actor: string, task: TaskId, c: Changes)
    requires TaskFold(j).Success? && task in TaskFold(j).value.tasks && c.blockedBy.None?
    ensures var v := TaskFold(j).value; UpdateTaskPlan(v, actor, task, v.tasks[task].revision, c).fault.None?
  {
    hide TaskFold;
    hide DepsSound;
    TaskFoldSound(j);
    var v := TaskFold(j).value;
    SameDeps(v.tasks, v.tasks[task := Change(v.tasks[task], v.tasks[task].revision + 1, c)]);
  }

  /** `lease_task` needs a positive time, and is the update that hands the task to the owner. */
  lemma LeaseTaskAnswers(m: string, j: seq<Event>, actor: string, task: TaskId, expected: int, owner: string, ttl: int,
                         lease: string, now: real)
    requires Readable(j)
    ensures CallPlan(m, j, LeaseTask(task, expected, owner, ttl, lease), actor, now) ==
      if ttl <= 0 then Plan([], Some(ValueFault))
      else UpdateTaskPlan(TaskFold(j).value, actor, task, expected, Changes(Some(TaskLeased), None, None,
        Some(Some(owner)), Some(Some(lease)), Some(Some(now + ttl as real))))
  {
    hide TaskFold;
    hide Keyed;
    hide UpdateTaskPlan;
  }

  /** The record calls that end without an event: entities that are not known are refused, work that is
      finished stays as it is, an agent settled otherwise and a message for somebody else are
      conflicts, and what was reached already is not written again. */
  lemma RecordRefusals(m: string, j: seq<Event>, tasks: TaskMap, r: RecordView, c: RecordCall, actor: string)
    ensures var plan := RecordPlan(m, j, tasks, r, c, actor);
      var unknown, nothing, conflict := Plan([], Some(UnknownEntity)), Plan([], None), Plan([], Some(Conflict));
      match c
      case SettleAgent(a, active, _) =>
        && (a !in r.agents ==> plan == unknown)
        && (a in r.agents && r.agents[a].phase.AgentActive? ==> plan == if active then nothing else conflict)
        && (a in r.agents && r.agents[a].phase.AgentFailed? ==> plan == if active then conflict else nothing)
      case StartExecution(_, _, task, _) => task !in tasks ==> plan == unknown
      case FinishExecution(e, _, _, _) =>
        && (e !in r.executions ==> plan == unknown)
        && (e in r.executions && !r.executions[e].status.Open? ==> plan == nothing)
      case RequestTool(_, e, _, _) => e !in r.executions ==> plan == unknown
      case FinishTool(t, _, _, _) =>
        && (t !in r.tools ==> plan == unknown)
        && (t in r.tools && !r.tools[t].status.Open? ==> plan == nothing)
      case AckMessage(x, target) =>
        && (x !in r.messages ==> plan == unknown)
        && (x in r.messages && r.messages[x].target != target ==> plan == conflict)
        && (x in r.messages && r.messages[x].target == target && x in r.delivered ==> plan == nothing)
      case CheckpointSession(s, _, _, _) => s !in r.sessions ==> plan == unknown
      case MarkSessionMessage(s, _) => s !in r.sessions ==> plan == unknown
      case InterruptSession(s, _) => s !in r.sessions ==> plan == unknown
      case ResumeSession(s, _) => s !in r.sessions ==> plan == unknown
      case _ => true
  {
    hide PutPlan;
  }

  /** What the one event of a record call changes in the records. */
  ghost predicate Recorded(r: RecordView, c: RecordCall, w: RecordView) {
    match c
    case ProvisionAgent(a, name, _) =>
      a !in r.agents && w == r.(agents := r.agents[a := Agent(name, Provisioning, None)])
    case SettleAgent(a, active, error) =>
      && a in r.agents && r.agents[a].phase.Provisioning?
      && w == r.(agents := r.agents[a := Agent(r.agents[a].name, if active then AgentActive else AgentFailed, error)])
    case StartExecution(e, agent, task, executor) =>
      e !in r.executions && w == r.(executions := r.executions[e := Execution(agent, task, executor, Open)])
    case FinishExecution(e, success, _, _) =>
      && e in r.executions && r.executions[e].status.Open?
      && w == r.(executions := r.executions[e := Execution(r.executions[e].agent, r.executions[e].task,
           r.executions[e].executor, if success then Done else Broken)])
    case RequestTool(t, e, tool, args) =>
      t !in r.tools && e in r.executions && w == r.(tools := r.tools[t := ToolCall(e, tool, args, Open)])
    case FinishTool(t, success, _, _) =>
      && t in r.tools && r.tools[t].status.Open?
      && w == r.(tools := r.tools[t := ToolCall(r.tools[t].execution, r.tools[t].tool, r.tools[t].args,
           if success then Done else Broken)])
    case QueueMessage(x, sender, target, content) =>
      x !in r.messages && w == r.(messages := r.messages[x := Message(sender, target, content)])
    case AckMessage(x, target) =>
      && x in r.messages && r.messages[x].target == target && x !in r.delivered
      && w == r.(delivered := r.delivered + {x})
    case CreateSession(s, _, _, task) =>
      s !in r.sessions && w == r.(sessions := r.sessions[s := Session(true, 0, None, task, {}, 0)])
    case CheckpointSession(s, context, task, _) =>
      && s in r.sessions
      && var was := r.sessions[s];
         w == r.(sessions := r.sessions[s := Session(was.active, was.checkpoint + 1, Some(context),
           if task.Some? then task else was.task, was.seen, was.resumes)])
    case MarkSessionMessage(s, x) =>
      && s in r.sessions && x !in r.sessions[s].seen
      && w == r.(sessions := r.sessions[s := r.sessions[s].(seen := r.sessions[s].seen + {x})])
    case InterruptSession(s, _) =>
      && s in r.sessions && r.sessions[s].active
      && w == r.(sessions := r.sessions[s := r.sessions[s].(active := false)])
    case ResumeSession(s, _) =>
      && s in r.sessions && !r.sessions[s].active
      && w == r.(sessions := r.sessions[s := r.sessions[s].(active := true, resumes := r.sessions[s].resumes + 1)])
  }

  /** A record call that writes changes the records so, and nothing else. */
  lemma RecordedExactly(m: string, j: seq<Event>, c: RecordCall, actor: string, now: real)
    requires Sound(j, m) && Readable(j) && Permitted(RecordFold(j).value, c)
    requires RecordPlan(m, j, TaskFold(j).value.tasks, RecordFold(j).value, c, actor).entries != []
    ensures var plan := RecordPlan(m, j, TaskFold(j).value.tasks, RecordFold(j).value, c, actor);
      var j' := Extend(j, m, now, plan.entries);
      && plan.fault.None? && |plan.entries| == 1 && Sound(j', m) && RecordFold(j').Success?
      && TaskFold(j') == TaskFold(j) && Recorded(RecordFold(j).value, c, RecordFold(j').value)
  {
    hide Keyed;
    hide TaskFold;
    hide RecordFold;
    hide Sound;
    hide Acceptable;
    hide Asked;
    hide Permitted;
    hide Recorded;
    hide ApplyRecord;
    var tasks, r := TaskFold(j).value.tasks, RecordFold(j).value;
    var plan := RecordPlan(m, j, tasks, r, c, actor);
    var e := plan.entries[0];
    assert plan.entries == [e];
    RecordCallAcceptable(m, j, c, actor, e);
    EntryKeeps(j, m, now, e);
    ExtendOne(j, m, now, e);
    TaskFoldAppend(j, Stamp(m, |j| + 1, now, e));
    RecordFoldAppend(j, Stamp(m, |j| + 1, now, e));
    RequestUnused(m, j, c, actor, e);
    RequestRecorded(tasks, r, c);
  }

  lemma RequestUnused(m: string, j: seq<Event>, c: RecordCall, actor: string, e: Entry)
    requires Readable(j)
    requires RecordPlan(m, j, TaskFold(j).value.tasks, RecordFold(j).value, c, actor).entries == [e]
    ensures var request := Asked(TaskFold(j).value.tasks, RecordFold(j).value, c);
      request.Write? && e.body == Record(request.fact) && RecordMissing(RecordFold(j).value, request.key)
  {
    hide TaskFold;
    hide RecordFold;
    hide TaskKeyed;
    hide RecordKeyed;
    hide Asked;
    UnusedRecordKeyMissing(j, Asked(TaskFold(j).value.tasks, RecordFold(j).value, c).key);
  }

  lemma RequestRecorded(tasks: TaskMap, r: RecordView, c: RecordCall)
    requires Permitted(r, c) && Asked(tasks, r, c).Write? && RecordMissing(r, Asked(tasks, r, c).key)
    ensures ApplyRecord(r, Asked(tasks, r, c).fact).Success?
    ensures Recorded(r, c, ApplyRecord(r, Asked(tasks, r, c).fact).value)
  {
  }

  /** And it writes whenever there is such a change to make, for an execution of a task that exists. */
  lemma RecordedWhenever(m: string, j: seq<Event>, c: RecordCall, actor: string, w: RecordView)
    requires Readable(j) && m != "" && actor != "" && Recorded(RecordFold(j).value, c, w)
    requires c.StartExecution? ==> c.task in TaskFold(j).value.tasks
    ensures RecordPlan(m, j, TaskFold(j).value.tasks, RecordFold(j).value, c, actor).entries != []
  {
    hide TaskFold;
    hide RecordFold;
    hide TaskKeyed;
    hide RecordKeyed;
    hide GraphKeyed;
    hide PoolKeyed;
    hide LoopKeyed;
    hide Asked;
    hide Recorded;
    var tasks, r := TaskFold(j).value.tasks, RecordFold(j).value;
    ChangeAsked(tasks, r, c, w);
    UnusedRecordKey(j, Asked(tasks, r, c).key);
  }

  lemma ChangeAsked(tasks: TaskMap, r: RecordView, c: RecordCall, w: RecordView)
    requires Recorded(r, c, w) && (c.StartExecution? ==> c.task in tasks)
    ensures Asked(tasks, r, c).Write? && !RecordTraced(r, Asked(tasks, r, c).key)
  {
  }
}
