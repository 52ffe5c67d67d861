/** What `replay`, `replay_pool` and `replay_loop` accept, said of the events alone: after a journal that
    replays, whoever wrote it, one more event is accepted if and only if the right number of
    others is behind it. */
module Replays {
  import opened Base
  import opened Digraph
  import opened Journal
  import opened Tasks
  import opened Records
  import opened PoolLog
  import opened LoopLog
  import opened Projection

  /** What an event is about, and what it does to it. */
  datatype Trace =
    | TaskMade(task: TaskId) | TaskChanged(task: TaskId)
    | AgentMade(agent: string) | AgentDone(agent: string)
    | MessageMade(message: string) | MessageGot(message: string)
    | ExecutionMade(execution: string) | ExecutionDone(execution: string)
    | ToolMade(tool: string) | ToolDone(tool: string)
    | SessionMade(session: string) | SessionSaved(session: string) | SessionSaw(session: string, message: string)
    | SessionStopped(session: string) | SessionWoken(session: string)
    | PoolSet(pool: string) | SlotTaken(pool: string, run: RunId) | SlotGiven(pool: string, run: RunId)
    | LoopMade(loop: string) | LoopRan(loop: string) | LoopFailed(loop: string) | LoopMended(loop: string)
    | LoopPassed(loop: string) | LoopSpent(loop: string)
    | AboutGraph

  function TraceOf(b: Body): Trace {
    match b
    case Task(f) => if f.TaskCreated? then TaskMade(f.task) else TaskChanged(f.task)
    case Record(f) => RecordTrace(f)
    case Pool(f) =>
      (match f
       case PoolConfigured(p, _) => PoolSet(p)
       case SlotAcquired(p, run, _, _, _) => SlotTaken(p, run)
       case SlotReleased(p, run) => SlotGiven(p, run))
    case Loop(f) =>
      (match f
       case LoopCreated(l, _, _, _) => LoopMade(l)
       case IterationStarted(l, _, _) => LoopRan(l)
       case ValidationFailed(l, _, _) => LoopFailed(l)
       case RepairCompleted(l, _, _) => LoopMended(l)
       case LoopCompleted(l, _, _) => LoopPassed(l)
       case LoopExhausted(l, _, _) => LoopSpent(l))
    case Graph(_) => AboutGraph
  }

  function RecordTrace(f: RecordFact): Trace {
    match f
    case AgentProvisioning(a, _, _) => AgentMade(a)
    case AgentSettled(a, _, _) => AgentDone(a)
    case MessageQueued(m, _, _, _) => MessageMade(m)
    case MessageDelivered(m, _) => MessageGot(m)
    case ExecutionStarted(e, _, _, _) => ExecutionMade(e)
    case ExecutionFinished(e, _, _, _) => ExecutionDone(e)
    case ToolRequested(t, _, _, _) => ToolMade(t)
    case ToolFinished(t, _, _, _) => ToolDone(t)
    case SessionCreated(s, _, _, _) => SessionMade(s)
    case SessionCheckpointed(s, _, _, _, _) => SessionSaved(s)
    case SessionMessageSeen(s, m) => SessionSaw(s, m)
    case SessionInterrupted(s, _) => SessionStopped(s)
    case SessionResumed(s, _) => SessionWoken(s)
  }

  function Count(j: seq<Event>, t: Trace): nat {
    if j == [] then 0 else Count(j[..|j| - 1], t) + if TraceOf(j[|j| - 1].body) == t then 1 else 0
  }

  lemma CountSnoc(j: seq<Event>, e: Event, t: Trace)
    ensures Count(j + [e], t) == Count(j, t) + if TraceOf(e.body) == t then 1 else 0
  {
    assert (j + [e])[..|j|] == j;
  }

  /** A task is there once it was created, and its revision counts its changes. */
  lemma {:induction false} TasksCounted(j: seq<Event>, t: TaskId)
    requires TaskFold(j).Success?
    ensures var tasks := TaskFold(j).value.tasks;
      && Count(j, TaskMade(t)) == (if t in tasks then 1 else 0)
      && (t in tasks ==> tasks[t].revision == 1 + Count(j, TaskChanged(t)))
      && (t !in tasks ==> Count(j, TaskChanged(t)) == 0)
  {
    hide DepsSound;
    if j != [] { TasksCounted(j[..|j| - 1], t); }
  }

  function DepsAfter(deps: map<TaskId, seq<TaskId>>, f: TaskFact): map<TaskId, seq<TaskId>> {
    if f.TaskUpdated? && f.task in deps && f.changes.blockedBy.Some? then deps[f.task := f.changes.blockedBy.value]
    else deps
  }

  /** `replay` of a task event: a creation is the first and depends on tasks created before; a change
      follows the creation, carries the next revision, and leaves the dependencies known and
      without a cycle. */
  lemma TaskReplayedExactly(j: seq<Event>, e: Event)
    requires TaskFold(j).Success? && e.body.Task?
    ensures e.body.taskFact.TaskCreated? ==>
      (TaskFold(j + [e]).Success? <==>
        && Count(j, TaskMade(e.body.taskFact.task)) == 0
        && forall d :: d in e.body.taskFact.blockedBy ==> Count(j, TaskMade(d)) == 1)
    ensures e.body.taskFact.TaskUpdated? ==>
      var t, deps := e.body.taskFact.task, DepsAfter(Deps(TaskFold(j).value.tasks), e.body.taskFact);
      (TaskFold(j + [e]).Success? <==>
        && Count(j, TaskMade(t)) == 1 && e.body.taskFact.revision == 2 + Count(j, TaskChanged(t))
        && Closed(deps) && Acyclic(deps))
  {
    hide TaskFold;
    hide Count;
    hide DepsSound;
    TaskFoldAppend(j, e);
    TaskFoldSound(j);
    var v := TaskFold(j).value;
    match e.body.taskFact {
      case TaskCreated(t, subject, blockedBy) =>
        TasksCounted(j, t);
        forall d | d in blockedBy ensures Count(j, TaskMade(d)) == if d in v.tasks then 1 else 0 { TasksCounted(j, d); }
        if t !in v.tasks { NewTaskExactly(v.tasks, t, subject, blockedBy); }
      case TaskUpdated(t, revision, c) =>
        TasksCounted(j, t);
        if t in v.tasks { ChangedDeps(v.tasks, t, revision, c); }
    }
  }

  lemma ChangedDeps(tasks: TaskMap, t: TaskId, revision: int, c: Changes)
    requires t in tasks
    ensures Deps(tasks[t := Change(tasks[t], revision, c)])
      == if c.blockedBy.Some? then Deps(tasks)[t := c.blockedBy.value] else Deps(tasks)
    ensures DepsSound(tasks[t := Change(tasks[t], revision, c)]) <==>
      var deps := Deps(tasks[t := Change(tasks[t], revision, c)]); Closed(deps) && Acyclic(deps)
  {
  }

  /** How the records tell what the journal holds, entity by entity. */
  ghost predicate AgentTold(j: seq<Event>, r: RecordView, a: string) {
    && Count(j, AgentMade(a)) == (if a in r.agents then 1 else 0)
    && Count(j, AgentDone(a)) == (if a in r.agents && !r.agents[a].phase.Provisioning? then 1 else 0)
  }

  ghost predicate MessageTold(j: seq<Event>, r: RecordView, m: string) {
    && Count(j, MessageMade(m)) == (if m in r.messages then 1 else 0)
    && Count(j, MessageGot(m)) == (if m in r.delivered then 1 else 0)
  }

  ghost predicate WorkTold(j: seq<Event>, r: RecordView, w: string) {
    && Count(j, ExecutionMade(w)) == (if w in r.executions then 1 else 0)
    && Count(j, ExecutionDone(w)) == (if w in r.executions && !r.executions[w].status.Open? then 1 else 0)
    && Count(j, ToolMade(w)) == (if w in r.tools then 1 else 0)
    && Count(j, ToolDone(w)) == (if w in r.tools && !r.tools[w].status.Open? then 1 else 0)
  }

  ghost predicate SessionTold(j: seq<Event>, r: RecordView, s: string) {
    && Count(j, SessionMade(s)) == (if s in r.sessions then 1 else 0)
    && (s in r.sessions ==>
          && r.sessions[s].checkpoint == Count(j, SessionSaved(s))
          && r.sessions[s].resumes == Count(j, SessionWoken(s))
          && Count(j, SessionStopped(s)) == Count(j, SessionWoken(s)) + if r.sessions[s].active then 0 else 1)
    && (s !in r.sessions ==> Count(j, SessionSaved(s)) == Count(j, SessionWoken(s)) == Count(j, SessionStopped(s)) == 0)
  }

  ghost predicate SawTold(j: seq<Event>, r: RecordView, s: string, m: string) {
    Count(j, SessionSaw(s, m)) == (if s in r.sessions && m in r.sessions[s].seen then 1 else 0)
  }

  lemma {:induction false} RecordsCounted(j: seq<Event>, x: string, m: string)
    requires RecordFold(j).Success?
    ensures var r := RecordFold(j).value;
      AgentTold(j, r, x) && MessageTold(j, r, x) && WorkTold(j, r, x) && SessionTold(j, r, x) && SawTold(j, r, x, m)
  {
    hide ApplyRecord;
    hide AgentTold;
    hide MessageTold;
    hide WorkTold;
    hide SessionTold;
    hide SawTold;
    if j == [] {
      NothingCounted(x, m);
    } else {
      var n := |j| - 1;
      RecordsCounted(j[..n], x, m);
      assert j == j[..n] + [j[n]];
      var r := RecordFold(j[..n]).value;
      AgentCounted(j[..n], j[n], r, x);
      MessageCounted(j[..n], j[n], r, x);
      WorkCounted(j[..n], j[n], r, x);
      SessionCounted(j[..n], j[n], r, x);
      SawCounted(j[..n], j[n], r, x, m);
    }
  }

  lemma NothingCounted(x: string, m: string)
    ensures var j: seq<Event> := []; var r := NO_RECORDS;
      AgentTold(j, r, x) && MessageTold(j, r, x) && WorkTold(j, r, x) && SessionTold(j, r, x) && SawTold(j, r, x, m)
  {
  }

  lemma AgentCounted(j: seq<Event>, e: Event, r: RecordView, a: string)
    requires AgentTold(j, r, a) && RecordStep(r, e.body).Success?
    ensures AgentTold(j + [e], RecordStep(r, e.body).value, a)
  {
    hide Count;
    CountSnoc(j, e, AgentMade(a));
    CountSnoc(j, e, AgentDone(a));
  }

  lemma MessageCounted(j: seq<Event>, e: Event, r: RecordView, m: string)
    requires MessageTold(j, r, m) && RecordStep(r, e.body).Success?
    ensures MessageTold(j + [e], RecordStep(r, e.body).value, m)
  {
    hide Count;
    CountSnoc(j, e, MessageMade(m));
    CountSnoc(j, e, MessageGot(m));
  }

  lemma WorkCounted(j: seq<Event>, e: Event, r: RecordView, w: string)
    requires WorkTold(j, r, w) && RecordStep(r, e.body).Success?
    ensures WorkTold(j + [e], RecordStep(r, e.body).value, w)
  {
    hide Count;
    CountSnoc(j, e, ExecutionMade(w));
    CountSnoc(j, e, ExecutionDone(w));
    CountSnoc(j, e, ToolMade(w));
    CountSnoc(j, e, ToolDone(w));
  }

  lemma SessionCounted(j: seq<Event>, e: Event, r: RecordView, s: string)
    requires SessionTold(j, r, s) && RecordStep(r, e.body).Success?
    ensures SessionTold(j + [e], RecordStep(r, e.body).value, s)
  {
    hide Count;
    CountSnoc(j, e, SessionMade(s));
    CountSnoc(j, e, SessionSaved(s));
    CountSnoc(j, e, SessionStopped(s));
    CountSnoc(j, e, SessionWoken(s));
  }

  lemma SawCounted(j: seq<Event>, e: Event, r: RecordView, s: string, m: string)
    requires SawTold(j, r, s, m) && RecordStep(r, e.body).Success?
    ensures SawTold(j + [e], RecordStep(r, e.body).value, s, m)
  {
    hide Count;
    CountSnoc(j, e, SessionSaw(s, m));
  }

  /** What a record event needs behind it. */
  ghost predicate RecordDue(j: seq<Event>, f: RecordFact) {
    match f
    case AgentProvisioning(a, _, _) => Count(j, AgentMade(a)) == 0
    case AgentSettled(a, _, _) => Count(j, AgentMade(a)) == 1 && Count(j, AgentDone(a)) == 0
    case MessageQueued(m, _, _, _) => Count(j, MessageMade(m)) == 0
    case MessageDelivered(m, _) => Count(j, MessageMade(m)) == 1 && Count(j, MessageGot(m)) == 0
    case ExecutionStarted(e, _, _, _) => Count(j, ExecutionMade(e)) == 0
    case ExecutionFinished(e, _, _, _) => Count(j, ExecutionMade(e)) == 1 && Count(j, ExecutionDone(e)) == 0
    case ToolRequested(t, e, _, _) => Count(j, ToolMade(t)) == 0 && Count(j, ExecutionMade(e)) == 1
    case ToolFinished(t, _, _, _) => Count(j, ToolMade(t)) == 1 && Count(j, ToolDone(t)) == 0
    case SessionCreated(s, _, _, _) => Count(j, SessionMade(s)) == 0
    case SessionCheckpointed(s, n, _, _, _) => Count(j, SessionMade(s)) == 1 && n == Count(j, SessionSaved(s)) + 1
    case SessionMessageSeen(s, m) => Count(j, SessionMade(s)) == 1 && Count(j, SessionSaw(s, m)) == 0
    case SessionInterrupted(s, _) =>
      Count(j, SessionMade(s)) == 1 && Count(j, SessionStopped(s)) == Count(j, SessionWoken(s))
    case SessionResumed(s, _) =>
      Count(j, SessionMade(s)) == 1 && Count(j, SessionStopped(s)) == Count(j, SessionWoken(s)) + 1
  }

  function Subject(f: RecordFact): string {
    match f
    case AgentProvisioning(a, _, _) => a
    case AgentSettled(a, _, _) => a
    case MessageQueued(m, _, _, _) => m
    case MessageDelivered(m, _) => m
    case ExecutionStarted(e, _, _, _) => e
    case ExecutionFinished(e, _, _, _) => e
    case ToolRequested(t, _, _, _) => t
    case ToolFinished(t, _, _, _) => t
    case SessionCreated(s, _, _, _) => s
    case SessionCheckpointed(s, _, _, _, _) => s
    case SessionMessageSeen(s, _) => s
    case SessionInterrupted(s, _) => s
    case SessionResumed(s, _) => s
  }

  /** `replay` of a record event: everything begins once and ends once after it began, tools belong to
      executions that began, checkpoints count up from one, and interruptions and resumptions of a
      session take turns. */
  lemma RecordReplayedExactly(j: seq<Event>, e: Event)
    requires RecordFold(j).Success? && e.body.Record?
    ensures RecordFold(j + [e]).Success? <==> RecordDue(j, e.body.recordFact)
  {
    hide RecordFold;
    hide Count;
    RecordFoldAppend(j, e);
    var f := e.body.recordFact;
    RecordsCounted(j, Subject(f), if f.SessionMessageSeen? then f.message else "");
    if f.ToolRequested? { RecordsCounted(j, f.execution, ""); }
  }

  /** How the pool's projection tells what the journal holds. */
  lemma {:induction false} PoolCounted(j: seq<Event>, pool: string, run: RunId)
    requires PoolFold(j, pool).Success?
    ensures var v := PoolFold(j, pool).value;
      && (v.configured <==> Count(j, PoolSet(pool)) > 0)
      && Count(j, SlotTaken(pool, run)) == Count(j, SlotGiven(pool, run)) + if run in v.active then 1 else 0
  {
    hide PoolStep;
    if j != [] {
      var n := |j| - 1;
      PoolCounted(j[..n], pool, run);
      assert j == j[..n] + [j[n]];
      PoolCountedSnoc(j[..n], j[n], pool, run, PoolFold(j[..n], pool).value);
    }
  }

  lemma PoolCountedSnoc(j: seq<Event>, e: Event, pool: string, run: RunId, v: PoolView)
    requires PoolStep(pool, v, e.body).Success?
    requires v.configured <==> Count(j, PoolSet(pool)) > 0
    requires Count(j, SlotTaken(pool, run)) == Count(j, SlotGiven(pool, run)) + if run in v.active then 1 else 0
    ensures var j', w := j + [e], PoolStep(pool, v, e.body).value;
      && (w.configured <==> Count(j', PoolSet(pool)) > 0)
      && Count(j', SlotTaken(pool, run)) == Count(j', SlotGiven(pool, run)) + if run in w.active then 1 else 0
  {
    hide Count;
    CountSnoc(j, e, PoolSet(pool));
    CountSnoc(j, e, SlotTaken(pool, run));
    CountSnoc(j, e, SlotGiven(pool, run));
  }

  /** `replay_pool`: a target is positive, a slot is taken in a configured pool by a run that gave back
      every slot it took, and given back by one that has one. */
  lemma PoolReplayedExactly(j: seq<Event>, pool: string, e: Event)
    requires PoolFold(j, pool).Success? && OfThisPool(e.body, pool)
    ensures var f := e.body.poolFact;
      PoolFold(j + [e], pool).Success? <==>
        && (f.PoolConfigured? ==> f.target >= 1)
        && (f.SlotAcquired? ==>
              && Count(j, PoolSet(pool)) > 0
              && Count(j, SlotTaken(pool, f.run)) == Count(j, SlotGiven(pool, f.run)))
        && (f.SlotReleased? ==> Count(j, SlotTaken(pool, f.run)) == Count(j, SlotGiven(pool, f.run)) + 1)
  {
    hide PoolFold;
    hide Count;
    PoolFoldAppend(j, pool, e);
    var f := e.body.poolFact;
    if f.PoolConfigured? {
    } else {
      PoolCounted(j, pool, f.run);
    }
  }

  /** How the loop's projection tells what the journal holds. */
  ghost predicate LoopTold(j: seq<Event>, loop: string, v: LoopView) {
    var ran, failed, mended := Count(j, LoopRan(loop)), Count(j, LoopFailed(loop)), Count(j, LoopMended(loop));
    && Count(j, LoopMade(loop)) == (if v.status.LoopAbsent? then 0 else 1)
    && Count(j, LoopPassed(loop)) == (if v.status.LoopDone? then 1 else 0)
    && Count(j, LoopSpent(loop)) == (if v.status.LoopBroken? then 1 else 0)
    && v.iteration == ran
    && (v.status.LoopAbsent? ==> ran == failed == mended == 0)
    && (v.status.LoopActive? ==>
          && (v.phase.ReadyToRun? || v.phase.Executing? || v.phase.NeedsRepair? || v.phase.Repaired?)
          && (v.phase.ReadyToRun? ==> ran == 0)
          && failed == ran - (if v.phase.Executing? then 1 else 0)
          && mended == failed - (if v.phase.NeedsRepair? then 1 else 0))
  }

  lemma {:induction false} LoopCounted(j: seq<Event>, loop: string)
    requires LoopFold(j, loop).Success?
    ensures LoopTold(j, loop, LoopFold(j, loop).value)
  {
    hide LoopTold;
    hide LoopStep;
    if j == [] {
      NoLoopTold(loop);
    } else {
      var n := |j| - 1;
      LoopCounted(j[..n], loop);
      assert j == j[..n] + [j[n]];
      LoopCountedSnoc(j[..n], j[n], loop, LoopFold(j[..n], loop).value);
    }
  }

  lemma NoLoopTold(loop: string)
    ensures LoopTold([], loop, NO_LOOP)
  {
  }

  lemma LoopCountedSnoc(j: seq<Event>, e: Event, loop: string, v: LoopView)
    requires LoopTold(j, loop, v) && LoopStep(loop, v, e).Success?
    ensures LoopTold(j + [e], loop, LoopStep(loop, v, e).value)
  {
    hide Count;
    CountSnoc(j, e, LoopMade(loop));
    CountSnoc(j, e, LoopRan(loop));
    CountSnoc(j, e, LoopFailed(loop));
    CountSnoc(j, e, LoopMended(loop));
    CountSnoc(j, e, LoopPassed(loop));
    CountSnoc(j, e, LoopSpent(loop));
  }

  /** `replay_loop`: a loop begins once and ends once; in between iterations are numbered on and each is
      failed and then repaired before the next, or passed with evidence. */
  lemma LoopReplayedExactly(j: seq<Event>, loop: string, e: Event)
    requires LoopFold(j, loop).Success? && OfThisLoop(e.body, loop)
    ensures var f := e.body.loopFact;
      var ran, failed, mended := Count(j, LoopRan(loop)), Count(j, LoopFailed(loop)), Count(j, LoopMended(loop));
      var open := Count(j, LoopMade(loop)) == 1 && Count(j, LoopPassed(loop)) + Count(j, LoopSpent(loop)) == 0;
      LoopFold(j + [e], loop).Success? <==>
        if f.LoopCreated? then Count(j, LoopMade(loop)) == 0
        else
          && open
          && (f.IterationStarted? ==> f.iteration == ran + 1 && ran == failed == mended)
          && (f.ValidationFailed? ==> failed == ran - 1)
          && (f.RepairCompleted? ==> mended == failed - 1)
          && (f.LoopCompleted? ==> failed == ran - 1 && f.evidence != [])
  {
    hide LoopFold;
    hide Count;
    LoopFoldAppend(j, loop, e);
    LoopCounted(j, loop);
  }

  /** `replay` as a whole: the next number, and what the task and the record events need. */
  lemma ReplayedExactly(j: seq<Event>, e: Event)
    requires Replay(j).Success?
    ensures Replay(j + [e]).Success? <==>
      && e.seqNo == |j| + 1
      && (e.body.Task? ==> TaskFold(j + [e]).Success?)
      && (e.body.Record? ==> RecordDue(j, e.body.recordFact))
    ensures Replay(j + [e]).Failure? ==> Replay(j + [e]).error == ReplayRejected
  {
    hide TaskFold;
    hide RecordFold;
    hide RecordDue;
    var j' := j + [e];
    assert j'[|j|] == e && forall i :: 0 <= i < |j| ==> j'[i] == j[i];
    TaskFoldAppend(j, e);
    RecordFoldAppend(j, e);
    if e.body.Record? { RecordReplayedExactly(j, e); }
  }
}
