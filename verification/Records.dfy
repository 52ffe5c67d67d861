/** Agents, messages, executions, tool calls and sessions: the part of `replay` that folds their
    events, and what their idempotency keys reveal. */
module Records {
  import opened Base
  import opened Journal

  datatype AgentPhase = Provisioning | AgentActive | AgentFailed
  datatype Agent = Agent(name: string, phase: AgentPhase, error: Option<string>)

  datatype Message = Message(sender: string, target: string, content: string)

  datatype WorkStatus = Open | Done | Broken
  datatype Execution = Execution(agent: string, task: TaskId, executor: string, status: WorkStatus)
  datatype ToolCall = ToolCall(execution: string, tool: string, args: string, status: WorkStatus)

  datatype Session = Session(
    active: bool, checkpoint: int, context: Option<string>, task: Option<TaskId>,
    seen: set<string>, resumes: int)

  datatype RecordView = RecordView(
    agents: map<string, Agent>,
    messages: map<string, Message>,
    delivered: set<string>,
    executions: map<string, Execution>,
    tools: map<string, ToolCall>,
    sessions: map<string, Session>)

  const NO_RECORDS := RecordView(map[], map[], {}, map[], map[], map[])

  function ApplyRecord(r: RecordView, f: RecordFact): Result<RecordView> {
    match f
    case AgentProvisioning(a, name, _) =>
      if a in r.agents then Failure(ReplayRejected)
      else Success(r.(agents := r.agents[a := Agent(name, Provisioning, None)]))
    case AgentSettled(a, active, error) =>
      if a !in r.agents || !r.agents[a].phase.Provisioning? then Failure(ReplayRejected)
      else Success(r.(agents := r.agents[a := Agent(r.agents[a].name, if active then AgentActive
        else AgentFailed, error)]))
    case MessageQueued(m, sender, target, content) =>
      if m in r.messages then Failure(ReplayRejected)
      else Success(r.(messages := r.messages[m := Message(sender, target, content)]))
    case MessageDelivered(m, _) =>
      if m !in r.messages || m in r.delivered then Failure(ReplayRejected)
      else Success(r.(delivered := r.delivered + {m}))
    case ExecutionStarted(e, agent, task, executor) =>
      if e in r.executions then Failure(ReplayRejected)
      else Success(r.(executions := r.executions[e := Execution(agent, task, executor, Open)]))
    case ExecutionFinished(e, success, _, _) =>
      if e !in r.executions || !r.executions[e].status.Open? then Failure(ReplayRejected)
      else Success(r.(executions := r.executions[e := r.executions[e].(status := if success then Done else Broken)]))
    case ToolRequested(c, execution, tool, args) =>
      if c in r.tools || execution !in r.executions then Failure(ReplayRejected)
      else Success(r.(tools := r.tools[c := ToolCall(execution, tool, args, Open)]))
    case ToolFinished(c, success, _, _) =>
      if c !in r.tools || !r.tools[c].status.Open? then Failure(ReplayRejected)
      else Success(r.(tools := r.tools[c := r.tools[c].(status := if success then Done else Broken)]))
    case SessionCreated(s, _, _, task) =>
      if s in r.sessions then Failure(ReplayRejected)
      else Success(r.(sessions := r.sessions[s := Session(true, 0, None, task, {}, 0)]))
    case SessionCheckpointed(s, n, context, task, _) =>
      if s !in r.sessions || n != r.sessions[s].checkpoint + 1 then Failure(ReplayRejected)
      else Success(r.(sessions := r.sessions[s := r.sessions[s].(checkpoint := n, context := Some(context),
        task := task)]))
    case SessionMessageSeen(s, m) =>
      if s !in r.sessions || m in r.sessions[s].seen then Failure(ReplayRejected)
      else Success(r.(sessions := r.sessions[s := r.sessions[s].(seen := r.sessions[s].seen + {m})]))
    case SessionInterrupted(s, _) =>
      if s !in r.sessions || !r.sessions[s].active then Failure(ReplayRejected)
      else Success(r.(sessions := r.sessions[s := r.sessions[s].(active := false)]))
    case SessionResumed(s, _) =>
      if s !in r.sessions || r.sessions[s].active then Failure(ReplayRejected)
      else Success(r.(sessions := r.sessions[s := r.sessions[s].(active := true,
        resumes := r.sessions[s].resumes + 1)]))
  }

  function RecordStep(r: RecordView, b: Body): Result<RecordView> {
    if b.Record? then ApplyRecord(r, b.recordFact) else Success(r)
  }

  function RecordFold(j: seq<Event>): Result<RecordView> {
    if j == [] then Success(NO_RECORDS)
    else
      var r :- RecordFold(j[..|j| - 1]);
      RecordStep(r, j[|j| - 1].body)
  }

  lemma RecordFoldAppend(j: seq<Event>, e: Event)
    ensures RecordFold(j + [e]) ==
      if RecordFold(j).Failure? then Failure(RecordFold(j).error) else RecordStep(RecordFold(j).value, e.body)
  {
    assert (j + [e])[..|j|] == j;
  }

  /** The key a record event is stored under, in the state before the event.  The keys of
      interruptions and resumptions carry the resume counter. */
  function RecordKeyOf(r: RecordView, f: RecordFact): RecordKey {
    match f
    case AgentProvisioning(a, _, _) => AgentProvisioningKey(a)
    case AgentSettled(a, active, _) => AgentSettleKey(a, active)
    case MessageQueued(m, _, _, _) => MessageQueuedKey(m)
    case MessageDelivered(m, _) => MessageDeliveredKey(m)
    case ExecutionStarted(e, _, _, _) => ExecutionStartKey(e)
    case ExecutionFinished(e, ok, _, _) => ExecutionFinishKey(e, ok)
    case ToolRequested(c, _, _, _) => ToolRequestedKey(c)
    case ToolFinished(c, ok, _, _) => ToolFinishKey(c, ok)
    case SessionCreated(s, _, _, _) => SessionCreateKey(s)
    case SessionCheckpointed(s, n, _, _, _) => SessionCheckpointKey(s, n)
    case SessionMessageSeen(s, m) => SessionMessageKey(s, m)
    case SessionInterrupted(s, _) => SessionInterruptKey(s, Resumes(r, s))
    case SessionResumed(s, _) => SessionResumeKey(s, Resumes(r, s) + 1)
  }

  function Resumes(r: RecordView, s: string): int {
    if s in r.sessions then r.sessions[s].resumes else -1
  }

  ghost predicate RecordKeyFits(before: seq<Event>, key: Key, body: Body) {
    && (body.Record? ==>
      RecordFold(before).Success? && key == OfRecord(RecordKeyOf(RecordFold(before).value, body.recordFact)))
    && (key.OfRecord? ==> body.Record?)
  }

  ghost predicate RecordKeyed(j: seq<Event>) {
    forall i :: 0 <= i < |j| ==> RecordKeyFits(j[..i], j[i].key, j[i].body)
  }

  lemma RecordKeyedAppend(j: seq<Event>, e: Event)
    requires RecordKeyed(j) && RecordKeyFits(j, e.key, e.body)
    ensures RecordKeyed(j + [e])
  {
    var j' := j + [e];
    forall i | 0 <= i < |j'| ensures RecordKeyFits(j'[..i], j'[i].key, j'[i].body) {
      assert j'[..i] == if i < |j| then j[..i] else j;
    }
  }

  lemma RecordKeyedPrefix(j: seq<Event>, n: nat)
    requires RecordKeyed(j) && n <= |j|
    ensures RecordKeyed(j[..n])
  {
    forall k | 0 <= k < n ensures RecordKeyFits(j[..n][..k], j[..n][k].key, j[..n][k].body) {
      assert j[..n][..k] == j[..k];
    }
  }

  /** What a used record key says about every later projection. */
  predicate RecordTraced(r: RecordView, key: RecordKey) {
    match key
    case AgentProvisioningKey(a) => a in r.agents
    case AgentSettleKey(a, active) => a in r.agents && r.agents[a].phase == if active then AgentActive else AgentFailed
    case MessageQueuedKey(m) => m in r.messages
    case MessageDeliveredKey(m) => m in r.delivered
    case ExecutionStartKey(e) => e in r.executions
    case ExecutionFinishKey(e, ok) => e in r.executions && r.executions[e].status == if ok then Done else Broken
    case ToolRequestedKey(c) => c in r.tools
    case ToolFinishKey(c, ok) => c in r.tools && r.tools[c].status == if ok then Done else Broken
    case SessionCreateKey(s) => s in r.sessions
    case SessionCheckpointKey(s, n) => s in r.sessions && n <= r.sessions[s].checkpoint
    case SessionMessageKey(s, m) => s in r.sessions && m in r.sessions[s].seen
    case SessionInterruptKey(s, resumes) =>
      && s in r.sessions
      && (resumes < r.sessions[s].resumes || (resumes == r.sessions[s].resumes && !r.sessions[s].active))
    case SessionResumeKey(s, resumes) => s in r.sessions && resumes <= r.sessions[s].resumes
  }

  predicate AboutSession(f: RecordFact) {
    f.SessionCreated? || f.SessionCheckpointed? || f.SessionMessageSeen? || f.SessionInterrupted? || f.SessionResumed?
  }

  lemma RecordTraceStays(r: RecordView, key: RecordKey, f: RecordFact)
    requires RecordTraced(r, key) && ApplyRecord(r, f).Success?
    ensures RecordTraced(ApplyRecord(r, f).value, key)
  {
    if AboutSession(f) {
      SessionTraceStays(r, key, f);
    } else {
      OtherTraceStays(r, key, f);
    }
  }

  lemma SessionTraceStays(r: RecordView, key: RecordKey, f: RecordFact)
    requires AboutSession(f) && RecordTraced(r, key) && ApplyRecord(r, f).Success?
    ensures RecordTraced(ApplyRecord(r, f).value, key)
  {
  }

  lemma OtherTraceStays(r: RecordView, key: RecordKey, f: RecordFact)
    requires !AboutSession(f) && RecordTraced(r, key) && ApplyRecord(r, f).Success?
    ensures RecordTraced(ApplyRecord(r, f).value, key)
  {
  }

  lemma RecordTraceBegins(r: RecordView, f: RecordFact)
    requires ApplyRecord(r, f).Success?
    ensures RecordTraced(ApplyRecord(r, f).value, RecordKeyOf(r, f))
  {
  }

  lemma {:induction false} UsedRecordKeyTraced(j: seq<Event>, i: nat)
    requires RecordKeyed(j) && RecordFold(j).Success? && i < |j| && j[i].key.OfRecord?
    ensures RecordTraced(RecordFold(j).value, j[i].key.recordKey)
    decreases |j|
  {
    var n := |j| - 1;
    var r := RecordFold(j[..n]).value;
    var e := j[n];
    assert RecordKeyFits(j[..n], e.key, e.body);
    if i < n {
      RecordKeyedPrefix(j, n);
      UsedRecordKeyTraced(j[..n], i);
      if e.body.Record? { RecordTraceStays(r, j[i].key.recordKey, e.body.recordFact); }
    } else {
      RecordTraceBegins(r, e.body.recordFact);
    }
  }

  /** What an unused key says about the projection, for the entities whose writers rely on the
      key alone: the fact the key stands for has not happened. */
  predicate RecordMissing(r: RecordView, key: RecordKey) {
    match key
    case AgentProvisioningKey(a) => a !in r.agents
    case MessageQueuedKey(m) => m !in r.messages
    case ExecutionStartKey(e) => e !in r.executions
    case ToolRequestedKey(c) => c !in r.tools
    case SessionCreateKey(s) => s !in r.sessions
    case SessionMessageKey(s, m) => s in r.sessions ==> m !in r.sessions[s].seen
    case SessionInterruptKey(s, resumes) => s in r.sessions && resumes == r.sessions[s].resumes ==> r.sessions[s].active
    case _ => true
  }

  lemma MissingBefore(r: RecordView, f: RecordFact, key: RecordKey)
    requires ApplyRecord(r, f).Success? && RecordMissing(r, key) && key != RecordKeyOf(r, f)
    ensures RecordMissing(ApplyRecord(r, f).value, key)
  {
  }

  lemma {:induction false} UnusedRecordKeyMissing(j: seq<Event>, key: RecordKey)
    requires RecordKeyed(j) && RecordFold(j).Success? && Unused(j, OfRecord(key))
    ensures RecordMissing(RecordFold(j).value, key)
  {
    if j != [] {
      var n := |j| - 1;
      RecordKeyedPrefix(j, n);
      UnusedRecordKeyMissing(j[..n], key);
      assert RecordKeyFits(j[..n], j[n].key, j[n].body);
      if j[n].body.Record? { MissingBefore(RecordFold(j[..n]).value, j[n].body.recordFact, key); }
    }
  }

  /** A record key whose trace the projection lacks is unused. */
  lemma UnusedRecordKey(j: seq<Event>, key: RecordKey)
    requires RecordKeyed(j) && RecordFold(j).Success? && !RecordTraced(RecordFold(j).value, key)
    ensures Unused(j, OfRecord(key))
  {
    forall i | 0 <= i < |j| ensures j[i].key != OfRecord(key) {
      if j[i].key == OfRecord(key) { UsedRecordKeyTraced(j, i); }
    }
  }
}
