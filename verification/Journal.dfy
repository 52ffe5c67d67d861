/** The mission journal: what an event records, the idempotency key it is stored under, and
    the tables of one mission. */
module Journal {
  import opened Base

  /** Ids that the program joins with colons are kept structured. */
  datatype TaskId = NodeTask(graph: string, node: string) | PlainTask(name: string)

  datatype RunId = NodeRun(graph: string, node: string, worker: string) | PlainRun(name: string)

  datatype TaskStatus =
    TaskPending | TaskLeased | TaskBlocked | TaskCompleted | TaskFailed | OtherStatus(name: string)

  /** The keyword arguments of an update: the six fields a replay applies, each optional. */
  datatype Changes = Changes(
    status: Option<TaskStatus>,
    subject: Option<string>,
    blockedBy: Option<seq<TaskId>>,
    owner: Option<Option<string>>,
    lease: Option<Option<string>>,
    leaseUntil: Option<Option<real>>)

  datatype GraphNode = GraphNode(id: string, subject: string, blockedBy: seq<string>, kind: string)

  datatype ReceiptMaterial = ReceiptMaterial(
    schema: string, graph: string, node: string, actor: string, status: string,
    evidence: seq<string>, result: Option<string>)

  /** A digest determines what was digested. */
  datatype Digest = Digest(material: ReceiptMaterial)

  datatype TaskFact =
    | TaskCreated(task: TaskId, subject: string, blockedBy: seq<TaskId>)
    | TaskUpdated(task: TaskId, revision: int, changes: Changes)

  datatype RecordFact =
    | AgentProvisioning(agent: string, name: string, executorRef: string)
    | AgentSettled(agent: string, active: bool, error: Option<string>)
    | MessageQueued(message: string, sender: string, target: string, content: string)
    | MessageDelivered(message: string, target: string)
    | ExecutionStarted(execution: string, agent: string, task: TaskId, executor: string)
    | ExecutionFinished(execution: string, success: bool, reason: string, artifacts: seq<string>)
    | ToolRequested(call: string, execution: string, tool: string, args: string)
    | ToolFinished(call: string, success: bool, result: Option<string>, errorClass: Option<string>)
    | SessionCreated(session: string, agent: string, executorType: string, onTask: Option<TaskId>)
    | SessionCheckpointed(session: string, checkpoint: int, context: string, onTask: Option<TaskId>,
      stateRef: Option<string>)
    | SessionMessageSeen(session: string, message: string)
    | SessionInterrupted(session: string, reason: string)
    | SessionResumed(session: string, stateRef: Option<string>)

  datatype GraphFact =
    | GraphCreated(graph: string, nodes: seq<GraphNode>)
    | GraphStarted(graph: string)
    | NodeStarted(graph: string, node: string, owner: string, lease: string)
    | NodeReceipt(graph: string, node: string, digest: Digest, evidence: seq<string>, actor: string)
    | NodeCompleted(graph: string, node: string, digest: Digest, evidence: seq<string>)
    | NodeFailed(graph: string, node: string, error: string)
    | GraphCompleted(graph: string)
    | GraphFailed(graph: string, reason: string)

  datatype PoolFact =
    | PoolConfigured(pool: string, target: int)
    | SlotAcquired(pool: string, run: RunId, task: TaskId, worker: string, slot: int)
    | SlotReleased(pool: string, run: RunId)

  datatype LoopFact =
    | LoopCreated(loop: string, maxIterations: int, timeout: real, budget: Option<int>)
    | IterationStarted(loop: string, iteration: int, cost: int)
    | ValidationFailed(loop: string, iteration: int, evidence: seq<string>)
    | RepairCompleted(loop: string, iteration: int, evidence: seq<string>)
    | LoopCompleted(loop: string, iteration: int, evidence: seq<string>)
    | LoopExhausted(loop: string, iteration: int, reason: string)

  /** Event type and payload. */
  datatype Body =
    | Task(taskFact: TaskFact)
    | Record(recordFact: RecordFact)
    | Graph(graphFact: GraphFact)
    | Pool(poolFact: PoolFact)
    | Loop(loopFact: LoopFact)

  datatype TaskKey =
    | CreateKey(task: TaskId)
    | UpdateKey(task: TaskId, revision: int, changes: Changes)

  datatype RecordKey =
    | AgentProvisioningKey(agent: string)
    | AgentSettleKey(agent: string, active: bool)
    | MessageQueuedKey(message: string)
    | MessageDeliveredKey(message: string)
    | ExecutionStartKey(execution: string)
    | ExecutionFinishKey(execution: string, success: bool)
    | ToolRequestedKey(call: string)
    | ToolFinishKey(call: string, success: bool)
    | SessionCreateKey(session: string)
    | SessionCheckpointKey(session: string, checkpoint: int)
    | SessionMessageKey(session: string, message: string)
    | SessionInterruptKey(session: string, resumes: int)
    | SessionResumeKey(session: string, resumes: int)

  datatype GraphKey =
    | GraphCreateKey(graph: string)
    | GraphStartKey(graph: string)
    | NodeStartKey(graph: string, node: string, lease: string)
    | NodeReceiptKey(graph: string, node: string, digest: Digest)
    | NodeCompleteKey(graph: string, node: string, digest: Digest)
    | NodeFailKey(graph: string, node: string, error: string)
    | GraphCompleteKey(graph: string)
    | GraphFailKey(graph: string, reason: string)

  datatype PoolKey =
    | ConfigureKey(pool: string, target: int, version: int)
    | AcquireKey(pool: string, run: RunId)
    | ReleaseKey(pool: string, run: RunId)

  datatype LoopKey =
    | LoopCreateKey(loop: string)
    | IterationKey(loop: string, iteration: int)
    | FailKey(loop: string, iteration: int)
    | RepairKey(loop: string, iteration: int)
    | CompleteKey(loop: string)
    | ExhaustKey(loop: string, reason: string, iteration: int)

  datatype Key =
    | OfTask(taskKey: TaskKey)
    | OfRecord(recordKey: RecordKey)
    | OfGraph(graphKey: GraphKey)
    | OfPool(poolKey: PoolKey)
    | OfLoop(loopKey: LoopKey)

  /** One row of the event table.  `mission`, `seqNo`, `actor` and `at` are its envelope. */
  datatype Event = Event(mission: string, seqNo: int, actor: string, at: real, key: Key, body: Body)

  /** What a call asks the journal to hold. */
  datatype Entry = Entry(actor: string, key: Key, body: Body)

  function Stamp(mission: string, seqNo: int, at: real, e: Entry): Event {
    Event(mission, seqNo, e.actor, at, e.key, e.body)
  }

  /** The journal after the entries, numbered on from its length. */
  function Extend(j: seq<Event>, mission: string, at: real, entries: seq<Entry>): (r: seq<Event>)
    ensures |r| == |j| + |entries| && r[..|j|] == j
    ensures forall i :: 0 <= i < |entries| ==> r[|j| + i] == Stamp(mission, |j| + i + 1, at, entries[i])
  {
    j + seq(|entries|, i requires 0 <= i < |entries| => Stamp(mission, |j| + i + 1, at, entries[i]))
  }

  lemma ExtendOne(j: seq<Event>, mission: string, at: real, e: Entry)
    ensures Extend(j, mission, at, [e]) == j + [Stamp(mission, |j| + 1, at, e)]
  {
  }

  lemma ExtendNone(j: seq<Event>, mission: string, at: real)
    ensures Extend(j, mission, at, []) == j
  {
  }

  lemma ExtendAppend(j: seq<Event>, mission: string, at: real, a: seq<Entry>, b: seq<Entry>)
    ensures Extend(Extend(j, mission, at, a), mission, at, b) == Extend(j, mission, at, a + b)
  {
    var l, r := Extend(Extend(j, mission, at, a), mission, at, b), Extend(j, mission, at, a + b);
    var m := Extend(j, mission, at, a);
    forall i | 0 <= i < |l| ensures l[i] == r[i] {
      if i < |j| {
        assert l[i] == l[..|m|][i] == m[..|j|][i] && r[i] == r[..|j|][i];
      } else if i < |m| {
        assert l[i] == l[..|m|][i] && m[|j| + (i - |j|)] == Stamp(mission, i + 1, at, a[i - |j|]);
        assert r[|j| + (i - |j|)] == Stamp(mission, i + 1, at, (a + b)[i - |j|]);
      } else {
        assert l[|m| + (i - |m|)] == Stamp(mission, i + 1, at, b[i - |m|]);
        assert r[|j| + (i - |j|)] == Stamp(mission, i + 1, at, (a + b)[i - |j|]);
      }
    }
  }

  lemma ExtendSnoc(j: seq<Event>, mission: string, at: real, entries: seq<Entry>, e: Entry)
    ensures var before := Extend(j, mission, at, entries);
      Extend(j, mission, at, entries + [e]) == before + [Stamp(mission, |before| + 1, at, e)]
  {
    ExtendAppend(j, mission, at, entries, [e]);
    ExtendOne(Extend(j, mission, at, entries), mission, at, e);
  }

  /** No event is stored under the key. */
  ghost predicate Unused(j: seq<Event>, key: Key) {
    forall i :: 0 <= i < |j| ==> j[i].key != key
  }

  /** An event with this content is stored under the key. */
  ghost predicate Stored(j: seq<Event>, key: Key, body: Body) {
    exists i :: 0 <= i < |j| && j[i].key == key && j[i].body == body
  }

  /** UNIQUE(mission_id, idempotency_key). */
  ghost predicate UniqueKeys(j: seq<Event>) {
    forall a, b :: 0 <= a < b < |j| ==> j[a].key != j[b].key
  }

  /** The lookup by idempotency key. */
  method Lookup(j: seq<Event>, key: Key) returns (r: Option<Event>)
    ensures r.None? <==> Unused(j, key)
    ensures r.Some? ==> r.value in j && r.value.key == key
  {
    for i := 0 to |j|
      invariant forall k :: 0 <= k < i ==> j[k].key != key
    {
      if j[i].key == key {
        return Some(j[i]);
      }
    }
    r := None;
  }

  /** The rows of the three tables that belong to one mission; no row in mission_seq reads as 1. */
  datatype Tables = Tables(journal: seq<Event>, nextSeq: int, heads: map<TaskId, int>)

  const NO_ROWS := Tables([], 1, map[])
}
