# Verification of the mission runtime and its companions

This project models the event-sourced mission runtime of `ops/multiagent-runtime-v2`, the
human-authority binding protocol, and four smaller cores: the hash-chained history, the
peak-concurrency sweep, the browser event stream and the truth-claim reconciler.  It proves what
they keep over every run.

**The runtime.**  `MissionStore` holds, for each mission, a journal of events with idempotency keys,
a next sequence number and a head revision per task.  All state is a fold over the journal, and
four replays (`replay`, `replay_graph`, `replay_pool`, `replay_loop`) reject a journal that is not
well formed.  Each store call is one atomic step.  An operation of the runtime, the graph engine,
the pool, the scheduler or the loop controller is described twice: as a *plan*, the list of events
it appends with the exception it ends with, and as a method of a class that reads, decides and
appends as the source does.  `Store.Ran` connects the two: the method wrote the plan, or, when the
process died, a prefix of it.  The store counts down the appends it has left, so that a crash can
fall between any two.  What the source promises is proved about the plans, cut anywhere.

The tables of a mission are *well kept* when counter and heads are those of the replayed journal.
`EveryRunConsistent` proves it of the counter and heads the transactions write, over every run of
calls, and `Play` that each call of the class is such a step.

The journal of a graph is *good* when its tables agree with their replay and each of its events
was enabled, by the state before it, when it was written.  Every operation keeps that, wherever it
is cut, so every run does; that no replay raises, that ready nodes are found, and the causal order
of starts and completions follow from it.

**Where the code does less than its documentation or its name suggests**, the code was followed,
and the exact condition is stated, with a run from an empty journal that ends in the case:

- `complete_node` does not compare a new receipt with one already pending
  (`GraphCrash.CompleteReplayableIff`; `Shortfalls.SecondReceipt`);
- `reconcile` does not look at the graph status (`GraphRepair.ReconcileReplayableIff`;
  `Shortfalls.StartOffRunning`), and cannot repair a lease whose worker or lease id is empty
  (`GraphCrash.LeaseCrashRecovered`), so that a running, reconciled graph can be stuck
  (`GraphDeadlock.NoDeadlock`; `Shortfalls.HeldLease`), though not when every lease is named
  (`GraphDeadlock.NamedRunGoesOn`);
- a crash inside `fail_node` is repaired by a retry only, not by `reconcile`
  (`GraphCrash.FailCrashNotRepaired`; `Shortfalls.HalfFailed`);
- `resume_session` does not look at the session status (`Runtime.ResumeReadableIffInterrupted`;
  `Shortfalls.ActiveResumed`);
- the compensating release of the scheduler also ends a run that was active before the dispatch
  (`Scheduling.CompensationRestoresIff`), which two dispatchers with the same node and worker bring
  about (`Scheduling.SecondDispatcher`; `Shortfalls.SlotGivenAway`).

**Answers.**  Modules whose names end in `Answers`, and `Leases`, `Receipts`, `LoopLimits`,
`BindingTimes` and `Authority`, say what a call does in the fields of the state and the clock, each
refusal and exception included, and what two calls in a row come to.  `Replays` and `GraphReplays` say
which event a replay accepts by the events before it, in any journal.

**Reading order.**  `Base`, `Sorting`, `Ordering`, `Digraph`, `RoundOrder`; `Journal`, `Tasks`, `Records`, `GraphLog`,
`PoolLog`, `LoopLog` (the folds and replays); `Store`, `Projection`, `Replays`, `GraphReplays`, `Runtime`,
`RuntimeAnswers`, `Leases`, `RuntimeCalls` (the store and the runtime); `GraphRules`, `GraphHistory` (what
may be written, and what a journal of such events tells); `GraphPlans`, `GraphDefinitions`,
`GraphSafety`, `GraphRepair`, `GraphLifecycle`, `GraphCrash`, `Receipts`, `GraphAnswers`, `GraphDeadlock`,
`GraphProgress`, `RepairSteps`, `MaterialSteps`, `GraphCalls` (the engine); `PoolRules`, `PoolAnswers`,
`PoolCalls`, `Scheduling`, `DispatchAnswers`, `SchedulerCalls`, `Shortfalls`; `LoopRules`, `LoopLimits`,
`LoopCalls`; `Recovery`; `Binding`, `BindingTimes`, `BindingCalls`, `ControlPlane`; `Sweep`, `History`,
`EventStream`, `Truth`, `Authority`.

The main results are `Runtime.EveryRunConsistent`, `GraphLifecycle.NoRunRejected`,
`GraphLifecycle.EveryRunCausal`, the crash lemmas of `GraphCrash`, `GraphDeadlock.NoDeadlock` and
`NamedRunGoesOn`, `GraphProgress.RoundsReachCompletion`,
`GraphDefinitions.Validate` and `TopologicalOrder`, `Scheduling.DispatchReadyExact`,
`PoolRules.EveryPoolRun`, `LoopRules.EveryLoopRun`, `Recovery.ImportedBehavesAlike`,
`Binding.EveryRunSound` and `Fenced`, `ControlPlane.VerifiedReportBacked`, `Sweep.SweepIsPeak`,
`History.BuiltReplays` and `SameHeadSameHistory`, `EventStream.CursorReads`, `Truth.OrderIrrelevant`,
`AcceptedCovers` and `ReconcileIdempotent`, `Authority.AuthorityDecides` and `RequiredExactly`,
`GraphReplays.ReplayedExactly`, `Receipts.CompletedTwice` and `EveryRunReceipted`,
`LoopLimits.EveryWriteTimely`, `BindingTimes.LifeOfIntent` and `ControlPlane.UndisturbedRun`.

## Model

| member | source | states |
|---|---|---|
| `Digraph.DetectCycle` | ops/multiagent-runtime-v2/runtime.py:328-346 | The depth-first search reports nothing exactly when every dependency is a known id and no path returns to its start; a reported cycle or missing id is a real one. |
| `Digraph.Minimal` | ops/multiagent-runtime-v2/runtime.py:328-346 | In an acyclic graph every non-empty set of nodes has a member that depends on none of the set, whatever the declared order. |
| `Digraph.NewNodeKeepsAcyclic` | ops/multiagent-runtime-v2/runtime.py:677-691 | A new node that depends on existing nodes only keeps a closed acyclic graph closed and acyclic, so the check before `create_task` passes. |
| `Digraph.AlwaysProgress` | ops/multiagent-runtime-v2/graph_engine.py:91-107 | In a closed acyclic graph the next round of `topological_order` is never empty while nodes are left: "no progress" is never reported. |
| `Digraph.RoundsLayered` | ops/multiagent-runtime-v2/graph_engine.py:91-107 | The concatenated rounds list every remaining node once, each after all it depends on. |
| `RoundOrder.RoundsByDepth` | ops/multiagent-runtime-v2/graph_engine.py:91-107 | `topological_order` lists nodes by the length of the longest way down their dependencies, and those of one length in ascending order of their ids. |
| `RoundOrder.DepthExactly` | ops/multiagent-runtime-v2/graph_engine.py:91-107 | That length is zero without dependencies left, and else one more than the largest among the dependencies. |
| `GraphDefinitions.Validate` | ops/multiagent-runtime-v2/graph_engine.py:46-86 | The search with its length, self-loop and unknown-id checks accepts exactly the definitions with the right schema, a graph id, unique ids, closed and acyclic dependencies. |
| `GraphDefinitions.ValidExactly` | ops/multiagent-runtime-v2/graph_engine.py:46-86 | What a valid definition is, said of the nodes as declared: no id twice or empty, no unknown dependency, and no way along the dependencies back to its start. |
| `GraphDefinitions.TopologicalOrder` | ops/multiagent-runtime-v2/graph_engine.py:91-107 | Succeeds exactly on the valid definitions; the result holds nodes of the definition, covers each id once and lists dependencies first. |
| `GraphDefinitions.OrderOfDeclarationIrrelevant` | ops/multiagent-runtime-v2/graph_engine.py:91-107 | Two declarations of the same nodes in different orders are both valid and give the same dictionary and the same topological order. |
| `Store.MissionStore.Append` | ops/multiagent-runtime-v2/runtime.py:95-162 | One transaction: a known key with the same type and payload returns the stored event and writes nothing, a known key with another content is a conflict, otherwise exactly one event with the next number; heads are untouched. |
| `Store.MissionStore.AppendTaskCreated` | ops/multiagent-runtime-v2/runtime.py:216-252 | An event already stored under the creation key is returned, whatever its content; otherwise a task without a head gets one event and head 1, and a task with a head is a conflict that changes nothing. |
| `Store.MissionStore.AppendTaskUpdated` | ops/multiagent-runtime-v2/runtime.py:254-298 | Compare-and-set: the event is written and the head advanced only when the head equals the expected revision; a replayed key returns its event, every other call leaves all tables as they were. |
| `Journal.Extend` | ops/multiagent-runtime-v2/runtime.py:181-214 | Rows written by a list of appends keep everything before them and are numbered consecutively from the length of the journal. |
| `Journal.Lookup` | ops/multiagent-runtime-v2/runtime.py:95-125 | The search by idempotency key finds nothing exactly when no event carries the key, and otherwise an event that does. |
| `Tasks.TaskFoldSound` | ops/multiagent-runtime-v2/runtime.py:349-514 | Whenever replay accepts, the replayed tasks have closed acyclic dependencies and the order lists every task once. |
| `Tasks.NewTaskSound` | ops/multiagent-runtime-v2/runtime.py:677-691 | Adding a task on known tasks keeps the dependencies closed and acyclic. |
| `Tasks.NewTaskExactly` | ops/multiagent-runtime-v2/runtime.py:677-691 | A new task keeps the dependencies closed and acyclic if and only if it depends on tasks that exist. |
| `Tasks.UsedTaskKeyTraced` | ops/multiagent-runtime-v2/runtime.py:216-298 | Every task key in the journal is explained by the replayed tasks: its task exists and its revision is at most the replayed one. |
| `Tasks.CreationAccepted` | ops/multiagent-runtime-v2/runtime.py:216-252 | For an unknown task the creation key is unused and replay accepts the creation, with exactly that task added. |
| `Tasks.UpdateAccepted` | ops/multiagent-runtime-v2/runtime.py:254-298 | For the revision after the replayed one the update key is unused and replay accepts the update, changing that task only. |
| `Projection.ReplayEvents` | ops/multiagent-runtime-v2/runtime.py:349-514 | The loop that applies event after event, checking numbers, revisions and cycles, computes the fold, and rejects exactly when the fold does. |
| `Replays.ReplayedExactly` | ops/multiagent-runtime-v2/runtime.py:349-514 | After a journal that replays, whoever wrote it, one more event is accepted if and only if its number is next and it has behind it what a task or a record event needs. |
| `Replays.TaskReplayedExactly` | ops/multiagent-runtime-v2/runtime.py:381-404 | A creation is the first of its task and depends on tasks created before; a change carries 2 plus the number of changes before it and keeps the dependencies known and acyclic. |
| `Replays.RecordReplayedExactly` | ops/multiagent-runtime-v2/runtime.py:366-503 | Everything begins once and ends once after it began, tools belong to executions that began, checkpoints count up from one, interruptions and resumptions take turns. |
| `Projection.EntryKeeps` | ops/multiagent-runtime-v2/runtime.py:95-298 | Any acceptable append keeps a journal numbered 1..n with unique keys that fit their content, and accepted by replay. |
| `Projection.AdmissibleKeeps` | ops/multiagent-runtime-v2/runtime.py:95-298 | The same for a list of appends cut short anywhere: a crash never leaves a journal that replay rejects. |
| `Runtime.CallAdmissible` | ops/multiagent-runtime-v2/runtime.py:525-887 | Every call of the runtime (tasks, leases, agents, executions, tools, messages, sessions) writes acceptable events only. |
| `Runtime.EveryRunConsistent` | ops/multiagent-runtime-v2/runtime.py:525-887 | The counter and the heads the store writes never drift from the journal: after any sequence of calls, each with a crash point, numbers are 1..n, the counter is n+1, keys are unique, each head kept by compare-and-set is the replayed revision, and replay succeeds. |
| `Runtime.TurnKept` | ops/multiagent-runtime-v2/runtime.py:525-887 | One call, made of transactions that read counter and heads from the tables, leaves consistent tables whose journal is what its plan says, cut at the crash: no compare-and-set fails that the projection promised to succeed. |
| `Runtime.RanIsTurn` | ops/multiagent-runtime-v2/runtime.py:95-298 | Consistent tables whose journal grew as the plan says have the counter and the heads of the transactions. |
| `Runtime.ResumeReadableIffInterrupted` | ops/multiagent-runtime-v2/runtime.py:870-887 | `resume_session` does not look at the status: it always writes, and the journal stays readable if and only if the session was not active. |
| `RuntimeCalls.OneEntryKept` | ops/multiagent-runtime-v2/runtime.py:95-298 | One written event leaves tables that agree with their replay, or nothing was written. |
| `RuntimeCalls.TaskUpdateWritten` | ops/multiagent-runtime-v2/runtime.py:254-298 | An accepted update leaves tables that agree with replay, in which that task alone changed. |
| `RuntimeCalls.MissionRuntime.Projection` | ops/multiagent-runtime-v2/runtime.py:522-523 | On tables kept by the runtime the projection never raises, and equals the folds. |
| `RuntimeCalls.MissionRuntime.CreateTask` | ops/multiagent-runtime-v2/runtime.py:677-691 | Writes the planned creation or raises as planned; on success exactly the new task was added. |
| `RuntimeCalls.MissionRuntime.UpdateTask` | ops/multiagent-runtime-v2/runtime.py:693-713 | Writes the planned update or raises as planned; on success exactly that task changed, to the next revision. |
| `RuntimeCalls.MissionRuntime.Play` | ops/multiagent-runtime-v2/runtime.py:525-887 | Any call of the class is a turn of such a run: journal, counter and heads end as its transactions say, and other missions stay. |
| `RuntimeCalls.MissionRuntime.LeaseTask` | ops/multiagent-runtime-v2/runtime.py:715-730 | As an update that sets owner, lease id and expiry; a non-positive time to live writes nothing. |
| `RuntimeCalls.MissionRuntime.Perform` | ops/multiagent-runtime-v2/runtime.py:525-887 | The record calls: each writes what its plan says, cut at the crash, and returns the replayed records, or raises; resuming an active session raises after it wrote. |
| `RuntimeCalls.MissionRuntime.ReleasePass` | ops/multiagent-runtime-v2/runtime.py:732-751 | One pass over a projection releases exactly the tasks that are leased with a lease end not after the clock, in order. |
| `RuntimeCalls.MissionRuntime.RecoverExpiredLeases` | ops/multiagent-runtime-v2/runtime.py:732-751 | The loop until stable ends. Each task leased with a lease end not after the clock is reported and is blocked, without owner, lease and lease end, one revision on; every other task is as before. |
| `RuntimeCalls.IdlePass` | ops/multiagent-runtime-v2/runtime.py:732-751 | With nothing expired a pass writes nothing, which is why the loop stops. |
| `Leases.ReleasedExactly` | ops/multiagent-runtime-v2/runtime.py:732-751 | The same of the specified release of all expired leases, in the fields of the tasks. |
| `Leases.ReportedExactly` | ops/multiagent-runtime-v2/runtime.py:732-751 | The reported tasks are those, each once. |
| `Leases.LeaseLapses` | ops/multiagent-runtime-v2/runtime.py:715-751 | A lease taken at a time for a number of seconds survives a recovery before its end and is taken back by one from then on. |
| `RuntimeAnswers.PutAnswers` | ops/multiagent-runtime-v2/runtime.py:95-162 | A new key is written; under a used one the same content is the stored event and another is a conflict; without a mission or an actor the call is refused. |
| `RuntimeAnswers.CreateTaskAnswers` | ops/multiagent-runtime-v2/runtime.py:677-691 | A known task is a conflict, an unknown dependency is refused, any other task is created pending and without a lease. |
| `RuntimeAnswers.UpdateTaskAnswers` | ops/multiagent-runtime-v2/runtime.py:693-713 | An unknown task, a stale revision and dependencies that are unknown or close a cycle are refused, each with its exception; otherwise the given fields change and the revision is one higher. |
| `RuntimeAnswers.PlainUpdate` | ops/multiagent-runtime-v2/runtime.py:693-713 | An update of a known task at its revision that leaves the dependencies alone always goes through. |
| `RuntimeAnswers.LeaseTaskAnswers` | ops/multiagent-runtime-v2/runtime.py:715-730 | The time must be positive; the update hands the task to the owner until its end. |
| `RuntimeAnswers.RecordRefusals` | ops/multiagent-runtime-v2/runtime.py:525-887 | Which record calls end without an event: unknown entities are refused, finished work stays, another settlement and another addressee are conflicts. |
| `RuntimeAnswers.RecordedExactly` | ops/multiagent-runtime-v2/runtime.py:525-887 | What the one event of a record call changes in the projection, in its fields, and that nothing else changes. |
| `RuntimeAnswers.RecordedWhenever` | ops/multiagent-runtime-v2/runtime.py:525-887 | And that the call writes it whenever there is such a change to make. |
| `GraphLog.ReplayGraph` | ops/multiagent-runtime-v2/graph_engine.py:170-245 | The replay loop computes the fold of the graph and rejects exactly when the fold does. |
| `GraphReplays.ReplayedExactly` | ops/multiagent-runtime-v2/graph_engine.py:170-245 | After a journal that `replay_graph` accepts, whoever wrote it, one more event of the graph is accepted if and only if the events it needs are behind it and none it excludes: a completion needs a start and its very receipt, and so on. |
| `GraphReplays.ReplayedInOrder` | ops/multiagent-runtime-v2/graph_engine.py:170-245 | So each event of the graph in a journal that replays has them. |
| `GraphReplays.FieldsFromEvents` | ops/multiagent-runtime-v2/graph_engine.py:170-245 | What the projection shows of a node is what its events say: its definition, the worker and lease of its start, its receipt with evidence and author, and its error. |
| `GraphLog.UnusedGraphKey` | ops/multiagent-runtime-v2/graph_engine.py:170-245 | A graph key the replayed state does not account for occurs nowhere in the journal. |
| `GraphRules.EnabledKeepsLinked` | ops/multiagent-runtime-v2/graph_engine.py:343-551 | Every event the engine may write keeps graph and tasks linked: a pending node has a free or leased task and no receipt; a running one has the task under its own lease, or blocked, failed, or completed with a receipt pending; a completed one has its task completed and the pending receipt as its own; a failed one its task failed. |
| `GraphHistory.GeneratedHealthy` | ops/multiagent-runtime-v2/graph_engine.py:170-245 | A journal in which each event was enabled when written is accepted by replay, and its graph and tasks are linked. |
| `GraphHistory.GeneratedExplained` | ops/multiagent-runtime-v2/graph_engine.py:323-438 | Every leased or completed task, pending receipt and started node is explained by earlier events in the journal. |
| `GraphHistory.DefinitionStays` | ops/multiagent-runtime-v2/graph_engine.py:170-245 | Once created, a graph keeps its nodes and dependencies in every longer journal. |
| `GraphHistory.AlongPath` | ops/multiagent-runtime-v2/graph_engine.py:323-438 | Along a dependency path from a started node, each node further down finished before the start. |
| `GraphHistory.DependencyFinished` | ops/multiagent-runtime-v2/graph_engine.py:323-438 | Every start and every receipt of a node is preceded by the finish of each direct dependency. |
| `GraphHistory.CausalOrder` | ops/multiagent-runtime-v2/graph_engine.py:323-438 | Each start of a node is preceded, for every ancestor in the graph, by its recorded receipt and, later, the task update that completed it. |
| `GraphSafety.ReadyNodesExact` | ops/multiagent-runtime-v2/graph_engine.py:323-341 | On linked graph and tasks `ready_nodes` raises nothing, is sorted, and holds exactly the pending nodes whose task is free and whose dependencies are all completed. |
| `GraphSafety.LeasePlanned` | ops/multiagent-runtime-v2/graph_engine.py:343-374 | What `lease_node` writes: nothing when the node is not ready or the time to live is not positive, else the lease and then the start, or the lease alone with an exception when mission or actor is empty. |
| `GraphSafety.LeaseLawful` | ops/multiagent-runtime-v2/graph_engine.py:343-374 | Every append of `lease_node` is allowed when it happens, on any good journal. |
| `GraphSafety.CompleteLawful` | ops/multiagent-runtime-v2/graph_engine.py:376-438 | Every append of `complete_node` is allowed when it happens if and only if no other receipt is pending. |
| `GraphSafety.PendingKnown` | ops/multiagent-runtime-v2/graph_engine.py:398-410 | The evidence and author a projection shows of a pending receipt are those its digest was taken of. |
| `Receipts.RefusedReceipts` | ops/multiagent-runtime-v2/graph_engine.py:157-396 | A receipt for another graph or node, one that did not pass, shows no evidence or does not match its digest, and one by another actor than the owner are refused as receipts; unknown, pending and failed nodes are refused as transitions; nothing is written. |
| `Receipts.CompletedAnswers` | ops/multiagent-runtime-v2/graph_engine.py:388-391 | Once the journal holds the completion of a node, the very receipt of that event is answered with the graph and any other valid one is refused; nothing is written. |
| `Receipts.CompletedTwice` | ops/multiagent-runtime-v2/graph_engine.py:376-438 | After a `complete_node` that went through, and whatever was written since, the same receipt is answered with the graph and any other valid one is refused. |
| `Receipts.SecondReceiptRaises` | ops/multiagent-runtime-v2/graph_engine.py:398-438 | A second receipt, other than the pending one, past every check is written all the same, and the call raises only when it reads the graph again, or when the task has neither lease nor completion. |
| `Receipts.CompletedWithReceipt` | ops/multiagent-runtime-v2/graph_engine.py:376-438 | A completed node has a receipt that passed, for this node of this graph, with evidence, by the worker the node was started for. |
| `Receipts.EveryRunReceipted` | ops/multiagent-runtime-v2/graph_engine.py:157-438 | In every run, with crashes anywhere. |
| `GraphSafety.FailLawful` | ops/multiagent-runtime-v2/graph_engine.py:440-463 | Every append of `fail_node` is allowed when it happens. |
| `GraphAnswers.LeaseAnswers` | ops/multiagent-runtime-v2/graph_engine.py:343-374 | `lease_node` in the fields: a conflict unless the graph runs, the node is pending, its task waits and the tasks of its dependencies are completed; a positive time; then the two events with worker, lease and lease end. |
| `GraphAnswers.FailAnswers` | ops/multiagent-runtime-v2/graph_engine.py:440-463 | `fail_node`: only a running node; its task fails and loses its lease, then the node fails. |
| `GraphAnswers.ReadyRaises` | ops/multiagent-runtime-v2/graph_engine.py:323-341 | `ready_nodes` raises a KeyError exactly when the task of a pending node is missing, or that of a dependency it gets to. |
| `GraphAnswers.LeaseRaises` | ops/multiagent-runtime-v2/graph_engine.py:343-352 | `lease_node` raises what `ready_nodes` raises, and writes nothing. |
| `GraphAnswers.UnreadableGraph` | ops/multiagent-runtime-v2/graph_engine.py:170-551 | Every operation ends at once with the replay exception when the events of the graph do not replay. |
| `GraphAnswers.TaskMissing` | ops/multiagent-runtime-v2/graph_engine.py:398-463 | A running node without a task: `fail_node` raises a KeyError, `complete_node` does so once the receipt is recorded. |
| `GraphAnswers.InvalidDefinitions` | ops/multiagent-runtime-v2/graph_engine.py:257-321 | Invalid definitions, handed in or read back, are refused, and a graph that cannot be read after its creation raises. |
| `GraphRepair.ReconcileLawful` | ops/multiagent-runtime-v2/graph_engine.py:465-528 | Every append of `reconcile` is allowed if and only if the graph runs or no start is missing; then no task changes and the graph ends as the repaired one. |
| `GraphRepair.ReconcileIdempotent` | ops/multiagent-runtime-v2/graph_engine.py:465-528 | A second `reconcile` never writes anything; it raises exactly when the first one wrote a start off a running graph. |
| `GraphRepair.ReconcileReplayableIff` | ops/multiagent-runtime-v2/graph_engine.py:477-494 | `reconcile` does not read the graph status: the journal it leaves is accepted by replay if and only if the graph is running or no start is missing. |
| `GraphRepair.StartsRejected` | ops/multiagent-runtime-v2/graph_engine.py:200-202 | Node starts written to a graph that is not running make replay reject the journal. |
| `GraphRepair.SettledPlan` | ops/multiagent-runtime-v2/graph_engine.py:465-528 | With nothing to repair `reconcile` writes nothing. |
| `GraphAnswers.ReconcileAnswers` | ops/multiagent-runtime-v2/graph_engine.py:465-528 | `reconcile` in the fields: it writes exactly a start for each pending node whose task is leased under a non-empty worker and lease id, and a completion for each running node whose task is completed and whose receipt is pending; it raises exactly when a start is due off a running graph. |
| `GraphAnswers.NamelessReconcile` | ops/multiagent-runtime-v2/graph_engine.py:465-528 | Without a mission or an actor `reconcile` writes nothing, and raises exactly when something was due. |
| `GraphRepair.SameCompletions` | ops/multiagent-runtime-v2/graph_engine.py:473-520 | The second loop, which reads the graph again, finds the completions the first reading shows. |
| `GraphLifecycle.DefinitionOrder` | ops/multiagent-runtime-v2/graph_engine.py:295-321 | For a graph that exists, the rounds of its definition list every node once, dependencies first. |
| `GraphLifecycle.MaterializationLawful` | ops/multiagent-runtime-v2/graph_engine.py:283-293 | Every `create_task` of `_materialize_tasks` passes the cycle check, and afterwards every node has its task. |
| `GraphLifecycle.MaterialGoes` | ops/multiagent-runtime-v2/graph_engine.py:283-293 | On linked graph and tasks the loop over `create_task` meets no conflict and no cycle, and writes exactly the missing tasks. |
| `GraphLifecycle.CreatePlanned` | ops/multiagent-runtime-v2/graph_engine.py:257-281 | So `create_graph` of a valid definition writes the creation and then the missing tasks. |
| `GraphLifecycle.StartPlanned` | ops/multiagent-runtime-v2/graph_engine.py:309-321 | And `start_graph` of a created graph, whose definition read back is valid, the missing tasks and then the start. |
| `GraphLifecycle.CreateLawful` | ops/multiagent-runtime-v2/graph_engine.py:257-281 | Every append of `create_graph` is allowed when it happens, also when a crash left part of the tasks. |
| `GraphLifecycle.StartLawful` | ops/multiagent-runtime-v2/graph_engine.py:309-321 | Every append of `start_graph` is allowed when it happens. |
| `GraphLifecycle.MaybeCompleteLawful` | ops/multiagent-runtime-v2/graph_engine.py:530-551 | Every append of `maybe_complete_graph` is allowed when it happens. |
| `GraphAnswers.StartedOnce` | ops/multiagent-runtime-v2/graph_engine.py:309-321 | `start_graph` is refused unless the graph was created and not started. |
| `GraphAnswers.CreatedAgain` | ops/multiagent-runtime-v2/graph_engine.py:257-281 | `create_graph` of a graph that exists fills in missing tasks if the nodes are the same, and is a conflict otherwise. |
| `GraphAnswers.EndAnswers` | ops/multiagent-runtime-v2/graph_engine.py:530-551 | `maybe_complete_graph` writes for a running graph only: a failure when a node failed, the completion when all completed, else nothing. |
| `GraphAnswers.EndedStays` | ops/multiagent-runtime-v2/graph_engine.py:343-551 | After it wrote, it writes nothing more and no node can be leased. |
| `GraphLifecycle.OperationKeepsGood` | ops/multiagent-runtime-v2/graph_engine.py:257-551 | Any operation of the engine, cut short after any append, keeps the journal good. |
| `GraphLifecycle.EveryRunGood` | ops/multiagent-runtime-v2/graph_engine.py:257-551 | After every run of operations with a crash point each, mixed with other writers and lease recovery, the journal is good. |
| `GraphLifecycle.NoRunRejected` | ops/multiagent-runtime-v2/graph_engine.py:170-341 | In every such run `replay` and `replay_graph` never raise and `ready_nodes` never misses a task. |
| `GraphLifecycle.EveryRunCausal` | ops/multiagent-runtime-v2/graph_engine.py:323-438 | In every such run the causal order holds: a start follows the receipt and then the completion of every ancestor. |
| `GraphCrash.LeaseCrashRecovered` | ops/multiagent-runtime-v2/graph_engine.py:343-374 | A crash between the two appends of `lease_node` and then `reconcile` gives the journal of the uncrashed call up to actor and time, if worker and lease id are non-empty; otherwise `reconcile` cannot repair it and writes nothing. |
| `GraphCrash.ReceiptCrashRecovered` | ops/multiagent-runtime-v2/graph_engine.py:376-438 | After a crash behind the receipt, recorded in this call or an earlier one, `reconcile` writes nothing and a retry with the same receipt gives the journal of the uncrashed call up to actor and time. |
| `GraphCrash.CompletionCrashRecovered` | ops/multiagent-runtime-v2/graph_engine.py:376-438 | After a crash behind the task update, in a first call or in a retry whose receipt was already recorded, `reconcile` gives the journal of the uncrashed call up to actor and time. |
| `GraphCrash.LeaseCrashConverges` | ops/multiagent-runtime-v2/graph_engine.py:465-495 | Without assuming anything repaired before: reconciling the crashed and the uncrashed journal ends in the same tasks and the same graph. |
| `GraphCrash.CompletionCrashConverges` | ops/multiagent-runtime-v2/graph_engine.py:496-528 | The same for `complete_node` cut behind the task update. |
| `GraphCrash.ReceiptCrashConverges` | ops/multiagent-runtime-v2/graph_engine.py:376-438 | And for `complete_node` cut behind the receipt: `reconcile` and a retry end in the tasks and the graph of the whole call and `reconcile`. |
| `GraphCrash.CompletionStates` | ops/multiagent-runtime-v2/graph_engine.py:376-438 | The three events of `complete_node`, or two when its receipt was recorded before, and the tasks and the graph before and after the last of them. |
| `GraphCrash.LeaseRepair` | ops/multiagent-runtime-v2/graph_engine.py:477-495 | The exact repair of a cut lease: one start, or nothing when worker or lease id is empty. |
| `GraphCrash.CompletionRepair` | ops/multiagent-runtime-v2/graph_engine.py:496-520 | The exact repair of a cut completion: one node completion with the recorded receipt. |
| `GraphCrash.SettledStill` | ops/multiagent-runtime-v2/graph_engine.py:465-528 | Changes to one running node with a live lease give `reconcile` nothing to do. |
| `GraphCrash.CompleteReplayableIff` | ops/multiagent-runtime-v2/graph_engine.py:398-410 | `complete_node` does not compare a new receipt with a pending one: the journal it leaves is accepted by replay if and only if no other receipt is pending. |
| `GraphCrash.FailCrashNotRepaired` | ops/multiagent-runtime-v2/graph_engine.py:440-463 | A crash between the two appends of `fail_node` is repaired by no `reconcile`, which writes nothing about the node; a retry, before or after it, fails the task a second time and then the node. |
| `GraphDeadlock.NoDeadlock` | ops/multiagent-runtime-v2/graph_engine.py:323-341 | In a running graph that `reconcile` left, without failed or running nodes, `ready_nodes` is empty if and only if each node that could come next holds a lease without worker or lease id; as long as a node is left, one could come next. |
| `GraphDeadlock.SourceIsReady` | ops/multiagent-runtime-v2/graph_engine.py:323-341 | In such a graph a remaining node is ready if and only if none of its dependencies remains and it is not so held. |
| `GraphDeadlock.NamedLeasesShow` | ops/multiagent-runtime-v2/graph_engine.py:343-374 | If every lease event names a worker and a lease, so does every leased task. |
| `GraphDeadlock.NamedRunGoesOn` | ops/multiagent-runtime-v2/graph_engine.py:323-374 | In a run whose every `lease_node` names a worker and a lease, whatever its crashes, such a graph has a ready node as long as a node is left. |
| `GraphDeadlock.ReconciledTurn` | ops/multiagent-runtime-v2/graph_engine.py:465-528 | A `reconcile` that ran to its end leaves nothing to repair. |
| `GraphProgress.IdleHasReady` | ops/multiagent-runtime-v2/graph_engine.py:323-341 | An idle graph reports a ready node if and only if a node is left. |
| `GraphProgress.RestIsIdle` | ops/multiagent-runtime-v2/graph_engine.py:323-341 | A repaired running graph at rest without held leases is idle. |
| `GraphProgress.RoundAdvances` | ops/multiagent-runtime-v2/graph_mvp_runner.py:64-72 | Leasing and completing a ready node with its pass receipt removes exactly that node from the remaining ones and leaves an idle graph. |
| `GraphProgress.RoundsComplete` | ops/multiagent-runtime-v2/graph_engine.py:343-438 | Rounds on any ready nodes, by any workers at any times, each leave one node fewer and, while one is left, a ready one. |
| `GraphProgress.CreatedState` | ops/multiagent-runtime-v2/graph_engine.py:257-281 | A new graph is created with the nodes and the order of its definition, and each node has its waiting task. |
| `GraphProgress.StartedState` | ops/multiagent-runtime-v2/graph_engine.py:309-321 | Starting it makes it running and changes nothing else. |
| `GraphProgress.BegunIdle` | ops/multiagent-runtime-v2/graph_engine.py:257-321 | A graph just created and started is idle, with all its nodes left. |
| `GraphProgress.RoundsReachCompletion` | ops/multiagent-runtime-v2/graph_engine.py:257-551 | From a journal without the graph: create it, start it, lease and complete ready nodes in any order, by any workers, at any times. The rounds are at most as many as the nodes, another can begin while they are fewer, and after the last `maybe_complete_graph` completes the graph. |
| `RepairSteps.RepairPuts` | ops/multiagent-runtime-v2/graph_engine.py:477-520 | Each repair is a new event, never one found under an old key; without a mission or an actor it raises. |
| `RepairSteps.StartsFold` | ops/multiagent-runtime-v2/graph_engine.py:477-495 | The graph read again after the first loop is the one with the missing starts added. |
| `RepairSteps.CompletionsFold` | ops/multiagent-runtime-v2/graph_engine.py:496-528 | The graph read at the end is the one with the missing completions added. |
| `RepairSteps.SecondReading` | ops/multiagent-runtime-v2/graph_engine.py:496-520 | The graph read after the first loop is rejected if a start was written off a running graph; otherwise it shows the completions the first reading showed. |
| `MaterialSteps.NodeByNode` | ops/multiagent-runtime-v2/graph_engine.py:283-293 | The loop as a fold: what it did for the first nodes, and then the conflict, the cycle, nothing or the one creation for the next. |
| `MaterialSteps.MaterialOn` | ops/multiagent-runtime-v2/graph_engine.py:283-293 | What the loop wrote it keeps, and its first exception is its last. |
| `GraphAnswers.MaterialAnswers` | ops/multiagent-runtime-v2/graph_engine.py:283-293 | A task that is there must have the node's subject and dependencies, or the call is refused; a missing one is created if its dependencies exist. |
| `GraphLifecycle.Named` | ops/multiagent-runtime-v2/graph_engine.py:170-198 | A graph in a journal of enabled events, and each of its nodes, has a non-empty id. |
| `MaterialSteps.BackAndForth` | ops/multiagent-runtime-v2/graph_engine.py:295-307 | The definition rebuilt from a projection defines its nodes and dependencies, and is valid if and only if the graph is, whoever wrote the journal. |
| `GraphCalls.GraphEngine.ReadyNodes` | ops/multiagent-runtime-v2/graph_engine.py:323-341 | The loop over projection and tasks returns the specified list, or its exception. |
| `GraphCalls.GraphEngine.LeaseNode` | ops/multiagent-runtime-v2/graph_engine.py:343-374 | Writes what the plan says, cut at the crash, with the same exception. |
| `GraphCalls.GraphEngine.CompleteNode` | ops/multiagent-runtime-v2/graph_engine.py:376-438 | Writes what the plan says, cut at the crash, with the same exception; on success returns the replayed graph. |
| `GraphCalls.GraphEngine.FailNode` | ops/multiagent-runtime-v2/graph_engine.py:440-463 | As above for `fail_node`. |
| `GraphCalls.GraphEngine.Reconcile` | ops/multiagent-runtime-v2/graph_engine.py:465-528 | Writes both loops of repairs, cut at the crash, and reports exactly the started, completed and, sorted, the blocked nodes. |
| `GraphCalls.ReportedExactly` | ops/multiagent-runtime-v2/graph_engine.py:465-528 | The report in the fields: started and completed is what was due, blocked what lacked a named lease or a receipt. |
| `GraphCalls.GraphEngine.MaybeCompleteGraph` | ops/multiagent-runtime-v2/graph_engine.py:530-551 | Writes failure if a node failed, completion if all completed, else nothing, and returns the replayed graph. |
| `GraphCalls.GraphEngine.Materialize` | ops/multiagent-runtime-v2/graph_engine.py:283-293 | The loop of `create_task` calls in topological order, with its conflicts and cycles, cut at the crash, on any mission. |
| `GraphCalls.GraphEngine.CreateGraph` | ops/multiagent-runtime-v2/graph_engine.py:257-281 | Validation, one append and the tasks, as planned, on any mission; on success returns the replayed graph. |
| `GraphCalls.GraphEngine.StartGraph` | ops/multiagent-runtime-v2/graph_engine.py:309-321 | The missing tasks and then the start, as planned, on any mission; on success returns the replayed graph. |
| `PoolLog.ReplayPool` | ops/multiagent-runtime-v2/local_runtime_pool.py:33-65 | The replay loop computes the fold of the pool and its last version, and rejects exactly when the fold does. |
| `Replays.PoolReplayedExactly` | ops/multiagent-runtime-v2/local_runtime_pool.py:33-66 | One more event of the pool is accepted if and only if its target is positive, a slot is taken in a configured pool by a run that gave back all it took, or given back by one that has one. |
| `PoolRules.SlotsSuffice` | ops/multiagent-runtime-v2/local_runtime_pool.py:112-142 | With fewer active runs than slots the search for the lowest free slot succeeds, also after shrinking; the slot is free and every lower one is used. |
| `PoolRules.EnabledKeepsPool` | ops/multiagent-runtime-v2/local_runtime_pool.py:33-65 | Every event the pool may write is accepted by replay and keeps active runs at most the target, with distinct slots. |
| `PoolRules.LawfulPool` | ops/multiagent-runtime-v2/local_runtime_pool.py:33-65 | A journal of allowed pool events is accepted by replay, with the invariant. |
| `PoolRules.ActiveByKeys` | ops/multiagent-runtime-v2/local_runtime_pool.py:112-158 | A run is active exactly when its acquisition key is used and its release key is not. |
| `PoolRules.ReleasedForGood` | ops/multiagent-runtime-v2/local_runtime_pool.py:112-158 | A released run is active in no later journal, and acquiring it again writes nothing and raises. |
| `PoolRules.ConfigureIsNew` | ops/multiagent-runtime-v2/local_runtime_pool.py:81-95 | The version in the key makes every configuration a new event. |
| `PoolRules.TeamSize` | ops/multiagent-runtime-v2/runtime_metrics.py:158-207 | The recommended size is between one and eight and within the limit; above four needs a full success rate, no retry and tool calls, and a failing or starved run gets one. |
| `PoolRules.TargetWritten` | ops/multiagent-runtime-v2/local_runtime_pool.py:81-95 | A target of at least one and of the active runs is always written. |
| `PoolRules.RecommendationWritten` | ops/multiagent-runtime-v2/local_runtime_pool.py:97-110 | Whatever the metrics and the limit, the target taken from the recommendation is never refused and always written. |
| `PoolAnswers.TeamExactly` | ops/multiagent-runtime-v2/runtime_metrics.py:158-207 | The policy's table: the size recommended for each pressure, cut to the limit. |
| `PoolAnswers.PressureShrinks` | ops/multiagent-runtime-v2/runtime_metrics.py:158-207 | More pressure never recommends more workers. |
| `PoolAnswers.ConfigureAnswers` | ops/multiagent-runtime-v2/local_runtime_pool.py:81-95 | A target below one or below the active runs is refused, each with its exception; any other is written. |
| `PoolAnswers.AcquireAnswers` | ops/multiagent-runtime-v2/local_runtime_pool.py:112-142 | Every answer of `acquire`: unconfigured, active for the same or for another task or worker, full, used up, or the lowest slot no active run has. |
| `PoolAnswers.ReleaseAnswers` | ops/multiagent-runtime-v2/local_runtime_pool.py:144-158 | A run that is not active is refused, any other is released. |
| `PoolAnswers.UnreadablePool` | ops/multiagent-runtime-v2/local_runtime_pool.py:81-158 | No call gets past a pool whose events do not replay. |
| `PoolAnswers.TakenAndGivenBack` | ops/multiagent-runtime-v2/local_runtime_pool.py:112-158 | Acquire, acquire again and release: the run holds a slot nobody had, the repetition changes nothing, the pool ends as it was, and the run never gets a slot again. |
| `PoolRules.EveryPoolRun` | ops/multiagent-runtime-v2/local_runtime_pool.py:81-158 | After every run of configure, acquire and release with crashes and other writers: replay succeeds, active runs are at most the target, slots are distinct, and keys tell who is active. |
| `PoolCalls.LocalRuntimePool.Configure` | ops/multiagent-runtime-v2/local_runtime_pool.py:81-95 | Writes the configuration or raises, as planned; on success returns the replayed pool. |
| `PoolCalls.LocalRuntimePool.ConfigureFromMetrics` | ops/multiagent-runtime-v2/local_runtime_pool.py:97-110 | Configures the size recommended for the metrics or the active count, whichever is more. |
| `PoolCalls.LocalRuntimePool.Acquire` | ops/multiagent-runtime-v2/local_runtime_pool.py:112-142 | Writes the acquisition of the lowest free slot, repeats or raises as planned; on success the returned slot is the one the run holds. |
| `PoolCalls.LocalRuntimePool.LowestFree` | ops/multiagent-runtime-v2/local_runtime_pool.py:126-127 | The search loop returns the least number no active run uses. |
| `PoolCalls.LocalRuntimePool.Release` | ops/multiagent-runtime-v2/local_runtime_pool.py:144-158 | Writes the release of an active run, or raises; on success returns the replayed pool. |
| `Scheduling.AcquireSound` | ops/multiagent-runtime-v2/graph_scheduler.py:49-59 | An acquisition that does not raise leaves the run active, in the lowest free slot if it was new, and touches neither tasks nor graph. |
| `Scheduling.LeaseSound` | ops/multiagent-runtime-v2/graph_scheduler.py:61-71 | A lease attempt on any sound journal leaves a sound journal, whatever it ends with. |
| `Scheduling.LeaseKeepsOthersReady` | ops/multiagent-runtime-v2/graph_engine.py:323-374 | Leasing one ready node leaves every other ready node ready. |
| `Scheduling.DispatchExact` | ops/multiagent-runtime-v2/graph_scheduler.py:31-83 | Dispatching offers of distinct ready nodes under new run ids takes exactly the first min(offers, free slots), three events each, in distinct slots, and leaves the rest ready. |
| `Scheduling.DispatchReadyExact` | ops/multiagent-runtime-v2/graph_scheduler.py:31-83 | `dispatch_ready` assigns exactly the first min(ready, workers, free slots) ready nodes to the first workers, in distinct slots. |
| `DispatchAnswers.DispatchRefused` | ops/multiagent-runtime-v2/graph_scheduler.py:39-47 | A time that is not positive is refused, no named worker or no ready node ends the call at once, and an unreadable graph raises. |
| `DispatchAnswers.NamedMembers` | ops/multiagent-runtime-v2/graph_scheduler.py:42-44 | Of the workers those without a name are left out, and no other. |
| `DispatchAnswers.OfferEnds` | ops/multiagent-runtime-v2/graph_scheduler.py:49-71 | A full pool ends the dispatch without an exception, any other exception of the pool is raised, and that of the lease is raised once the slot was given back. |
| `Scheduling.CompensationRestoresIff` | ops/multiagent-runtime-v2/graph_scheduler.py:61-71 | When the lease fails, the compensating release leaves the active runs as they were if and only if the run was not active before. |
| `Scheduling.SecondDispatcher` | ops/multiagent-runtime-v2/graph_scheduler.py:42-71 | Two dispatchers read the same ready node and offer it to the same worker: the second gets the first one's slot, its lease is refused, and its compensating release gives that slot away while the node runs. |
| `SchedulerCalls.GraphScheduler.TakeOffer` | ops/multiagent-runtime-v2/graph_scheduler.py:49-82 | One turn of the loop: acquire, lease, give the slot back on failure, stop on backpressure. |
| `SchedulerCalls.GraphScheduler.DispatchReady` | ops/multiagent-runtime-v2/graph_scheduler.py:31-83 | The loop writes what the specified dispatch writes, cut at the crash, and returns its assignments. |
| `SchedulerCalls.GraphScheduler.ReleaseAssignment` | ops/multiagent-runtime-v2/graph_scheduler.py:85-86 | Releases the run of the assignment. |
| `Shortfalls.HeldLease` | ops/multiagent-runtime-v2/graph_engine.py:477-487 | A run of four operations, the third a `lease_node` without a worker that dies between its events, the fourth a `reconcile`: the graph runs, is repaired and at rest, has a node left, and no node is ready. |
| `Shortfalls.SecondReceipt` | ops/multiagent-runtime-v2/graph_engine.py:398-410 | A run whose `complete_node` dies behind the receipt: called again with another receipt it leaves a journal that `replay_graph` rejects. |
| `Shortfalls.HalfFailed` | ops/multiagent-runtime-v2/graph_engine.py:440-463 | A run whose `fail_node` dies between its events: `reconcile` writes nothing, the node stays running with a failed task, and a retry fails the task again. |
| `Shortfalls.StartOffRunning` | ops/multiagent-runtime-v2/graph_engine.py:477-494 | A run in which the graph fails while another node lacks its start: `reconcile` writes the start, and `replay_graph` rejects the journal. |
| `Shortfalls.ActiveResumed` | ops/multiagent-runtime-v2/runtime.py:870-887 | A run that creates a session and resumes it at once: the journal is rejected. |
| `Shortfalls.SlotGivenAway` | ops/multiagent-runtime-v2/graph_scheduler.py:42-71 | A run that ends with one ready node and one slot: after two dispatchers offered the node, no run is active and the node runs. |
| `LoopLog.ReplayLoop` | ops/multiagent-runtime-v2/loop_controller.py:54-120 | The replay loop computes the fold of the bounded loop and rejects exactly when the fold does. |
| `Replays.LoopReplayedExactly` | ops/multiagent-runtime-v2/loop_controller.py:54-120 | One more event of the loop is accepted if and only if the loop was created once and has not ended, iterations are numbered on, and each was failed and repaired before the next, or passes with evidence. |
| `LoopRules.LawfulLoop` | ops/multiagent-runtime-v2/loop_controller.py:54-120 | A journal of allowed loop events is accepted by replay, with the bounds on iterations, units and events. |
| `LoopRules.TerminalAbsorbs` | ops/multiagent-runtime-v2/loop_controller.py:54-120 | A completed or exhausted loop never changes again and gets no further event. |
| `LoopRules.LoopCallKeeps` | ops/multiagent-runtime-v2/loop_controller.py:132-242 | Every call of the controller, cut after any of its appends, keeps the loop good. |
| `LoopRules.EveryLoopRun` | ops/multiagent-runtime-v2/loop_controller.py:132-242 | For every call sequence, clock and crash: replay succeeds, iteration <= max_iterations, iteration <= used units <= budget when set, and at most 3*max_iterations+2 events. |
| `LoopLimits.LimitsEnforced` | ops/multiagent-runtime-v2/loop_controller.py:148-162 | `_enforce_limits` in the fields: it passes exactly while the loop is active, its time is not over, its last iteration is not behind it and the cost fits; otherwise it raises, exhausting an active loop for the first limit reached. |
| `LoopLimits.StepAnswers` | ops/multiagent-runtime-v2/loop_controller.py:164-230 | Every answer of the four steps: improper arguments, the limits, the wrong phase, or exactly the events of the step. |
| `LoopLimits.UnreadableLoop` | ops/multiagent-runtime-v2/loop_controller.py:164-230 | No step gets past a loop whose events do not replay. |
| `LoopLimits.CreateAnswers` | ops/multiagent-runtime-v2/loop_controller.py:132-146 | Every answer of `create`: an improper policy, a new loop, the same again, or a conflict. |
| `LoopLimits.EveryWriteTimely` | ops/multiagent-runtime-v2/loop_controller.py:148-230 | In every run, whatever a call writes about the loop was in time when the call read the clock, and the loop is exhausted for the timeout exactly when it was not. |
| `LoopLimits.LoopAccounts` | ops/multiagent-runtime-v2/loop_controller.py:54-120 | Units are the sum of the costs, the iteration counts the iterations, and the evidence is all that was recorded, in order. |
| `LoopCalls.BoundedLoopController.Create` | ops/multiagent-runtime-v2/loop_controller.py:132-146 | Validates the policy and writes the creation, as planned. |
| `LoopCalls.BoundedLoopController.EnforceLimits` | ops/multiagent-runtime-v2/loop_controller.py:148-162 | Passes exactly while the loop is active, the clock is within its time, its last iteration is not behind it and the cost fits; otherwise exhausts with the matching reason and raises. |
| `LoopCalls.BoundedLoopController.BeginIteration` | ops/multiagent-runtime-v2/loop_controller.py:164-179 | Checks the limits and the phase and writes the iteration, as planned. |
| `LoopCalls.BoundedLoopController.ValidationFailed` | ops/multiagent-runtime-v2/loop_controller.py:181-198 | Writes the failure and, at the last iteration, the exhaustion; a crash may fall between the two. |
| `LoopCalls.BoundedLoopController.RepairCompleted` | ops/multiagent-runtime-v2/loop_controller.py:200-214 | Writes the repair, as planned. |
| `LoopCalls.BoundedLoopController.ValidationPassed` | ops/multiagent-runtime-v2/loop_controller.py:216-230 | Needs evidence and an executing iteration, and writes the completion. |
| `LoopCalls.BoundedLoopController.Exhaust` | ops/multiagent-runtime-v2/loop_controller.py:232-242 | Writes the exhaustion of an active loop, and nothing otherwise. |
| `Recovery.ExportEvents` | ops/multiagent-runtime-v2/recovery_bundle.py:21-27 | Exports one line per event, after a replay. |
| `Recovery.LoadExport` | ops/multiagent-runtime-v2/recovery_bundle.py:29-42 | Returns the events of the rows, in their order, if and only if no line is garbled, every row is intact and they replay; otherwise raises an integrity error. |
| `Recovery.ExportLoads` | ops/multiagent-runtime-v2/recovery_bundle.py:21-42 | Loading an export gives back the exported journal. |
| `Recovery.InsertRows` | ops/multiagent-runtime-v2/recovery_bundle.py:51-60 | The inserts succeed exactly when no idempotency key repeats. |
| `Recovery.ImportEvents` | ops/multiagent-runtime-v2/recovery_bundle.py:44-67 | All or nothing: the tables are those of the import, or unchanged with the exception; a damaged line or a journal that does not replay leaves every table as it was. |
| `Recovery.ImportAgrees` | ops/multiagent-runtime-v2/recovery_bundle.py:44-67 | Whatever file is imported, the imported tables agree with their replay: next number, heads and journal. |
| `Recovery.LoadedExactly` | ops/multiagent-runtime-v2/recovery_bundle.py:29-42 | The same condition of the specified loading. |
| `Recovery.ImportedExactly` | ops/multiagent-runtime-v2/recovery_bundle.py:44-67 | Every answer of an import that loads: mixed missions, a mission that is there, a repeated key, or the events, the next number and the heads of the file. |
| `Recovery.RoundTrip` | ops/multiagent-runtime-v2/recovery_bundle.py:21-67 | Export then import into a store without the mission gives the same journal, next number and heads, and leaves other missions alone. |
| `Recovery.Bisimilar` | ops/multiagent-runtime-v2/runtime.py:95-298 | Two stores with the same rows of a mission answer every sequence of calls alike and keep the same rows. |
| `Recovery.SameAnswer` | ops/multiagent-runtime-v2/runtime.py:95-298 | One call on such stores gives the same result, or the same conflict. |
| `Recovery.ImportedBehavesAlike` | ops/multiagent-runtime-v2/recovery_bundle.py:44-67 | So every sequence of calls on the imported mission answers as on the source. |
| `Sweep.PeakConcurrency` | ops/multiagent-runtime-v2/graph_mvp_runner.py:38-47 | The scan over the sorted points returns the largest running count; with start <= end this is the maximum over all times of the closed intervals that contain the time, and some time attains it. |
| `Sweep.PeakOfEvidence` | ops/multiagent-runtime-v2/runtime_metrics.py:129-136 | The same for evidence, of which only rows with both times count. |
| `Sweep.SweepIsPeak` | ops/multiagent-runtime-v2/graph_mvp_runner.py:38-47 | The largest prefix sum is that maximum, and no running count is negative. |
| `Sweep.PrefixBounds` | ops/multiagent-runtime-v2/graph_mvp_runner.py:38-47 | After each point the running count is between zero and the number of intervals that contain the time of the point. |
| `Sweep.Balance` | ops/multiagent-runtime-v2/graph_mvp_runner.py:38-47 | The intervals that contain a time are the starts up to it less the ends before it. |
| `Sweep.HighestIsMax` | ops/multiagent-runtime-v2/graph_mvp_runner.py:41-47 | The scan returns a bound of all prefix sums that one of them attains. |
| `History.HistoryLog.ReadRows` | ops/multiagent-runtime-v2/live_history.py:59-70 | Parses the lines in order and raises on the first that does not parse. |
| `History.HistoryLog.Append` | ops/multiagent-runtime-v2/live_history.py:72-106 | A known key of the mission returns the old event or is a conflict, else one line chained to the last event of the mission. |
| `History.HistoryLog.Filtered` | ops/multiagent-runtime-v2/live_history.py:108-114 | The rows of one mission, in order. |
| `History.HistoryLog.Replay` | ops/multiagent-runtime-v2/live_history.py:108-130 | Returns the rows of the mission exactly when numbers, chain, digests and keys are right. |
| `History.HistoryLog.Project` | ops/multiagent-runtime-v2/live_history.py:132-140 | Count, head and events are those of the replay. |
| `History.ReplayExactly` | ops/multiagent-runtime-v2/live_history.py:108-130 | In the fields: a replay succeeds exactly when every line parses and the k-th row of the mission is numbered k + 1, carries its own hash and the one before it, and a key of its own. |
| `History.AppendedTwice` | ops/multiagent-runtime-v2/live_history.py:72-106 | A key appended before: the same actor, kind, text and evidence are answered with the event of then, anything else is a conflict, and neither writes. |
| `History.AppendedFirst` | ops/multiagent-runtime-v2/live_history.py:72-106 | A new key: one line with the content of the request, numbered and chained on; a file that does not parse is refused as it is. |
| `History.AppendKeeps` | ops/multiagent-runtime-v2/live_history.py:72-106 | An append keeps the log sound, only extends the file, and adds at most one event, to its own mission. |
| `History.BuiltReplays` | ops/multiagent-runtime-v2/live_history.py:72-130 | Any file built by appends, missions interleaved, replays per mission to exactly the events appended, in order. |
| `History.HeadDeterminesLog` | ops/multiagent-runtime-v2/live_history.py:108-140 | Two chained logs with the same head hold the same events. |
| `History.SameHeadSameHistory` | ops/multiagent-runtime-v2/live_history.py:108-140 | Two files whose replays of a mission succeed with the same chain head replay to the same events. |
| `Binding.StepKeeps` | apps/rede-social-agentes/apps/server/src/human-authority-bootstrap/postgres-human-authority-bootstrap.repository.ts:66-296 | Every transaction keeps at most one active intent per target and the digests of each phase, removes no row, and moves every row to the next phase or a sink only. |
| `Binding.EveryRunSound` | apps/rede-social-agentes/apps/server/src/human-authority-bootstrap/postgres-human-authority-bootstrap.repository.ts:66-296 | In every reachable table at most one intent per target is active, whatever the clocks. |
| `Binding.PhasesAdvance` | apps/rede-social-agentes/apps/server/src/human-authority-bootstrap/postgres-human-authority-bootstrap.repository.ts:66-296 | The phase rank of a row never decreases. |
| `Binding.VerifiedInOrder` | apps/rede-social-agentes/apps/server/src/human-authority-bootstrap/postgres-human-authority-bootstrap.repository.ts:180-271 | A verified row was provider-applied, then verifying, at earlier times, and carries both digests. |
| `Binding.ClaimWasDrawn` | apps/rede-social-agentes/apps/server/src/human-authority-bootstrap/postgres-human-authority-bootstrap.repository.ts:133-178 | A claim on a row was put there by an earlier claim call for that row. |
| `Binding.LostForGood` | apps/rede-social-agentes/apps/server/src/human-authority-bootstrap/postgres-human-authority-bootstrap.repository.ts:133-296 | A claim that was superseded, released or finalized is on no row again. |
| `Binding.Fenced` | apps/rede-social-agentes/apps/server/src/human-authority-bootstrap/postgres-human-authority-bootstrap.repository.ts:180-296 | A call with such a claim is refused and changes nothing, whatever the clocks. |
| `BindingTimes.ClaimLasts` | apps/rede-social-agentes/apps/server/src/human-authority-bootstrap/postgres-human-authority-bootstrap.repository.ts:133-178 | After a granted claim another is granted exactly from its end on, and before the end of the intent. |
| `BindingTimes.HolderHeard` | apps/rede-social-agentes/apps/server/src/human-authority-bootstrap/postgres-human-authority-bootstrap.repository.ts:180-298 | Until then the holder's call is granted exactly in the phase that is due. |
| `BindingTimes.RanOut` | apps/rede-social-agentes/apps/server/src/human-authority-bootstrap/postgres-human-authority-bootstrap.repository.ts:66-178 | An intent that ran out is failed by a claim or a reservation of its target, and every other call leaves the table alone. |
| `BindingTimes.ReservedExactly` | apps/rede-social-agentes/apps/server/src/human-authority-bootstrap/postgres-human-authority-bootstrap.repository.ts:88-131 | A reservation row by row: what ran out fails, and the intent is written exactly when no active one lasts and the reference is new. |
| `BindingTimes.LifeOfIntent` | apps/rede-social-agentes/apps/server/src/human-authority-bootstrap/postgres-human-authority-bootstrap.repository.ts:88-298 | One intent from its reservation to each phase and each end: its row, in all fields. |
| `BindingCalls.IntentRepository.ExpireIntent` | apps/rede-social-agentes/apps/server/src/human-authority-bootstrap/postgres-human-authority-bootstrap.repository.ts:66-80 | An active intent past its expiry fails and loses its claim; any other row stays. |
| `BindingCalls.IntentRepository.ReserveIntent` | apps/rede-social-agentes/apps/server/src/human-authority-bootstrap/postgres-human-authority-bootstrap.repository.ts:88-131 | Expires the target first, returns the active intent if there is one, inserts otherwise, and fails as a whole when the reference is taken. |
| `BindingCalls.IntentRepository.ClaimIntent` | apps/rede-social-agentes/apps/server/src/human-authority-bootstrap/postgres-human-authority-bootstrap.repository.ts:133-178 | Given exactly to a pending row or one whose claim ran out; an expired intent is failed instead. |
| `BindingCalls.IntentRepository.MarkProviderApplied` | apps/rede-social-agentes/apps/server/src/human-authority-bootstrap/postgres-human-authority-bootstrap.repository.ts:180-200 | Given exactly to the live claim of an applying row. |
| `BindingCalls.IntentRepository.MarkReconciliationRequired` | apps/rede-social-agentes/apps/server/src/human-authority-bootstrap/postgres-human-authority-bootstrap.repository.ts:202-230 | Given exactly to the live claim of a working row, which it releases. |
| `BindingCalls.IntentRepository.MarkVerifyingStarted` | apps/rede-social-agentes/apps/server/src/human-authority-bootstrap/postgres-human-authority-bootstrap.repository.ts:232-249 | Given exactly to the live claim of a provider-applied row. |
| `BindingCalls.IntentRepository.MarkRuntimeVerified` | apps/rede-social-agentes/apps/server/src/human-authority-bootstrap/postgres-human-authority-bootstrap.repository.ts:251-271 | Given exactly to the live claim of a verifying row. |
| `BindingCalls.IntentRepository.FinalizeIntent` | apps/rede-social-agentes/apps/server/src/human-authority-bootstrap/postgres-human-authority-bootstrap.repository.ts:273-298 | Given exactly to the live claim of a working row, for a conflict or a failure, and releases the claim. |
| `BindingCalls.ControlPlaneRun.Run` | apps/rede-social-agentes/apps/server/src/human-authority-bootstrap/human-authority-bootstrap.control-plane.ts:54-190 | The branching client, with other callers between its posts and a crash before any: each outcome it reports is the state of the row with its digest and reason, a verified one under its own claim, a conflict only if the row was pending or applying, and none after the claim ran out by its own clock. |
| `ControlPlane.PostSound` | apps/rede-social-agentes/apps/server/src/human-authority-bootstrap/human-authority-bootstrap.control-plane.ts:101-180 | A granted post keeps a run on a course whose report will be true. |
| `ControlPlane.ClaimSound` | apps/rede-social-agentes/apps/server/src/human-authority-bootstrap/human-authority-bootstrap.control-plane.ts:54-76 | A granted claim tells the run the state the row has. |
| `ControlPlane.SystemSound` | apps/rede-social-agentes/apps/server/src/human-authority-bootstrap/human-authority-bootstrap.control-plane.ts:54-190 | The table is sound in every state of the system of clients. |
| `ControlPlane.EveryReportTruthful` | apps/rede-social-agentes/apps/server/src/human-authority-bootstrap/human-authority-bootstrap.control-plane.ts:54-190 | Any number of runs, interleaved, crashed and reclaimed: each report names a state its claim held, or moved the row to; a conflict only from APPLYING. |
| `ControlPlane.VerifiedReportBacked` | apps/rede-social-agentes/apps/server/src/human-authority-bootstrap/human-authority-bootstrap.control-plane.ts:154-190 | A run that reports RUNTIME_VERIFIED held the claim while the row was RUNTIME_VERIFIED, with both digests set. |
| `ControlPlane.UndisturbedRun` | apps/rede-social-agentes/apps/server/src/human-authority-bootstrap/human-authority-bootstrap.control-plane.ts:77-190 | A run with its claim in hand that is left alone is never refused, and ends in RUNTIME_VERIFIED, in a conflict if nothing was applied yet, or in the reconciliation with its reason, by what the provider shows. |
| `ControlPlane.ClaimTaken` | apps/rede-social-agentes/apps/server/src/human-authority-bootstrap/human-authority-bootstrap.control-plane.ts:54-66 | A run goes on exactly when its claim was granted and neither intent nor claim ran out by its own clock. |
| `EventStream.ReadExact` | apps/webagent-mcp/src/browser-events.ts:100-103 | A read is the first matching events in order, at most the limit, and leaves out a match only when the limit is reached. |
| `EventStream.ReadOfWindow` | apps/webagent-mcp/src/browser-events.ts:100-103 | A read of the retained window stays in it and skips no match below its last event. |
| `EventStream.ReadInFields` | apps/webagent-mcp/src/browser-events.ts:61-103 | A read in the fields of the query: events after the number and of the types, at most twenty, or as many as asked between one and a hundred. |
| `EventStream.WindowAscending` | apps/webagent-mcp/src/browser-events.ts:74-89 | The window holds exactly the events numbered above the last number less the limit, in order. |
| `EventStream.OnlyTheNew` | apps/webagent-mcp/src/browser-events.ts:74-98 | For a waiter with no retained match, a read after a record gives the new event or nothing. |
| `EventStream.WaitersSee` | apps/webagent-mcp/src/browser-events.ts:90-97 | So after a record each waiter is answered exactly if the new event matches: no lost wake-up. |
| `EventStream.Deliver` | apps/webagent-mcp/src/browser-events.ts:90-97 | Answering a waiter keeps that every waiter was answered at most once and none is both answered and waiting. |
| `EventStream.CursorReads` | apps/webagent-mcp/src/browser-events.ts:100-107 | Reads driven by the cursor, between any records, deliver each matching event in order and at most once; what was not delivered had been evicted before its read. |
| `EventStream.BrowserEventStream.Record` | apps/webagent-mcp/src/browser-events.ts:74-98 | Numbers the event, keeps the last min(seq, limit), and answers exactly the waiters it matches, with that event. |
| `EventStream.BrowserEventStream.ReadNow` | apps/webagent-mcp/src/browser-events.ts:100-103 | Returns the specified read. |
| `EventStream.BrowserEventStream.Cursor` | apps/webagent-mcp/src/browser-events.ts:105-107 | Returns the number of events recorded. |
| `EventStream.BrowserEventStream.Wait` | apps/webagent-mcp/src/browser-events.ts:109-123 | Returns at once exactly when something matches, else registers a waiter. |
| `EventStream.BrowserEventStream.TimeOut` | apps/webagent-mcp/src/browser-events.ts:115-119 | Removes the waiter and answers it with nothing, once. |
| `EventStream.BrowserEventStream.Close` | apps/webagent-mcp/src/browser-events.ts:125-131 | Answers every waiter once with nothing and leaves none. |
| `Ordering.SortedUnique` | apps/rede-social-agentes/apps/server/src/mcf-context/truth-contract.ts:384-400 | Duplicates removed and sorted. |
| `Truth.Metadata` | apps/rede-social-agentes/apps/server/src/mcf-context/truth-contract.ts:384-400 | Owners and sources of a conflict are the sorted sets of the group. |
| `Truth.GroupByKey` | apps/rede-social-agentes/apps/server/src/mcf-context/truth-contract.ts:406-411 | The map holds, for each key, its claims in order. |
| `Truth.DecideKey` | apps/rede-social-agentes/apps/server/src/mcf-context/truth-contract.ts:427-476 | The decision for one key: agreement, the authority that wins, or the conflict with its reason. |
| `Truth.ReconcileTruthClaims` | apps/rede-social-agentes/apps/server/src/mcf-context/truth-contract.ts:402-493 | The loops compute the specified reconciliation. |
| `Truth.TallyAlike` | apps/rede-social-agentes/apps/server/src/mcf-context/truth-contract.ts:402-493 | Two inputs with the same claims give the same conflicts and resolutions and the same accepted claims up to order. |
| `Truth.OrderIrrelevant` | apps/rede-social-agentes/apps/server/src/mcf-context/truth-contract.ts:402-493 | Outcome, conflicts and resolutions do not depend on the order of the input; the accepted claims agree as a multiset and in every field the sort compares. |
| `Truth.AcceptedCovers` | apps/rede-social-agentes/apps/server/src/mcf-context/truth-contract.ts:402-493 | An accepted result is drawn from the input, covers every key, and has one value per key. |
| `Authority.AuthorityDecides` | apps/rede-social-agentes/apps/server/src/mcf-context/truth-contract.ts:427-476 | An accepted result, said of claims and rules: an agreed key keeps all its claims; a key with two values has exactly one rule, accepted are exactly the claims of its owner and kind, and its one resolution names the owner, the least of their sources and the sources of the others. |
| `Authority.RequiredExactly` | apps/rede-social-agentes/apps/server/src/mcf-context/truth-contract.ts:427-484 | Reconciliation is required exactly when some key with two values has no rule, several rules, no claim of its authority, or an authority that disagrees; each such key is reported once, in order, with that reason, its owners and its sources. |
| `Authority.AcceptedInOrder` | apps/rede-social-agentes/apps/server/src/mcf-context/truth-contract.ts:370-492 | Accepted claims come by key, owner, source and value text, resolutions by key. |
| `Truth.GroupedInOrder` | apps/rede-social-agentes/apps/server/src/mcf-context/truth-contract.ts:370-382 | Grouping a sorted list by sorted key gives the list back. |
| `Truth.ResolutionsInOrder` | apps/rede-social-agentes/apps/server/src/mcf-context/truth-contract.ts:427-492 | Resolutions come in the order of the keys, at most one per key. |
| `Truth.ReconcileIdempotent` | apps/rede-social-agentes/apps/server/src/mcf-context/truth-contract.ts:402-493 | Reconciling the accepted claims again, under any rules, returns them unchanged with no resolution. |

## Left out

Runtime and store:

- Idempotency keys and task ids are structured values. The source joins ids with colons, which is injective only for ids without colons.
- SHA-256 and canonical JSON bytes: a digest is an injective function of what it digests, and the shortened digest inside an update key is taken to be injective too.
- Event ids, correlation and causation ids, trace fields and the schema version of an event.
- SQLite, file locks, fsync and process spawning: each store call is one atomic step that happens or does not.
- Interleaving inside operations of the graph engine, which the code does not guard: operations run one after the other, and only crashes cut them. `LocalRuntimePool.configure`, which takes no lock, is one operation as well.
- Python's recursion limit in the depth-first searches.
- RuntimeCalls.MissionRuntime.UpdateTask: the changes are the six fields that replay reads; `**changes` in the source may also override `revision` or add fields.
- Resource-usage dictionaries and other free-form payload of agent, execution and tool records.
- The exceptions raised by `replay_pool` and `replay_loop` have names of their own here, apart from those of the pool and loop calls.

Graph engine:

- GraphProgress.RoundsReachCompletion: a node is completed before the next is leased; a node left running by an expired lease with its task blocked is moved only by `fail_node`.

Pool, scheduler, loop, recovery:

- How `runtime_metrics.py` takes its figures, percentiles and rates from the evidence: they enter as given, and the policy reads them.
- Scheduling.DispatchReadyExact: lease ids are given in advance, one per worker, in place of fresh random ones.
- Clocks are parameters, and time is real-valued.
- Recovery.LoadExport: a line is a record with one flag for its digest; text, JSON and `splitlines` are not modelled, nor are capsules and resume plans.

Binding and control plane:

- Audit rows, HTTP, OIDC, JWE decryption, schema parsing and the provider client, which is reduced to its three observations.
- BindingCalls.IntentRepository.ReserveIntent: which row `order by created_at` picks is not modelled, since at most one is active.
- BindingCalls.ControlPlaneRun.Run: the checks of the decrypted binding are one answer given to the run, and any failing one ends it.
- Binding.Fenced: claim references are never drawn twice, as the source's random ones.

Smaller cores:

- Sweep.SweepIsPeak: intervals with start after end are outside the statement; the scan itself is specified on all input.
- History.HistoryLog.Append: a line cut in the middle by a power failure is outside the model, and evidence is a map of text.
- EventStream.BrowserEventStream.Record: URL cleaning and the data payload are opaque values, and a timer fires at any moment as a call of its own.
- Truth.OrderIrrelevant: claims that the sort does not tell apart may come in either order in the accepted list.
- Truth.ReconcileTruthClaims: a value is a pair of its identity and its canonical text, and text is ordered by character code.
- The normalisation of registry and capsule claims, freshness, and derived claims.

Not modelled at all: `executor_worker.py`, `cognitive_executor.py`, `capability_tokens.py`,
`workspace_guard.py`, `adversarial_auditor.py`, feed and comment pagination, web controllers, MCP
servers, browser automation, the user interface, and configuration.
