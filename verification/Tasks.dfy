/** The tasks of a mission: the part of `replay` that folds task events, with its dependency
    check, and what the idempotency keys of task events reveal. */
module Tasks {
  import opened Base
  import opened Digraph
  import opened Journal

  datatype TaskState = TaskState(
    revision: int, status: TaskStatus, subject: string, blockedBy: seq<TaskId>,
    owner: Option<string>, lease: Option<string>, leaseUntil: Option<real>)

  type TaskMap = map<TaskId, TaskState>

  /** `order` is the insertion order of the dictionary `tasks`. */
  datatype TaskView = TaskView(tasks: TaskMap, order: seq<TaskId>)

  const NO_TASKS := TaskView(map[], [])

  function Deps(tasks: TaskMap): map<TaskId, seq<TaskId>> {
    map t | t in tasks :: tasks[t].blockedBy
  }

  /** What `_detect_cycle` demands. */
  ghost predicate DepsSound(tasks: TaskMap) {
    Closed(Deps(tasks)) && Acyclic(Deps(tasks))
  }

  function Revisions(tasks: TaskMap): map<TaskId, int> {
    map t | t in tasks :: tasks[t].revision
  }

  function NewTask(subject: string, blockedBy: seq<TaskId>): TaskState {
    TaskState(1, TaskPending, subject, blockedBy, None, None, None)
  }

  function Change(t: TaskState, revision: int, c: Changes): TaskState {
    TaskState(
      revision,
      if c.status.Some? then c.status.value else t.status,
      if c.subject.Some? then c.subject.value else t.subject,
      if c.blockedBy.Some? then c.blockedBy.value else t.blockedBy,
      if c.owner.Some? then c.owner.value else t.owner,
      if c.lease.Some? then c.lease.value else t.lease,
      if c.leaseUntil.Some? then c.leaseUntil.value else t.leaseUntil)
  }

  /** A task event, all checks but the dependency check. */
  function ApplyTask(v: TaskView, f: TaskFact): Result<TaskView> {
    match f
    case TaskCreated(t, subject, blockedBy) =>
      if t in v.tasks then Failure(ReplayRejected)
      else Success(TaskView(v.tasks[t := NewTask(subject, blockedBy)], v.order + [t]))
    case TaskUpdated(t, revision, changes) =>
      if t !in v.tasks || revision != v.tasks[t].revision + 1 then Failure(ReplayRejected)
      else Success(TaskView(v.tasks[t := Change(v.tasks[t], revision, changes)], v.order))
  }

  ghost function TaskStep(v: TaskView, b: Body): Result<TaskView> {
    if !b.Task? then Success(v)
    else
      var w :- ApplyTask(v, b.taskFact);
      if DepsSound(w.tasks) then Success(w) else Failure(ReplayRejected)
  }

  ghost function TaskFold(j: seq<Event>): Result<TaskView> {
    if j == [] then Success(NO_TASKS)
    else
      var v :- TaskFold(j[..|j| - 1]);
      TaskStep(v, j[|j| - 1].body)
  }

  lemma TaskFoldAppend(j: seq<Event>, e: Event)
    ensures TaskFold(j + [e]) ==
      if TaskFold(j).Failure? then Failure(TaskFold(j).error) else TaskStep(TaskFold(j).value, e.body)
  {
    assert (j + [e])[..|j|] == j;
  }

  /** A rejected prefix is never forgiven. */
  lemma {:induction false} TaskFoldPrefix(j: seq<Event>, k: nat)
    requires k <= |j| && TaskFold(j).Success?
    ensures TaskFold(j[..k]).Success?
    decreases |j|
  {
    if k == |j| {
      assert j[..k] == j;
    } else {
      var n := |j| - 1;
      TaskFoldPrefix(j[..n], k);
      assert j[..n][..k] == j[..k];
    }
  }

  ghost predicate Ordered(v: TaskView) {
    Distinct(v.order) && Elements(v.order) == v.tasks.Keys
  }

  lemma ApplyOrdered(v: TaskView, f: TaskFact)
    requires Ordered(v) && ApplyTask(v, f).Success?
    ensures Ordered(ApplyTask(v, f).value)
  {
    if f.TaskCreated? {
      var w := ApplyTask(v, f).value;
      assert forall t :: t in v.order <==> t in Elements(v.order);
      assert Elements(w.order) == Elements(v.order) + {f.task};
    }
  }

  lemma NoTasksSound()
    ensures DepsSound(NO_TASKS.tasks) && Ordered(NO_TASKS)
  {
    var none := Deps(NO_TASKS.tasks);
    assert none.Keys == {} == Elements<TaskId>([]);
    LayeredIsAcyclic(none, []);
  }

  /** A journal whose task events are accepted leaves closed, acyclic dependencies. */
  lemma {:induction false} TaskFoldSound(j: seq<Event>)
    requires TaskFold(j).Success?
    ensures DepsSound(TaskFold(j).value.tasks) && Ordered(TaskFold(j).value)
  {
    if j == [] {
      NoTasksSound();
    } else {
      var n := |j| - 1;
      TaskFoldSound(j[..n]);
      if j[n].body.Task? { ApplyOrdered(TaskFold(j[..n]).value, j[n].body.taskFact); }
    }
  }

  /** Updates that leave the dependencies alone are never refused by the dependency check. */
  lemma SameDeps(tasks: TaskMap, tasks': TaskMap)
    requires DepsSound(tasks) && tasks'.Keys == tasks.Keys
    requires forall t :: t in tasks ==> tasks'[t].blockedBy == tasks[t].blockedBy
    ensures DepsSound(tasks')
  {
    assert Deps(tasks') == Deps(tasks);
  }

  /** A task that waits on existing tasks only passes the dependency check. */
  lemma NewTaskSound(tasks: TaskMap, t: TaskId, subject: string, blockedBy: seq<TaskId>)
    requires DepsSound(tasks) && t !in tasks && forall d :: d in blockedBy ==> d in tasks
    ensures DepsSound(tasks[t := NewTask(subject, blockedBy)])
    ensures Deps(tasks[t := NewTask(subject, blockedBy)]) == Deps(tasks)[t := blockedBy]
  {
    NewNodeKeepsAcyclic(Deps(tasks), t, blockedBy);
    assert Deps(tasks[t := NewTask(subject, blockedBy)]) == Deps(tasks)[t := blockedBy];
  }

  /** A new task keeps the dependencies sound if and only if it depends on tasks that exist. */
  lemma NewTaskExactly(tasks: TaskMap, t: TaskId, subject: string, blockedBy: seq<TaskId>)
    requires DepsSound(tasks) && t !in tasks
    ensures DepsSound(tasks[t := NewTask(subject, blockedBy)]) <==> forall d :: d in blockedBy ==> d in tasks
  {
    var tasks' := tasks[t := NewTask(subject, blockedBy)];
    if forall d :: d in blockedBy ==> d in tasks {
      NewTaskSound(tasks, t, subject, blockedBy);
    } else {
      var d :| d in blockedBy && d !in tasks;
      assert DependsOn(Deps(tasks'), t, d);
      if d == t { assert IsCycle(Deps(tasks'), [t, t]); }
    }
  }

  function TaskKeyOf(f: TaskFact): Key {
    match f
    case TaskCreated(t, _, _) => OfTask(CreateKey(t))
    case TaskUpdated(t, revision, changes) => OfTask(UpdateKey(t, revision, changes))
  }

  /** Task events, and they alone, are stored under task keys that say what they do. */
  ghost predicate TaskKeyFits(key: Key, body: Body) {
    && (body.Task? ==> key == TaskKeyOf(body.taskFact))
    && (key.OfTask? ==> body.Task?)
  }

  ghost predicate TaskKeyed(j: seq<Event>) {
    forall i :: 0 <= i < |j| ==> TaskKeyFits(j[i].key, j[i].body)
  }

  /** What a used task key says about every later projection. */
  ghost predicate TaskTraced(tasks: TaskMap, key: TaskKey) {
    && key.task in tasks
    && (key.UpdateKey? ==> key.revision <= tasks[key.task].revision)
  }

  lemma {:induction false} UsedTaskKeyTraced(j: seq<Event>, i: nat)
    requires TaskKeyed(j) && TaskFold(j).Success? && i < |j| && j[i].key.OfTask?
    ensures TaskTraced(TaskFold(j).value.tasks, j[i].key.taskKey)
    decreases |j|
  {
    var n := |j| - 1;
    if i < n {
      UsedTaskKeyTraced(j[..n], i);
    }
  }

  /** A task key whose trace the projection lacks is unused. */
  lemma UnusedTaskKey(j: seq<Event>, key: TaskKey)
    requires TaskKeyed(j) && TaskFold(j).Success? && !TaskTraced(TaskFold(j).value.tasks, key)
    ensures Unused(j, OfTask(key))
  {
    forall i | 0 <= i < |j| ensures j[i].key != OfTask(key) {
      if j[i].key == OfTask(key) { UsedTaskKeyTraced(j, i); }
    }
  }

  function Creation(actor: string, task: TaskId, subject: string, blockedBy: seq<TaskId>): Entry {
    Entry(actor, OfTask(CreateKey(task)), Task(TaskCreated(task, subject, blockedBy)))
  }

  function Update(actor: string, task: TaskId, revision: int, changes: Changes): Entry {
    Entry(actor, OfTask(UpdateKey(task, revision, changes)), Task(TaskUpdated(task, revision, changes)))
  }

  /** The journal takes a creation whose dependencies exist. */
  lemma CreationAccepted(j: seq<Event>, e: Entry, t: TaskId, subject: string, blockedBy: seq<TaskId>)
    requires TaskKeyed(j) && TaskFold(j).Success? && t !in TaskFold(j).value.tasks
    requires e == Creation(e.actor, t, subject, blockedBy)
    requires DepsSound(TaskFold(j).value.tasks[t := NewTask(subject, blockedBy)])
    ensures Unused(j, e.key) && TaskKeyFits(e.key, e.body)
    ensures var v := TaskFold(j).value;
      TaskStep(v, e.body) == Success(TaskView(v.tasks[t := NewTask(subject, blockedBy)], v.order + [t]))
  {
    UnusedTaskKey(j, CreateKey(t));
  }

  /** The journal takes an update of the current revision that keeps the dependencies sound. */
  lemma UpdateAccepted(j: seq<Event>, e: Entry, t: TaskId, changes: Changes)
    requires TaskKeyed(j) && TaskFold(j).Success? && t in TaskFold(j).value.tasks
    requires e == Update(e.actor, t, TaskFold(j).value.tasks[t].revision + 1, changes)
    requires var tasks := TaskFold(j).value.tasks;
      DepsSound(tasks[t := Change(tasks[t], tasks[t].revision + 1, changes)])
    ensures Unused(j, e.key) && TaskKeyFits(e.key, e.body)
    ensures var v := TaskFold(j).value;
      TaskStep(v, e.body)
        == Success(TaskView(v.tasks[t := Change(v.tasks[t], v.tasks[t].revision + 1, changes)], v.order))
  {
    UnusedTaskKey(j, UpdateKey(t, TaskFold(j).value.tasks[t].revision + 1, changes));
  }
}
