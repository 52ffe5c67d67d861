/** `MissionStore`: the append-only journal with its idempotency keys, sequence numbers and
    task heads.  Every method is one transaction. */
module Store {
  import opened Base
  import opened Journal

  /** What a call writes if it is not interrupted, and the exception it then ends with. */
  datatype Plan = Plan(entries: seq<Entry>, fault: Option<Error>)

  /** The effect of `append`: an event already stored under the key is returned if it has the
      same content and is a conflict otherwise; a new key is one more event. */
  ghost function PutPlan(m: string, j: seq<Event>, e: Entry): Plan {
    if m == "" || e.actor == "" then Plan([], Some(ValueFault))
    else if Unused(j, e.key) then Plan([e], None)
    else if Stored(j, e.key, e.body) then Plan([], None)
    else Plan([], Some(Conflict))
  }

  function FaultOf<T>(r: Result<T>): Option<Error> {
    if r.Success? then None else Some(r.error)
  }

  function Rows(missions: map<string, Tables>, m: string): Tables {
    if m in missions then missions[m] else NO_ROWS
  }

  /** Sequence numbers are exactly 1..n, the next one is n + 1, keys are unique. */
  ghost predicate Numbered(t: Tables, m: string) {
    && t.nextSeq == |t.journal| + 1
    && (forall i :: 0 <= i < |t.journal| ==> t.journal[i].seqNo == i + 1 && t.journal[i].mission == m)
    && UniqueKeys(t.journal)
  }

  /** From (before, fuel) to (after, left) mission `m` performed the plan, or as much of it as the
      fuel allowed: the journal grew by that prefix and by nothing else, no other mission changed,
      and the call ended with `fault`. */
  ghost predicate Ran(m: string, now: real, plan: Plan,
                      before: map<string, Tables>, fuel: nat,
                      after: map<string, Tables>, left: nat, fault: Option<Error>) {
    var k := Min(fuel, |plan.entries|);
    && Rows(after, m).journal == Extend(Rows(before, m).journal, m, now, plan.entries[..k])
    && left == fuel - k
    && (forall other :: other != m ==> Rows(after, other) == Rows(before, other))
    && fault == if k < |plan.entries| then Some(Crashed) else plan.fault
  }

  lemma RanNothing(m: string, now: real, s: map<string, Tables>, fuel: nat, fault: Option<Error>)
    ensures Ran(m, now, Plan([], fault), s, fuel, s, fuel, fault)
  {
    ExtendNone(Rows(s, m).journal, m, now);
  }

  /** Two plans carried out one after the other are their concatenation. */
  lemma RanThen(m: string, now: real, p: Plan, q: Plan,
                a: map<string, Tables>, fa: nat, b: map<string, Tables>, fb: nat,
                c: map<string, Tables>, fc: nat, fault: Option<Error>)
    requires Ran(m, now, p, a, fa, b, fb, None)
    requires Ran(m, now, q, b, fb, c, fc, fault)
    ensures Ran(m, now, Plan(p.entries + q.entries, q.fault), a, fa, c, fc, fault)
  {
    var kp, kq := Min(fa, |p.entries|), Min(fb, |q.entries|);
    TakeAcross(p.entries, q.entries, kq);
    assert kp == |p.entries| && Min(fa, |p.entries + q.entries|) == kp + kq;
    ExtendAppend(Rows(a, m).journal, m, now, p.entries, q.entries[..kq]);
  }

  lemma TakeAcross<T>(xs: seq<T>, ys: seq<T>, k: nat)
    requires k <= |ys|
    ensures xs[..|xs|] == xs && (xs + ys)[..|xs| + k] == xs + ys[..k]
  {
  }

  /** A plan cut short by the crash is a prefix of any longer one. */
  lemma RanCrashed(m: string, now: real, p: Plan, more: seq<Entry>, fault: Option<Error>,
                   a: map<string, Tables>, fa: nat, b: map<string, Tables>, fb: nat)
    requires Ran(m, now, p, a, fa, b, fb, Some(Crashed)) && p.fault != Some(Crashed)
    ensures Ran(m, now, Plan(p.entries + more, fault), a, fa, b, fb, Some(Crashed))
  {
    assert (p.entries + more)[..fa] == p.entries[..fa];
  }

  /** An exception raised after everything was written. */
  lemma RanThenRaised(m: string, now: real, p: Plan, fault: Option<Error>,
                      a: map<string, Tables>, fa: nat, b: map<string, Tables>, fb: nat)
    requires Ran(m, now, p, a, fa, b, fb, None)
    ensures Ran(m, now, Plan(p.entries, fault), a, fa, b, fb, fault)
  {
  }

  /** What `append_task_created` does: a stored event is returned under its key whatever its
      content; a task with a head is a conflict; otherwise event and head are written together. */
  ghost predicate CreationOutcome(m: string, task: TaskId, actor: string, subject: string, blockedBy: seq<TaskId>,
                                  now: real,
                                  before: map<string, Tables>, fuel: nat, after: map<string, Tables>, left: nat,
                                  r: Result<Event>) {
    var key := OfTask(CreateKey(task));
    var entry := Entry(actor, key, Task(TaskCreated(task, subject, blockedBy)));
    var t := Rows(before, m);
    if !Unused(t.journal, key) then
      r.Success? && r.value.key == key && r.value in t.journal && after == before && left == fuel
    else if task in t.heads then r == Failure(Conflict) && after == before && left == fuel
    else
      && Ran(m, now, Plan([entry], None), before, fuel, after, left, FaultOf(r))
      && Rows(after, m).heads == if r.Success? then t.heads[task := 1] else t.heads
  }

  /** What `append_task_updated` does: the same, with the head revision as a compare-and-set. */
  ghost predicate UpdateOutcome(m: string, task: TaskId, expected: int, actor: string, changes: Changes, now: real,
                                before: map<string, Tables>, fuel: nat, after: map<string, Tables>, left: nat,
                                r: Result<Event>) {
    var key := OfTask(UpdateKey(task, expected + 1, changes));
    var entry := Entry(actor, key, Task(TaskUpdated(task, expected + 1, changes)));
    var t := Rows(before, m);
    if !Unused(t.journal, key) then
      r.Success? && r.value.key == key && r.value in t.journal && after == before && left == fuel
    else if task !in t.heads then r == Failure(UnknownEntity) && after == before && left == fuel
    else if t.heads[task] != expected then r == Failure(Conflict) && after == before && left == fuel
    else
      && Ran(m, now, Plan([entry], None), before, fuel, after, left, FaultOf(r))
      && Rows(after, m).heads == if r.Success? then t.heads[task := expected + 1] else t.heads
  }

  /** A call on the store about one mission. */
  datatype StoreCall =
    | AppendCall(actor: string, key: Key, body: Body)
    | CreatedCall(task: TaskId, actor: string, subject: string, blockedBy: seq<TaskId>)
    | UpdatedCall(task: TaskId, expected: int, actor: string, changes: Changes)

  /** One more row, under the number the counter holds. */
  function AddRow(t: Tables, m: string, now: real, e: Entry, heads: map<TaskId, int>): Tables {
    Tables(t.journal + [Stamp(m, t.nextSeq, now, e)], t.nextSeq + 1, heads)
  }

  /** The rows of the mission after the transaction: journal, counter and heads as it leaves them. */
  ghost function Committed(t: Tables, m: string, call: StoreCall, now: real): Tables {
    match call
    case AppendCall(actor, key, body) =>
      if m == "" || actor == "" || !Unused(t.journal, key) then t
      else AddRow(t, m, now, Entry(actor, key, body), t.heads)
    case CreatedCall(task, actor, subject, blockedBy) =>
      var key := OfTask(CreateKey(task));
      if !Unused(t.journal, key) || task in t.heads then t
      else AddRow(t, m, now, Entry(actor, key, Task(TaskCreated(task, subject, blockedBy))), t.heads[task := 1])
    case UpdatedCall(task, expected, actor, changes) =>
      var key := OfTask(UpdateKey(task, expected + 1, changes));
      if !Unused(t.journal, key) || task !in t.heads || t.heads[task] != expected then t
      else
        var revision := t.heads[task] + 1;
        AddRow(t, m, now, Entry(actor, key, Task(TaskUpdated(task, revision, changes))), t.heads[task := revision])
  }

  /** The tables after the transaction, unless the process died before it. */
  ghost predicate Transacted(m: string, call: StoreCall, now: real, before: map<string, Tables>,
                             after: map<string, Tables>, fault: Option<Error>) {
    && (forall other :: other != m ==> Rows(after, other) == Rows(before, other))
    && Rows(after, m) == if fault == Some(Crashed) then Rows(before, m) else Committed(Rows(before, m), m, call, now)
  }

  class MissionStore {
    var missions: map<string, Tables>
    /** The number of further events this process will write before it dies. */
    var fuel: nat

    ghost predicate Valid()
      reads this
    {
      forall m :: m in missions ==> Numbered(missions[m], m)
    }

    function JournalOf(m: string): seq<Event>
      reads this
    {
      Rows(missions, m).journal
    }

    constructor (fuel: nat)
      ensures Valid() && missions == map[] && this.fuel == fuel
    {
      missions := map[];
      this.fuel := fuel;
    }

    /** The part the three writers share: take the next number and add the row. */
    method Insert(mission: string, now: real, e: Entry, heads: map<TaskId, int>) returns (r: Result<Event>)
      requires Valid() && Unused(JournalOf(mission), e.key)
      modifies this
      ensures Valid()
      ensures Ran(mission, now, Plan([e], None), old(missions), old(fuel), missions, fuel, FaultOf(r))
      ensures r.Failure? ==> missions == old(missions)
      ensures r.Success? ==> r.value == Stamp(mission, |old(JournalOf(mission))| + 1, now, e)
      ensures r.Success? ==> r.value in JournalOf(mission)
      ensures r.Success? ==> Rows(missions, mission) == AddRow(Rows(old(missions), mission), mission, now, e, heads)
      ensures r.Failure? ==> r.error == Crashed
    {
      var t := Rows(missions, mission);
      ExtendNone(t.journal, mission, now);
      ExtendOne(t.journal, mission, now, e);
      if fuel == 0 {
        assert [e][..0] == [];
        return Failure(Crashed);
      }
      assert [e][..1] == [e];
      var event := Stamp(mission, t.nextSeq, now, e);
      fuel := fuel - 1;
      missions := missions[mission := Tables(t.journal + [event], t.nextSeq + 1, heads)];
      r := Success(event);
    }

    method Append(mission: string, actor: string, key: Key, body: Body, now: real) returns (r: Result<Event>)
      requires Valid()
      modifies this
      ensures Valid()
      ensures Ran(mission, now, PutPlan(mission, old(JournalOf(mission)), Entry(actor, key, body)),
                  old(missions), old(fuel), missions, fuel, FaultOf(r))
      ensures r.Success? ==> r.value in JournalOf(mission) && r.value.key == key && r.value.body == body
      ensures Rows(missions, mission).heads == old(Rows(missions, mission).heads)
      ensures JournalOf(mission) == old(JournalOf(mission)) ==> missions == old(missions)
      ensures Transacted(mission, AppendCall(actor, key, body), now, old(missions), missions, FaultOf(r))
    {
      if mission == "" || actor == "" {
        RanNothing(mission, now, missions, fuel, Some(ValueFault));
        return Failure(ValueFault);
      }
      var existing := Lookup(JournalOf(mission), key);
      if existing.Some? {
        assert Stored(JournalOf(mission), key, existing.value.body);
        if existing.value.body != body {
          RanNothing(mission, now, missions, fuel, Some(Conflict));
          return Failure(Conflict);
        }
        RanNothing(mission, now, missions, fuel, None);
        return Success(existing.value);
      }
      r := Insert(mission, now, Entry(actor, key, body), Rows(missions, mission).heads);
    }

    method AppendTaskCreated(mission: string, task: TaskId, actor: string, subject: string,
                             blockedBy: seq<TaskId>, now: real) returns (r: Result<Event>)
      requires Valid()
      modifies this
      ensures Valid()
      ensures CreationOutcome(mission, task, actor, subject, blockedBy, now,
                              old(missions), old(fuel), missions, fuel, r)
      ensures Transacted(mission, CreatedCall(task, actor, subject, blockedBy), now, old(missions), missions,
        FaultOf(r))
      ensures old(Unused(JournalOf(mission), OfTask(CreateKey(task)))) && task in old(Rows(missions, mission)).heads ==>
        r == Failure(Conflict) && missions == old(missions)
      ensures !old(Unused(JournalOf(mission), OfTask(CreateKey(task)))) ==> r.Success? && missions == old(missions)
      ensures missions != old(missions) ==>
        r.Success? && task !in old(Rows(missions, mission)).heads
        && r.value == Event(mission, |old(JournalOf(mission))| + 1, actor, now, OfTask(CreateKey(task)),
             Task(TaskCreated(task, subject, blockedBy)))
        && JournalOf(mission) == old(JournalOf(mission)) + [r.value]
        && Rows(missions, mission).heads == old(Rows(missions, mission)).heads[task := 1]
    {
      var key := OfTask(CreateKey(task));
      var existing := Lookup(JournalOf(mission), key);
      if existing.Some? {
        return Success(existing.value);
      }
      var heads := Rows(missions, mission).heads;
      if task in heads {
        return Failure(Conflict);
      }
      r := Insert(mission, now, Entry(actor, key, Task(TaskCreated(task, subject, blockedBy))), heads[task := 1]);
    }

    method AppendTaskUpdated(mission: string, task: TaskId, expected: int, actor: string,
                             changes: Changes, now: real) returns (r: Result<Event>)
      requires Valid()
      modifies this
      ensures Valid()
      ensures UpdateOutcome(mission, task, expected, actor, changes, now,
                            old(missions), old(fuel), missions, fuel, r)
      ensures Transacted(mission, UpdatedCall(task, expected, actor, changes), now, old(missions), missions, FaultOf(r))
      ensures !old(Unused(JournalOf(mission), OfTask(UpdateKey(task, expected + 1, changes)))) ==>
        r.Success? && missions == old(missions)
      ensures old(Unused(JournalOf(mission), OfTask(UpdateKey(task, expected + 1, changes)))) ==>
        var heads := old(Rows(missions, mission)).heads;
        && (task !in heads ==> r == Failure(UnknownEntity) && missions == old(missions))
        && (task in heads && heads[task] != expected ==> r == Failure(Conflict) && missions == old(missions))
      ensures missions != old(missions) ==>
        && r.Success? && task in old(Rows(missions, mission)).heads
        && old(Rows(missions, mission)).heads[task] == expected
        && r.value == Event(mission, |old(JournalOf(mission))| + 1, actor, now,
             OfTask(UpdateKey(task, expected + 1, changes)), Task(TaskUpdated(task, expected + 1, changes)))
        && JournalOf(mission) == old(JournalOf(mission)) + [r.value]
        && Rows(missions, mission).heads == old(Rows(missions, mission)).heads[task := expected + 1]
    {
      var key := OfTask(UpdateKey(task, expected + 1, changes));
      var existing := Lookup(JournalOf(mission), key);
      if existing.Some? {
        return Success(existing.value);
      }
      var heads := Rows(missions, mission).heads;
      if task !in heads {
        return Failure(UnknownEntity);
      }
      if heads[task] != expected {
        return Failure(Conflict);
      }
      var revision := heads[task] + 1;
      r := Insert(mission, now, Entry(actor, key, Task(TaskUpdated(task, revision, changes))), heads[task := revision]);
    }
  }
}
