/** `replay`, and what holds of a mission's tables as long as only the program's own calls write
    them: the journal replays, every key names what its event says, and each task head is the
    replayed revision. */
module Projection {
  import opened Base
  import opened Digraph
  import opened Journal
  import opened Tasks
  import opened Records
  import opened GraphLog
  import opened PoolLog
  import opened LoopLog
  import opened Store

  datatype Projected = Projected(view: TaskView, records: RecordView)

  /** Contiguous numbers from 1. */
  ghost predicate Contiguous(j: seq<Event>) {
    forall i :: 0 <= i < |j| ==> j[i].seqNo == i + 1
  }

  /** The projection of a journal, or its rejection: numbers out of order, or an event that the
      tasks or the records before it do not allow. */
  ghost function Replay(j: seq<Event>): Result<Projected> {
    if Contiguous(j) && TaskFold(j).Success? && RecordFold(j).Success? then
      Success(Projected(TaskFold(j).value, RecordFold(j).value))
    else Failure(ReplayRejected)
  }

  lemma {:induction false} RecordFoldPrefix(j: seq<Event>, k: nat)
    requires k <= |j| && RecordFold(j).Success?
    ensures RecordFold(j[..k]).Success?
    decreases |j|
  {
    if k == |j| {
      assert j[..k] == j;
    } else {
      var n := |j| - 1;
      RecordFoldPrefix(j[..n], k);
      assert j[..n][..k] == j[..k];
    }
  }

  lemma Rejected(j: seq<Event>, k: nat)
    requires k <= |j| && (!Contiguous(j[..k]) || TaskFold(j[..k]).Failure? || RecordFold(j[..k]).Failure?)
    ensures Replay(j) == Failure(ReplayRejected)
  {
    if Contiguous(j) && TaskFold(j).Success? && RecordFold(j).Success? {
      TaskFoldPrefix(j, k);
      RecordFoldPrefix(j, k);
      assert false;
    }
  }

  /** One task event, with the dependency check run over all tasks. */
  method ReplayTask(v: TaskView, f: TaskFact) returns (r: Result<TaskView>)
    requires Ordered(v)
    ensures r == TaskStep(v, Task(f))
    ensures r.Success? ==> Ordered(r.value)
  {
    r := ApplyTask(v, f);
    if r.Success? {
      ApplyOrdered(v, f);
      var verdict := DetectCycle(Deps(r.value.tasks), r.value.order);
      if !verdict.Clear? {
        r := Failure(ReplayRejected);
      }
    }
  }

  /** `replay` itself: one loop over the events, updating all the dictionaries. */
  method ReplayEvents(j: seq<Event>) returns (r: Result<Projected>)
    ensures r == Replay(j)
  {
    var v, records := NO_TASKS, NO_RECORDS;
    assert j[..0] == [];
    NoTasksSound();
    for n := 0 to |j|
      invariant Contiguous(j[..n])
      invariant TaskFold(j[..n]) == Success(v) && RecordFold(j[..n]) == Success(records) && Ordered(v)
    {
      var e := j[n];
      assert j[..n + 1] == j[..n] + [e];
      TaskFoldAppend(j[..n], e);
      RecordFoldAppend(j[..n], e);
      if e.seqNo != n + 1 {
        assert j[..n + 1][n].seqNo != n + 1;
        Rejected(j, n + 1);
        return Failure(ReplayRejected);
      }
      match e.body {
        case Task(f) =>
          var w := ReplayTask(v, f);
          if w.Failure? {
            Rejected(j, n + 1);
            return Failure(ReplayRejected);
          }
          v := w.value;
        case Record(f) =>
          var next := ApplyRecord(records, f);
          if next.Failure? {
            Rejected(j, n + 1);
            return Failure(ReplayRejected);
          }
          records := next.value;
        case _ =>
      }
    }
    assert j[..|j|] == j;
    r := Success(Projected(v, records));
  }

  ghost predicate Keyed(j: seq<Event>) {
    TaskKeyed(j) && RecordKeyed(j) && GraphKeyed(j) && PoolKeyed(j) && LoopKeyed(j)
  }

  ghost predicate KeyFits(before: seq<Event>, key: Key, body: Body) {
    && TaskKeyFits(key, body) && RecordKeyFits(before, key, body) && GraphKeyFits(key, body)
    && PoolKeyFits(before, key, body) && LoopKeyFits(key, body)
  }

  lemma KeyedAppend(j: seq<Event>, e: Event)
    requires Keyed(j) && KeyFits(j, e.key, e.body)
    ensures Keyed(j + [e])
  {
    RecordKeyedAppend(j, e);
    PoolKeyedAppend(j, e);
  }

  /** A journal written by the program's calls. */
  ghost predicate Readable(j: seq<Event>) {
    Keyed(j) && TaskFold(j).Success? && RecordFold(j).Success?
  }

  /** Journal, counter and heads agree: numbers are 1..n and the next one n + 1, keys are unique
      and fit, the journal replays, and each head is the task's replayed revision. */
  ghost predicate WellKept(t: Tables, m: string) {
    && Numbered(t, m)
    && Readable(t.journal)
    && t.heads == Revisions(TaskFold(t.journal).value.tasks)
  }

  lemma WellKeptReplays(t: Tables, m: string)
    requires WellKept(t, m)
    ensures Replay(t.journal) == Success(Projected(TaskFold(t.journal).value, RecordFold(t.journal).value))
  {
    assert Contiguous(t.journal);
  }

  /** The tables of a mission nobody has written. */
  lemma NothingWellKept(m: string)
    ensures WellKept(NO_ROWS, m)
  {
    assert Revisions(map[]) == map[];
  }

  /** The journal accepts the entry: its key is unused and fits, and the replay goes on. */
  ghost predicate Acceptable(j: seq<Event>, e: Entry) {
    && Unused(j, e.key) && KeyFits(j, e.key, e.body)
    && TaskFold(j).Success? && TaskStep(TaskFold(j).value, e.body).Success?
    && RecordFold(j).Success? && RecordStep(RecordFold(j).value, e.body).Success?
  }

  /** Each entry is accepted after the ones before it. */
  ghost predicate Admissible(j: seq<Event>, m: string, now: real, entries: seq<Entry>) {
    forall k :: 0 <= k < |entries| ==> Acceptable(Extend(j, m, now, entries[..k]), entries[k])
  }

  /** The tables whose journal is `j`, with the heads its replay gives. */
  ghost function TablesFor(j: seq<Event>): Tables
    requires TaskFold(j).Success?
  {
    Tables(j, |j| + 1, Revisions(TaskFold(j).value.tasks))
  }

  /** `TablesFor(j)` is well kept. */
  ghost predicate Sound(j: seq<Event>, m: string) {
    Readable(j) && Numbered(TablesFor(j), m)
  }

  lemma SoundIsWellKept(t: Tables, m: string)
    ensures WellKept(t, m) <==> Sound(t.journal, m) && t == TablesFor(t.journal)
  {
  }

  lemma SoundReadable(j: seq<Event>, m: string)
    requires Sound(j, m)
    ensures Readable(j) && TaskFold(j).Success? && RecordFold(j).Success?
  {
  }

  lemma KeptReads(t: Tables, m: string)
    requires WellKept(t, m)
    ensures Numbered(t, m) && Sound(t.journal, m) && Readable(t.journal)
    ensures TaskFold(t.journal).Success? && RecordFold(t.journal).Success?
  {
  }

  /** One accepted entry keeps the tables consistent. */
  lemma EntryKeeps(j: seq<Event>, m: string, now: real, e: Entry)
    requires Sound(j, m) && Acceptable(j, e)
    ensures Sound(j + [Stamp(m, |j| + 1, now, e)], m)
  {
    var event := Stamp(m, |j| + 1, now, e);
    TaskFoldAppend(j, event);
    RecordFoldAppend(j, event);
    KeyedAppend(j, event);
  }

  lemma PrefixSnoc(j: seq<Event>, m: string, now: real, entries: seq<Entry>, k: nat)
    requires 0 < k <= |entries|
    ensures var before := Extend(j, m, now, entries[..k - 1]);
      Extend(j, m, now, entries[..k]) == before + [Stamp(m, |before| + 1, now, entries[k - 1])]
  {
    assert entries[..k] == entries[..k - 1] + [entries[k - 1]];
    ExtendSnoc(j, m, now, entries[..k - 1], entries[k - 1]);
  }

  /** Hence every prefix of an admissible list does: a crash never leaves them inconsistent. */
  lemma {:induction false} AdmissibleKeeps(j: seq<Event>, m: string, now: real, entries: seq<Entry>, k: nat)
    requires Sound(j, m) && Admissible(j, m, now, entries) && k <= |entries|
    ensures Sound(Extend(j, m, now, entries[..k]), m)
  {
    hide Sound;
    hide Acceptable;
    if k == 0 {
      ExtendNone(j, m, now);
      assert entries[..0] == [];
    } else {
      AdmissibleKeeps(j, m, now, entries, k - 1);
      PrefixSnoc(j, m, now, entries, k);
      EntryKeeps(Extend(j, m, now, entries[..k - 1]), m, now, entries[k - 1]);
    }
  }

  lemma AdmissibleSnoc(j: seq<Event>, m: string, now: real, entries: seq<Entry>, e: Entry)
    requires Admissible(j, m, now, entries) && Acceptable(Extend(j, m, now, entries), e)
    ensures Admissible(j, m, now, entries + [e])
  {
    var all := entries + [e];
    forall k | 0 <= k < |all| ensures Acceptable(Extend(j, m, now, all[..k]), all[k]) {
      assert all[..k] == if k < |entries| then entries[..k] else entries;
    }
  }

  lemma AdmissibleOne(j: seq<Event>, m: string, now: real, e: Entry)
    requires Acceptable(j, e)
    ensures Admissible(j, m, now, [e])
  {
    ExtendNone(j, m, now);
    AdmissibleSnoc(j, m, now, [], e);
    assert [] + [e] == [e];
  }
}
