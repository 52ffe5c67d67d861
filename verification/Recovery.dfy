/** `recovery_bundle`: a mission's journal written to a file of records, read back, and loaded
    into another store. */
module Recovery {
  import opened Base
  import opened Journal
  import opened Tasks
  import opened Records
  import opened Store
  import opened Projection

  /** A line of an export: blank, not a record at all, or an event with the answer to whether its
      payload still matches the digest stored beside it. */
  datatype Line = Blank | Garbled | Row(event: Event, intact: bool)

  /** The events of the lines in order; the first damaged line is the answer. */
  function EventsIn(lines: seq<Line>): Result<seq<Event>> {
    if lines == [] then Success([])
    else
      var earlier :- EventsIn(lines[..|lines| - 1]);
      match lines[|lines| - 1]
      case Blank => Success(earlier)
      case Garbled => Failure(RecoveryIntegrityFault)
      case Row(e, intact) => if intact then Success(earlier + [e]) else Failure(RecoveryIntegrityFault)
  }

  /** `load_export`. */
  ghost function Loaded(lines: seq<Line>): Result<seq<Event>> {
    var events :- EventsIn(lines);
    if Replay(events).Success? then Success(events) else Failure(RecoveryIntegrityFault)
  }

  function Exported(j: seq<Event>): seq<Line> {
    seq(|j|, i requires 0 <= i < |j| => Row(j[i], true))
  }

  /** `export_events`. */
  ghost function ExportOf(missions: map<string, Tables>, m: string): Result<seq<Line>> {
    var j := Rows(missions, m).journal;
    if Replay(j).Success? then Success(Exported(j)) else Failure(ReplayRejected)
  }

  predicate OneMission(events: seq<Event>, m: string) { forall i :: 0 <= i < |events| ==> events[i].mission == m }

  /** `import_events`: the tables after the import, or the exception that left them alone. */
  ghost function ImportOf(missions: map<string, Tables>, lines: seq<Line>): Result<map<string, Tables>> {
    var events :- Loaded(lines);
    if events == [] then Success(missions)
    else
      var m := events[0].mission;
      if !OneMission(events, m) then Failure(RecoveryIntegrityFault)
      else if Rows(missions, m).journal != [] then Failure(RecoveryFault)
      else if !UniqueKeys(events) then Failure(Conflict)
      else
        Success(missions[m := Tables(events, |events| + 1,
          Rows(missions, m).heads + Revisions(TaskFold(events).value.tasks))])
  }

  lemma {:induction false} EventsExported(j: seq<Event>, k: nat)
    requires k <= |j|
    ensures EventsIn(Exported(j)[..k]) == Success(j[..k])
  {
    if k > 0 {
      EventsExported(j, k - 1);
      assert Exported(j)[..k][..k - 1] == Exported(j)[..k - 1];
      assert j[..k] == j[..k - 1] + [j[k - 1]];
    }
  }

  /** Loading an export gives the journal back. */
  lemma ExportLoads(j: seq<Event>)
    requires Replay(j).Success?
    ensures Loaded(Exported(j)) == Success(j)
  {
    EventsExported(j, |j|);
    assert Exported(j)[..|j|] == Exported(j) && j[..|j|] == j;
  }

  /** Export, then import into a store that has nothing of the mission: the same journal, next
      number and task heads as in the source, and no other mission touched. */
  lemma RoundTrip(source: map<string, Tables>, target: map<string, Tables>, m: string)
    requires WellKept(Rows(source, m), m) && Rows(target, m) == NO_ROWS
    ensures ExportOf(source, m).Success?
    ensures var after := ImportOf(target, ExportOf(source, m).value);
      && after.Success?
      && Rows(after.value, m) == Rows(source, m)
      && (forall other :: other != m ==> Rows(after.value, other) == Rows(target, other))
  {
    hide TaskFold;
    hide RecordFold;
    hide Keyed;
    hide Loaded;
    hide Replay;
    var t := Rows(source, m);
    WellKeptReplays(t, m);
    ExportLoads(t.journal);
    if t.journal == [] {
      EmptyIsFresh(t, m);
    } else {
      assert map[] + t.heads == t.heads;
    }
  }

  lemma EmptyIsFresh(t: Tables, m: string)
    requires WellKept(t, m) && t.journal == []
    ensures t == NO_ROWS
  {
    assert Revisions(map[]) == map[];
  }

  /** Whatever the file holds, an import that is accepted leaves tables that agree with each
      other: numbers from 1 on, unique keys, a journal that replays, heads at its revisions. */
  lemma ImportAgrees(target: map<string, Tables>, lines: seq<Line>)
    requires ImportOf(target, lines).Success? && Loaded(lines).Success? && Loaded(lines).value != []
    requires Rows(target, Loaded(lines).value[0].mission) == NO_ROWS
    ensures var m := Loaded(lines).value[0].mission; var t := Rows(ImportOf(target, lines).value, m);
      && t.journal == Loaded(lines).value && Numbered(t, m)
      && Replay(t.journal).Success? && t.heads == Revisions(TaskFold(t.journal).value.tasks)
  {
    hide TaskFold;
    hide RecordFold;
    hide EventsIn;
    var events := Loaded(lines).value;
    assert map[] + Revisions(TaskFold(events).value.tasks) == Revisions(TaskFold(events).value.tasks);
  }

  /** The events of the rows, whatever is wrong with the file. */
  function EventsOfRows(lines: seq<Line>): seq<Event> {
    if lines == [] then []
    else
      EventsOfRows(lines[..|lines| - 1])
      + match lines[|lines| - 1]
        case Row(e, _) => [e]
        case _ => []
  }

  /** A line that is not a record, or a row whose payload no longer matches its digest. */
  predicate Damaged(line: Line) { line.Garbled? || (line.Row? && !line.intact) }

  lemma {:induction false} EventsInExactly(lines: seq<Line>)
    ensures EventsIn(lines) ==
      if exists i :: 0 <= i < |lines| && Damaged(lines[i]) then Failure(RecoveryIntegrityFault)
      else Success(EventsOfRows(lines))
  {
    if lines != [] {
      var n := |lines| - 1;
      var rest := lines[..n];
      EventsInExactly(rest);
      assert forall i :: 0 <= i < n ==> rest[i] == lines[i];
      if Damaged(lines[n]) {
      } else if exists i :: 0 <= i < |lines| && Damaged(lines[i]) {
        var i :| 0 <= i < |lines| && Damaged(lines[i]);
        assert Damaged(rest[i]);
      } else {
        assert forall i :: 0 <= i < n ==> !Damaged(rest[i]);
        assert EventsOfRows(rest) + [] == EventsOfRows(rest);
      }
    }
  }

  /** A file is loaded if and only if no line is garbled, every row is intact and the events of its
      rows replay; then they are the result, in the order of the rows. */
  lemma LoadedExactly(lines: seq<Line>)
    ensures Loaded(lines).Success? <==>
      && (forall i :: 0 <= i < |lines| ==> !lines[i].Garbled? && (lines[i].Row? ==> lines[i].intact))
      && Replay(EventsOfRows(lines)).Success?
    ensures Loaded(lines).Success? ==> Loaded(lines).value == EventsOfRows(lines)
    ensures Loaded(lines).Failure? ==> Loaded(lines).error == RecoveryIntegrityFault
  {
    hide Replay;
    EventsInExactly(lines);
  }

  /** What a file that loads is answered with, and that a refused one changes nothing. */
  lemma ImportedExactly(missions: map<string, Tables>, lines: seq<Line>)
    requires Loaded(lines).Success?
    ensures var events, r := EventsOfRows(lines), ImportOf(missions, lines);
      if events == [] then r == Success(missions)
      else
        var m := events[0].mission;
        if exists i :: 0 <= i < |events| && events[i].mission != m then r == Failure(RecoveryIntegrityFault)
        else if Rows(missions, m).journal != [] then r == Failure(RecoveryFault)
        else if exists a, b :: 0 <= a < b < |events| && events[a].key == events[b].key then r == Failure(Conflict)
        else
          && r.Success? && Rows(r.value, m).journal == events && Rows(r.value, m).nextSeq == |events| + 1
          && (forall t :: t in TaskFold(events).value.tasks ==>
                t in Rows(r.value, m).heads && Rows(r.value, m).heads[t] == TaskFold(events).value.tasks[t].revision)
          && forall other :: other != m ==> Rows(r.value, other) == Rows(missions, other)
  {
    hide TaskFold;
    hide RecordFold;
    hide EventsIn;
    LoadedExactly(lines);
  }

  /** `load_export`, line by line. */
  method LoadExport(lines: seq<Line>) returns (r: Result<seq<Event>>)
    ensures r == Loaded(lines)
    ensures r.Success? <==>
      && (forall i :: 0 <= i < |lines| ==> !lines[i].Garbled? && (lines[i].Row? ==> lines[i].intact))
      && Replay(EventsOfRows(lines)).Success?
    ensures r.Success? ==> r.value == EventsOfRows(lines)
    ensures r.Failure? ==> r.error == RecoveryIntegrityFault
  {
    hide Replay;
    LoadedExactly(lines);
    var events: seq<Event> := [];
    for n := 0 to |lines|
      invariant EventsIn(lines[..n]) == Success(events)
    {
      assert lines[..n + 1][..n] == lines[..n];
      match lines[n] {
        case Blank =>
        case Garbled =>
          DamageStays(lines, n + 1);
          return Failure(RecoveryIntegrityFault);
        case Row(e, intact) =>
          if !intact {
            DamageStays(lines, n + 1);
            return Failure(RecoveryIntegrityFault);
          }
          events := events + [e];
      }
    }
    assert lines[..|lines|] == lines;
    var projected := ReplayEvents(events);
    r := if projected.Failure? then Failure(RecoveryIntegrityFault) else Success(events);
  }

  lemma {:induction false} DamageStays(lines: seq<Line>, k: nat)
    requires k <= |lines| && EventsIn(lines[..k]) == Failure(RecoveryIntegrityFault)
    ensures EventsIn(lines) == Failure(RecoveryIntegrityFault)
    decreases |lines| - k
  {
    if k == |lines| {
      assert lines[..k] == lines;
    } else {
      assert lines[..k + 1][..k] == lines[..k];
      DamageStays(lines, k + 1);
    }
  }

  /** `export_events`: it changes nothing, and refuses a journal that does not replay. */
  method ExportEvents(store: MissionStore, m: string) returns (r: Result<seq<Line>>)
    ensures r == ExportOf(store.missions, m)
    ensures Replay(store.JournalOf(m)).Failure? ==> r == Failure(ReplayRejected)
    ensures Replay(store.JournalOf(m)).Success? ==>
      r.Success? && |r.value| == |store.JournalOf(m)|
      && forall i :: 0 <= i < |r.value| ==> r.value[i] == Row(store.JournalOf(m)[i], true)
  {
    var events := store.JournalOf(m);
    var projected := ReplayEvents(events);
    if projected.Failure? {
      return Failure(ReplayRejected);
    }
    var lines: seq<Line> := [];
    for i := 0 to |events|
      invariant |lines| == i && forall k :: 0 <= k < i ==> lines[k] == Row(events[k], true)
    {
      lines := lines + [Row(events[i], true)];
    }
    assert lines == Exported(events);
    r := Success(lines);
  }

  /** The insertion of the rows under the store's constraint that keys are unique. */
  method InsertRows(events: seq<Event>) returns (unique: bool)
    ensures unique <==> UniqueKeys(events)
  {
    for i := 0 to |events|
      invariant UniqueKeys(events[..i])
    {
      var existing := Lookup(events[..i], events[i].key);
      if existing.Some? {
        var k :| 0 <= k < i && events[k] == existing.value;
        assert events[k].key == events[i].key;
        return false;
      }
      assert events[..i + 1] == events[..i] + [events[i]];
    }
    assert events[..|events|] == events;
    unique := true;
  }

  /** `import_events`: one transaction, after every check. */
  method ImportEvents(store: MissionStore, lines: seq<Line>) returns (r: Result<nat>)
    requires store.Valid()
    modifies store
    ensures store.Valid()
    ensures match ImportOf(old(store.missions), lines)
      case Failure(error) => r == Failure(error) && store.missions == old(store.missions)
      case Success(after) =>
        || (r == Failure(Crashed) && old(store.fuel) == 0 && store.missions == old(store.missions))
        || (r.Success? && store.missions == after && Loaded(lines).Success? && r.value == |Loaded(lines).value|)
    ensures (exists i :: 0 <= i < |lines| && Damaged(lines[i])) || Replay(EventsOfRows(lines)).Failure? ==>
      r == Failure(RecoveryIntegrityFault) && store.missions == old(store.missions)
  {
    hide TaskFold;
    hide RecordFold;
    hide EventsIn;
    LoadedExactly(lines);
    var loaded := LoadExport(lines);
    if loaded.Failure? {
      return Failure(loaded.error);
    }
    var events := loaded.value;
    if events == [] {
      return Success(0);
    }
    var m := events[0].mission;
    var mixed := Mixed(events, m);
    if mixed {
      return Failure(RecoveryIntegrityFault);
    }
    if store.JournalOf(m) != [] {
      return Failure(RecoveryFault);
    }
    var projected := ReplayEvents(events);
    var unique := InsertRows(events);
    if !unique {
      return Failure(Conflict);
    }
    if store.fuel == 0 {
      return Failure(Crashed);
    }
    var last := HighestNumber(events);
    TaskFoldSound(events);
    var heads := WriteHeads(Rows(store.missions, m).heads, projected.value.view);
    store.fuel := store.fuel - 1;
    store.missions := store.missions[m := Tables(events, last + 1, heads)];
    r := Success(|events|);
  }

  method Mixed(events: seq<Event>, m: string) returns (mixed: bool)
    ensures mixed <==> !OneMission(events, m)
  {
    for i := 0 to |events|
      invariant OneMission(events[..i], m)
    {
      if events[i].mission != m {
        return true;
      }
    }
    assert events[..|events|] == events;
    mixed := false;
  }

  /** `max(e.seq for e in events)`, for events numbered on from 1. */
  method HighestNumber(events: seq<Event>) returns (last: int)
    requires events != [] && Contiguous(events)
    ensures last == |events|
  {
    last := events[0].seqNo;
    for i := 1 to |events|
      invariant last == i
    {
      if events[i].seqNo > last {
        last := events[i].seqNo;
      }
    }
  }

  /** The head rows of the projection, written over those that were there. */
  method WriteHeads(before: map<TaskId, int>, v: TaskView) returns (heads: map<TaskId, int>)
    requires Ordered(v)
    ensures heads == before + Revisions(v.tasks)
  {
    hide HeadsAmong;
    NoHeads(v.tasks, before);
    heads := before;
    for i := 0 to |v.order|
      invariant heads == before + HeadsAmong(v.tasks, v.order[..i])
    {
      var t := v.order[i];
      assert t in Elements(v.order);
      HeadsSnoc(v.tasks, v.order, i);
      UnionUpdate(before, HeadsAmong(v.tasks, v.order[..i]), t, v.tasks[t].revision);
      heads := heads[t := v.tasks[t].revision];
    }
    assert v.order[..|v.order|] == v.order;
    AllHeads(v);
  }

  lemma NoHeads(tasks: TaskMap, before: map<TaskId, int>)
    ensures before + HeadsAmong(tasks, []) == before
  {
    assert HeadsAmong(tasks, []) == map[];
  }

  lemma UnionUpdate<K, V>(a: map<K, V>, b: map<K, V>, k: K, v: V)
    ensures a + b[k := v] == (a + b)[k := v]
  {
  }

  function HeadsAmong(tasks: TaskMap, order: seq<TaskId>): map<TaskId, int> {
    map t | t in tasks && t in order :: tasks[t].revision
  }

  lemma HeadsSnoc(tasks: TaskMap, order: seq<TaskId>, i: nat)
    requires i < |order| && order[i] in tasks
    ensures HeadsAmong(tasks, order[..i + 1]) == HeadsAmong(tasks, order[..i])[order[i] := tasks[order[i]].revision]
  {
    assert order[..i + 1] == order[..i] + [order[i]];
  }

  lemma AllHeads(v: TaskView)
    requires Ordered(v)
    ensures HeadsAmong(v.tasks, v.order) == Revisions(v.tasks)
  {
    assert forall t :: t in v.tasks ==> t in Elements(v.order);
  }

  /** What the three writers of the store promise of a call. */
  ghost predicate Outcome(m: string, call: StoreCall, now: real, before: map<string, Tables>, fuel: nat,
                          after: map<string, Tables>, left: nat, r: Result<Event>) {
    && Numbered(Rows(after, m), m)
    && match call
       case AppendCall(actor, key, body) =>
         && Ran(m, now, PutPlan(m, Rows(before, m).journal, Entry(actor, key, body)), before, fuel, after, left,
           FaultOf(r))
         && (r.Success? ==> r.value in Rows(after, m).journal && r.value.key == key)
         && Rows(after, m).heads == Rows(before, m).heads
       case CreatedCall(task, actor, subject, blockedBy) =>
         CreationOutcome(m, task, actor, subject, blockedBy, now, before, fuel, after, left, r)
         && (r.Success? ==> r.value in Rows(after, m).journal && r.value.key == OfTask(CreateKey(task)))
       case UpdatedCall(task, expected, actor, changes) =>
         UpdateOutcome(m, task, expected, actor, changes, now, before, fuel, after, left, r)
         && (r.Success? ==>
           r.value in Rows(after, m).journal && r.value.key == OfTask(UpdateKey(task, expected + 1, changes)))
  }

  /** Two stores with the same rows for the mission answer a call alike and stay alike. */
  lemma SameAnswer(m: string, call: StoreCall, now: real, fuel: nat,
                   a: map<string, Tables>, a': map<string, Tables>, leftA: nat, r: Result<Event>,
                   b: map<string, Tables>, b': map<string, Tables>, leftB: nat, s: Result<Event>)
    requires Rows(a, m) == Rows(b, m) && Numbered(Rows(a, m), m)
    requires Outcome(m, call, now, a, fuel, a', leftA, r) && Outcome(m, call, now, b, fuel, b', leftB, s)
    ensures r == s && Rows(a', m) == Rows(b', m) && leftA == leftB
  {
    if r.Success? && s.Success? {
      SameEvent(Rows(a', m).journal, r.value, s.value);
    }
  }

  lemma SameEvent(j: seq<Event>, e: Event, f: Event)
    requires UniqueKeys(j) && e in j && f in j && e.key == f.key
    ensures e == f
  {
    var i :| 0 <= i < |j| && j[i] == e;
    var k :| 0 <= k < |j| && j[k] == f;
    assert i == k;
  }

  /** A run of store calls about the mission, with their answers. */
  datatype StoreRun = StoreRun(states: seq<map<string, Tables>>, fuels: seq<nat>, answers: seq<Result<Event>>)

  ghost predicate IsStoreRun(m: string, calls: seq<StoreCall>, times: seq<real>, run: StoreRun) {
    && |times| == |calls| && |run.answers| == |calls|
    && |run.states| == |calls| + 1 && |run.fuels| == |calls| + 1
    && forall i :: 0 <= i < |calls| ==>
         Outcome(m, calls[i], times[i], run.states[i], run.fuels[i], run.states[i + 1], run.fuels[i + 1],
           run.answers[i])
  }

  /** The import is a bisimulation: from the source store and from the one it was imported into,
      every later sequence of store calls gets the same answers and leaves the same rows. */
  lemma {:induction false} Bisimilar(m: string, calls: seq<StoreCall>, times: seq<real>, a: StoreRun, b: StoreRun,
                                     i: nat)
    requires IsStoreRun(m, calls, times, a) && IsStoreRun(m, calls, times, b) && i <= |calls|
    requires Rows(a.states[0], m) == Rows(b.states[0], m) && Numbered(Rows(a.states[0], m), m)
      && a.fuels[0] == b.fuels[0]
    ensures Rows(a.states[i], m) == Rows(b.states[i], m) && a.fuels[i] == b.fuels[i] && a.answers[..i] == b.answers[..i]
    ensures Numbered(Rows(a.states[i], m), m)
  {
    hide Numbered;
    hide Rows;
    if i > 0 {
      Bisimilar(m, calls, times, a, b, i - 1);
      var k := i - 1;
      assert Outcome(m, calls[k], times[k], a.states[k], a.fuels[k], a.states[k + 1], a.fuels[k + 1], a.answers[k]);
      assert Outcome(m, calls[k], times[k], b.states[k], b.fuels[k], b.states[k + 1], b.fuels[k + 1], b.answers[k]);
      SameAnswer(m, calls[k], times[k], a.fuels[k], a.states[k], a.states[i], a.fuels[i], a.answers[k],
                 b.states[k], b.states[i], b.fuels[i], b.answers[k]);
      assert a.answers[..i] == a.answers[..k] + [a.answers[k]];
      assert b.answers[..i] == b.answers[..k] + [b.answers[k]];
    }
  }

  /** Hence: export from `source`, import into a `target` without the mission, and whatever calls
      follow on either store about the mission, they cannot be told apart. */
  lemma ImportedBehavesAlike(source: map<string, Tables>, target: map<string, Tables>, m: string,
                             calls: seq<StoreCall>, times: seq<real>, a: StoreRun, b: StoreRun)
    requires WellKept(Rows(source, m), m) && Rows(target, m) == NO_ROWS
    requires IsStoreRun(m, calls, times, a) && IsStoreRun(m, calls, times, b) && a.fuels[0] == b.fuels[0]
    requires a.states[0] == source && ExportOf(source, m).Success?
    requires Success(b.states[0]) == ImportOf(target, ExportOf(source, m).value)
    ensures a.answers == b.answers && Rows(a.states[|calls|], m) == Rows(b.states[|calls|], m)
  {
    hide WellKept;
    hide IsStoreRun;
    hide ImportOf;
    hide ExportOf;
    hide Rows;
    RoundTrip(source, target, m);
    RunShape(m, calls, times, a);
    RunShape(m, calls, times, b);
    KeptReads(Rows(source, m), m);
    Bisimilar(m, calls, times, a, b, |calls|);
    assert a.answers[..|calls|] == a.answers && b.answers[..|calls|] == b.answers;
  }

  lemma RunShape(m: string, calls: seq<StoreCall>, times: seq<real>, run: StoreRun)
    requires IsStoreRun(m, calls, times, run)
    ensures |times| == |calls| && |run.answers| == |calls| && |run.states| == |calls| + 1 && |run.fuels| == |calls| + 1
  {
  }
}
