/** `HistoryLog`: a file of hash-chained events of many missions. */
module History {
  import opened Base

  /** A digest determines what was digested, and nothing digests to the genesis value. */
  datatype Hash = Genesis | DigestOf(material: Material)

  /** Everything an event records except its own digest. */
  datatype Material = Material(
    schema: string, mission: string, seqNo: int, eventId: string, actor: string, kind: string,
    text: string, evidence: map<string, string>, ts: real, key: string, prev: Hash)

  datatype HistoryEvent = HistoryEvent(material: Material, sha: Hash)

  const SCHEMA := "mcf_live_history/v1"

  /** A line of the file: blank, not JSON, or an event. */
  datatype Line = Blank | Garbled | Row(event: HistoryEvent)

  /** The rows of the file; one garbled line makes it unreadable. */
  function RowsIn(lines: seq<Line>): Result<seq<HistoryEvent>> {
    if lines == [] then Success([])
    else
      var earlier :- RowsIn(lines[..|lines| - 1]);
      match lines[|lines| - 1]
      case Blank => Success(earlier)
      case Garbled => Failure(HistoryIntegrityFault)
      case Row(e) => Success(earlier + [e])
  }

  function OfMission(rows: seq<HistoryEvent>, m: string): seq<HistoryEvent> {
    if rows == [] then []
    else
      var earlier := OfMission(rows[..|rows| - 1], m);
      if rows[|rows| - 1].material.mission == m then earlier + [rows[|rows| - 1]] else earlier
  }

  function Head(rows: seq<HistoryEvent>): Hash {
    if rows == [] then Genesis else rows[|rows| - 1].sha
  }

  predicate HasKey(rows: seq<HistoryEvent>, key: string) {
    exists i :: 0 <= i < |rows| && rows[i].material.key == key
  }

  /** An event may follow these: the next number, the chain's head, its own digest, a new key. */
  predicate Follows(earlier: seq<HistoryEvent>, e: HistoryEvent) {
    && e.material.seqNo == |earlier| + 1
    && e.material.prev == Head(earlier)
    && e.sha == DigestOf(e.material)
    && !HasKey(earlier, e.material.key)
  }

  /** Every row follows those before it. */
  predicate Chained(rows: seq<HistoryEvent>) {
    forall k :: 0 <= k < |rows| ==> Follows(rows[..k], rows[k])
  }

  /** `replay` of one mission. */
  ghost function ReplayOf(lines: seq<Line>, m: string): Result<seq<HistoryEvent>> {
    var rows :- RowsIn(lines);
    if Chained(OfMission(rows, m)) then Success(OfMission(rows, m)) else Failure(HistoryIntegrityFault)
  }

  /** What a caller appends; the event id is drawn new, the time is read. */
  datatype Request = Request(
    mission: string, actor: string, kind: string, text: string, evidence: map<string, string>,
    key: string, eventId: string, ts: real)

  predicate SameContent(e: HistoryEvent, q: Request) {
    e.material.actor == q.actor && e.material.kind == q.kind && e.material.text == q.text
      && e.material.evidence == q.evidence
  }

  function NewEvent(rows: seq<HistoryEvent>, q: Request): HistoryEvent {
    var own := OfMission(rows, q.mission);
    var material := Material(SCHEMA, q.mission, |own| + 1, q.eventId, q.actor, q.kind, q.text, q.evidence, q.ts, q.key,
      Head(own));
    HistoryEvent(material, DigestOf(material))
  }

  /** The first row of the mission under the key. */
  function Earliest(rows: seq<HistoryEvent>, m: string, key: string): Option<HistoryEvent> {
    if rows == [] then None
    else if rows[0].material.mission == m && rows[0].material.key == key then Some(rows[0])
    else Earliest(rows[1..], m, key)
  }

  /** `append`: the event a retry finds, a conflict, or one more line. */
  function AppendOf(lines: seq<Line>, q: Request): Result<HistoryEvent> {
    var rows :- RowsIn(lines);
    match Earliest(rows, q.mission, q.key)
    case Some(e) => if SameContent(e, q) then Success(e) else Failure(HistoryConflict)
    case None => Success(NewEvent(rows, q))
  }

  /** The file after the append. */
  function Written(lines: seq<Line>, q: Request): seq<Line> {
    var rows := RowsIn(lines);
    if rows.Success? && Earliest(rows.value, q.mission, q.key).None? then lines + [Row(NewEvent(rows.value, q))]
    else lines
  }

  lemma RowsSnoc(lines: seq<Line>, e: HistoryEvent)
    ensures RowsIn(lines + [Row(e)]) == if RowsIn(lines).Failure? then RowsIn(lines)
      else Success(RowsIn(lines).value + [e])
  {
    assert (lines + [Row(e)])[..|lines|] == lines;
  }

  lemma OfMissionSnoc(rows: seq<HistoryEvent>, e: HistoryEvent, m: string)
    ensures OfMission(rows + [e], m) == if e.material.mission == m then OfMission(rows, m) + [e] else OfMission(rows, m)
  {
    assert (rows + [e])[..|rows|] == rows;
  }

  lemma {:induction false} EarliestFinds(rows: seq<HistoryEvent>, m: string, key: string)
    ensures match Earliest(rows, m, key)
      case Some(e) => e in rows && e.material.mission == m && e.material.key == key
      case None => forall e :: e in rows && e.material.mission == m ==> e.material.key != key
  {
    if rows != [] { EarliestFinds(rows[1..], m, key); }
  }

  lemma {:induction false} OfMissionMembers(rows: seq<HistoryEvent>, m: string)
    ensures forall e :: e in OfMission(rows, m) <==> e in rows && e.material.mission == m
  {
    if rows != [] {
      OfMissionMembers(rows[..|rows| - 1], m);
      assert forall e :: e in rows <==> e in rows[..|rows| - 1] || e == rows[|rows| - 1];
    }
  }

  lemma ChainedSnoc(rows: seq<HistoryEvent>, e: HistoryEvent)
    requires Chained(rows) && Follows(rows, e)
    ensures Chained(rows + [e])
  {
    var rows' := rows + [e];
    forall k | 0 <= k < |rows'| ensures Follows(rows'[..k], rows'[k]) {
      assert rows'[..k] == if k < |rows| then rows[..k] else rows;
    }
  }

  /** Every mission of the file replays. */
  ghost predicate Sound(lines: seq<Line>) {
    RowsIn(lines).Success? && forall m :: Chained(OfMission(RowsIn(lines).value, m))
  }

  /** An append leaves every mission replayable: its own with one more event or the same, and all
      others exactly as they were. */
  lemma AppendKeeps(lines: seq<Line>, q: Request)
    requires Sound(lines)
    ensures Sound(Written(lines, q)) && lines <= Written(lines, q)
    ensures var before, after := RowsIn(lines).value, RowsIn(Written(lines, q)).value;
      forall m :: OfMission(after, m) ==
        if m == q.mission && Earliest(before, m, q.key).None? then OfMission(before, m) + [NewEvent(before, q)]
        else OfMission(before, m)
  {
    var rows := RowsIn(lines).value;
    if Earliest(rows, q.mission, q.key).None? {
      var e := NewEvent(rows, q);
      RowsSnoc(lines, e);
      EarliestFinds(rows, q.mission, q.key);
      OfMissionMembers(rows, q.mission);
      var own := OfMission(rows, q.mission);
      forall i | 0 <= i < |own| ensures own[i].material.key != q.key {
        assert own[i] in own;
      }
      ChainedSnoc(own, e);
      forall m ensures OfMission(rows + [e], m) == if m == q.mission then own + [e] else OfMission(rows, m) {
        OfMissionSnoc(rows, e, m);
      }
    }
  }

  /** The file built by a list of appends, whatever missions they are for. */
  function Built(requests: seq<Request>): seq<Line> {
    if requests == [] then [] else Written(Built(requests[..|requests| - 1]), requests[|requests| - 1])
  }

  /** The events the appends wrote for a mission, in order. */
  function WrittenFor(requests: seq<Request>, m: string): seq<HistoryEvent> {
    if requests == [] then []
    else
      var before, q := Built(requests[..|requests| - 1]), requests[|requests| - 1];
      var earlier := WrittenFor(requests[..|requests| - 1], m);
      if q.mission == m && Written(before, q) != before && AppendOf(before, q).Success?
      then earlier + [AppendOf(before, q).value] else earlier
  }

  /** Any file built by `append`, with missions interleaved, replays each mission to exactly the
      events its appends returned, in order. */
  lemma {:induction false} BuiltReplays(requests: seq<Request>, m: string)
    ensures Sound(Built(requests)) && ReplayOf(Built(requests), m) == Success(WrittenFor(requests, m))
  {
    if requests == [] {
    } else {
      var n := |requests| - 1;
      BuiltReplays(requests[..n], m);
      AppendKeeps(Built(requests[..n]), requests[n]);
    }
  }

  /** Equal chain heads: two logs of a mission that both replay hold the same events, one by one,
      every field included. */
  lemma {:induction false} HeadDeterminesLog(a: seq<HistoryEvent>, b: seq<HistoryEvent>)
    requires Chained(a) && Chained(b) && Head(a) == Head(b)
    ensures a == b
  {
    hide Chained;
    if a == [] {
      if b != [] {
        HeadNotGenesis(b);
        assert false;
      }
    } else {
      HeadNotGenesis(a);
      assert b != [];
      HeadNotGenesis(b);
      var x, y := a[|a| - 1], b[|b| - 1];
      assert x == y;
      HeadDeterminesLog(a[..|a| - 1], b[..|b| - 1]);
      assert a == a[..|a| - 1] + [x] && b == b[..|b| - 1] + [y];
    }
  }

  lemma HeadNotGenesis(rows: seq<HistoryEvent>)
    requires Chained(rows) && rows != []
    ensures var n := |rows| - 1;
      && Head(rows) == rows[n].sha == DigestOf(rows[n].material)
      && rows[n].material.prev == Head(rows[..n]) && Chained(rows[..n])
  {
    ChainedPrefix(rows, |rows| - 1);
    assert Follows(rows[..|rows| - 1], rows[|rows| - 1]);
  }

  lemma ChainedPrefix(rows: seq<HistoryEvent>, n: nat)
    requires Chained(rows) && n <= |rows|
    ensures Chained(rows[..n])
  {
    forall k | 0 <= k < n ensures Follows(rows[..n][..k], rows[..n][k]) {
      assert rows[..n][..k] == rows[..k] && Follows(rows[..k], rows[k]);
    }
  }

  /** Rows as a replay wants them, in the fields: the k-th is numbered k + 1, carries its own hash and the
      hash before it, and has a key of its own. */
  predicate InSequence(rows: seq<HistoryEvent>) {
    && (forall k :: 0 <= k < |rows| ==>
          && rows[k].material.seqNo == k + 1
          && rows[k].material.prev == Head(rows[..k])
          && rows[k].sha == DigestOf(rows[k].material))
    && forall i, k :: 0 <= i < k < |rows| ==> rows[i].material.key != rows[k].material.key
  }

  /** When a replay succeeds: every line parses, and the rows of the mission are in sequence.  Any other
      file is refused for its integrity. */
  lemma ReplayExactly(lines: seq<Line>, m: string)
    ensures ReplayOf(lines, m).Success? <==>
      && (forall i :: 0 <= i < |lines| ==> !lines[i].Garbled?)
      && RowsIn(lines).Success? && InSequence(OfMission(RowsIn(lines).value, m))
    ensures ReplayOf(lines, m).Failure? ==> ReplayOf(lines, m).error == HistoryIntegrityFault
    ensures ReplayOf(lines, m).Success? ==> ReplayOf(lines, m).value == OfMission(RowsIn(lines).value, m)
  {
    hide RowsIn;
    hide OfMission;
    hide Chained;
    hide InSequence;
    RowsExactly(lines);
    if RowsIn(lines).Success? { ChainedExactly(OfMission(RowsIn(lines).value, m)); }
  }

  lemma {:induction false} RowsExactly(lines: seq<Line>)
    ensures RowsIn(lines).Success? <==> forall i :: 0 <= i < |lines| ==> !lines[i].Garbled?
    ensures RowsIn(lines).Failure? ==> RowsIn(lines).error == HistoryIntegrityFault
  {
    if lines != [] {
      var n := |lines| - 1;
      RowsExactly(lines[..n]);
      assert forall i :: 0 <= i < n ==> lines[..n][i] == lines[i];
    }
  }

  lemma ChainedExactly(rows: seq<HistoryEvent>)
    ensures Chained(rows) <==> InSequence(rows)
  {
    forall k | 0 <= k < |rows|
      ensures Follows(rows[..k], rows[k]) <==>
        && rows[k].material.seqNo == k + 1
        && rows[k].material.prev == Head(rows[..k])
        && rows[k].sha == DigestOf(rows[k].material)
        && forall i :: 0 <= i < k ==> rows[i].material.key != rows[k].material.key {
      assert forall i :: 0 <= i < k ==> rows[..k][i] == rows[i];
    }
  }

  /** A key appended before: the same actor, kind, text and evidence are answered with the event of
      then, whatever its time and event id; anything else is a conflict.  Neither writes. */
  lemma AppendedTwice(lines: seq<Line>, q: Request, later: Request)
    requires AppendOf(lines, q).Success? && later.mission == q.mission && later.key == q.key
    ensures var after := Written(lines, q);
      && Written(after, later) == after
      && AppendOf(after, later) ==
           if later.actor == q.actor && later.kind == q.kind && later.text == q.text && later.evidence == q.evidence
           then AppendOf(lines, q) else Failure(HistoryConflict)
  {
    var rows := RowsIn(lines).value;
    if Earliest(rows, q.mission, q.key).None? {
      RowsSnoc(lines, NewEvent(rows, q));
      EarliestSnoc(rows, NewEvent(rows, q), q.mission, q.key);
    } else {
      assert SameContent(Earliest(rows, q.mission, q.key).value, q);
    }
  }

  lemma {:induction false} EarliestSnoc(rows: seq<HistoryEvent>, e: HistoryEvent, m: string, key: string)
    requires Earliest(rows, m, key).None? && e.material.mission == m && e.material.key == key
    ensures Earliest(rows + [e], m, key) == Some(e)
  {
    if rows != [] {
      EarliestSnoc(rows[1..], e, m, key);
      assert (rows + [e])[1..] == rows[1..] + [e];
    }
  }

  /** A key new to the mission: one line, with the request's content, numbered and chained on from the
      mission's last row.  A file with a line that does not parse is refused as it is. */
  lemma AppendedFirst(lines: seq<Line>, q: Request)
    ensures if exists i :: 0 <= i < |lines| && lines[i].Garbled? then
        AppendOf(lines, q) == Failure(HistoryIntegrityFault) && Written(lines, q) == lines
      else
        && RowsIn(lines).Success?
        && var rows := RowsIn(lines).value;
           ((forall e :: e in rows && e.material.mission == q.mission ==> e.material.key != q.key) ==>
              && AppendOf(lines, q).Success?
              && var e, own := AppendOf(lines, q).value, OfMission(rows, q.mission);
                 && Written(lines, q) == lines + [Row(e)]
                 && e.material == Material("mcf_live_history/v1", q.mission, |own| + 1, q.eventId, q.actor, q.kind,
                      q.text, q.evidence, q.ts, q.key, if own == [] then Genesis else own[|own| - 1].sha)
                 && e.sha == DigestOf(e.material))
  {
    RowsExactly(lines);
    if RowsIn(lines).Success? { EarliestFinds(RowsIn(lines).value, q.mission, q.key); }
  }

  lemma {:induction false} GarbledStays(lines: seq<Line>, k: nat)
    requires k <= |lines| && RowsIn(lines[..k]) == Failure(HistoryIntegrityFault)
    ensures RowsIn(lines) == Failure(HistoryIntegrityFault)
    decreases |lines| - k
  {
    if k == |lines| {
      assert lines[..k] == lines;
    } else {
      assert lines[..k + 1][..k] == lines[..k];
      GarbledStays(lines, k + 1);
    }
  }

  datatype Projection = Projection(mission: string, count: nat, chainHead: Hash, history: seq<HistoryEvent>)

  class HistoryLog {
    var lines: seq<Line>

    constructor ()
      ensures lines == []
    {
      lines := [];
    }

    /** `_read_locked`. */
    method ReadRows() returns (r: Result<seq<HistoryEvent>>)
      ensures r == RowsIn(lines)
    {
      var rows: seq<HistoryEvent> := [];
      for n := 0 to |lines|
        invariant RowsIn(lines[..n]) == Success(rows)
      {
        assert lines[..n + 1][..n] == lines[..n];
        match lines[n] {
          case Blank =>
          case Garbled =>
            GarbledStays(lines, n + 1);
            return Failure(HistoryIntegrityFault);
          case Row(e) => rows := rows + [e];
        }
      }
      assert lines[..|lines|] == lines;
      r := Success(rows);
    }

    /** `append`. */
    method Append(q: Request) returns (r: Result<HistoryEvent>)
      modifies this
      ensures r == AppendOf(old(lines), q) && lines == Written(old(lines), q)
    {
      var rows := ReadRows();
      if rows.Failure? {
        return Failure(rows.error);
      }
      var all := rows.value;
      for n := 0 to |all|
        invariant Earliest(all, q.mission, q.key) == Earliest(all[n..], q.mission, q.key)
      {
        if all[n].material.mission == q.mission && all[n].material.key == q.key {
          if !SameContent(all[n], q) {
            return Failure(HistoryConflict);
          }
          return Success(all[n]);
        }
      }
      var own := Filtered(all, q.mission);
      var seqNo := |own| + 1;
      var prev := if own == [] then Genesis else own[|own| - 1].sha;
      var material := Material(SCHEMA, q.mission, seqNo, q.eventId, q.actor, q.kind, q.text, q.evidence, q.ts, q.key,
        prev);
      var event := HistoryEvent(material, DigestOf(material));
      lines := lines + [Row(event)];
      r := Success(event);
    }

    /** The comprehension over the rows of one mission. */
    method Filtered(rows: seq<HistoryEvent>, m: string) returns (own: seq<HistoryEvent>)
      ensures own == OfMission(rows, m)
    {
      own := [];
      for n := 0 to |rows|
        invariant own == OfMission(rows[..n], m)
      {
        assert rows[..n + 1] == rows[..n] + [rows[n]];
        OfMissionSnoc(rows[..n], rows[n], m);
        if rows[n].material.mission == m {
          own := own + [rows[n]];
        }
      }
      assert rows[..|rows|] == rows;
    }

    /** `replay`: the checks in their order, with the expected number, the previous digest and the
        keys seen. */
    method Replay(m: string) returns (r: Result<seq<HistoryEvent>>)
      ensures r == ReplayOf(lines, m)
    {
      var read := ReadRows();
      if read.Failure? {
        return read;
      }
      var rows := Filtered(read.value, m);
      var expected, prev := 1, Genesis;
      var events: seq<HistoryEvent> := [];
      var seen: set<string> := {};
      for n := 0 to |rows|
        invariant events == rows[..n] && expected == n + 1 && prev == Head(rows[..n])
        invariant forall key :: key in seen <==> HasKey(rows[..n], key)
        invariant Chained(rows[..n])
      {
        var e := rows[n];
        assert rows[..n + 1] == rows[..n] + [e];
        if e.material.seqNo != expected || e.material.prev != prev || DigestOf(e.material) != e.sha
          || e.material.key in seen {
          assert !Follows(rows[..n], rows[n]);
          return Failure(HistoryIntegrityFault);
        }
        KeysSnoc(rows[..n], e);
        ChainedSnoc(rows[..n], e);
        seen := seen + {e.material.key};
        events := events + [e];
        expected := expected + 1;
        prev := e.sha;
      }
      assert rows[..|rows|] == rows;
      r := Success(events);
    }

    /** `projection`. */
    method Project(m: string) returns (r: Result<Projection>)
      ensures ReplayOf(lines, m).Failure? ==> r == Failure(ReplayOf(lines, m).error)
      ensures ReplayOf(lines, m).Success? ==>
        var events := ReplayOf(lines, m).value; r == Success(Projection(m, |events|, Head(events), events))
    {
      var events := Replay(m);
      if events.Failure? {
        return Failure(events.error);
      }
      var rows := events.value;
      r := Success(Projection(m, |rows|, if rows == [] then Genesis else rows[|rows| - 1].sha, rows));
    }
  }

  lemma KeysSnoc(rows: seq<HistoryEvent>, e: HistoryEvent)
    ensures forall key :: HasKey(rows + [e], key) <==> HasKey(rows, key) || key == e.material.key
  {
    var rows' := rows + [e];
    forall key ensures HasKey(rows', key) <==> HasKey(rows, key) || key == e.material.key {
      if HasKey(rows, key) {
        var i :| 0 <= i < |rows| && rows[i].material.key == key;
        assert rows'[i].material.key == key;
      }
      assert rows'[|rows|] == e;
    }
  }

  /** Two files whose projections of a mission show the same chain head show the same history. */
  lemma SameHeadSameHistory(a: seq<Line>, b: seq<Line>, m: string)
    requires ReplayOf(a, m).Success? && ReplayOf(b, m).Success?
      && Head(ReplayOf(a, m).value) == Head(ReplayOf(b, m).value)
    ensures ReplayOf(a, m) == ReplayOf(b, m)
  {
    HeadDeterminesLog(ReplayOf(a, m).value, ReplayOf(b, m).value);
  }
}
