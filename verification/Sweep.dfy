/** The peak-concurrency sweep line: sorting the ends of the intervals and scanning them gives the
    largest number of intervals that share a point. */
module Sweep {
  import opened Base
  import opened Sorting

  datatype Interval = Interval(start: real, end: real)

  datatype Point = Point(at: real, delta: int)

  /** Two points per interval, in the order of the rows. */
  function PointsOf(rows: seq<Interval>): seq<Point> {
    if rows == [] then []
    else
      var row := rows[|rows| - 1];
      PointsOf(rows[..|rows| - 1]) + [Point(row.start, 1), Point(row.end, -1)]
  }

  /** The sort key: the time, and at the same time starts before ends. */
  predicate Before(p: Point, q: Point) {
    p.at < q.at || (p.at == q.at && p.delta >= q.delta)
  }

  predicate InOrder(ps: seq<Point>) {
    forall i, j :: 0 <= i < j < |ps| ==> Before(ps[i], ps[j])
  }

  lemma BeforeOrders()
    ensures TotalPreorder(Before)
  {
  }

  /** The library's `sorted` with that key. */
  function SortPoints(ps: seq<Point>): (r: seq<Point>)
    ensures InOrder(r) && multiset(r) == multiset(ps)
  {
    BeforeOrders();
    SortBy(ps, Before)
  }

  /** Which points are counted. */
  datatype Filter =
    | StartsUpTo(t: real) | StartsBefore(t: real) | EndsUpTo(t: real) | EndsBefore(t: real) | AnyStart | AnyEnd

  predicate Pass(f: Filter, p: Point) {
    match f
    case StartsUpTo(t) => p.delta == 1 && p.at <= t
    case StartsBefore(t) => p.delta == 1 && p.at < t
    case EndsUpTo(t) => p.delta == -1 && p.at <= t
    case EndsBefore(t) => p.delta == -1 && p.at < t
    case AnyStart => p.delta == 1
    case AnyEnd => p.delta == -1
  }

  function Count(ps: seq<Point>, f: Filter): nat {
    if ps == [] then 0
    else Count(ps[..|ps| - 1], f) + if Pass(f, ps[|ps| - 1]) then 1 else 0
  }

  lemma {:induction false} CountAppend(a: seq<Point>, b: seq<Point>, f: Filter)
    ensures Count(a + b, f) == Count(a, f) + Count(b, f)
  {
    if b == [] {
      assert a + b == a;
    } else {
      assert (a + b)[..|a + b| - 1] == a + b[..|b| - 1];
      CountAppend(a, b[..|b| - 1], f);
    }
  }

  lemma {:induction false} InsertCount(p: Point, ps: seq<Point>, f: Filter)
    requires TotalPreorder(Before) && InOrder(ps)
    ensures Count(InsertBy(p, ps, Before), f) == Count([p], f) + Count(ps, f)
  {
    if ps == [] {
    } else if Before(p, ps[0]) {
      CountAppend([p], ps, f);
    } else {
      InsertCount(p, ps[1..], f);
      CountAppend([ps[0]], InsertBy(p, ps[1..], Before), f);
      assert ps == [ps[0]] + ps[1..];
      CountAppend([ps[0]], ps[1..], f);
    }
  }

  /** Sorting loses and adds no point. */
  lemma {:induction false} SortCount(ps: seq<Point>, f: Filter)
    ensures Count(SortPoints(ps), f) == Count(ps, f)
  {
    BeforeOrders();
    if ps != [] {
      SortCount(ps[1..], f);
      InsertCount(ps[0], SortPoints(ps[1..]), f);
      assert ps == [ps[0]] + ps[1..];
      CountAppend([ps[0]], ps[1..], f);
    }
  }

  lemma {:induction false} NoneCounted(ps: seq<Point>, f: Filter)
    requires forall p :: p in ps ==> !Pass(f, p)
    ensures Count(ps, f) == 0
  {
    if ps != [] { NoneCounted(ps[..|ps| - 1], f); }
  }

  /** The running count of the scan. */
  function Sum(ps: seq<Point>): int {
    if ps == [] then 0 else Sum(ps[..|ps| - 1]) + ps[|ps| - 1].delta
  }

  lemma {:induction false} SumIsBalance(ps: seq<Point>)
    requires forall p :: p in ps ==> p.delta == 1 || p.delta == -1
    ensures Sum(ps) == Count(ps, AnyStart) - Count(ps, AnyEnd)
  {
    if ps != [] {
      SumIsBalance(ps[..|ps| - 1]);
      assert ps[|ps| - 1] in ps;
    }
  }

  /** The largest running count, 0 at the beginning included. */
  function Highest(ps: seq<Point>): int {
    if ps == [] then 0 else Max(Highest(ps[..|ps| - 1]), Sum(ps))
  }

  lemma {:induction false} HighestIsMax(ps: seq<Point>)
    ensures forall k :: 0 <= k <= |ps| ==> Sum(ps[..k]) <= Highest(ps)
    ensures exists k :: 0 <= k <= |ps| && Sum(ps[..k]) == Highest(ps)
  {
    if ps == [] {
      assert Sum(ps[..0]) == Highest(ps);
    } else {
      var n := |ps| - 1;
      HighestIsMax(ps[..n]);
      forall k | 0 <= k <= |ps| ensures Sum(ps[..k]) <= Highest(ps) {
        if k <= n { assert ps[..n][..k] == ps[..k]; } else { assert ps[..k] == ps; }
      }
      if Highest(ps) == Sum(ps) {
        assert Sum(ps[..|ps|]) == Highest(ps) by { assert ps[..|ps|] == ps; }
      } else {
        var k :| 0 <= k <= n && Sum(ps[..n][..k]) == Highest(ps[..n]);
        assert ps[..n][..k] == ps[..k];
      }
    }
  }

  /** The reference notion: how many closed intervals contain the time. */
  function Containing(rows: seq<Interval>, t: real): nat {
    if rows == [] then 0
    else
      var row := rows[|rows| - 1];
      Containing(rows[..|rows| - 1], t) + if row.start <= t <= row.end then 1 else 0
  }

  predicate Forward(rows: seq<Interval>) {
    forall i :: 0 <= i < |rows| ==> rows[i].start <= rows[i].end
  }

  /** What contains a time has started by it and not ended before it. */
  lemma {:induction false} Balance(rows: seq<Interval>, t: real)
    requires Forward(rows)
    ensures var ps := PointsOf(rows);
      && Containing(rows, t) == Count(ps, StartsUpTo(t)) - Count(ps, EndsBefore(t))
      && Count(ps, EndsBefore(t)) <= Count(ps, StartsBefore(t))
      && Count(ps, EndsUpTo(t)) <= Count(ps, StartsUpTo(t))
  {
    if rows != [] {
      var n := |rows| - 1;
      Balance(rows[..n], t);
      var earlier, row := PointsOf(rows[..n]), rows[n];
      var pair := [Point(row.start, 1), Point(row.end, -1)];
      assert pair == [pair[0]] + [pair[1]];
      forall f: Filter ensures Count(earlier + pair, f) ==
        Count(earlier, f) + (if Pass(f, pair[0]) then 1 else 0) + (if Pass(f, pair[1]) then 1 else 0) {
        CountAppend(earlier, pair, f);
        CountAppend([pair[0]], [pair[1]], f);
      }
    }
  }

  lemma {:induction false} UnitDeltas(rows: seq<Interval>)
    ensures forall p :: p in PointsOf(rows) ==> p.delta == 1 || p.delta == -1
  {
    if rows != [] { UnitDeltas(rows[..|rows| - 1]); }
  }

  /** A prefix of the sorted points counts what passes, if nothing after it does. */
  lemma PrefixCount(ps: seq<Point>, k: nat, f: Filter)
    requires k <= |ps|
    ensures Count(ps[..k], f) <= Count(ps, f)
    ensures (forall q :: q in ps[k..] ==> !Pass(f, q)) ==> Count(ps[..k], f) == Count(ps, f)
  {
    assert ps == ps[..k] + ps[k..];
    CountAppend(ps[..k], ps[k..], f);
    if forall q :: q in ps[k..] ==> !Pass(f, q) { NoneCounted(ps[k..], f); }
  }

  lemma {:induction false} CountLess(ps: seq<Point>, f: Filter, g: Filter)
    requires forall p :: p in ps && Pass(f, p) ==> Pass(g, p)
    ensures Count(ps, f) <= Count(ps, g)
  {
    if ps != [] {
      CountLess(ps[..|ps| - 1], f, g);
      assert ps[|ps| - 1] in ps;
    }
  }

  predicate Unit(ps: seq<Point>) { forall p :: p in ps ==> p.delta == 1 || p.delta == -1 }

  lemma UnitPart(ps: seq<Point>, k: nat)
    requires Unit(ps) && k <= |ps|
    ensures Unit(ps[..k]) && Unit(ps[k..])
  {
    assert forall p :: p in ps[..k] ==> p in ps;
    assert forall p :: p in ps[k..] ==> p in ps;
  }

  /** What lies before a point of the sorted list, and what lies after it. */
  lemma AroundPoint(ps: seq<Point>, k: nat)
    requires InOrder(ps) && k < |ps|
    ensures NoneAfter(ps[..k + 1], ps[k]) && NoneBefore(ps[k + 1..], ps[k])
  {
    hide Before;
    BeforeSelf(ps[k]);
    var prefix, suffix := ps[..k + 1], ps[k + 1..];
    forall q | q in prefix ensures Before(q, ps[k]) {
      var i :| 0 <= i < k + 1 && prefix[i] == q;
      assert q == ps[i];
    }
    forall q | q in suffix ensures Before(ps[k], q) {
      var i :| 0 <= i < |ps| - k - 1 && suffix[i] == q;
      assert ps[k + 1 + i] == q;
    }
  }

  predicate NoneAfter(qs: seq<Point>, p: Point) { forall q :: q in qs ==> Before(q, p) }

  predicate NoneBefore(qs: seq<Point>, p: Point) { forall q :: q in qs ==> Before(p, q) }

  lemma BeforeSelf(p: Point)
    ensures Before(p, p)
  {
  }

  /** The starts and ends counted up to and including a point of the sorted list. */
  lemma PrefixSplit(ps: seq<Point>, k: nat)
    requires InOrder(ps) && Unit(ps) && k < |ps|
    ensures var t, starts, ends := ps[k].at, Count(ps[..k + 1], AnyStart), Count(ps[..k + 1], AnyEnd);
      if ps[k].delta == 1 then
        Count(ps, StartsBefore(t)) <= starts <= Count(ps, StartsUpTo(t)) && ends == Count(ps, EndsBefore(t))
      else
        starts == Count(ps, StartsUpTo(t)) && Count(ps, EndsBefore(t)) <= ends <= Count(ps, EndsUpTo(t))
  {
    hide InOrder;
    hide Count;
    var p, prefix, suffix := ps[k], ps[..k + 1], ps[k + 1..];
    var t := p.at;
    AroundPoint(ps, k);
    UnitPart(ps, k + 1);
    PrefixCount(ps, k + 1, StartsUpTo(t));
    PrefixCount(ps, k + 1, StartsBefore(t));
    PrefixCount(ps, k + 1, EndsUpTo(t));
    PrefixCount(ps, k + 1, EndsBefore(t));
    CountLess(prefix, AnyStart, StartsUpTo(t));
    CountLess(prefix, StartsUpTo(t), AnyStart);
    CountLess(prefix, StartsBefore(t), AnyStart);
    CountLess(prefix, AnyEnd, EndsUpTo(t));
    CountLess(prefix, EndsBefore(t), AnyEnd);
    assert p in ps;
    if p.delta == 1 {
      CountLess(prefix, AnyEnd, EndsBefore(t));
    }
  }

  /** After any point the running count is at least 0 and at most what contains that point. */
  lemma PrefixBounds(rows: seq<Interval>, k: nat)
    requires Forward(rows) && k < |SortPoints(PointsOf(rows))|
    ensures var ps := SortPoints(PointsOf(rows)); 0 <= Sum(ps[..k + 1]) <= Containing(rows, ps[k].at)
  {
    hide Count;
    hide Sum;
    hide InOrder;
    var ps := SortPoints(PointsOf(rows));
    var t := ps[k].at;
    Sorted(rows);
    UnitPart(ps, k + 1);
    SumIsBalance(ps[..k + 1]);
    PrefixSplit(ps, k);
    Balance(rows, t);
    SortCount(PointsOf(rows), StartsUpTo(t));
    SortCount(PointsOf(rows), StartsBefore(t));
    SortCount(PointsOf(rows), EndsUpTo(t));
    SortCount(PointsOf(rows), EndsBefore(t));
  }

  lemma Sorted(rows: seq<Interval>)
    ensures Unit(SortPoints(PointsOf(rows)))
  {
    UnitDeltas(rows);
    forall p | p in SortPoints(PointsOf(rows)) ensures p.delta == 1 || p.delta == -1 {
      assert p in multiset(SortPoints(PointsOf(rows)));
      assert p in multiset(PointsOf(rows));
    }
  }

  /** What contains a time is the running count at some moment of the scan. */
  lemma ReachedAt(rows: seq<Interval>, t: real) returns (k: nat)
    requires Forward(rows)
    ensures var ps := SortPoints(PointsOf(rows)); k <= |ps| && Sum(ps[..k]) == Containing(rows, t)
  {
    hide Count;
    hide Sum;
    var ps := SortPoints(PointsOf(rows));
    k := CutAt(ps, t);
    Sorted(rows);
    UnitPart(ps, k);
    SumIsBalance(ps[..k]);
    CutCounts(ps, t, k);
    Balance(rows, t);
    SortCount(PointsOf(rows), StartsUpTo(t));
    SortCount(PointsOf(rows), EndsBefore(t));
  }

  /** The point belongs to the part of the scan that decides what contains `t`. */
  predicate Early(p: Point, t: real) { p.at < t || (p.at == t && p.delta == 1) }

  predicate AllEarly(qs: seq<Point>, t: real) { forall q :: q in qs ==> Early(q, t) }

  lemma {:induction false} CutAt(ps: seq<Point>, t: real) returns (k: nat)
    requires InOrder(ps)
    ensures k <= |ps| && AllEarly(ps[..k], t)
    ensures k < |ps| ==> !Early(ps[k], t)
  {
    if ps == [] || !Early(ps[0], t) {
      k := 0;
    } else {
      var rest := CutAt(ps[1..], t);
      k := rest + 1;
      assert ps[..k] == [ps[0]] + ps[1..][..rest];
    }
  }

  lemma CutCounts(ps: seq<Point>, t: real, k: nat)
    requires InOrder(ps) && Unit(ps) && k <= |ps|
    requires AllEarly(ps[..k], t) && (k < |ps| ==> !Early(ps[k], t))
    ensures Count(ps[..k], AnyStart) == Count(ps, StartsUpTo(t)) && Count(ps[..k], AnyEnd) == Count(ps, EndsBefore(t))
  {
    hide Count;
    hide InOrder;
    var prefix := ps[..k];
    UnitPart(ps, k);
    var suffix := ps[k..];
    if k < |ps| {
      AroundPoint(ps, k);
      var later := ps[k + 1..];
      assert suffix == [ps[k]] + later;
      assert ps[k] in suffix;
      assert forall q :: q in suffix ==> q == ps[k] || q in later;
    }
    assert forall q :: q in suffix ==> !Pass(StartsUpTo(t), q) && !Pass(EndsBefore(t), q);
    PrefixCount(ps, k, StartsUpTo(t));
    PrefixCount(ps, k, EndsBefore(t));
    CountLess(prefix, AnyStart, StartsUpTo(t));
    CountLess(prefix, StartsUpTo(t), AnyStart);
    CountLess(prefix, AnyEnd, EndsBefore(t));
    CountLess(prefix, EndsBefore(t), AnyEnd);
  }

  /** `peak` is the largest number of intervals that contain one time. */
  ghost predicate IsPeak(rows: seq<Interval>, peak: int) {
    && (forall t :: Containing(rows, t) <= peak)
    && (if rows == [] then peak == 0 else exists t :: Containing(rows, t) == peak)
  }

  /** The sweep equals its specification, and its running count is never negative. */
  lemma SweepIsPeak(rows: seq<Interval>)
    requires Forward(rows)
    ensures IsPeak(rows, Highest(SortPoints(PointsOf(rows))))
    ensures forall k :: 0 <= k <= |SortPoints(PointsOf(rows))| ==> Sum(SortPoints(PointsOf(rows))[..k]) >= 0
  {
    var ps := SortPoints(PointsOf(rows));
    HighestIsMax(ps);
    forall t ensures Containing(rows, t) <= Highest(ps) {
      var k := ReachedAt(rows, t);
    }
    forall k | 0 <= k <= |ps| ensures Sum(ps[..k]) >= 0 {
      if k > 0 { PrefixBounds(rows, k - 1); }
    }
    if rows != [] {
      var k :| 0 <= k <= |ps| && Sum(ps[..k]) == Highest(ps);
      if k > 0 {
        PrefixBounds(rows, k - 1);
        assert Containing(rows, ps[k - 1].at) == Highest(ps);
      } else {
        assert Containing(rows, rows[0].start) == Highest(ps);
      }
    }
  }

  /** `_peak_concurrency`: build the points, sort them, scan. */
  method PeakConcurrency(rows: seq<Interval>) returns (peak: int)
    ensures peak == Highest(SortPoints(PointsOf(rows)))
    ensures Forward(rows) ==> IsPeak(rows, peak)
  {
    var points: seq<Point> := [];
    for i := 0 to |rows|
      invariant points == PointsOf(rows[..i])
    {
      assert rows[..i + 1][..i] == rows[..i];
      points := points + [Point(rows[i].start, 1), Point(rows[i].end, -1)];
    }
    assert rows[..|rows|] == rows;
    peak := Scan(SortPoints(points));
    if Forward(rows) { SweepIsPeak(rows); }
  }

  method Scan(ps: seq<Point>) returns (peak: int)
    ensures peak == Highest(ps)
  {
    var active := 0;
    peak := 0;
    for k := 0 to |ps|
      invariant active == Sum(ps[..k]) && peak == Highest(ps[..k])
    {
      assert ps[..k + 1][..k] == ps[..k];
      active := active + ps[k].delta;
      peak := Max(peak, active);
    }
    assert ps[..|ps|] == ps;
  }

  /** A worker's evidence, with the times it reports. */
  datatype Evidence = Evidence(started: Option<real>, ended: Option<real>)

  function Timed(items: seq<Evidence>): seq<Interval> {
    if items == [] then []
    else
      var item := items[|items| - 1];
      Timed(items[..|items| - 1])
      + if item.started.Some? && item.ended.Some? then [Interval(item.started.value, item.ended.value)] else []
  }

  lemma TimedSnoc(items: seq<Evidence>, i: nat)
    requires i < |items|
    ensures var item, earlier := items[i], PointsOf(Timed(items[..i]));
      if item.started.Some? && item.ended.Some? then
        PointsOf(Timed(items[..i + 1])) == earlier + [Point(item.started.value, 1), Point(item.ended.value, -1)]
      else PointsOf(Timed(items[..i + 1])) == earlier
  {
    assert items[..i + 1][..i] == items[..i];
    var earlier, item := Timed(items[..i]), items[i];
    if item.started.Some? && item.ended.Some? {
      var row := Interval(item.started.value, item.ended.value);
      assert Timed(items[..i + 1]) == earlier + [row] && (earlier + [row])[..|earlier|] == earlier;
    } else {
      assert Timed(items[..i + 1]) == earlier + [] == earlier;
    }
  }

  /** The same sweep in `collect`, over the items that report both times. */
  method PeakOfEvidence(items: seq<Evidence>) returns (peak: int)
    ensures peak == Highest(SortPoints(PointsOf(Timed(items))))
    ensures Forward(Timed(items)) ==> IsPeak(Timed(items), peak)
  {
    var points: seq<Point> := [];
    for i := 0 to |items|
      invariant points == PointsOf(Timed(items[..i]))
    {
      TimedSnoc(items, i);
      if items[i].started.Some? && items[i].ended.Some? {
        points := points + [Point(items[i].started.value, 1), Point(items[i].ended.value, -1)];
      }
    }
    assert items[..|items|] == items;
    peak := Scan(SortPoints(points));
    if Forward(Timed(items)) { SweepIsPeak(Timed(items)); }
  }
}
