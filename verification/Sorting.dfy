/** Sorting by a comparison, as the libraries do it: stable, by insertion. */
module Sorting {
  /** Any two elements compare, and comparisons chain. */
  ghost predicate TotalPreorder<T(!new)>(le: (T, T) -> bool) {
    && (forall x, y :: le(x, y) || le(y, x))
    && (forall x, y, z :: le(x, y) && le(y, z) ==> le(x, z))
  }

  ghost predicate SortedBy<T>(xs: seq<T>, le: (T, T) -> bool) {
    forall i, j :: 0 <= i < j < |xs| ==> le(xs[i], xs[j])
  }

  /** Before the first element it need not follow. */
  function InsertBy<T(!new)>(x: T, xs: seq<T>, le: (T, T) -> bool): (r: seq<T>)
    requires TotalPreorder(le) && SortedBy(xs, le)
    ensures SortedBy(r, le) && multiset(r) == multiset(xs) + multiset{x}
  {
    if xs == [] then [x]
    else if le(x, xs[0]) then
      InFront(x, xs, le);
      [x] + xs
    else
      var rest := InsertBy(x, xs[1..], le);
      assert xs == [xs[0]] + xs[1..];
      Behind(x, xs, rest, le);
      [xs[0]] + rest
  }

  lemma InFront<T(!new)>(x: T, xs: seq<T>, le: (T, T) -> bool)
    requires TotalPreorder(le) && SortedBy(xs, le) && xs != [] && le(x, xs[0])
    ensures SortedBy([x] + xs, le)
  {
    forall j | 0 <= j < |xs| ensures le(x, xs[j]) {
      if j > 0 { assert le(xs[0], xs[j]); }
    }
  }

  lemma Behind<T(!new)>(x: T, xs: seq<T>, rest: seq<T>, le: (T, T) -> bool)
    requires TotalPreorder(le) && SortedBy(xs, le) && xs != [] && !le(x, xs[0]) && SortedBy(rest, le)
    requires multiset(rest) == multiset(xs[1..]) + multiset{x}
    ensures SortedBy([xs[0]] + rest, le)
  {
    forall j | 0 <= j < |rest| ensures le(xs[0], rest[j]) {
      assert rest[j] in multiset(rest);
      if rest[j] != x {
        assert rest[j] in multiset(xs[1..]);
        var k :| 0 <= k < |xs| - 1 && xs[1..][k] == rest[j];
        assert le(xs[0], xs[k + 1]);
      }
    }
  }

  function SortBy<T(!new)>(xs: seq<T>, le: (T, T) -> bool): (r: seq<T>)
    requires TotalPreorder(le)
    ensures SortedBy(r, le) && multiset(r) == multiset(xs)
  {
    if xs == [] then []
    else
      assert xs == [xs[0]] + xs[1..];
      InsertBy(xs[0], SortBy(xs[1..], le), le)
  }

  /** Sorting what is in order changes nothing. */
  lemma {:induction false} SortedStays<T(!new)>(xs: seq<T>, le: (T, T) -> bool)
    requires TotalPreorder(le) && SortedBy(xs, le)
    ensures SortBy(xs, le) == xs
  {
    if xs != [] {
      SortedStays(xs[1..], le);
      assert xs == [xs[0]] + xs[1..];
    }
  }
}
