/** The order in which the programs sort identifiers, and sorting itself. */
module Ordering {
  import opened Base
  import opened Sorting

  /** Lexicographic order of strings by code point. */
  predicate Below(a: string, b: string) {
    a == "" || (b != "" && (a[0] < b[0] || (a[0] == b[0] && Below(a[1..], b[1..]))))
  }

  lemma {:induction false} BelowTotal(a: string, b: string)
    ensures Below(a, b) || Below(b, a)
    ensures Below(a, b) && Below(b, a) ==> a == b
  {
    if a != "" && b != "" && a[0] == b[0] {
      BelowTotal(a[1..], b[1..]);
      assert a == [a[0]] + a[1..] && b == [b[0]] + b[1..];
    }
  }

  lemma {:induction false} BelowTransitive(a: string, b: string, c: string)
    requires Below(a, b) && Below(b, c)
    ensures Below(a, c)
  {
    if a != "" && a[0] == b[0] == c[0] {
      BelowTransitive(a[1..], b[1..], c[1..]);
    }
  }

  /** Strictly increasing, hence without repetition. */
  ghost predicate Ascending(xs: seq<string>) {
    forall i, j :: 0 <= i < j < |xs| ==> Below(xs[i], xs[j]) && xs[i] != xs[j]
  }

  /** Increasing, repetitions allowed. */
  ghost predicate Sorted(xs: seq<string>) {
    forall i, j :: 0 <= i < j < |xs| ==> Below(xs[i], xs[j])
  }

  /** An increasing sequence is determined by the set of its elements. */
  lemma {:induction false} AscendingUnique(xs: seq<string>, ys: seq<string>)
    requires Ascending(xs) && Ascending(ys) && Elements(xs) == Elements(ys)
    ensures xs == ys
  {
    if xs == [] {
      assert forall i :: 0 <= i < |ys| ==> ys[i] in Elements(ys);
    } else {
      assert xs[0] in Elements(ys) && ys != [];
      assert ys[0] in Elements(xs);
      var i :| 0 <= i < |xs| && xs[i] == ys[0];
      var j :| 0 <= j < |ys| && ys[j] == xs[0];
      BelowTotal(xs[0], ys[0]);
      assert xs[0] == ys[0];
      forall x ensures x in Elements(xs[1..]) <==> x in Elements(ys[1..]) {
        if x in xs[1..] {
          assert x != xs[0] && x in Elements(xs);
        }
        if x in ys[1..] {
          assert x != ys[0] && x in Elements(ys);
        }
      }
      AscendingUnique(xs[1..], ys[1..]);
    }
  }

  lemma BelowOrders()
    ensures TotalPreorder(Below)
  {
    forall a, b ensures Below(a, b) || Below(b, a) { BelowTotal(a, b); }
    forall a, b, c | Below(a, b) && Below(b, c) ensures Below(a, c) { BelowTransitive(a, b, c); }
  }

  /** The library's `sorted` on a list of strings. */
  function Sort(xs: seq<string>): (r: seq<string>)
    ensures Sorted(r)
    ensures multiset(r) == multiset(xs)
  {
    BelowOrders();
    SortBy(xs, Below)
  }

  lemma {:induction false} DistinctMultiset<T>(xs: seq<T>)
    ensures Distinct(xs) <==> forall x :: x in multiset(xs) ==> multiset(xs)[x] == 1
  {
    if xs == [] {
    } else {
      var n := |xs| - 1;
      assert xs == xs[..n] + [xs[n]];
      DistinctMultiset(xs[..n]);
      if Distinct(xs) {
        assert xs[n] !in xs[..n];
        assert multiset(xs[..n])[xs[n]] == 0;
      }
      if forall x :: x in multiset(xs) ==> multiset(xs)[x] == 1 {
        forall x | x in multiset(xs[..n]) ensures multiset(xs[..n])[x] == 1 {
          assert x in multiset(xs) && multiset(xs)[x] == 1;
        }
        assert multiset(xs)[xs[n]] == 1;
        assert xs[n] !in multiset(xs[..n]);
        assert Distinct(xs[..n]);
      }
    }
  }

  lemma SortDistinct(xs: seq<string>)
    requires Distinct(xs)
    ensures Ascending(Sort(xs)) && Elements(Sort(xs)) == Elements(xs) && |Sort(xs)| == |xs|
  {
    var ys := Sort(xs);
    DistinctMultiset(xs);
    DistinctMultiset(ys);
    forall x ensures x in ys <==> x in xs {
      assert x in multiset(ys) <==> x in multiset(xs);
    }
    assert |multiset(ys)| == |ys| && |multiset(xs)| == |xs|;
  }

  /** The elements of a set in increasing order. */
  ghost function SortSet(s: set<string>): (r: seq<string>)
    ensures Ascending(r) && Elements(r) == s
  {
    EnumerationExists(s);
    var xs :| Distinct(xs) && Elements(xs) == s;
    SortDistinct(xs);
    Sort(xs)
  }

  lemma {:induction false} EnumerationExists<T(!new)>(s: set<T>)
    ensures exists xs: seq<T> :: Distinct(xs) && Elements(xs) == s
  {
    if s == {} {
      var none: seq<T> := [];
      assert Distinct(none) && Elements(none) == s;
    } else {
      var x :| x in s;
      EnumerationExists(s - {x});
      var xs :| Distinct(xs) && Elements(xs) == s - {x};
      var ys := xs + [x];
      assert Distinct(ys);
      assert forall y :: y in ys <==> y in xs || y == x;
      assert forall y :: y in xs <==> y in Elements(xs);
    }
  }

  /** Sorting any duplicate-free list of a set's elements gives the one increasing list. */
  lemma SortIsSortSet(xs: seq<string>)
    requires Distinct(xs)
    ensures Sort(xs) == SortSet(Elements(xs))
  {
    SortDistinct(xs);
    AscendingUnique(Sort(xs), SortSet(Elements(xs)));
  }

  lemma AscendingDistinct(xs: seq<string>)
    requires Ascending(xs)
    ensures Distinct(xs)
  {
  }

  /** The distinct texts of a list, sorted. */
  method SortedUnique(xs: seq<string>) returns (r: seq<string>)
    ensures r == SortSet(Elements(xs))
  {
    var unique: seq<string> := [];
    for i := 0 to |xs|
      invariant Distinct(unique) && Elements(unique) == Elements(xs[..i])
    {
      assert xs[..i + 1] == xs[..i] + [xs[i]];
      assert forall x :: x in unique <==> x in Elements(unique);
      assert forall x :: x in xs[..i] <==> x in Elements(xs[..i]);
      if xs[i] !in unique {
        assert forall x :: x in unique + [xs[i]] <==> x in unique || x == xs[i];
        unique := unique + [xs[i]];
      }
    }
    assert xs[..|xs|] == xs;
    SortIsSortSet(unique);
    r := Sort(unique);
  }
}
