/** The order of `topological_order`, round by round: nodes come by the length of the longest way down
    their dependencies, and those of one length in ascending order of their ids. */
module RoundOrder {
  import opened Base
  import opened Ordering
  import opened Digraph

  /** The round that lists the node, counted from the one after `done`. */
  ghost function Depth(deps: map<string, seq<string>>, done: set<string>, n: string): nat
    decreases |deps.Keys - done|
  {
    var ready := ReadySet(deps, done);
    if ready == {} || n in ready then 0
    else
      FewerLeft(deps, done);
      1 + Depth(deps, done + ready, n)
  }

  lemma FewerLeft(deps: map<string, seq<string>>, done: set<string>)
    requires ReadySet(deps, done) != {}
    ensures |deps.Keys - (done + ReadySet(deps, done))| < |deps.Keys - done|
  {
    var n :| n in ReadySet(deps, done);
    SubsetCount(deps.Keys - (done + ReadySet(deps, done)), (deps.Keys - done) - {n});
  }

  /** It is zero when nothing the node depends on is left, and otherwise one more than the largest
      among its dependencies. */
  lemma {:induction false} DepthExactly(deps: map<string, seq<string>>, done: set<string>, n: string)
    requires Closed(deps) && Acyclic(deps) && done <= deps.Keys && n in deps && n !in done
    ensures Depth(deps, done, n) == 0 <==> forall d :: d in deps[n] ==> d in done
    ensures forall d :: d in deps[n] && d !in done ==> Depth(deps, done, d) < Depth(deps, done, n)
    ensures Depth(deps, done, n) > 0 ==>
      exists d :: d in deps[n] && d !in done && Depth(deps, done, d) + 1 == Depth(deps, done, n)
    decreases |deps.Keys - done|
  {
    AlwaysProgress(deps, done);
    var ready := ReadySet(deps, done);
    if n in ready {
      assert forall d :: d in deps[n] ==> d in Elements(deps[n]);
    } else {
      FewerLeft(deps, done);
      var later := done + ready;
      DepthExactly(deps, later, n);
      if d :| d in deps[n] && d !in done && d !in ready {
        assert d in deps by { assert DependsOn(deps, n, d); }
      }
      assert exists d :: d in deps[n] && d !in done;
      forall d | d in deps[n] && d !in done
        ensures Depth(deps, done, d) < Depth(deps, done, n)
        ensures d in ready ==> Depth(deps, done, d) == 0
        ensures d !in ready ==> Depth(deps, done, d) == 1 + Depth(deps, later, d) {
      }
      if Depth(deps, later, n) == 0 {
        var d :| d in deps[n] && d !in done;
        assert d in ready;
      } else {
        var d :| d in deps[n] && d !in later && Depth(deps, later, d) + 1 == Depth(deps, later, n);
        assert Depth(deps, done, d) + 1 == Depth(deps, done, n);
      }
    }
  }

  ghost predicate Earlier(deps: map<string, seq<string>>, done: set<string>, a: string, b: string) {
    || Depth(deps, done, a) < Depth(deps, done, b)
    || (Depth(deps, done, a) == Depth(deps, done, b) && Below(a, b) && a != b)
  }

  /** The rounds list the nodes by depth, and those of one depth in ascending order. */
  lemma {:induction false} RoundsByDepth(deps: map<string, seq<string>>, done: set<string>)
    requires Closed(deps) && Acyclic(deps) && done <= deps.Keys
    ensures var r := Rounds(deps, done); forall i, j :: 0 <= i < j < |r| ==> Earlier(deps, done, r[i], r[j])
    decreases |deps.Keys - done|
  {
    hide Closed;
    hide Acyclic;
    hide Earlier;
    hide ReadySet;
    hide LayeredAfter;
    hide Rounds;
    RoundsUnfold(deps, done);
    var ready := ReadySet(deps, done);
    if ready != {} {
      FewerLeft(deps, done);
      ReadyLeft(deps, done);
      RoundsByDepth(deps, done + ready);
      RoundsLayered(deps, done + ready);
      OneMoreRound(deps, done, Rounds(deps, done + ready));
    }
  }

  lemma RoundsUnfold(deps: map<string, seq<string>>, done: set<string>)
    ensures var ready := ReadySet(deps, done);
      Rounds(deps, done) == if ready == {} then [] else SortSet(ready) + Rounds(deps, done + ready)
  {
  }

  lemma ReadyLeft(deps: map<string, seq<string>>, done: set<string>)
    ensures ReadySet(deps, done) <= deps.Keys && ReadySet(deps, done) !! done
  {
  }

  lemma OneMoreRound(deps: map<string, seq<string>>, done: set<string>, rest: seq<string>)
    requires var later := done + ReadySet(deps, done);
      && ReadySet(deps, done) != {} && LayeredAfter(deps, later, rest)
      && forall i, j :: 0 <= i < j < |rest| ==> Earlier(deps, later, rest[i], rest[j])
    ensures var r := SortSet(ReadySet(deps, done)) + rest;
      forall i, j :: 0 <= i < j < |r| ==> Earlier(deps, done, r[i], r[j])
  {
    hide Below;
    hide ReadySet;
    var ready := ReadySet(deps, done);
    var first, later := SortSet(ready), done + ready;
    var r := first + rest;
    forall i | 0 <= i < |first| ensures Depth(deps, done, first[i]) == 0 { assert first[i] in Elements(first); }
    forall i | 0 <= i < |rest| ensures Depth(deps, done, rest[i]) == 1 + Depth(deps, later, rest[i]) {
      assert rest[i] in Elements(rest);
    }
    forall i, j | 0 <= i < j < |r| ensures Earlier(deps, done, r[i], r[j]) {
      if i >= |first| { assert Earlier(deps, later, rest[i - |first|], rest[j - |first|]); }
    }
  }
}
