/** Option and Result, and the classes of exception the modelled programs raise. */
module Base {

  datatype Option<+T> = None | Some(value: T)

  /** The exception class a call ends with.  `Crashed` is not an exception of the program: it
      is the end of the process, between two writes of the journal. */
  datatype Error =
    | Crashed
    | ValueFault
    | KeyFault
    | Conflict
    | UnknownEntity
    | ReplayRejected
    | GraphDefinitionFault
    | GraphTransitionFault
    | GraphReceiptFault
    | GraphReplayRejected
    | PoolFault
    | PoolBackpressure
    | PoolReplayRejected
    | LoopTransitionFault
    | LoopLimitExceeded
    | LoopReplayRejected
    | RecoveryFault
    | RecoveryIntegrityFault
    | HistoryConflict
    | HistoryIntegrityFault

  datatype Result<+T> = Success(value: T) | Failure(error: Error) {
    predicate IsFailure() { Failure? }

    function PropagateFailure<U>(): Result<U>
      requires Failure?
    {
      Failure(error)
    }

    function Extract(): T
      requires Success?
    {
      value
    }
  }

  function Min(a: nat, b: nat): nat { if a < b then a else b }

  function Max(a: int, b: int): int { if a < b then b else a }

  /** No element occurs twice. */
  ghost predicate Distinct<T>(xs: seq<T>) {
    forall i, j :: 0 <= i < j < |xs| ==> xs[i] != xs[j]
  }

  function Elements<T(==)>(xs: seq<T>): set<T> { set x | x in xs }

  lemma {:induction false} DistinctCount<T>(xs: seq<T>)
    requires Distinct(xs)
    ensures |Elements(xs)| == |xs|
  {
    if xs == [] {
    } else {
      var n := |xs| - 1;
      DistinctCount(xs[..n]);
      assert Elements(xs) == Elements(xs[..n]) + {xs[n]};
      assert xs[n] !in xs[..n];
    }
  }

  /** Pigeonhole: a sequence over a set smaller than itself repeats an element. */
  lemma Repeats<T>(xs: seq<T>, s: set<T>) returns (i: nat, j: nat)
    requires Elements(xs) <= s && |s| < |xs|
    ensures i < j < |xs| && xs[i] == xs[j]
  {
    if Distinct(xs) {
      DistinctCount(xs);
      SubsetCount(Elements(xs), s);
      assert false;
    }
    i, j :| 0 <= i < j < |xs| && xs[i] == xs[j];
  }

  lemma {:induction false} SubsetCount<T>(a: set<T>, b: set<T>)
    requires a <= b
    ensures |a| <= |b|
    ensures |a| == |b| ==> a == b
    decreases a
  {
    if a == {} {
    } else {
      var x :| x in a;
      SubsetCount(a - {x}, b - {x});
      if |a| == |b| {
        assert a == (a - {x}) + {x} && b == (b - {x}) + {x};
      }
    }
  }

  lemma Regroup<T>(a: seq<T>, b: seq<T>, c: seq<T>)
    ensures a + (b + c) == (a + b) + c
  {
  }
}
