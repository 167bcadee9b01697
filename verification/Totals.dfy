/** Sums of a weight over a sequence of processes, sub-sequences picked by a test, and contents. */
module Totals {

  function Total<T>(xs: seq<T>, weight: T -> int): int {
    if xs == [] then 0 else Total(xs[..|xs| - 1], weight) + weight(xs[|xs| - 1])
  }

  /** Replacing one process changes the total by the difference of its weights. */
  lemma {:induction false} TotalUpdate<T>(xs: seq<T>, i: nat, x: T, weight: T -> int)
    requires i < |xs|
    ensures Total(xs[i := x], weight) == Total(xs, weight) - weight(xs[i]) + weight(x)
  {
    var n := |xs| - 1;
    if i == n {
      assert xs[i := x][..n] == xs[..n];
    } else {
      TotalUpdate(xs[..n], i, x, weight);
      assert xs[i := x][..n] == xs[..n][i := x];
    }
  }

  lemma {:induction false} TotalHead<T>(xs: seq<T>, weight: T -> int)
    requires xs != []
    ensures Total(xs, weight) == weight(xs[0]) + Total(xs[1..], weight)
  {
    var n := |xs| - 1;
    if n > 0 {
      TotalHead(xs[..n], weight);
      assert xs[..n][1..] == xs[1..][..n - 1];
    }
  }

  /** With weights that are never negative, no process weighs more than the total. */
  lemma {:induction false} TotalBounds<T(!new)>(xs: seq<T>, weight: T -> int)
    requires forall x :: 0 <= weight(x)
    ensures 0 <= Total(xs, weight)
    ensures forall i :: 0 <= i < |xs| ==> weight(xs[i]) <= Total(xs, weight)
  {
    if xs != [] {
      TotalBounds(xs[..|xs| - 1], weight);
      forall i | 0 <= i < |xs|
        ensures weight(xs[i]) <= Total(xs, weight)
      {
        if i < |xs| - 1 {
          assert weight(xs[..|xs| - 1][i]) <= Total(xs[..|xs| - 1], weight);
        }
      }
    }
  }

  /** A total that is not zero has a process whose weight is not zero. */
  lemma {:induction false} TotalWitness<T>(xs: seq<T>, weight: T -> int) returns (i: nat)
    requires Total(xs, weight) != 0
    ensures i < |xs| && weight(xs[i]) != 0
  {
    i := |xs| - 1;
    if weight(xs[i]) == 0 {
      i := TotalWitness(xs[..i], weight);
    }
  }

  lemma {:induction false} TotalZero<T>(xs: seq<T>, weight: T -> int)
    requires forall i :: 0 <= i < |xs| ==> weight(xs[i]) == 0
    ensures Total(xs, weight) == 0
  {
    if xs != [] {
      TotalZero(xs[..|xs| - 1], weight);
    }
  }

  /** The elements of `xs` that pass the test, in order. */
  function Select<T>(xs: seq<T>, test: T -> bool): seq<T> {
    if xs == [] then []
    else Select(xs[..|xs| - 1], test) + if test(xs[|xs| - 1]) then [xs[|xs| - 1]] else []
  }

  lemma {:induction false} SelectConcat<T>(xs: seq<T>, ys: seq<T>, test: T -> bool)
    ensures Select(xs + ys, test) == Select(xs, test) + Select(ys, test)
  {
    if ys == [] {
      assert xs + ys == xs;
    } else {
      var n := |ys| - 1;
      SelectConcat(xs, ys[..n], test);
      assert (xs + ys)[..|xs + ys| - 1] == xs + ys[..n];
    }
  }

  /** Taking the first element off takes it off the selection exactly when it passes. */
  lemma SelectHead<T>(xs: seq<T>, test: T -> bool)
    requires xs != []
    ensures Select(xs, test) == (if test(xs[0]) then [xs[0]] else []) + Select(xs[1..], test)
  {
    assert xs == [xs[0]] + xs[1..];
    assert [xs[0]][..0] == [];
    SelectConcat([xs[0]], xs[1..], test);
  }

  lemma {:induction false} SelectAll<T>(xs: seq<T>, test: T -> bool)
    requires forall i :: 0 <= i < |xs| ==> test(xs[i])
    ensures Select(xs, test) == xs
  {
    if xs != [] {
      SelectAll(xs[..|xs| - 1], test);
    }
  }

  lemma HeadAndRest<T>(xs: seq<T>)
    requires xs != []
    ensures multiset(xs) == multiset{xs[0]} + multiset(xs[1..])
  {
    assert xs == [xs[0]] + xs[1..];
  }
}
