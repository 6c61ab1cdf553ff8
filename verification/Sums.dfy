/** Finite sums, used to count goroutines in a given position and to add up termination weights. */
module Sums {

  function Flag(b: bool): nat { if b then 1 else 0 }

  function Sum(xs: seq<nat>): nat {
    if xs == [] then 0 else xs[0] + Sum(xs[1..])
  }

  lemma {:induction false} SumUpdate(xs: seq<nat>, i: nat, v: nat)
    requires i < |xs|
    ensures Sum(xs[i := v]) + xs[i] == Sum(xs) + v
  {
    if i == 0 {
      assert xs[i := v][1..] == xs[1..];
    } else {
      SumUpdate(xs[1..], i - 1, v);
      assert xs[i := v][1..] == xs[1..][i - 1 := v];
    }
  }

  lemma {:induction false} SumMonotone(xs: seq<nat>, ys: seq<nat>)
    requires |xs| == |ys| && forall j :: 0 <= j < |xs| ==> xs[j] <= ys[j]
    ensures Sum(xs) <= Sum(ys)
  {
    if xs != [] {
      SumMonotone(xs[1..], ys[1..]);
    }
  }

  /** If no entry grows and one shrinks, the sum shrinks. */
  lemma {:induction false} SumStrictlyDrops(xs: seq<nat>, ys: seq<nat>, i: nat)
    requires |xs| == |ys| && i < |xs|
    requires forall j :: 0 <= j < |xs| ==> xs[j] <= ys[j]
    requires xs[i] < ys[i]
    ensures Sum(xs) < Sum(ys)
  {
    if i == 0 {
      SumMonotone(xs[1..], ys[1..]);
    } else {
      SumStrictlyDrops(xs[1..], ys[1..], i - 1);
    }
  }

  lemma {:induction false} EntryAtMostSum(xs: seq<nat>, i: nat)
    requires i < |xs|
    ensures xs[i] <= Sum(xs)
  {
    if i > 0 {
      EntryAtMostSum(xs[1..], i - 1);
    }
  }

  lemma {:induction false} PositiveSumHasPositiveEntry(xs: seq<nat>) returns (i: nat)
    requires Sum(xs) > 0
    ensures i < |xs| && xs[i] > 0
  {
    if xs[0] > 0 {
      i := 0;
    } else {
      var j := PositiveSumHasPositiveEntry(xs[1..]);
      i := j + 1;
    }
  }

  lemma {:induction false} ZeroSum(n: nat)
    ensures Sum(seq(n, i => 0)) == 0
  {
    if n > 0 {
      assert seq(n, i => 0)[1..] == seq(n - 1, i => 0);
      ZeroSum(n - 1);
    }
  }

  lemma {:induction false} SumAppendZero(xs: seq<nat>)
    ensures Sum(xs + [0]) == Sum(xs)
  {
    if xs != [] {
      assert (xs + [0])[1..] == xs[1..] + [0];
      SumAppendZero(xs[1..]);
    }
  }
}
