/** Sums of integer sequences, in the order a loop adds them up. */
module Sums {
  function Sum(xs: seq<int>): int {
    if xs == [] then 0 else Sum(xs[..|xs| - 1]) + xs[|xs| - 1]
  }

  lemma SumSnoc(xs: seq<int>, x: int)
    ensures Sum(xs + [x]) == Sum(xs) + x
  {
    assert (xs + [x])[..|xs|] == xs;
  }

  lemma {:induction false} SumAppend(xs: seq<int>, ys: seq<int>)
    ensures Sum(xs + ys) == Sum(xs) + Sum(ys)
    decreases |ys|
  {
    if ys == [] {
      assert xs + ys == xs;
    } else {
      var ys' := ys[..|ys| - 1];
      assert xs + ys == (xs + ys') + [ys[|ys| - 1]];
      SumAppend(xs, ys');
      SumSnoc(xs + ys', ys[|ys| - 1]);
    }
  }

  /** Entrywise smaller sequences have smaller sums. */
  lemma {:induction false} SumMonotone(xs: seq<int>, ys: seq<int>)
    requires |xs| == |ys| && forall i :: 0 <= i < |xs| ==> xs[i] <= ys[i]
    ensures Sum(xs) <= Sum(ys)
    decreases |xs|
  {
    if xs != [] {
      SumMonotone(xs[..|xs| - 1], ys[..|ys| - 1]);
    }
  }

  /** With nonnegative entries every entry and every prefix is below the sum. */
  lemma {:induction false} SumDominates(xs: seq<int>, k: nat)
    requires forall i :: 0 <= i < |xs| ==> 0 <= xs[i]
    requires k < |xs|
    ensures 0 <= Sum(xs[..k]) && Sum(xs[..k]) + xs[k] <= Sum(xs)
    decreases |xs|
  {
    var n := |xs| - 1;
    if k == n {
      SumMonotone(seq(n, i => 0), xs[..n]);
      SumZero(n);
    } else {
      SumDominates(xs[..n], k);
      assert xs[..n][..k] == xs[..k];
    }
  }

  lemma {:induction false} SumZero(n: nat)
    ensures Sum(seq(n, i => 0)) == 0
  {
    if n > 0 {
      assert seq(n, i => 0)[..n - 1] == seq(n - 1, i => 0);
      SumZero(n - 1);
    }
  }
}
