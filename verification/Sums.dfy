/** Sums of numbers. */
module Sums {
  function Sum(ns: seq<nat>): nat {
    if ns == [] then 0 else Sum(ns[..|ns| - 1]) + ns[|ns| - 1]
  }

  lemma {:induction false} SumUpdate(xs: seq<nat>, i: nat, x: nat)
    requires i < |xs|
    ensures Sum(xs[i := x]) == Sum(xs) - xs[i] + x
  {
    var n := |xs| - 1;
    if i == n {
      assert xs[i := x][..n] == xs[..n];
    } else {
      assert xs[i := x][..n] == xs[..n][i := x];
      SumUpdate(xs[..n], i, x);
    }
  }

  lemma {:induction false} SumLess(xs: seq<nat>, ys: seq<nat>)
    requires |xs| == |ys| && forall i | 0 <= i < |xs| :: xs[i] <= ys[i]
    ensures Sum(xs) <= Sum(ys)
    ensures (exists i :: 0 <= i < |xs| && xs[i] < ys[i]) ==> Sum(xs) < Sum(ys)
  {
    if xs != [] { SumLess(xs[..|xs| - 1], ys[..|ys| - 1]); }
  }

  lemma {:induction false} SumBound(xs: seq<nat>, most: nat)
    requires forall i | 0 <= i < |xs| :: xs[i] <= most
    ensures Sum(xs) <= most * |xs|
  {
    if xs != [] {
      SumBound(xs[..|xs| - 1], most);
      assert most * |xs| == most * (|xs| - 1) + most;
    }
  }

  lemma {:induction false} SumScaled(xs: seq<nat>, ns: seq<nat>, most: nat)
    requires |xs| == |ns| && forall i | 0 <= i < |xs| :: xs[i] <= most * ns[i]
    ensures Sum(xs) <= most * Sum(ns)
  {
    if xs != [] {
      var n := |ns| - 1;
      SumScaled(xs[..n], ns[..n], most);
      assert most * (Sum(ns[..n]) + ns[n]) == most * Sum(ns[..n]) + most * ns[n];
    }
  }
}
