// Sums of sequences and sizes of sets.
module Sums {
  function Sum(xs: seq<nat>): nat {
    if xs == [] then 0 else Sum(xs[..|xs| - 1]) + xs[|xs| - 1]
  }

  lemma {:induction false} SumUpdate(xs: seq<nat>, i: nat, v: nat)
    requires i < |xs|
    ensures Sum(xs[i := v]) == Sum(xs) - xs[i] + v
  {
    var ys := xs[i := v];
    if i == |xs| - 1 {
      assert ys[..|xs| - 1] == xs[..|xs| - 1];
    } else {
      SumUpdate(xs[..|xs| - 1], i, v);
      assert ys[..|xs| - 1] == xs[..|xs| - 1][i := v];
    }
  }

  lemma {:induction false} SumZeros(xs: seq<nat>)
    requires forall i :: 0 <= i < |xs| ==> xs[i] == 0
    ensures Sum(xs) == 0
  {
    if xs == [] {
    } else {
      SumZeros(xs[..|xs| - 1]);
    }
  }

  lemma {:induction false} SumBound(xs: seq<nat>, k: nat)
    requires forall i :: 0 <= i < |xs| ==> xs[i] <= k
    ensures Sum(xs) <= k * |xs|
  {
    if xs == [] {
    } else {
      SumBound(xs[..|xs| - 1], k);
      assert k * |xs| == k * (|xs| - 1) + k;
    }
  }

  lemma {:induction false} SubsetSize<T>(a: set<T>, b: set<T>)
    requires a <= b
    ensures |a| <= |b|
  {
    if a == {} {
    } else {
      var x :| x in a;
      SubsetSize(a - {x}, b - {x});
    }
  }

  function Interval(n: nat): (r: set<nat>)
    ensures forall c: nat :: c in r <==> c < n
  {
    if n == 0 then {} else Interval(n - 1) + {n - 1}
  }

  lemma {:induction false} IntervalSize(n: nat)
    ensures |Interval(n)| == n
  {
    if n == 0 {
    } else {
      IntervalSize(n - 1);
    }
  }
}
