/** Sums over sequences of natural numbers, updated in one place. */
module Weights {

  function Sum(w: seq<nat>): nat
    decreases |w|
  {
    if w == [] then 0 else Sum(w[..|w| - 1]) + w[|w| - 1]
  }

  lemma {:induction false} SumOfLonger(w: seq<nat>, x: nat)
    ensures Sum(w + [x]) == Sum(w) + x
  {
    assert (w + [x])[..|w|] == w;
  }

  lemma {:induction false} SumOfUpdated(w: seq<nat>, i: nat, x: nat)
    requires i < |w|
    ensures Sum(w[i := x]) + w[i] == Sum(w) + x
    decreases |w|
  {
    var n := |w| - 1;
    if i == n {
      assert w[i := x][..n] == w[..n];
    } else {
      SumOfUpdated(w[..n], i, x);
      assert w[i := x][..n] == w[..n][i := x];
    }
  }

  lemma {:induction false} PositiveTerm(w: seq<nat>)
    requires Sum(w) > 0
    ensures exists i :: 0 <= i < |w| && w[i] > 0
    decreases |w|
  {
    var n := |w| - 1;
    if w[n] == 0 {
      PositiveTerm(w[..n]);
      var i :| 0 <= i < n && w[..n][i] > 0;
      assert w[i] > 0;
    }
  }

  lemma {:induction false} TermsBelowSum(w: seq<nat>, i: nat)
    requires i < |w|
    ensures w[i] <= Sum(w)
    decreases |w|
  {
    if i < |w| - 1 {
      TermsBelowSum(w[..|w| - 1], i);
    }
  }

  lemma {:induction false} TwoTermsBelowSum(w: seq<nat>, i: nat, j: nat)
    requires i < j < |w|
    ensures w[i] + w[j] <= Sum(w)
    decreases |w|
  {
    if j < |w| - 1 {
      TwoTermsBelowSum(w[..|w| - 1], i, j);
    } else {
      TermsBelowSum(w[..j], i);
    }
  }
}
