/** Left-to-right sums of real sequences: the `.sum()` of a pandas column,
    the `sum()` of a dict's values and every prefix of `.cumsum()`. */
module Sums {

  /** The sum of `xs`, peeling off the LAST element, so that the sum of a
      prefix one longer is the shorter prefix's sum plus one element. */
  function Sum(xs: seq<real>): real
    decreases |xs|
  {
    if |xs| == 0 then 0.0 else Sum(xs[..|xs| - 1]) + xs[|xs| - 1]
  }

  /** Extending a prefix by one element adds exactly that element: the
      step of a running (cumulative) sum. */
  lemma SumPrefixStep(xs: seq<real>, m: nat)
    requires m < |xs|
    ensures Sum(xs[..m + 1]) == Sum(xs[..m]) + xs[m]
  {
    assert xs[..m + 1][..m] == xs[..m];
  }

  /** Appending one element adds exactly that element. */
  lemma SumAppend(xs: seq<real>, x: real)
    ensures Sum(xs + [x]) == Sum(xs) + x
  {
    assert (xs + [x])[..|xs|] == xs;
  }

  /** A sequence whose every element is `c` sums to `|xs| * c`. */
  lemma {:induction false} SumConstant(xs: seq<real>, c: real)
    requires forall k :: 0 <= k < |xs| ==> xs[k] == c
    ensures Sum(xs) == |xs| as real * c
  {
    if |xs| > 0 {
      SumConstant(xs[..|xs| - 1], c);
    }
  }

  /** Sums are monotone: pointwise smaller sequences have smaller sums. */
  lemma {:induction false} SumMonotone(xs: seq<real>, ys: seq<real>)
    requires |xs| == |ys|
    requires forall k :: 0 <= k < |xs| ==> xs[k] <= ys[k]
    ensures Sum(xs) <= Sum(ys)
  {
    if |xs| > 0 {
      SumMonotone(xs[..|xs| - 1], ys[..|ys| - 1]);
    }
  }
}
