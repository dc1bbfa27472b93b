/** Exact arithmetic helpers: Python's int() on a float, max/min with Python's
    tie behaviour, and sums and means over sequences. */
module Numeric {

  /** Python's int() applied to a float: truncation toward zero. */
  function Trunc(x: real): (n: int)
    ensures 0.0 <= x ==> 0 <= n && n as real <= x < n as real + 1.0
    ensures x < 0.0 ==> n <= 0 && n as real - 1.0 < x <= n as real
  {
    if x >= 0.0 then x.Floor else -((-x).Floor)
  }

  /** Truncation keeps a non-negative value between integer bounds. */
  lemma TruncBetween(x: real, lo: int, hi: int)
    requires 0 <= lo && lo as real <= x <= hi as real
    ensures lo <= Trunc(x) <= hi
  {
  }

  /** Python's max(lo, x): x only when it is strictly larger. */
  function AtLeast(lo: real, x: real): (r: real)
    ensures r >= lo && r >= x
    ensures r == lo || r == x
  {
    if x > lo then x else lo
  }

  /** Python's min(hi, x): x only when it is strictly smaller. */
  function AtMost(hi: real, x: real): (r: real)
    ensures r <= hi && r <= x
    ensures r == hi || r == x
  {
    if x < hi then x else hi
  }

  /** Python's max(lo, min(hi, x)). */
  function Clamp(lo: real, hi: real, x: real): (r: real)
    ensures lo <= hi ==> lo <= r <= hi
    ensures lo <= x <= hi ==> r == x
  {
    AtLeast(lo, AtMost(hi, x))
  }

  function Sum(xs: seq<real>): real
  {
    if |xs| == 0 then 0.0 else Sum(xs[..|xs| - 1]) + xs[|xs| - 1]
  }

  function SumInt(xs: seq<int>): int
  {
    if |xs| == 0 then 0 else SumInt(xs[..|xs| - 1]) + xs[|xs| - 1]
  }

  /** The arithmetic mean, as np.mean / pandas mean compute it on a non-empty column. */
  function Mean(xs: seq<real>): real
    requires |xs| > 0
  {
    Sum(xs) / |xs| as real
  }

  /** A sum of values that are all at least lo is at least n*lo. */
  lemma {:induction false} SumLowerBound(xs: seq<real>, lo: real)
    requires forall i :: 0 <= i < |xs| ==> lo <= xs[i]
    ensures lo * |xs| as real <= Sum(xs)
  {
    if |xs| > 0 {
      var init := xs[..|xs| - 1];
      assert forall i :: 0 <= i < |init| ==> init[i] == xs[i];
      SumLowerBound(init, lo);
      assert lo * |xs| as real == lo * |init| as real + lo;
    }
  }

  /** A sum of values that are all at most hi is at most n*hi. */
  lemma {:induction false} SumUpperBound(xs: seq<real>, hi: real)
    requires forall i :: 0 <= i < |xs| ==> xs[i] <= hi
    ensures Sum(xs) <= hi * |xs| as real
  {
    if |xs| > 0 {
      var init := xs[..|xs| - 1];
      assert forall i :: 0 <= i < |init| ==> init[i] == xs[i];
      SumUpperBound(init, hi);
      assert hi * |xs| as real == hi * |init| as real + hi;
    }
  }

  /** The mean of values that are all at most hi is at most hi. */
  lemma MeanAtMost(xs: seq<real>, hi: real)
    requires |xs| > 0
    requires forall i :: 0 <= i < |xs| ==> xs[i] <= hi
    ensures Mean(xs) <= hi
  {
    SumUpperBound(xs, hi);
    assert Mean(xs) * |xs| as real == Sum(xs);
  }

  /** The mean of values that are all at least lo is at least lo. */
  lemma MeanAtLeast(xs: seq<real>, lo: real)
    requires |xs| > 0
    requires forall i :: 0 <= i < |xs| ==> lo <= xs[i]
    ensures lo <= Mean(xs)
  {
    SumLowerBound(xs, lo);
    assert Mean(xs) * |xs| as real == Sum(xs);
  }

  /** The mean of values that all lie in [lo, hi] lies in [lo, hi]. */
  lemma MeanBounds(xs: seq<real>, lo: real, hi: real)
    requires |xs| > 0
    requires forall i :: 0 <= i < |xs| ==> lo <= xs[i] <= hi
    ensures lo <= Mean(xs) <= hi
  {
    MeanAtMost(xs, hi);
    MeanAtLeast(xs, lo);
  }

  /** Dividing every term by t divides the sum by t. */
  lemma {:induction false} SumDivided(xs: seq<real>, ys: seq<real>, t: real)
    requires t != 0.0
    requires |ys| == |xs|
    requires forall i :: 0 <= i < |xs| ==> ys[i] == xs[i] / t
    ensures Sum(ys) == Sum(xs) / t
    decreases |xs|
  {
    if |xs| > 0 {
      var n := |xs| - 1;
      SumDivided(xs[..n], ys[..n], t);
      assert Sum(xs[..n]) / t + xs[n] / t == (Sum(xs[..n]) + xs[n]) / t;
    }
  }
}
