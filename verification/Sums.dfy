/** Sums, means and windows of price sequences, and the shape of a signal. */
module Sums {
  import opened RealLemmas

  /** What a signal function answers: not enough prices yet, a branch for degenerate input, or a signal. */
  datatype Outcome = WarmingUp | Invalid | Signal(value: real)

  function Sum(s: seq<real>): real {
    if s == [] then 0.0 else Sum(s[..|s| - 1]) + s[|s| - 1]
  }

  function Mean(s: seq<real>): real
    requires s != []
  {
    Sum(s) / |s| as real
  }

  predicate Within(lo: real, hi: real, s: seq<real>) {
    forall i :: 0 <= i < |s| ==> lo <= s[i] <= hi
  }

  lemma {:induction false} SumWithin(lo: real, hi: real, s: seq<real>)
    requires Within(lo, hi, s)
    ensures |s| as real * lo <= Sum(s) <= |s| as real * hi
  {
    if s != [] {
      var m := |s| - 1;
      SumWithin(lo, hi, s[..m]);
      assert |s| as real * lo == m as real * lo + lo;
      assert |s| as real * hi == m as real * hi + hi;
    }
  }

  lemma MeanWithin(lo: real, hi: real, s: seq<real>)
    requires s != [] && Within(lo, hi, s)
    ensures lo <= Mean(s) <= hi
  {
    SumWithin(lo, hi, s);
    var n := |s| as real;
    DivMono(n * lo, Sum(s), n);
    DivMono(Sum(s), n * hi, n);
    QuotientIs(n * lo, n, lo);
    QuotientIs(n * hi, n, hi);
  }

  /** The last n entries. */
  function LastWindow(prices: seq<real>, n: nat): seq<real>
    requires n <= |prices|
  {
    prices[|prices| - n..]
  }

  /** The window the dispatcher passes for the lookback of a plan. */
  function Lookback(planLookback: int): nat {
    if planLookback < 2 then 2 else planLookback
  }

  function Clamp(lo: real, hi: real, x: real): real {
    if x < lo then lo else if x > hi then hi else x
  }

  /** Clamping gives the one nearest number between the bounds. */
  lemma ClampIsNearest(lo: real, hi: real, x: real, y: real)
    requires lo <= y <= hi
    ensures lo <= Clamp(lo, hi, x) <= hi
    ensures Abs(x - Clamp(lo, hi, x)) <= Abs(x - y)
    ensures Abs(x - Clamp(lo, hi, x)) == Abs(x - y) <==> y == Clamp(lo, hi, x)
  {
  }

  // ------------------------------------------------------------------ deviations in units of a standard deviation

  /** The divisor the source takes from a variance: its square root, or a tiny constant for no variance. */
  predicate IsStd(std: real, variance: real) {
    if variance > 0.0 then std > 0.0 && std * std == variance else std == 0.0000000001
  }

  lemma ZAlgebra(d: real, z: real, std: real, v: real, m: real)
    requires z * std == d && std * std == v && v > 0.0 && Times(d, d) <= Times(m, v)
    ensures Times(z, z) <= m
  {
    assert d * d == (z * z) * v;
    if z * z > m {
      MulMonoStrict(m, z * z, v);
    }
  }

  lemma SquareWithinFour(z: real)
    requires Times(z, z) <= 4.0
    ensures -2.0 <= z <= 2.0
  {
    if z > 2.0 {
      MulMonoStrict(2.0, z, 2.0);
      MulMonoStrict(2.0, z, z);
    } else if z < -2.0 {
      MulMonoStrict(2.0, -z, 2.0);
      MulMonoStrict(2.0, -z, -z);
    }
  }
}
