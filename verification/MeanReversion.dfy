/** Z-score and Bollinger reversion (app/strategies/quant_algos/mean_reversion_algos.py). */
module MeanReversion {
  import opened RealLemmas
  import opened Sums

  function SumSquares(w: seq<real>, mean: real): real {
    if w == [] then 0.0
    else SumSquares(w[..|w| - 1], mean) + Times(w[|w| - 1] - mean, w[|w| - 1] - mean)
  }

  /** The population variance. */
  function Variance(w: seq<real>): real
    requires w != []
  {
    SumSquares(w, Mean(w)) / |w| as real
  }

  /** `z_score`, given the standard deviation of its window. */
  function ZScore(prices: seq<real>, lookback: nat, std: real): Outcome
    requires lookback > 0 && std != 0.0
  {
    if |prices| < lookback then WarmingUp
    else Signal(Clamp(-2.0, 2.0, -((prices[|prices| - 1] - Mean(LastWindow(prices, lookback))) / std)))
  }

  /** `bollinger_reversion`; equal bands are its degenerate branch. */
  function BollingerReversion(prices: seq<real>, period: nat, numStd: real, std: real): Outcome
    requires period > 0 && std != 0.0
  {
    if |prices| < period then WarmingUp
    else
      var mean := Mean(LastWindow(prices, period));
      var upper, lower := mean + Times(numStd, std), mean - Times(numStd, std);
      if upper == lower then Invalid
      else
        BandsDiffer(mean, numStd, std);
        Signal(Clamp(-1.0, 1.0, -((prices[|prices| - 1] - mean) / Times(numStd, std))))
  }

  lemma BandsDiffer(mean: real, numStd: real, std: real)
    ensures mean + Times(numStd, std) == mean - Times(numStd, std) <==> Times(numStd, std) == 0.0
  {
  }

  // ------------------------------------------------------------------ the z-score bound

  function SumDeviations(w: seq<real>, mean: real): real {
    if w == [] then 0.0 else SumDeviations(w[..|w| - 1], mean) + (w[|w| - 1] - mean)
  }

  lemma {:induction false} DeviationsFromSum(w: seq<real>, mean: real)
    ensures SumDeviations(w, mean) == Sum(w) - Times(|w| as real, mean)
  {
    TimesZero(0.0, mean);
    if w != [] {
      var m := |w| - 1;
      DeviationsFromSum(w[..m], mean);
      TimesAdd(m as real, 1.0, mean);
    }
  }

  /** Cauchy-Schwarz against the constant sequence. */
  lemma {:induction false} SquareOfSum(w: seq<real>, mean: real)
    ensures Times(SumDeviations(w, mean), SumDeviations(w, mean)) <= Times(|w| as real, SumSquares(w, mean))
    ensures SumSquares(w, mean) >= 0.0
  {
    TimesZero(0.0, 0.0);
    if w != [] {
      var m := |w| - 1;
      SquareOfSum(w[..m], mean);
      SquareNonNegative(w[m] - mean);
      CauchyStep(SumDeviations(w[..m], mean), SumSquares(w[..m], mean), w[m] - mean, m);
    }
  }

  lemma CauchyStep(s: real, q: real, d: real, m: nat)
    requires Times(s, s) <= Times(m as real, q) && q >= 0.0
    ensures Times(s + d, s + d) <= Times((m + 1) as real, q + Times(d, d))
  {
    var n := m as real;
    TimesAdd(s, d, s + d);
    TimesAdd(s, d, s);
    TimesAdd(s, d, d);
    TimesAdd(n, 1.0, q + Times(d, d));
    TimesAdd(q, Times(d, d), n);
    // it remains to show 2 s d <= q + n d^2
    CrossTerm(s, q, d, n);
    TimesZero(s, d);
  }

  lemma CrossTerm(s: real, q: real, d: real, n: real)
    requires Times(s, s) <= Times(n, q) && q >= 0.0 && n >= 0.0
    ensures 2.0 * Times(s, d) <= q + Times(n, Times(d, d))
  {
    if n == 0.0 {
      SquareNonNegative(s);
      TimesZero(s, s);
      TimesZero(n, q);
      TimesZero(s, d);
      TimesZero(n, Times(d, d));
    } else {
      var e := s - n * d;
      SquareNonNegative(e);
      assert e * e == s * s - 2.0 * n * (s * d) + n * n * (d * d);
      var gap := q + n * (d * d) - 2.0 * (s * d);
      assert n * gap == n * q + n * n * (d * d) - 2.0 * n * (s * d);
      assert n * gap >= 0.0;
      if gap < 0.0 {
        MulMonoStrict(gap, 0.0, n);
      }
    }
  }

  /** The last price is in its own window, so it is never further out than sqrt(n - 1) standard deviations. */
  lemma LastPriceBound(w: seq<real>)
    requires w != []
    ensures var d := w[|w| - 1] - Mean(w);
            Times(d, d) <= Times((|w| - 1) as real, Variance(w))
    ensures Variance(w) >= 0.0
  {
    var m, mean := |w| - 1, Mean(w);
    var d, n := w[m] - mean, |w| as real;
    DeviationsFromSum(w, mean);
    DivMul(Sum(w), n);
    TimesZero(n, mean);
    SquareOfSum(w[..m], mean);
    SquareOfSum(w, mean);
    var q, s := SumSquares(w[..m], mean), SumDeviations(w[..m], mean);
    assert s == -d;
    DivMul(q + Times(d, d), n);
    assert Times(s, s) == Times(d, d);
    BoundAlgebra(d, q, m, Variance(w));
    DivMono(0.0, q + Times(d, d), n);
  }

  lemma BoundAlgebra(d: real, q: real, m: nat, v: real)
    requires Times(d, d) <= Times(m as real, q)
    requires v * (m + 1) as real == q + Times(d, d)
    ensures Times(d, d) <= Times(m as real, v)
  {
    var n := m as real;
    var dd := d * d;
    assert n * (v * (n + 1.0)) == n * q + n * dd;
    assert (n + 1.0) * dd <= n * q + n * dd;
    assert (n + 1.0) * dd <= (n + 1.0) * (n * v);
    if dd > n * v {
      MulMonoStrict(n * v, dd, n + 1.0);
    }
  }

  function Z(w: seq<real>, std: real): real
    requires w != [] && std != 0.0
  {
    (w[|w| - 1] - Mean(w)) / std
  }

  lemma SquareOfZ(w: seq<real>, std: real)
    requires w != [] && IsStd(std, Variance(w))
    ensures Times(Z(w, std), Z(w, std)) <= (|w| - 1) as real
  {
    LastPriceBound(w);
    var d, z, v, m := w[|w| - 1] - Mean(w), Z(w, std), Variance(w), (|w| - 1) as real;
    DivMul(d, std);
    if v > 0.0 {
      ZAlgebra(d, z, std, v, m);
    } else {
      TimesZero(m, v);
      SquareNonNegative(d);
      TimesZero(d, d);
      QuotientIs(d, std, 0.0);
      TimesZero(z, z);
    }
  }

  /** For a window of at most five prices the clamp at two standard deviations never binds. */
  lemma ClampNeverBinds(prices: seq<real>, lookback: nat, std: real)
    requires 0 < lookback <= 5 && lookback <= |prices|
    requires IsStd(std, Variance(LastWindow(prices, lookback)))
    ensures ZScore(prices, lookback, std) == Signal(-Z(LastWindow(prices, lookback), std))
  {
    var w := LastWindow(prices, lookback);
    SquareOfZ(w, std);
    var z := Z(w, std);
    SquareWithinFour(z);
    assert w[|w| - 1] == prices[|prices| - 1];
  }

  /** n - 1 zeros and a final n. */
  function Spike(n: nat): seq<real>
    requires n > 0
  {
    Zeros(n - 1) + [n as real]
  }

  function Zeros(n: nat): seq<real> {
    if n == 0 then [] else Zeros(n - 1) + [0.0]
  }

  lemma {:induction false} ZerosSums(n: nat, mean: real)
    ensures |Zeros(n)| == n
    ensures Sum(Zeros(n)) == 0.0
    ensures SumSquares(Zeros(n), mean) == Times(n as real, Times(mean, mean))
  {
    TimesZero(0.0, Times(mean, mean));
    if n > 0 {
      ZerosSums(n - 1, mean);
      assert Zeros(n)[..n - 1] == Zeros(n - 1);
      TimesAdd((n - 1) as real, 1.0, Times(mean, mean));
      assert Times(0.0 - mean, 0.0 - mean) == Times(mean, mean);
    }
  }

  /** The bound is tight: a spike reaches it, so for every longer window there are prices the clamp cuts. */
  lemma ClampBindsBeyondFive(n: nat, std: real)
    requires n > 5 && IsStd(std, Variance(Spike(n)))
    ensures |Spike(n)| == n && Times(Z(Spike(n), std), Z(Spike(n), std)) == (n - 1) as real
    ensures ZScore(Spike(n), n, std) == Signal(-2.0) && -Z(Spike(n), std) < -2.0
  {
    var w, r := Spike(n), n as real;
    ZerosSums(n - 1, 1.0);
    assert w[..n - 1] == Zeros(n - 1);
    assert LastWindow(w, n) == w;
    QuotientIs(r, r, 1.0);
    assert Mean(w) == 1.0;
    TimesZero(1.0, 1.0);
    assert Times(r - 1.0, 1.0) == r - 1.0;
    assert SumSquares(w, 1.0) == (r - 1.0) + Times(r - 1.0, r - 1.0);
    assert (r - 1.0) * r == (r - 1.0) + Times(r - 1.0, r - 1.0);
    QuotientIs(SumSquares(w, 1.0), r, r - 1.0);
    assert Variance(w) == r - 1.0;
    var z := Z(w, std);
    DivMul(r - 1.0, std);
    SpikeAlgebra(z, std, r - 1.0);
  }

  lemma SpikeAlgebra(z: real, std: real, v: real)
    requires v >= 5.0 && std > 0.0 && std * std == v && z * std == v
    ensures Times(z, z) == v && z > 2.0
  {
    assert (z - std) * std == 0.0;
    assert z == std;
    if z <= 2.0 {
      MulMono(z, 2.0, z);
      MulMono(z, 2.0, 2.0);
    }
  }

  // ------------------------------------------------------------------ mirrored prices

  /** The prices upside down, as seen from c. */
  function Mirrored(c: real, w: seq<real>): seq<real> {
    seq(|w|, i requires 0 <= i < |w| => c - w[i])
  }

  lemma {:induction false} SumMirrored(c: real, w: seq<real>)
    ensures Sum(Mirrored(c, w)) == Times(|w| as real, c) - Sum(w)
  {
    TimesZero(0.0, c);
    if w != [] {
      var m := |w| - 1;
      SumMirrored(c, w[..m]);
      assert Mirrored(c, w)[..m] == Mirrored(c, w[..m]);
      TimesAdd(m as real, 1.0, c);
    }
  }

  lemma MeanMirrored(c: real, w: seq<real>)
    requires w != []
    ensures Mean(Mirrored(c, w)) == c - Mean(w)
  {
    var n := |w| as real;
    SumMirrored(c, w);
    DivMul(Sum(w), n);
    QuotientIs(Sum(Mirrored(c, w)), n, c - Mean(w));
  }

  lemma {:induction false} SumSquaresMirrored(c: real, w: seq<real>, mean: real)
    ensures SumSquares(Mirrored(c, w), c - mean) == SumSquares(w, mean)
  {
    if w != [] {
      var m := |w| - 1;
      SumSquaresMirrored(c, w[..m], mean);
      assert Mirrored(c, w)[..m] == Mirrored(c, w[..m]);
      SquareOfNegated(w[m] - mean);
      assert Mirrored(c, w)[m] - (c - mean) == -(w[m] - mean);
    }
  }

  lemma SquareOfNegated(d: real)
    ensures Times(-d, -d) == Times(d, d)
  {
  }

  lemma VarianceMirrored(c: real, w: seq<real>)
    requires w != []
    ensures Variance(Mirrored(c, w)) == Variance(w)
  {
    MeanMirrored(c, w);
    SumSquaresMirrored(c, w, Mean(w));
  }

  /** Mirroring the prices leaves the deviation as it is and negates the signal, the cut included. */
  lemma ZScoreIsOdd(c: real, prices: seq<real>, lookback: nat, std: real)
    requires 0 < lookback <= |prices| && std != 0.0
    ensures Variance(LastWindow(Mirrored(c, prices), lookback)) == Variance(LastWindow(prices, lookback))
    ensures ZScore(prices, lookback, std).Signal?
    ensures ZScore(Mirrored(c, prices), lookback, std) == Signal(-ZScore(prices, lookback, std).value)
  {
    var w := LastWindow(prices, lookback);
    assert LastWindow(Mirrored(c, prices), lookback) == Mirrored(c, w);
    VarianceMirrored(c, w);
    MeanMirrored(c, w);
    var d := prices[|prices| - 1] - Mean(w);
    DivMul(d, std);
    QuotientIs(-d, std, -(d / std));
  }

  /** So a spike upside down is cut at the other end. */
  lemma MirroredSpikeIsCut(c: real, n: nat, std: real)
    requires n > 5 && IsStd(std, Variance(Spike(n)))
    ensures |Spike(n)| == n
    ensures IsStd(std, Variance(Mirrored(c, Spike(n)))) && -Z(Mirrored(c, Spike(n)), std) > 2.0
    ensures ZScore(Mirrored(c, Spike(n)), n, std) == Signal(2.0)
  {
    ClampBindsBeyondFive(n, std);
    ZScoreIsOdd(c, Spike(n), n, std);
    VarianceMirrored(c, Spike(n));
    MeanMirrored(c, Spike(n));
    var d := Spike(n)[n - 1] - Mean(Spike(n));
    DivMul(d, std);
    QuotientIs(-d, std, -(d / std));
  }

  // ------------------------------------------------------------------ the two signals are one

  /** With the default two standard deviations, Bollinger reversion is the z-score signal halved, on every input;
      its "flat bands" branch is never taken. */
  lemma BollingerIsHalfZScore(prices: seq<real>, n: nat, std: real)
    requires n > 0
    requires n <= |prices| ==> IsStd(std, Variance(LastWindow(prices, n)))
    requires std != 0.0
    ensures match ZScore(prices, n, std)
            case WarmingUp => BollingerReversion(prices, n, 2.0, std) == WarmingUp
            case Signal(z) => BollingerReversion(prices, n, 2.0, std) == Signal(z / 2.0)
            case Invalid => false
  {
    if n <= |prices| {
      var d := prices[|prices| - 1] - Mean(LastWindow(prices, n));
      TimesZero(2.0, std);
      var z := d / std;
      DivMul(d, std);
      assert (z / 2.0) * Times(2.0, std) == d;
      QuotientIs(d, Times(2.0, std), z / 2.0);
    }
  }
}
