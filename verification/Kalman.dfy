/** The one-dimensional Kalman filter (app/strategies/quant_algos/statistical_algos.py). */
module Kalman {
  import opened RealLemmas
  import opened Sums

  /** The gain for a predicted variance. */
  function Gain(pred: real, r: real): real
    requires pred + r != 0.0
  {
    pred / (pred + r)
  }

  /** The variance P after one more measurement. */
  function NextVariance(p: real, q: real, r: real): real
    requires p + q + r != 0.0
  {
    Times(1.0 - Gain(p + q, r), p + q)
  }

  lemma GainBetween(pred: real, r: real)
    requires pred > 0.0 && r > 0.0
    ensures 0.0 < Gain(pred, r) < 1.0
  {
    var s := pred + r;
    DivMonoStrict(0.0, pred, s);
    DivMonoStrict(pred, s, s);
    QuotientIs(s, s, 1.0);
    QuotientIs(0.0, s, 0.0);
  }

  lemma GainRange(pred: real, r: real)
    requires pred > 0.0 && r > 0.0
    ensures 0.0 < Gain(pred, r) < 1.0
    ensures 0.0 < Times(1.0 - Gain(pred, r), pred) < r
  {
    GainBetween(pred, r);
    VarianceIsGainTimesR(pred, r);
    var k := Gain(pred, r);
    TimesZero(k, r);
    TimesMonoStrict(0.0, k, r);
    TimesMonoStrict(k, 1.0, r);
    TimesZero(r, 0.0);
  }

  lemma VarianceIsGainTimesR(s: real, r: real)
    requires s > 0.0 && r > 0.0
    ensures Times(1.0 - Gain(s, r), s) == Times(Gain(s, r), r)
  {
    DivMul(s, s + r);
    var k := Gain(s, r);
    TimesAdd(s, r, k);
    TimesSub(1.0, k, s);
  }

  /** P after n prices: 1 for the first, one update for each further one. */
  function Variance(n: nat, q: real, r: real): (p: real)
    requires n > 0 && q >= 0.0 && r > 0.0
    ensures p > 0.0
    ensures n > 1 ==> p < r
  {
    if n == 1 then 1.0
    else
      var prev := Variance(n - 1, q, r);
      GainRange(prev + q, r);
      NextVariance(prev, q, r)
  }

  function GainAt(n: nat, q: real, r: real): (k: real)
    requires n > 0 && q >= 0.0 && r > 0.0
    ensures 0.0 < k < 1.0
  {
    GainRange(Variance(n, q, r) + q, r);
    Gain(Variance(n, q, r) + q, r)
  }

  function Update(x: real, k: real, z: real): real {
    x + Times(k, z - x)
  }

  /** The estimate after all prices. */
  function Fair(prices: seq<real>, q: real, r: real): real
    requires prices != [] && q >= 0.0 && r > 0.0
  {
    var m := |prices| - 1;
    if m == 0 then prices[0] else Update(Fair(prices[..m], q, r), GainAt(m, q, r), prices[m])
  }

  /** The loop of `kalman_fair_value`. */
  method Filter(prices: seq<real>, q: real, r: real) returns (x: real, p: real)
    requires prices != [] && q >= 0.0 && r > 0.0
    ensures x == Fair(prices, q, r) && p == Variance(|prices|, q, r)
  {
    x := prices[0];
    p := 1.0;
    assert prices[..1] == [prices[0]];
    for i := 1 to |prices|
      invariant x == Fair(prices[..i], q, r) && p == Variance(i, q, r)
    {
      var z := prices[i];
      var pred := p + q;
      var k := pred / (pred + r);
      GainRange(pred, r);
      x := x + Times(k, z - x);
      p := Times(1.0 - k, pred);
      assert prices[..i + 1][..i] == prices[..i];
    }
    assert prices[..|prices|] == prices;
  }

  /** What `kalman_fair_value` divides by: the square root of the final variance, which is kept off zero. */
  predicate IsScale(scale: real, p: real) {
    scale > 0.0 && scale * scale == if p > 0.000001 then p else 0.000001
  }

  /** `kalman_fair_value`.  The signal points from the price to the fair value, in units of the scale. */
  method KalmanFairValue(prices: seq<real>, q: real, r: real, scale: real) returns (o: Outcome)
    requires q >= 0.0 && r > 0.0 && (|prices| >= 5 ==> IsScale(scale, Variance(|prices|, q, r)))
    ensures |prices| < 5 ==> o == WarmingUp
    ensures |prices| >= 5 ==>
              var gap := prices[|prices| - 1] - Fair(prices, q, r);
              && o == Signal(Clamp(-2.0, 2.0, -(gap / scale)))
              && (o.value > 0.0 <==> gap < 0.0) && (o.value < 0.0 <==> gap > 0.0)
  {
    if |prices| < 5 {
      return WarmingUp;
    }
    var fair, _ := Filter(prices, q, r);
    var gap := prices[|prices| - 1] - fair;
    QuotientIs(0.0, scale, 0.0);
    if gap > 0.0 {
      DivMonoStrict(0.0, gap, scale);
    } else if gap < 0.0 {
      DivMonoStrict(gap, 0.0, scale);
    }
    o := Signal(Clamp(-2.0, 2.0, -(gap / scale)));
  }

  // ------------------------------------------------------------------ a fixed convex combination

  function ScaleAll(c: real, w: seq<real>): seq<real> {
    if w == [] then [] else ScaleAll(c, w[..|w| - 1]) + [Times(c, w[|w| - 1])]
  }

  function Dot(w: seq<real>, s: seq<real>): real
    requires |w| == |s|
  {
    if w == [] then 0.0 else Dot(w[..|w| - 1], s[..|s| - 1]) + Times(w[|w| - 1], s[|s| - 1])
  }

  /** The gain of every update after the first price, for n prices. */
  function Gains(n: nat, q: real, r: real): seq<real>
    requires n > 0 && q >= 0.0 && r > 0.0
  {
    if n == 1 then [] else Gains(n - 1, q, r) + [GainAt(n - 1, q, r)]
  }

  /** The estimate for given gains. */
  function Blend(prices: seq<real>, gains: seq<real>): real
    requires |prices| == |gains| + 1
  {
    if gains == [] then prices[0]
    else
      var m := |gains| - 1;
      Update(Blend(prices[..m + 1], gains[..m]), gains[m], prices[m + 1])
  }

  /** The weight of each price in it. */
  function WeightsOf(gains: seq<real>): seq<real> {
    if gains == [] then [1.0]
    else
      var k := gains[|gains| - 1];
      ScaleAll(1.0 - k, WeightsOf(gains[..|gains| - 1])) + [k]
  }

  /** The weight of each of n prices in the estimate; no price occurs in it. */
  function Weights(n: nat, q: real, r: real): seq<real>
    requires n > 0 && q >= 0.0 && r > 0.0
  {
    WeightsOf(Gains(n, q, r))
  }

  predicate AllPositive(w: seq<real>) {
    forall i :: 0 <= i < |w| ==> w[i] > 0.0
  }

  predicate AreGains(gains: seq<real>) {
    forall i :: 0 <= i < |gains| ==> 0.0 < gains[i] < 1.0
  }

  lemma {:induction false} ScaleAllLaws(c: real, w: seq<real>)
    requires c > 0.0 && AllPositive(w)
    ensures |ScaleAll(c, w)| == |w| && AllPositive(ScaleAll(c, w))
    ensures Sum(ScaleAll(c, w)) == Times(c, Sum(w))
  {
    TimesZero(c, 0.0);
    if w != [] {
      var m := |w| - 1;
      ScaleAllLaws(c, w[..m]);
      TimesMonoStrict(0.0, w[m], c);
      TimesAdd(Sum(w[..m]), w[m], c);
      var v := ScaleAll(c, w[..m]);
      assert ScaleAll(c, w) == v + [Times(c, w[m])];
      assert (v + [Times(c, w[m])])[..m] == v;
      assert Sum(w) == Sum(w[..m]) + w[m];
    }
  }

  lemma DotAppends(w: seq<real>, x: real, s: seq<real>, y: real)
    requires |w| == |s|
    ensures Dot(w + [x], s + [y]) == Dot(w, s) + Times(x, y)
  {
    assert (w + [x])[..|w|] == w && (s + [y])[..|s|] == s;
  }

  lemma {:induction false} ScaleAllDot(c: real, w: seq<real>, s: seq<real>)
    requires |w| == |s|
    ensures |ScaleAll(c, w)| == |w|
    ensures Dot(ScaleAll(c, w), s) == Times(c, Dot(w, s))
  {
    if w == [] {
      TimesZero(c, 0.0);
    } else {
      var m := |w| - 1;
      ScaleAllDot(c, w[..m], s[..m]);
      var d, x := Dot(w[..m], s[..m]), Times(c, w[m]);
      assert s == s[..m] + [s[m]];
      assert ScaleAll(c, w) == ScaleAll(c, w[..m]) + [x];
      DotAppends(ScaleAll(c, w[..m]), x, s[..m], s[m]);
      assert Dot(ScaleAll(c, w), s) == Times(c, d) + Times(x, s[m]);
      assert Dot(w, s) == d + Times(w[m], s[m]);
      ScaleTerm(c, d, w[m], s[m]);
    }
  }

  lemma ScaleTerm(c: real, d: real, w: real, s: real)
    ensures Times(c, d) + Times(Times(c, w), s) == Times(c, d + Times(w, s))
  {
    TimesAssoc(c, w, s);
    TimesAdd(d, Times(w, s), c);
  }

  lemma SumAppends(w: seq<real>, x: real)
    ensures Sum(w + [x]) == Sum(w) + x
    ensures AllPositive(w) && x > 0.0 ==> AllPositive(w + [x])
  {
    assert (w + [x])[..|w|] == w;
  }

  predicate SumsTo(w: seq<real>, total: real) {
    AllPositive(w) && Sum(w) == total
  }

  lemma ScaledSum(w: seq<real>, c: real)
    requires SumsTo(w, 1.0) && c > 0.0
    ensures SumsTo(ScaleAll(c, w), c)
  {
    ScaleAllLaws(c, w);
    TimesOne(c);
  }

  lemma AppendedSum(w: seq<real>, k: real)
    requires SumsTo(w, 1.0 - k) && k > 0.0
    ensures SumsTo(w + [k], 1.0)
  {
    SumAppends(w, k);
  }

  lemma NextWeightsAreConvex(w: seq<real>, k: real)
    requires SumsTo(w, 1.0) && 0.0 < k < 1.0
    ensures SumsTo(ScaleAll(1.0 - k, w) + [k], 1.0)
  {
    ScaledSum(w, 1.0 - k);
    AppendedSum(ScaleAll(1.0 - k, w), k);
  }

  lemma {:induction false} WeightsAreConvex(gains: seq<real>)
    requires AreGains(gains)
    ensures SumsTo(WeightsOf(gains), 1.0)
  {
    if gains == [] {
      SumAppends([], 1.0);
      assert [] + [1.0] == [1.0];
    } else {
      WeightsAreConvex(gains[..|gains| - 1]);
      NextWeightsAreConvex(WeightsOf(gains[..|gains| - 1]), gains[|gains| - 1]);
    }
  }

  lemma TimesOne(c: real)
    ensures Times(c, 1.0) == c
  {
  }

  lemma UpdateIsMix(x: real, k: real, z: real)
    ensures Update(x, k, z) == Times(1.0 - k, x) + Times(k, z)
  {
  }

  /** One more measurement of a weighted sum is a weighted sum. */
  lemma UpdateIsDot(w: seq<real>, s: seq<real>, k: real, z: real)
    requires |w| == |s|
    ensures |ScaleAll(1.0 - k, w)| == |w|
    ensures Dot(ScaleAll(1.0 - k, w) + [k], s + [z]) == Update(Dot(w, s), k, z)
  {
    ScaleAllDot(1.0 - k, w, s);
    DotAppends(ScaleAll(1.0 - k, w), k, s, z);
    UpdateIsMix(Dot(w, s), k, z);
  }

  lemma {:induction false} BlendIsDot(prices: seq<real>, gains: seq<real>)
    requires |prices| == |gains| + 1
    ensures |WeightsOf(gains)| == |prices|
    ensures Blend(prices, gains) == Dot(WeightsOf(gains), prices)
  {
    if gains == [] {
      DotAppends([], 1.0, [], prices[0]);
      assert [] + [1.0] == [1.0] && [] + [prices[0]] == prices;
    } else {
      var m := |gains| - 1;
      var w, front := WeightsOf(gains[..m]), prices[..m + 1];
      BlendIsDot(front, gains[..m]);
      UpdateIsDot(w, front, gains[m], prices[m + 1]);
      assert prices == front + [prices[m + 1]];
    }
  }

  lemma {:induction false} GainsAreGains(n: nat, q: real, r: real)
    requires n > 0 && q >= 0.0 && r > 0.0
    ensures |Gains(n, q, r)| == n - 1 && AreGains(Gains(n, q, r))
  {
    if n > 1 {
      GainsAreGains(n - 1, q, r);
    }
  }

  lemma BlendAppends(front: seq<real>, gains: seq<real>, z: real, k: real)
    requires |front| == |gains| + 1
    ensures Blend(front + [z], gains + [k]) == Update(Blend(front, gains), k, z)
  {
    assert (gains + [k])[..|gains|] == gains && (front + [z])[..|front|] == front;
  }

  lemma {:induction false} FairIsBlend(prices: seq<real>, q: real, r: real)
    requires prices != [] && q >= 0.0 && r > 0.0
    ensures |prices| == |Gains(|prices|, q, r)| + 1 && AreGains(Gains(|prices|, q, r))
    ensures Fair(prices, q, r) == Blend(prices, Gains(|prices|, q, r))
  {
    var m := |prices| - 1;
    GainsAreGains(m + 1, q, r);
    if m > 0 {
      FairIsBlend(prices[..m], q, r);
      BlendAppends(prices[..m], Gains(m, q, r), prices[m], GainAt(m, q, r));
      assert prices == prices[..m] + [prices[m]];
    }
  }

  /** For any gains between 0 and 1 the estimate is a convex combination. */
  lemma BlendIsConvex(prices: seq<real>, gains: seq<real>)
    requires |prices| == |gains| + 1 && AreGains(gains)
    ensures var w := WeightsOf(gains);
            && |w| == |prices| && Sum(w) == 1.0 && (forall i :: 0 <= i < |w| ==> w[i] > 0.0)
            && Blend(prices, gains) == Dot(w, prices)
  {
    WeightsAreConvex(gains);
    BlendIsDot(prices, gains);
  }

  /** The fair value is a weighted sum of the prices, with positive weights that sum to one and do not depend
      on any price. */
  lemma FairIsConvexCombination(prices: seq<real>, q: real, r: real)
    requires prices != [] && q >= 0.0 && r > 0.0
    ensures var w := Weights(|prices|, q, r);
            && |w| == |prices| && Sum(w) == 1.0 && (forall i :: 0 <= i < |w| ==> w[i] > 0.0)
            && Fair(prices, q, r) == Dot(w, prices)
  {
    FairIsBlend(prices, q, r);
    BlendIsConvex(prices, Gains(|prices|, q, r));
  }

  lemma MixWithin(lo: real, hi: real, x: real, z: real, k: real)
    requires lo <= x <= hi && lo <= z <= hi && 0.0 <= k <= 1.0
    ensures lo <= Times(1.0 - k, x) + Times(k, z) <= hi
  {
    TimesMono(lo, x, 1.0 - k);
    TimesMono(x, hi, 1.0 - k);
    TimesMono(lo, z, k);
    TimesMono(z, hi, k);
    TimesAdd(1.0 - k, k, lo);
    TimesAdd(1.0 - k, k, hi);
  }

  /** So it stays within the range of the prices, */
  lemma {:induction false} FairStaysInHull(prices: seq<real>, q: real, r: real, lo: real, hi: real)
    requires prices != [] && q >= 0.0 && r > 0.0 && Within(lo, hi, prices)
    ensures lo <= Fair(prices, q, r) <= hi
  {
    var m := |prices| - 1;
    if m > 0 {
      FairStaysInHull(prices[..m], q, r, lo, hi);
      UpdateIsMix(Fair(prices[..m], q, r), GainAt(m, q, r), prices[m]);
      MixWithin(lo, hi, Fair(prices[..m], q, r), prices[m], GainAt(m, q, r));
    }
  }

  /** ... and moves with the prices when they are shifted and scaled. */
  lemma {:induction false} FairIsAffine(prices: seq<real>, moved: seq<real>, q: real, r: real, a: real, b: real)
    requires prices != [] && |moved| == |prices| && q >= 0.0 && r > 0.0
    requires forall i :: 0 <= i < |prices| ==> moved[i] == Times(a, prices[i]) + b
    ensures Fair(moved, q, r) == Times(a, Fair(prices, q, r)) + b
  {
    var m := |prices| - 1;
    if m > 0 {
      FairIsAffine(prices[..m], moved[..m], q, r, a, b);
      UpdateIsAffine(Fair(prices[..m], q, r), GainAt(m, q, r), prices[m], a, b);
    }
  }

  lemma UpdateIsAffine(x: real, k: real, z: real, a: real, b: real)
    ensures Update(Times(a, x) + b, k, Times(a, z) + b) == Times(a, Update(x, k, z)) + b
  {
    TimesSub(z, x, a);
    TimesAssoc(k, a, z - x);
    TimesAdd(x, Times(k, z - x), a);
  }

  // ------------------------------------------------------------------ the variance

  lemma VarianceGrowsWithPrevious(p: real, p': real, q: real, r: real)
    requires 0.0 < p <= p' && q >= 0.0 && r > 0.0
    ensures NextVariance(p, q, r) <= NextVariance(p', q, r)
  {
    var s, s' := p + q, p' + q;
    GainRange(s, r);
    GainRange(s', r);
    MulMono(s, s', r);
    assert s * (s' + r) <= s' * (s + r);
    CrossMultiply(s, s + r, s', s' + r);
    VarianceIsGainTimesR(s, r);
    VarianceIsGainTimesR(s', r);
    MulMono(Gain(s, r), Gain(s', r), r);
  }

  /** Once measured, the variance lies strictly between 0 and R; and it never grows if its first update did not
      make it grow. */
  lemma {:induction false} VarianceSettles(n: nat, q: real, r: real)
    requires n > 0 && q >= 0.0 && r > 0.0
    ensures 0.0 < Variance(n + 1, q, r) < r
    ensures Variance(2, q, r) <= Variance(1, q, r) ==> Variance(n + 1, q, r) <= Variance(n, q, r)
    ensures Variance(2, q, r) >= Variance(1, q, r) ==> Variance(n + 1, q, r) >= Variance(n, q, r)
  {
    if n > 1 {
      VarianceSettles(n - 1, q, r);
      var a, b := Variance(n - 1, q, r), Variance(n, q, r);
      if b <= a { VarianceGrowsWithPrevious(b, a, q, r); }
      if a <= b { VarianceGrowsWithPrevious(a, b, q, r); }
    }
  }

  /** With the parameters the dispatcher leaves at their defaults the variance never grows. */
  lemma DefaultVarianceNeverGrows(n: nat)
    requires n > 0
    ensures Variance(n + 1, 0.01, 0.1) <= Variance(n, 0.01, 0.1)
  {
    VarianceSettles(n, 0.01, 0.1);
    assert Variance(1, 0.01, 0.1) == 1.0;
    assert Variance(2, 0.01, 0.1) < 0.1;
  }

  // ------------------------------------------------------------------ the gain

  /** From two prices: the filter starts from the first one with variance 1. */
  lemma FirstUpdate(a: real, b: real, q: real, r: real)
    requires q >= 0.0 && r > 0.0
    ensures Variance(1, q, r) == 1.0
    ensures Fair([a, b], q, r) == a + (1.0 + q) / (1.0 + q + r) * (b - a)
    ensures Variance(2, q, r) == (1.0 + q) / (1.0 + q + r) * r
  {
    var s := [a, b];
    assert s[..1] == [a] && Fair([a], q, r) == a;
    VarianceIsGainTimesR(1.0 + q, r);
  }

  /** The variance left by an update with gain k of a prediction of variance pred, for measurements of variance r. */
  function VarianceWith(k: real, pred: real, r: real): real {
    (1.0 - k) * (1.0 - k) * pred + k * k * r
  }

  /** The gain of every update is the one best choice: any other would leave a greater variance. */
  lemma GainIsOptimal(n: nat, q: real, r: real, k: real)
    requires n > 0 && q >= 0.0 && r > 0.0
    ensures Variance(n + 1, q, r) <= VarianceWith(k, Variance(n, q, r) + q, r)
    ensures Variance(n + 1, q, r) == VarianceWith(k, Variance(n, q, r) + q, r) <==> k == GainAt(n, q, r)
  {
    var pred := Variance(n, q, r) + q;
    DivMul(pred, pred + r);
    VarianceIsGainTimesR(pred, r);
    OptimalAlgebra(k, GainAt(n, q, r), pred, r);
  }

  lemma OptimalAlgebra(k: real, best: real, pred: real, r: real)
    requires pred > 0.0 && r > 0.0 && best * (pred + r) == pred
    ensures Times(best, r) <= VarianceWith(k, pred, r)
    ensures Times(best, r) == VarianceWith(k, pred, r) <==> k == best
  {
    var d := k - best;
    assert VarianceWith(k, pred, r) == pred - 2.0 * k * pred + k * k * (pred + r);
    assert VarianceWith(k, pred, r) - best * r == d * d * (pred + r) by {
      assert k * k * (pred + r) == d * d * (pred + r) + 2.0 * k * (best * (pred + r)) - best * (best * (pred + r));
      assert best * r == best * (pred + r) - best * pred;
    }
    SquareWeighs(d, pred + r);
  }

  lemma SquareWeighs(d: real, c: real)
    requires c > 0.0
    ensures d * d * c >= 0.0 && (d * d * c == 0.0 <==> d == 0.0)
  {
    SquareNonNegative(d);
    MulMono(0.0, d * d, c);
    TimesZero(d, d);
    TimesZero(d * d, c);
    assert Times(d * d, c) == d * d * c;
  }
}
