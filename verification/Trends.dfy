/** The moving averages point with the trend (app/strategies/quant_algos/momentum_algos.py). */
module Trends {
  import opened RealLemmas
  import opened Sums
  import opened MovingAverages

  predicate Rising(s: seq<real>) {
    forall i :: 0 < i < |s| ==> s[i - 1] < s[i]
  }

  predicate Falling(s: seq<real>) {
    forall i :: 0 < i < |s| ==> s[i - 1] > s[i]
  }

  predicate Positive(s: seq<real>) {
    forall i :: 0 <= i < |s| ==> s[i] > 0.0
  }

  function Pow(r: real, n: nat): real {
    if n == 0 then 1.0 else Times(r, Pow(r, n - 1))
  }

  /** What a step of smoothing keeps of the distance to the newest price. */
  function Kept(period: nat): real
    requires period > 0
  {
    1.0 - Smoothing(period)
  }

  lemma KeptIs(period: nat)
    requires period > 0
    ensures Times((period + 1) as real, Kept(period)) == (period - 1) as real
    ensures 0.0 <= Kept(period) < 1.0 && (period > 1 ==> Kept(period) > 0.0)
  {
    var n := (period + 1) as real;
    SmoothingRange(period);
    TimesDiv(2.0, n);
    TimesZero(n, Smoothing(period));
    TimesSub(1.0, Smoothing(period), n);
    TimesZero(n, Kept(period));
  }

  // ------------------------------------------------------------------ powers

  lemma {:induction false} PowSign(r: real, n: nat)
    requires r >= 0.0
    ensures Pow(r, n) >= 0.0 && (r > 0.0 ==> Pow(r, n) > 0.0)
  {
    if n > 0 {
      PowSign(r, n - 1);
      TimesZero(r, Pow(r, n - 1));
      TimesMono(0.0, Pow(r, n - 1), r);
      TimesZero(r, 0.0);
    }
  }

  lemma {:induction false} PowOfProduct(a: real, b: real, n: nat)
    ensures Pow(Times(a, b), n) == Times(Pow(a, n), Pow(b, n))
  {
    if n > 0 {
      PowOfProduct(a, b, n - 1);
      var x, y := Pow(a, n - 1), Pow(b, n - 1);
      calc {
        Times(Times(a, b), Times(x, y));
        { TimesAssoc(a, b, Times(x, y)); TimesAssoc(b, x, y); }
        Times(a, Times(x, Times(b, y)));
        { TimesAssoc(a, x, Times(b, y)); }
        Times(Times(a, x), Times(b, y));
      }
    }
  }

  lemma BernoulliStep(y: real, m: real)
    requires y >= 0.0 && m >= 0.0
    ensures Times(1.0 + y, 1.0 - (m + 1.0) * y) <= 1.0 - m * y
  {
    assert Times(1.0 + y, 1.0 - (m + 1.0) * y) == 1.0 - m * y - (m + 1.0) * (y * y);
    SquareNonNegative(y);
    MulMono(0.0, m + 1.0, y * y);
  }

  function OneLess(y: real, m: real): real {
    1.0 - m * y
  }

  lemma OneMoreFactor(p: real, y: real, m: real)
    requires p >= 0.0 && y >= 0.0 && m >= 0.0 && Times(p, OneLess(y, m)) <= 1.0
    ensures Times(Times(1.0 + y, p), OneLess(y, m + 1.0)) <= 1.0
  {
    BernoulliStep(y, m);
    var f, c, bound := 1.0 + y, OneLess(y, m + 1.0), OneLess(y, m);
    TimesAssoc(f, p, c);
    TimesAssoc(p, f, c);
    TimesMono(Times(f, c), bound, p);
  }

  /** Bernoulli's inequality, upside down. */
  lemma {:induction false} Bernoulli(y: real, m: nat)
    requires y >= 0.0
    ensures Times(Pow(1.0 + y, m), OneLess(y, m as real)) <= 1.0
  {
    if m > 0 {
      Bernoulli(y, m - 1);
      PowSign(1.0 + y, m - 1);
      OneMoreFactor(Pow(1.0 + y, m - 1), y, (m - 1) as real);
    }
  }

  /** One price more: the factor kept grows by 1 + y, and by so much that it is 1 - m y. */
  lemma KeptGrows(m: nat) returns (y: real)
    requires m > 0
    ensures y > 0.0 && Kept(m + 2) == Times(Kept(m + 1), 1.0 + y) && Kept(m + 2) == OneLess(y, m as real)
  {
    var n := m as real;
    var d := (n + 3.0) * n;
    assert d > 0.0;
    y := 2.0 / d;
    DivMonoStrict(0.0, 2.0, d);
    QuotientIs(0.0, d, 0.0);
    DivMul(2.0, d);
    assert (n * y) * (n + 3.0) == 2.0 by { assert y * d == (n * y) * (n + 3.0); }
    KeptIs(m + 2);
    KeptIs(m + 1);
    KeptIsOneMinus(n, y, Kept(m + 2));
    KeptIsProduct(n, y, Kept(m + 1), Kept(m + 2));
  }

  lemma KeptIsOneMinus(n: real, y: real, k: real)
    requires n > 0.0 && (n * y) * (n + 3.0) == 2.0 && Times(n + 3.0, k) == n + 1.0
    ensures k == 1.0 - n * y
  {
    assert (n + 3.0) * (k - (1.0 - n * y)) == 0.0;
  }

  lemma KeptIsProduct(n: real, y: real, k: real, k': real)
    requires n > 0.0 && (n * y) * (n + 3.0) == 2.0
    requires Times(n + 2.0, k) == n && Times(n + 3.0, k') == n + 1.0
    ensures k' == Times(k, 1.0 + y)
  {
    // times (n + 2)(n + 3) both sides are (n + 1)(n + 2)
    var c := (n + 2.0) * (n + 3.0);
    assert c * (k * (1.0 + y)) == ((n + 2.0) * k) * ((n + 3.0) * (1.0 + y));
    assert n * ((n + 3.0) * (1.0 + y)) == n * (n + 3.0) + 2.0;
    assert c * k' == (n + 2.0) * ((n + 3.0) * k');
    assert c > 0.0;
    assert c * (k' - k * (1.0 + y)) == 0.0;
  }

  lemma AtMostWhole(k: real, p: real, b: real)
    requires p >= 0.0 && Times(b, k) <= 1.0
    ensures Times(k, Times(p, b)) <= p
  {
    TimesAssoc(k, p, b);
    TimesZero(k, b);
    TimesMono(Times(k, b), 1.0, p);
    TimesOne(p);
  }

  lemma LongerFades(m: nat)
    requires m > 0
    ensures Pow(Kept(m + 2), m + 1) <= Pow(Kept(m + 1), m)
  {
    var y := KeptGrows(m);
    PowOfProduct(Kept(m + 1), 1.0 + y, m);
    Bernoulli(y, m);
    KeptIs(m + 1);
    PowSign(Kept(m + 1), m);
    AtMostWhole(Kept(m + 2), Pow(Kept(m + 1), m), Pow(1.0 + y, m));
  }

  /** Over its whole window a longer average keeps less of the seed. */
  lemma SeedFades(n: nat)
    requires n > 0
    ensures 0.0 < Pow(Kept(n + 1), n) <= Pow(Kept(n), n - 1)
  {
    KeptIs(n + 1);
    PowSign(Kept(n + 1), n);
    if n == 1 {
      TimesOne(Kept(2));
    } else {
      LongerFades(n - 1);
    }
  }

  lemma TimesOne(a: real)
    ensures Times(a, 1.0) == a
  {
  }

  // ------------------------------------------------------------------ how far an average lags

  /** How far smoothing lags behind price j - 1 when it starts from the first price. */
  function Lag(r: real, w: seq<real>, j: nat): real
    requires 0 < j <= |w|
  {
    if j == 1 then 0.0 else Times(r, w[j - 1] - w[j - 2] + Lag(r, w, j - 1))
  }

  /** The newest price less the lag, plus what is left of the seed's distance m from the first price. */
  function Lagging(newest: real, lag: real, p: real, m: real): real {
    newest - lag + Times(p, m)
  }

  lemma SmoothLags(ema: real, price: real, prev: real, lag: real, p: real, m: real, k: real)
    requires ema == Lagging(prev, lag, p, m)
    ensures Smooth(ema, price, k) == Lagging(price, Times(1.0 - k, price - prev + lag), Times(1.0 - k, p), m)
  {
    TimesAssoc(1.0 - k, p, m);
    assert Smooth(ema, price, k) == price - (1.0 - k) * (price - ema);
    assert (1.0 - k) * (price - ema) == (1.0 - k) * (price - prev + lag) - (1.0 - k) * Times(p, m);
  }

  /** The average is such a number. */
  lemma {:induction false} EmaByLag(w: seq<real>, j: nat)
    requires 0 < j <= |w|
    ensures var r := Kept(|w|);
            EmaUpTo(w, j) == Lagging(w[j - 1], Lag(r, w, j), Pow(r, j - 1), Mean(w) - w[0])
  {
    var r := Kept(|w|);
    if j == 1 {
      TimesZero(1.0, Mean(w) - w[0]);
      TimesOne(Mean(w) - w[0]);
    } else {
      EmaByLag(w, j - 1);
      SmoothLags(EmaUpTo(w, j - 1), w[j - 1], w[j - 2], Lag(r, w, j - 1), Pow(r, j - 2), Mean(w) - w[0],
                 Smoothing(|w|));
    }
  }

  lemma {:induction false} OlderLag(r: real, oldest: real, w: seq<real>, j: nat)
    requires 0 < j <= |w|
    ensures Lag(r, [oldest] + w, j + 1) == Lag(r, w, j) + Times(Pow(r, j), w[0] - oldest)
  {
    var v, d := [oldest] + w, w[0] - oldest;
    assert v[j] == w[j - 1];
    if j == 1 {
      assert Lag(r, v, 1) == 0.0 && v[0] == oldest;
      TimesOne(r);
    } else {
      OlderLag(r, oldest, w, j - 1);
      assert v[j - 1] == w[j - 2];
      TimesAdd(w[j - 1] - w[j - 2] + Lag(r, w, j - 1), Times(Pow(r, j - 1), d), r);
      TimesAssoc(r, Pow(r, j - 1), d);
    }
  }

  lemma {:induction false} LagGrows(r: real, r': real, w: seq<real>, j: nat)
    requires 0.0 <= r <= r' && 0 < j <= |w| && Rising(w)
    ensures 0.0 <= Lag(r, w, j) <= Lag(r', w, j)
  {
    if j > 1 {
      LagGrows(r, r', w, j - 1);
      assert w[j - 2] < w[j - 1];
      LagStep(r, r', w[j - 1] - w[j - 2] + Lag(r, w, j - 1), w[j - 1] - w[j - 2] + Lag(r', w, j - 1));
    }
  }

  lemma LagStep(r: real, r': real, a: real, a': real)
    requires 0.0 <= r <= r' && 0.0 <= a <= a'
    ensures 0.0 <= Times(r, a) <= Times(r', a')
  {
    MulMono(0.0, r, a);
    MulMono(r, r', a);
    TimesMono(a, a', r');
  }

  // ------------------------------------------------------------------ one price more

  lemma {:induction false} SumOlder(oldest: real, w: seq<real>)
    ensures Sum([oldest] + w) == oldest + Sum(w)
  {
    if w == [] {
      assert [oldest] + w == [oldest] && [oldest][..0] == [];
      assert Sum([oldest]) == Sum([]) + oldest;
    } else {
      var m := |w| - 1;
      SumOlder(oldest, w[..m]);
      assert ([oldest] + w)[..m + 1] == [oldest] + w[..m];
    }
  }

  lemma {:induction false} RisingFromFirst(w: seq<real>, i: nat)
    requires Rising(w) && i < |w|
    ensures w[0] <= w[i]
  {
    if i > 0 {
      RisingFromFirst(w, i - 1);
    }
  }

  lemma MeanAboveFirst(w: seq<real>)
    requires w != [] && Rising(w)
    ensures Mean(w) >= w[0]
  {
    forall i | 0 <= i < |w| ensures w[0] <= w[i] <= w[|w| - 1] {
      RisingFromFirst(w, i);
      RisingToLast(w, i);
    }
    MeanWithin(w[0], w[|w| - 1], w);
  }

  lemma {:induction false} RisingToLast(w: seq<real>, i: nat)
    requires Rising(w) && i < |w|
    ensures w[i] <= w[|w| - 1]
    decreases |w| - i
  {
    if i < |w| - 1 {
      assert w[i] < w[i + 1];
      RisingToLast(w, i + 1);
    }
  }

  /** The older price raises the mean's distance from the first price by less than itself. */
  lemma OlderMean(oldest: real, w: seq<real>)
    requires w != [] && Rising([oldest] + w)
    ensures Mean([oldest] + w) - oldest < (w[0] - oldest) + (Mean(w) - w[0])
  {
    var v, n := [oldest] + w, |w| as real;
    SumOlder(oldest, w);
    RisingTail(oldest, w);
    MeanAboveFirst(w);
    DivMul(Sum(w), n);
    DivMul(Sum(v), n + 1.0);
    OlderMeanAlgebra(Mean(v), Mean(w), oldest, n);
  }

  lemma OlderMeanAlgebra(a: real, b: real, oldest: real, n: real)
    requires n > 0.0 && b > oldest && a * (n + 1.0) == oldest + b * n
    ensures a < b
  {
    assert (b - a) * (n + 1.0) == b - oldest;
    if b <= a { MulMono(b - a, 0.0, n + 1.0); }
  }

  /** The averages before and after one price more, told by their parts. */
  lemma PartsCompare(x: real, l: real, l': real, p: real, p': real, s: real, d: real, t: real)
    requires l <= l' && 0.0 < p' <= p && s >= 0.0 && t < d + s
    ensures Lagging(x, l, p, s) > Lagging(x, l' + Times(p', d), p', t)
  {
    TimesMonoStrict(t, d + s, p');
    TimesAdd(d, s, p');
    MulMono(p', p, s);
  }

  lemma RisingTail(oldest: real, w: seq<real>)
    requires w != [] && Rising([oldest] + w)
    ensures Rising(w) && oldest < w[0]
  {
    var v := [oldest] + w;
    assert v[0] < v[1];
    forall i | 0 < i < |w| ensures w[i - 1] < w[i] { assert v[i] < v[i + 1]; }
  }

  lemma ShortByLag(w: seq<real>) returns (l: real, p: real, s: real)
    requires w != []
    ensures EmaUpTo(w, |w|) == Lagging(w[|w| - 1], l, p, s)
    ensures l == Lag(Kept(|w|), w, |w|) && p == Pow(Kept(|w|), |w| - 1) && s == Mean(w) - w[0]
  {
    EmaByLag(w, |w|);
    l, p, s := Lag(Kept(|w|), w, |w|), Pow(Kept(|w|), |w| - 1), Mean(w) - w[0];
  }

  lemma LongByLag(oldest: real, w: seq<real>) returns (l: real, p: real, t: real)
    requires w != []
    ensures EmaUpTo([oldest] + w, |w| + 1) == Lagging(w[|w| - 1], l + Times(p, w[0] - oldest), p, t)
    ensures l == Lag(Kept(|w| + 1), w, |w|) && p == Pow(Kept(|w| + 1), |w|) && t == Mean([oldest] + w) - oldest
  {
    var v, lag;
    v := [oldest] + w;
    lag, p, t := ShortByLag(v);
    OlderLag(Kept(|w| + 1), oldest, w, |w|);
    assert v[|w|] == w[|w| - 1] && v[0] == oldest;
    l := Lag(Kept(|w| + 1), w, |w|);
  }

  /** The averages over the prices and over one price more, told by parts that compare. */
  lemma ByComparableParts(oldest: real, w: seq<real>)
    returns (l: real, l': real, p: real, p': real, s: real, d: real, t: real)
    requires w != [] && Rising([oldest] + w)
    ensures EmaUpTo(w, |w|) == Lagging(w[|w| - 1], l, p, s)
    ensures EmaUpTo([oldest] + w, |w| + 1) == Lagging(w[|w| - 1], l' + Times(p', d), p', t)
    ensures l <= l' && 0.0 < p' <= p && s >= 0.0 && t < d + s
  {
    var n := |w|;
    RisingTail(oldest, w);
    l, p, s := ShortByLag(w);
    l', p', t := LongByLag(oldest, w);
    d := w[0] - oldest;
    KeptIs(n);
    SeedFades(n);
    KeptIncreases(n);
    LagGrows(Kept(n), Kept(n + 1), w, n);
    MeanAboveFirst(w);
    OlderMean(oldest, w);
  }

  lemma OnePriceMore(oldest: real, w: seq<real>)
    requires w != [] && Rising([oldest] + w)
    ensures EmaUpTo(w, |w|) > EmaUpTo([oldest] + w, |w| + 1)
  {
    var l, l', p, p', s, d, t := ByComparableParts(oldest, w);
    PartsCompare(w[|w| - 1], l, l', p, p', s, d, t);
  }

  lemma KeptIncreases(n: nat)
    requires n > 0
    ensures Kept(n) <= Kept(n + 1)
  {
    var a, b := (n + 1) as real, (n + 2) as real;
    CrossMultiply(2.0, b, 2.0, a);
  }

  // ------------------------------------------------------------------ the crossover

  /** On rising prices the average over fewer of them is the higher one. */
  lemma {:induction false} FasterIsHigher(prices: seq<real>, fast: nat, slow: nat)
    requires 0 < fast < slow <= |prices| && Rising(LastWindow(prices, slow))
    ensures EmaOf(prices, fast) > EmaOf(prices, slow)
    decreases slow
  {
    var n := slow - 1;
    var v, w := LastWindow(prices, slow), LastWindow(prices, n);
    assert v == [v[0]] + w;
    RisingTail(v[0], w);
    OnePriceMore(v[0], w);
    if fast < n {
      FasterIsHigher(prices, fast, n);
    }
  }

  /** So the crossover of a faster and a slower average is positive on rising prices. */
  lemma RisingCrossover(prices: seq<real>, fast: nat, slow: nat)
    requires 0 < fast < slow <= |prices| && Rising(LastWindow(prices, slow)) && Positive(prices)
    ensures var o := EmaCrossover(prices, fast, slow); o.Signal? && o.value > 0.0
  {
    PositivePricesGiveSignal(prices, fast, slow);
    FasterIsHigher(prices, fast, slow);
    var f, s := EmaOf(prices, fast), EmaOf(prices, slow);
    DivMonoStrict(0.0, f - s, s);
    QuotientIs(0.0, s, 0.0);
  }

  /** Over two prices the average weighs the newer one five times the older. */
  lemma TwoPriceEma(a: real, b: real)
    ensures EmaOf([a, b], 2) == (a + 5.0 * b) / 6.0
  {
    var w := [a, b];
    assert LastWindow(w, 2) == w;
    TwoPriceSum(a, b);
    assert EmaUpTo(w, 1) == (a + b) / 2.0;
    SmoothingIs(2);
    assert Smoothing(2) == 2.0 / 3.0;
  }

  lemma TwoPriceSum(a: real, b: real)
    ensures Sum([a, b]) == a + b
  {
    assert [a, b][..1] == [a] && [a][..0] == [];
    assert Sum([a]) == Sum([]) + a;
  }

  function Negated(s: seq<real>): seq<real> {
    seq(|s|, i requires 0 <= i < |s| => -s[i])
  }

  lemma {:induction false} SumNegated(s: seq<real>)
    ensures Sum(Negated(s)) == -Sum(s)
  {
    if s != [] {
      SumNegated(s[..|s| - 1]);
      assert Negated(s)[..|s| - 1] == Negated(s[..|s| - 1]);
    }
  }

  lemma {:induction false} EmaNegated(w: seq<real>, j: nat)
    requires 0 < j <= |w|
    ensures EmaUpTo(Negated(w), j) == -EmaUpTo(w, j)
  {
    if j == 1 {
      SumNegated(w);
      var n := |w| as real;
      DivMul(Sum(w), n);
      QuotientIs(-Sum(w), n, -Mean(w));
    } else {
      EmaNegated(w, j - 1);
      NegatedSmooth(EmaUpTo(w, j - 1), w[j - 1], Smoothing(|w|));
    }
  }

  lemma NegatedSmooth(ema: real, price: real, k: real)
    ensures Smooth(-ema, -price, k) == -Smooth(ema, price, k)
  {
  }

  lemma LastNegated(prices: seq<real>, n: nat)
    requires 0 < n <= |prices|
    ensures LastWindow(Negated(prices), n) == Negated(LastWindow(prices, n))
    ensures EmaOf(Negated(prices), n) == -EmaOf(prices, n)
  {
    EmaNegated(LastWindow(prices, n), n);
  }

  /** ... and negative on falling ones. */
  lemma FallingCrossover(prices: seq<real>, fast: nat, slow: nat)
    requires 0 < fast < slow <= |prices| && Falling(LastWindow(prices, slow)) && Positive(prices)
    ensures var o := EmaCrossover(prices, fast, slow); o.Signal? && o.value < 0.0
  {
    PositivePricesGiveSignal(prices, fast, slow);
    LastNegated(prices, fast);
    LastNegated(prices, slow);
    FasterIsHigher(Negated(prices), fast, slow);
    var f, s := EmaOf(prices, fast), EmaOf(prices, slow);
    DivMonoStrict(f - s, 0.0, s);
    QuotientIs(0.0, s, 0.0);
  }

  // ------------------------------------------------------------------ MACD

  lemma {:induction false} RunningAtMostNewest(data: seq<real>, period: nat, t: nat)
    requires 0 < period <= t <= |data| && Rising(data)
    ensures Running(data, period, t) <= data[t - 1]
  {
    if t == period {
      var w := data[..period];
      forall i | 0 <= i < period ensures w[0] <= w[i] <= w[period - 1] {
        RisingFromFirst(w, i);
        RisingToLast(w, i);
      }
      MeanWithin(w[0], w[period - 1], w);
    } else {
      RunningAtMostNewest(data, period, t - 1);
      SmoothingRange(period);
      assert data[t - 2] < data[t - 1];
      var ema := Running(data, period, t - 1);
      SmoothWithin(ema, data[t - 1], ema, data[t - 1], Smoothing(period));
    }
  }

  lemma MeanStep(data: seq<real>, t: nat)
    requires 1 < t <= |data|
    ensures Times(Mean(data[..t]), t as real) == Times(Mean(data[..t - 1]), t as real - 1.0) + data[t - 1]
  {
    assert data[..t][..t - 1] == data[..t - 1];
    TimesDiv(Sum(data[..t]), t as real);
    TimesDiv(Sum(data[..t - 1]), (t - 1) as real);
  }

  lemma Cancel(a: real, b: real, c: real)
    requires c > 0.0 && a * c > b * c
    ensures a > b
  {
    if a <= b { MulMono(a, b, c); }
  }

  lemma SmoothAboveMean(ema: real, mean: real, next: real, x: real, k: real, t: real)
    requires mean <= ema && mean < x && 0.0 < k <= 1.0 && t > 1.0 && Times(k, t) > 1.0
    requires Times(next, t) == Times(mean, t - 1.0) + x
    ensures Smooth(ema, x, k) > next
  {
    var d := x - mean;
    assert (next - mean) * t == d;
    MulMonoStrict(1.0, k * t, d);
    assert (k * d) * t == (k * t) * d;
    Cancel(k * d, next - mean, t);
    MulMono(mean, ema, 1.0 - k);
    assert Smooth(ema, x, k) == x * k + ema * (1.0 - k);
    assert x * k + mean * (1.0 - k) == mean + k * d;
  }

  lemma SmoothingIs(period: nat)
    requires period > 0
    ensures Smoothing(period) * (period as real + 1.0) == 2.0
  {
    DivMul(2.0, (period + 1) as real);
  }

  lemma SmoothingBeatsMean(period: nat, t: nat)
    requires 0 < period < t
    ensures Times(Smoothing(period), t as real) > 1.0
  {
    SmoothingIs(period);
    SmoothingRange(period);
    LongerIsMore(Smoothing(period), period as real + 1.0, t as real);
  }

  lemma LongerIsMore(k: real, n: real, t: real)
    requires k > 0.0 && k * n == 2.0 && n <= t
    ensures Times(k, t) > 1.0
  {
    MulMono(n, t, k);
  }

  /** Past its seed a running average on rising prices is above the mean of everything so far. */
  lemma {:induction false} RunningAboveMean(data: seq<real>, period: nat, t: nat)
    requires 0 < period <= t <= |data| && Rising(data)
    ensures Running(data, period, t) >= Mean(data[..t])
    ensures t > period ==> Running(data, period, t) > Mean(data[..t])
  {
    if t > period {
      RunningAboveMean(data, period, t - 1);
      RunningAtMostNewest(data, period, t - 1);
      assert data[t - 2] < data[t - 1];
      MeanStep(data, t);
      SmoothingBeatsMean(period, t);
      SmoothingRange(period);
      SmoothAboveMean(Running(data, period, t - 1), Mean(data[..t - 1]), Mean(data[..t]), data[t - 1],
                      Smoothing(period), t as real);
    }
  }

  lemma SmoothingFalls(fast: nat, slow: nat)
    requires 0 < fast < slow
    ensures Smoothing(fast) > Smoothing(slow)
  {
    SmoothingIs(fast);
    SmoothingIs(slow);
    SmoothingRange(slow);
    var a, b := fast as real + 1.0, slow as real + 1.0;
    MulMonoStrict(a, b, Smoothing(slow));
    Cancel(Smoothing(fast), Smoothing(slow), a);
  }

  lemma FasterStaysAbove(f: real, s: real, x: real, kf: real, ks: real)
    requires f > s && x > s && 0.0 < ks < kf <= 1.0
    ensures Smooth(f, x, kf) > Smooth(s, x, ks)
  {
    MulMono(s, f, 1.0 - kf);
    MulMonoStrict(ks, kf, x - s);
    assert Smooth(f, x, kf) == x * kf + f * (1.0 - kf);
    assert x * kf + s * (1.0 - kf) == s + kf * (x - s);
    assert Smooth(s, x, ks) == s + ks * (x - s);
  }

  lemma {:induction false} RunningIsFaster(prices: seq<real>, fast: nat, slow: nat, t: nat)
    requires 0 < fast < slow <= t <= |prices| && Rising(prices)
    ensures Running(prices, fast, t) > Running(prices, slow, t)
  {
    if t == slow {
      RunningAboveMean(prices, fast, t);
    } else {
      RunningIsFaster(prices, fast, slow, t - 1);
      RunningAtMostNewest(prices, slow, t - 1);
      assert prices[t - 2] < prices[t - 1];
      SmoothingFalls(fast, slow);
      SmoothingRange(fast);
      SmoothingRange(slow);
      FasterStaysAbove(Running(prices, fast, t - 1), Running(prices, slow, t - 1), prices[t - 1],
                       Smoothing(fast), Smoothing(slow));
    }
  }

  /** The whole MACD line is positive on rising prices. */
  lemma RisingMacd(prices: seq<real>, fast: nat, slow: nat)
    requires 0 < fast < slow <= |prices| && Rising(prices)
    ensures var line := MacdLine(prices, fast, slow, |prices| - slow + 1);
            |line| == |prices| - slow + 1 && forall j :: 0 <= j < |line| ==> line[j] > 0.0
  {
    var n := |prices| - slow + 1;
    MacdLineLength(prices, fast, slow, n);
    forall j | 0 <= j < n ensures MacdLine(prices, fast, slow, n)[j] > 0.0 {
      RunningIsFaster(prices, fast, slow, j + slow);
    }
  }

  /** The signal tells on which side of its own recent mean the line has come out, as a share of one percent of the
      price, cut at a whole one. */
  lemma MacdSignalPoints(line: seq<real>, signalPeriod: nat, price: real)
    requires 0 < signalPeriod <= |line| && price > 0.0
    ensures var diff := line[|line| - 1] - Mean(line[|line| - signalPeriod..]);
            var o := MacdSignalOf(line, signalPeriod, price);
            && (o > 0.0 <==> diff > 0.0) && (o < 0.0 <==> diff < 0.0)
            && -1.0 <= o <= 1.0 && (-1.0 < o < 1.0 ==> 100.0 * diff == o * price)
  {
    var diff, scale := line[|line| - 1] - Mean(line[|line| - signalPeriod..]), price * 0.01;
    DivMul(diff, scale);
    QuotientIs(0.0, scale, 0.0);
    if diff > 0.0 {
      DivMonoStrict(0.0, diff, scale);
    } else if diff < 0.0 {
      DivMonoStrict(diff, 0.0, scale);
    }
  }
}
