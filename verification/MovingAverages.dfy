/** EMA crossover and MACD (app/strategies/quant_algos/momentum_algos.py). */
module MovingAverages {
  import opened Options
  import opened RealLemmas
  import opened Sums

  function Smoothing(period: nat): real
    requires period > 0
  {
    2.0 / (period + 1) as real
  }

  function Smooth(ema: real, price: real, k: real): real {
    Times(price, k) + Times(ema, 1.0 - k)
  }

  lemma SmoothingRange(period: nat)
    requires period > 0
    ensures 0.0 < Smoothing(period) <= 1.0
  {
    var n := (period + 1) as real;
    DivMonoStrict(0.0, 2.0, n);
    DivMono(2.0, n, n);
    QuotientIs(0.0, n, 0.0);
    QuotientIs(n, n, 1.0);
  }

  lemma SmoothWithin(lo: real, hi: real, ema: real, price: real, k: real)
    requires lo <= ema <= hi && lo <= price <= hi && 0.0 <= k <= 1.0
    ensures lo <= Smooth(ema, price, k) <= hi
  {
    TimesMono(lo, price, k);
    TimesMono(price, hi, k);
    TimesMono(lo, ema, 1.0 - k);
    TimesMono(ema, hi, 1.0 - k);
    TimesAdd(k, 1.0 - k, lo);
    TimesAdd(k, 1.0 - k, hi);
    TimesZero(price, k);
    TimesZero(ema, 1.0 - k);
  }

  // ------------------------------------------------------------------ _ema

  /** The window's mean, then smoothed with its entries from the second up to index j. */
  function EmaUpTo(w: seq<real>, j: nat): real
    requires 0 < j <= |w|
  {
    if j == 1 then Mean(w) else Smooth(EmaUpTo(w, j - 1), w[j - 1], Smoothing(|w|))
  }

  /** The value of `_ema` when there are enough prices. */
  function EmaOf(prices: seq<real>, period: nat): real
    requires 0 < period <= |prices|
  {
    EmaUpTo(LastWindow(prices, period), period)
  }

  /** `_ema`: None for fewer prices than the period. */
  method Ema(prices: seq<real>, period: nat) returns (r: Option<real>)
    requires period > 0
    ensures r == if |prices| < period then None else Some(EmaOf(prices, period))
  {
    if |prices| < period {
      return None;
    }
    var k := 2.0 / (period + 1) as real;
    var w := LastWindow(prices, period);
    var ema := Mean(w);
    for i := 1 to period
      invariant ema == EmaUpTo(w, i)
    {
      ema := Smooth(ema, prices[|prices| - period + i], k);
    }
    r := Some(ema);
  }

  lemma {:induction false} EmaUpToWithin(lo: real, hi: real, w: seq<real>, j: nat)
    requires 0 < j <= |w| && Within(lo, hi, w)
    ensures lo <= EmaUpTo(w, j) <= hi
  {
    if j == 1 {
      MeanWithin(lo, hi, w);
    } else {
      EmaUpToWithin(lo, hi, w, j - 1);
      SmoothingRange(|w|);
      SmoothWithin(lo, hi, EmaUpTo(w, j - 1), w[j - 1], Smoothing(|w|));
    }
  }

  /** An EMA lies between the least and the greatest of the prices in its window. */
  lemma EmaWithin(lo: real, hi: real, prices: seq<real>, period: nat)
    requires 0 < period <= |prices| && Within(lo, hi, LastWindow(prices, period))
    ensures lo <= EmaOf(prices, period) <= hi
  {
    EmaUpToWithin(lo, hi, LastWindow(prices, period), period);
  }

  /** `ema_crossover` for the periods the dispatcher passes. */
  function EmaCrossover(prices: seq<real>, fast: nat, slow: nat): Outcome
    requires 0 < fast <= slow
  {
    if |prices| < slow then WarmingUp
    else
      var f, s := EmaOf(prices, fast), EmaOf(prices, slow);
      if s == 0.0 then Invalid else Signal((f - s) / s)
  }

  function Least(s: seq<real>): real
    requires s != []
  {
    if |s| == 1 then s[0] else if s[|s| - 1] < Least(s[..|s| - 1]) then s[|s| - 1] else Least(s[..|s| - 1])
  }

  lemma {:induction false} LeastIsLeast(s: seq<real>)
    requires s != []
    ensures forall i :: 0 <= i < |s| ==> Least(s) <= s[i]
    ensures exists i :: 0 <= i < |s| && Least(s) == s[i]
  {
    if |s| > 1 {
      var m := |s| - 1;
      LeastIsLeast(s[..m]);
      if Least(s) == s[m] {
      } else {
        var i :| 0 <= i < m && Least(s[..m]) == s[..m][i];
        assert Least(s) == s[i];
      }
    } else {
      assert Least(s) == s[0];
    }
  }

  /** On positive prices the crossover is never "invalid". */
  lemma PositivePricesGiveSignal(prices: seq<real>, fast: nat, slow: nat)
    requires 0 < fast <= slow <= |prices|
    requires forall i :: 0 <= i < |prices| ==> prices[i] > 0.0
    ensures EmaOf(prices, slow) > 0.0 && EmaCrossover(prices, fast, slow).Signal?
  {
    var w := LastWindow(prices, slow);
    LeastIsLeast(w);
    PositiveEma(w, slow);
  }

  lemma {:induction false} PositiveEma(w: seq<real>, j: nat)
    requires 0 < j <= |w| && (forall i :: 0 <= i < |w| ==> w[i] > 0.0)
    requires forall i :: 0 <= i < |w| ==> Least(w) <= w[i]
    requires Least(w) > 0.0
    ensures EmaUpTo(w, j) > 0.0
  {
    var hi := Sum(w) + 1.0;
    SumBoundsEach(w);
    EmaUpToWithin(Least(w), hi, w, j);
  }

  lemma {:induction false} SumBoundsEach(w: seq<real>)
    requires forall i :: 0 <= i < |w| ==> w[i] > 0.0
    ensures Sum(w) >= 0.0
    ensures forall i :: 0 <= i < |w| ==> w[i] <= Sum(w)
  {
    if w != [] {
      SumBoundsEach(w[..|w| - 1]);
    }
  }

  /** Constant prices give a crossover of exactly zero. */
  lemma ConstantCrossover(prices: seq<real>, fast: nat, slow: nat, c: real)
    requires 0 < fast <= slow <= |prices| && c != 0.0
    requires forall i :: 0 <= i < |prices| ==> prices[i] == c
    ensures EmaCrossover(prices, fast, slow) == Signal(0.0)
  {
    EmaWithin(c, c, prices, fast);
    EmaWithin(c, c, prices, slow);
    QuotientIs(0.0, c, 0.0);
  }

  // ------------------------------------------------------------------ MACD

  /** The running average after the first t prices, seeded with the mean of the first `period`. */
  function Running(data: seq<real>, period: nat, t: nat): real
    requires 0 < period <= t <= |data|
  {
    if t == period then Mean(data[..period])
    else Smooth(Running(data, period, t - 1), data[t - 1], Smoothing(period))
  }

  /** It has consumed the first t prices and no other. */
  lemma {:induction false} RunningIsCausal(data: seq<real>, other: seq<real>, period: nat, t: nat)
    requires 0 < period <= t <= |data| && t <= |other| && data[..t] == other[..t]
    ensures Running(data, period, t) == Running(other, period, t)
  {
    if t == period {
      assert data[..period] == other[..period];
    } else {
      assert data[..t - 1] == data[..t][..t - 1] == other[..t - 1];
      assert data[t - 1] == data[..t][t - 1] == other[t - 1];
      RunningIsCausal(data, other, period, t - 1);
    }
  }

  lemma {:induction false} RunningWithin(lo: real, hi: real, data: seq<real>, period: nat, t: nat)
    requires 0 < period <= t <= |data| && Within(lo, hi, data)
    ensures lo <= Running(data, period, t) <= hi
  {
    if t == period {
      MeanWithin(lo, hi, data[..period]);
    } else {
      RunningWithin(lo, hi, data, period, t - 1);
      SmoothingRange(period);
      SmoothWithin(lo, hi, Running(data, period, t - 1), data[t - 1], Smoothing(period));
    }
  }

  method EmaSeries(data: seq<real>, period: nat) returns (out: seq<real>)
    requires 0 < period <= |data|
    ensures |out| == |data| - period + 1
    ensures forall j :: 0 <= j < |out| ==> out[j] == Running(data, period, period + j)
  {
    var k := 2.0 / (period + 1) as real;
    var ema := Mean(data[..period]);
    out := [ema];
    for i := period to |data|
      invariant |out| == i - period + 1
      invariant ema == Running(data, period, i)
      invariant forall j :: 0 <= j < |out| ==> out[j] == Running(data, period, period + j)
    {
      ema := Smooth(ema, data[i], k);
      out := out + [ema];
    }
  }

  /** Entry j of the MACD line: both averages after the first j + slow prices. */
  function MacdAt(prices: seq<real>, fast: nat, slow: nat, j: nat): real
    requires 0 < fast <= slow && j + slow <= |prices|
  {
    Running(prices, fast, j + slow) - Running(prices, slow, j + slow)
  }

  function MacdLine(prices: seq<real>, fast: nat, slow: nat, n: nat): seq<real>
    requires 0 < fast <= slow && n + slow <= |prices| + 1
  {
    if n == 0 then [] else MacdLine(prices, fast, slow, n - 1) + [MacdAt(prices, fast, slow, n - 1)]
  }

  /** The difference of the last MACD value and the mean of the last ones, per percent of the price. */
  function MacdSignalOf(line: seq<real>, signalPeriod: nat, price: real): real
    requires 0 < signalPeriod <= |line|
  {
    var diff := line[|line| - 1] - Mean(line[|line| - signalPeriod..]);
    var scale := if price != 0.0 then price * 0.01 else 1.0;
    Clamp(-1.0, 1.0, if scale == 0.0 then 0.0 else diff / scale)
  }

  lemma {:induction false} MacdLineLength(prices: seq<real>, fast: nat, slow: nat, n: nat)
    requires 0 < fast <= slow && n + slow <= |prices| + 1
    ensures |MacdLine(prices, fast, slow, n)| == n
    ensures forall j :: 0 <= j < n ==> MacdLine(prices, fast, slow, n)[j] == MacdAt(prices, fast, slow, j)
  {
    if n > 0 {
      MacdLineLength(prices, fast, slow, n - 1);
    }
  }

  /** `macd_signal`.  Every index into the two series is in bounds, the line is aligned so that both averages
      have consumed the same prices, and the "macd warmup" branch (Invalid) is never taken. */
  method MacdSignal(prices: seq<real>, fast: nat, slow: nat, signalPeriod: nat) returns (o: Outcome)
    requires 0 < fast <= slow && signalPeriod > 0
    ensures |prices| < slow + signalPeriod ==> o == WarmingUp
    ensures |prices| >= slow + signalPeriod ==>
              var line := MacdLine(prices, fast, slow, |prices| - slow + 1);
              |line| >= signalPeriod && o == Signal(MacdSignalOf(line, signalPeriod, prices[|prices| - 1]))
  {
    if |prices| < slow + signalPeriod {
      return WarmingUp;
    }
    var emaF := EmaSeries(prices, fast);
    var emaS := EmaSeries(prices, slow);
    var line := [];
    for j := 0 to |emaS|
      invariant line == MacdLine(prices, fast, slow, j)
    {
      line := line + [emaF[j + slow - fast] - emaS[j]];
    }
    MacdLineLength(prices, fast, slow, |emaS|);
    if |line| < signalPeriod {
      return Invalid;
    }
    var price := prices[|prices| - 1];
    var diff := line[|line| - 1] - Mean(line[|line| - signalPeriod..]);
    var scale := if price != 0.0 then price * 0.01 else 1.0;
    o := Signal(Clamp(-1.0, 1.0, if scale == 0.0 then 0.0 else diff / scale));
  }

  /** Prices a MACD entry has not consumed cannot change it. */
  lemma MacdIsCausal(prices: seq<real>, other: seq<real>, fast: nat, slow: nat, j: nat)
    requires 0 < fast <= slow && j + slow <= |prices| && j + slow <= |other|
    requires prices[..j + slow] == other[..j + slow]
    ensures MacdAt(prices, fast, slow, j) == MacdAt(other, fast, slow, j)
  {
    RunningIsCausal(prices, other, fast, j + slow);
    RunningIsCausal(prices, other, slow, j + slow);
  }

  /** Constant prices give a MACD signal of exactly zero. */
  lemma ConstantMacd(prices: seq<real>, fast: nat, slow: nat, signalPeriod: nat, c: real)
    requires 0 < fast <= slow && 0 < signalPeriod && slow + signalPeriod <= |prices|
    requires forall i :: 0 <= i < |prices| ==> prices[i] == c
    ensures var line := MacdLine(prices, fast, slow, |prices| - slow + 1);
            |line| >= signalPeriod && MacdSignalOf(line, signalPeriod, c) == 0.0
  {
    var n := |prices| - slow + 1;
    MacdLineLength(prices, fast, slow, n);
    var line := MacdLine(prices, fast, slow, n);
    forall j | 0 <= j < n ensures line[j] == 0.0 {
      RunningWithin(c, c, prices, fast, j + slow);
      RunningWithin(c, c, prices, slow, j + slow);
    }
    MeanWithin(0.0, 0.0, line[|line| - signalPeriod..]);
    if c != 0.0 {
      QuotientIs(0.0, c * 0.01, 0.0);
    }
  }

  // ------------------------------------------------------------------ the dispatcher

  function FastPeriod(lookback: nat): nat {
    if lookback / 2 < 2 then 2 else lookback / 2
  }

  /** Whatever lookback the plan holds, the dispatcher's crossover gets 2 <= fast <= slow, and with positive
      prices answers either "warming up" or a signal. */
  lemma DispatchedCrossover(prices: seq<real>, planLookback: int)
    requires forall i :: 0 <= i < |prices| ==> prices[i] > 0.0
    ensures var slow := Lookback(planLookback);
            var fast := FastPeriod(slow);
            && 2 <= fast <= slow
            && EmaCrossover(prices, fast, slow) != Invalid
            && (EmaCrossover(prices, fast, slow) == WarmingUp <==> |prices| < slow)
  {
    var slow := Lookback(planLookback);
    if slow <= |prices| {
      PositivePricesGiveSignal(prices, FastPeriod(slow), slow);
    }
  }
}
