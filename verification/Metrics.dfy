/** Performance metrics of an equity curve (user-server/user_server/backtest/metrics.py). */
module Metrics {
  import opened RealLemmas

  // ------------------------------------------------------------------ drawdown

  /** The highest value seen up to and including index j. */
  function PeakAt(curve: seq<real>, j: nat): real
    requires j < |curve|
  {
    if j == 0 then curve[0]
    else if curve[j] > PeakAt(curve, j - 1) then curve[j] else PeakAt(curve, j - 1)
  }

  lemma {:induction false} PeakIsMaximum(curve: seq<real>, j: nat)
    requires j < |curve|
    ensures forall i :: 0 <= i <= j ==> curve[i] <= PeakAt(curve, j)
    ensures exists i :: 0 <= i <= j && curve[i] == PeakAt(curve, j)
  {
    if j == 0 {
      assert curve[0] == PeakAt(curve, j);
    } else {
      PeakIsMaximum(curve, j - 1);
      if curve[j] == PeakAt(curve, j) {
      } else {
        var i :| 0 <= i <= j - 1 && curve[i] == PeakAt(curve, j - 1);
        assert 0 <= i <= j && curve[i] == PeakAt(curve, j);
      }
    }
  }

  /** How far the curve is below its peak at j, as a fraction of the peak; 0 while there is no positive peak. */
  function DrawdownAt(curve: seq<real>, j: nat): real
    requires j < |curve|
  {
    var peak := PeakAt(curve, j);
    if peak > 0.0 then (peak - curve[j]) / peak else 0.0
  }

  /** d is the largest drawdown from a running peak. */
  ghost predicate IsMaxDrawdown(curve: seq<real>, d: real) {
    && (forall j :: 0 <= j < |curve| ==> DrawdownAt(curve, j) <= d)
    && (d == 0.0 || exists j :: 0 <= j < |curve| && DrawdownAt(curve, j) == d)
    && 0.0 <= d
  }

  /** The single pass of the source: a running peak and a running maximum. */
  method MaxDrawdown(curve: seq<real>) returns (mdd: real)
    ensures IsMaxDrawdown(curve, mdd)
  {
    if curve == [] {
      return 0.0;
    }
    var peak := curve[0];
    mdd := 0.0;
    for j := 0 to |curve|
      invariant peak == if j == 0 then curve[0] else PeakAt(curve, j - 1)
      invariant forall i :: 0 <= i < j ==> DrawdownAt(curve, i) <= mdd
      invariant mdd == 0.0 || exists i :: 0 <= i < j && DrawdownAt(curve, i) == mdd
      invariant 0.0 <= mdd
    {
      var v := curve[j];
      if v > peak {
        peak := v;
      }
      assert peak == PeakAt(curve, j);
      if peak > 0.0 {
        var dd := (peak - v) / peak;
        assert dd == DrawdownAt(curve, j);
        if dd > mdd {
          mdd := dd;
        }
      }
    }
  }

  lemma MaxDrawdownIsUnique(curve: seq<real>, d: real, e: real)
    requires IsMaxDrawdown(curve, d) && IsMaxDrawdown(curve, e)
    ensures d == e
  {
  }

  /** The drop from index i to index j as a fraction of the value at i. */
  function PairDrop(curve: seq<real>, i: nat, j: nat): real
    requires i < |curve| && j < |curve| && curve[i] != 0.0
  {
    (curve[i] - curve[j]) / curve[i]
  }

  /** The definition over all pairs of points, without a running peak. */
  ghost predicate IsWorstPairDrop(curve: seq<real>, d: real) {
    && (forall i, j :: 0 <= i <= j < |curve| && curve[i] > 0.0 ==> PairDrop(curve, i, j) <= d)
    && (d == 0.0 || exists i, j :: 0 <= i <= j < |curve| && curve[i] > 0.0 && PairDrop(curve, i, j) == d)
    && 0.0 <= d
  }

  /** Once the curve was positive it is never negative again. */
  predicate StaysSolvent(curve: seq<real>) {
    forall i, j :: 0 <= i <= j < |curve| && curve[i] > 0.0 ==> curve[j] >= 0.0
  }

  lemma DropGrowsWithPeak(c: real, low: real, high: real)
    requires 0.0 < low <= high && 0.0 <= c
    ensures (low - c) / low <= (high - c) / high <= 1.0
  {
    DivSub(low, c, low);
    DivSub(high, c, high);
    QuotientIs(low, low, 1.0);
    QuotientIs(high, high, 1.0);
    DivMono(0.0, c, high);
    var x := c / high;
    DivMul(c, high);
    MulMono(low, high, x);
    QuotientIs(x * low, low, x);
    DivMono(x * low, c, low);
  }

  lemma DrawdownIsPairDrop(curve: seq<real>, j: nat)
    requires j < |curve| && DrawdownAt(curve, j) != 0.0
    ensures exists i :: 0 <= i <= j && curve[i] > 0.0 && PairDrop(curve, i, j) == DrawdownAt(curve, j)
  {
    PeakIsMaximum(curve, j);
    var i :| 0 <= i <= j && curve[i] == PeakAt(curve, j);
    assert PairDrop(curve, i, j) == DrawdownAt(curve, j);
  }

  /** Every fall below zero, taken from whatever positive value before it, is matched by a fall from a running
      peak. */
  ghost predicate FallsAreMatched(curve: seq<real>) {
    forall i, j :: 0 <= i <= j < |curve| && curve[i] > 0.0 && curve[j] < 0.0 ==>
      exists k :: 0 <= k < |curve| && PairDrop(curve, i, j) <= DrawdownAt(curve, k)
  }

  /** The single pass finds the worst of all pairs exactly on the curves whose falls below zero are matched.
      Pairs that end at or above zero need no checking. */
  lemma SinglePassIsAllPairsIff(curve: seq<real>, d: real)
    requires IsMaxDrawdown(curve, d)
    ensures IsWorstPairDrop(curve, d) <==> FallsAreMatched(curve)
  {
    forall i, j | 0 <= i <= j < |curve| && curve[i] > 0.0 && curve[j] >= 0.0 ensures PairDrop(curve, i, j) <= d {
      PeakIsMaximum(curve, j);
      DropGrowsWithPeak(curve[j], curve[i], PeakAt(curve, j));
      assert DrawdownAt(curve, j) <= d;
    }
    if d != 0.0 {
      var j :| 0 <= j < |curve| && DrawdownAt(curve, j) == d;
      DrawdownIsPairDrop(curve, j);
    }
    if IsWorstPairDrop(curve, d) {
      forall i, j | 0 <= i <= j < |curve| && curve[i] > 0.0 && curve[j] < 0.0
        ensures exists k :: 0 <= k < |curve| && PairDrop(curve, i, j) <= DrawdownAt(curve, k)
      {
        FallIsMatched(curve, d, i, j);
      }
    }
  }

  lemma FallIsMatched(curve: seq<real>, d: real, i: nat, j: nat)
    requires IsMaxDrawdown(curve, d) && i <= j < |curve| && curve[i] > 0.0 > curve[j] && PairDrop(curve, i, j) <= d
    ensures exists k :: 0 <= k < |curve| && PairDrop(curve, i, j) <= DrawdownAt(curve, k)
  {
    DivMonoStrict(0.0, curve[i] - curve[j], curve[i]);
    QuotientIs(0.0, curve[i], 0.0);
    assert d > 0.0;
    var k :| 0 <= k < |curve| && DrawdownAt(curve, k) == d;
    assert PairDrop(curve, i, j) <= DrawdownAt(curve, k);
  }

  /** It never finds more than the worst pair. */
  lemma SinglePassNeverOverstates(curve: seq<real>, d: real, worst: real)
    requires IsMaxDrawdown(curve, d) && IsWorstPairDrop(curve, worst)
    ensures d <= worst
  {
    if d != 0.0 {
      var j :| 0 <= j < |curve| && DrawdownAt(curve, j) == d;
      DrawdownIsPairDrop(curve, j);
    }
  }

  /** So on a curve that stays solvent the two definitions agree, on a number in [0, 1]. */
  lemma SinglePassIsAllPairs(curve: seq<real>, d: real)
    requires StaysSolvent(curve) && IsMaxDrawdown(curve, d)
    ensures IsWorstPairDrop(curve, d) && d <= 1.0
  {
    SinglePassIsAllPairsIff(curve, d);
    DrawdownRange(curve, d);
  }

  /** The documented range 0..1 holds exactly on such curves. */
  lemma DrawdownRange(curve: seq<real>, d: real)
    requires IsMaxDrawdown(curve, d)
    ensures d <= 1.0 <==> StaysSolvent(curve)
  {
    if d <= 1.0 {
      forall i, j | 0 <= i <= j < |curve| && curve[i] > 0.0 ensures curve[j] >= 0.0 {
        PeakIsMaximum(curve, j);
        var peak := PeakAt(curve, j);
        assert DrawdownAt(curve, j) <= 1.0;
        if curve[j] < 0.0 {
          DivMonoStrict(peak, peak - curve[j], peak);
          QuotientIs(peak, peak, 1.0);
        }
      }
    }
    if StaysSolvent(curve) && d != 0.0 {
      var j :| 0 <= j < |curve| && DrawdownAt(curve, j) == d;
      PeakIsMaximum(curve, j);
      var i :| 0 <= i <= j && curve[i] == PeakAt(curve, j);
      DropGrowsWithPeak(curve[j], curve[i], curve[i]);
    }
  }

  /** On a curve that goes negative the two definitions may still agree, as on [2, -1], or part, as on [1, 2, -1]. */
  lemma InsolventCurves()
    ensures IsMaxDrawdown([2.0, -1.0], 1.5) && IsWorstPairDrop([2.0, -1.0], 1.5)
    ensures IsMaxDrawdown([1.0, 2.0, -1.0], 1.5) && !IsWorstPairDrop([1.0, 2.0, -1.0], 1.5)
  {
    var c, e := [1.0, 2.0, -1.0], [2.0, -1.0];
    assert PeakAt(c, 0) == 1.0 && PeakAt(c, 1) == 2.0 && PeakAt(c, 2) == 2.0;
    assert DrawdownAt(c, 0) == 0.0 && DrawdownAt(c, 1) == 0.0 && DrawdownAt(c, 2) == 1.5;
    assert PairDrop(c, 0, 2) == 2.0;
    assert PeakAt(e, 0) == 2.0 && PeakAt(e, 1) == 2.0;
    assert DrawdownAt(e, 0) == 0.0 && DrawdownAt(e, 1) == 1.5;
    assert PairDrop(e, 0, 1) == 1.5;
    SinglePassIsAllPairsIff(e, 1.5);
  }

  // ------------------------------------------------------------------ returns

  function StepReturn(prev: real, next: real): real {
    if prev == 0.0 then 0.0 else (next - prev) / prev
  }

  /** `_returns`: per-step simple returns. */
  method Returns(curve: seq<real>) returns (out: seq<real>)
    ensures |out| == if curve == [] then 0 else |curve| - 1
    ensures forall i :: 0 <= i < |out| ==> out[i] == StepReturn(curve[i], curve[i + 1])
  {
    out := [];
    var i := 1;
    while i < |curve|
      invariant 1 <= i <= if curve == [] then 1 else |curve|
      invariant |out| == i - 1
      invariant forall j :: 0 <= j < |out| ==> out[j] == StepReturn(curve[j], curve[j + 1])
    {
      var prev := curve[i - 1];
      if prev == 0.0 {
        out := out + [0.0];
      } else {
        out := out + [(curve[i] - prev) / prev];
      }
      i := i + 1;
    }
  }

  function TotalReturn(curve: seq<real>, initial: real): real {
    if curve == [] || initial == 0.0 then 0.0 else (curve[|curve| - 1] - initial) / initial
  }

  function Growth(rets: seq<real>): real {
    if rets == [] then 1.0 else Growth(rets[..|rets| - 1]) * (1.0 + rets[|rets| - 1])
  }

  predicate AreReturns(curve: seq<real>, rets: seq<real>) {
    && curve != [] && |rets| == |curve| - 1
    && forall i :: 0 <= i < |rets| ==> rets[i] == StepReturn(curve[i], curve[i + 1])
  }

  lemma CompoundStep(first: real, growth: real, prev: real, next: real, r: real)
    requires prev == first * growth && prev != 0.0 && r == StepReturn(prev, next)
    ensures next == first * (growth * (1.0 + r))
  {
    DivMul(next - prev, prev);
    assert (first * growth) * (1.0 + r) == first * (growth * (1.0 + r));
  }

  /** The step returns compound to the total return as long as the curve never touches zero before its end. */
  lemma {:induction false} ReturnsCompound(curve: seq<real>, rets: seq<real>)
    requires AreReturns(curve, rets)
    requires forall i :: 0 <= i < |curve| - 1 ==> curve[i] != 0.0
    ensures curve[|curve| - 1] == curve[0] * Growth(rets)
    ensures curve[0] != 0.0 ==> Growth(rets) == 1.0 + TotalReturn(curve, curve[0])
  {
    if rets != [] {
      var n := |rets|;
      forall i | 0 <= i < n - 1 ensures rets[..n - 1][i] == StepReturn(curve[..n][i], curve[..n][i + 1]) {
      }
      ReturnsCompound(curve[..n], rets[..n - 1]);
      var prev, r := curve[n - 1], rets[n - 1];
      assert prev == curve[0] * Growth(rets[..n - 1]);
      CompoundStep(curve[0], Growth(rets[..n - 1]), prev, curve[n], r);
      assert rets[..|rets| - 1] == rets[..n - 1];
    }
    if curve[0] != 0.0 {
      QuotientIs(curve[|curve| - 1] - curve[0], curve[0], Growth(rets) - 1.0);
    }
  }

  // ------------------------------------------------------------------ win rate

  function Wins(pnls: seq<real>): nat {
    if pnls == [] then 0
    else Wins(pnls[..|pnls| - 1]) + if pnls[|pnls| - 1] > 0.0 then 1 else 0
  }

  /** `win_rate` over the pnl of each trade. */
  function WinRate(pnls: seq<real>): real {
    if pnls == [] then 0.0 else Wins(pnls) as real / |pnls| as real
  }

  lemma {:induction false} WinsCountsPositives(pnls: seq<real>)
    ensures Wins(pnls) == |set i | 0 <= i < |pnls| && pnls[i] > 0.0|
    ensures Wins(pnls) <= |pnls|
  {
    var all := set i | 0 <= i < |pnls| && pnls[i] > 0.0;
    if pnls != [] {
      var last := |pnls| - 1;
      WinsCountsPositives(pnls[..last]);
      var front := set i | 0 <= i < |pnls[..last]| && pnls[..last][i] > 0.0;
      if pnls[last] > 0.0 {
        assert all == front + {last};
      } else {
        assert all == front;
      }
    } else {
      assert all == {};
    }
  }

  /** The win rate is the share of trades with a positive pnl: 0 for none, 1 for all of them. */
  lemma WinRateRange(pnls: seq<real>)
    ensures 0.0 <= WinRate(pnls) <= 1.0
    ensures WinRate(pnls) == 1.0 <==> pnls != [] && forall i :: 0 <= i < |pnls| ==> pnls[i] > 0.0
    ensures WinRate(pnls) == 0.0 <==> forall i :: 0 <= i < |pnls| ==> pnls[i] <= 0.0
    ensures WinRate(pnls) * |pnls| as real == |set i | 0 <= i < |pnls| && pnls[i] > 0.0| as real
  {
    WinsCountsPositives(pnls);
    WinsExtremes(pnls);
    if pnls != [] {
      var w, n := Wins(pnls) as real, |pnls| as real;
      DivMul(w, n);
      QuotientIs(n, n, 1.0);
      DivMono(0.0, w, n);
      DivMono(w, n, n);
    }
  }

  lemma {:induction false} WinsExtremes(pnls: seq<real>)
    ensures Wins(pnls) <= |pnls|
    ensures Wins(pnls) == |pnls| <==> forall i :: 0 <= i < |pnls| ==> pnls[i] > 0.0
    ensures Wins(pnls) == 0 <==> forall i :: 0 <= i < |pnls| ==> pnls[i] <= 0.0
  {
    if pnls != [] {
      var last := |pnls| - 1;
      WinsExtremes(pnls[..last]);
      assert forall i :: 0 <= i < last ==> pnls[..last][i] == pnls[i];
      assert forall i :: 0 <= i < |pnls| ==> i == last || pnls[..last][i] == pnls[i];
    }
  }
}
