/** The regression channel (app/strategies/quant_algos/statistical_algos.py). */
module LeastSquares {
  import opened Options
  import opened RealLemmas
  import opened Sums

  // x runs over 0, 1, ..., n - 1

  function SumX(n: nat): real {
    if n == 0 then 0.0 else SumX(n - 1) + (n - 1) as real
  }

  function SumXX(n: nat): real {
    if n == 0 then 0.0 else SumXX(n - 1) + Times((n - 1) as real, (n - 1) as real)
  }

  function SumXY(y: seq<real>): real {
    if y == [] then 0.0 else SumXY(y[..|y| - 1]) + Times((|y| - 1) as real, y[|y| - 1])
  }

  function Den(n: nat): real {
    Times(n as real, SumXX(n)) - Times(SumX(n), SumX(n))
  }

  datatype Line = Line(intercept: real, slope: real)

  function At(l: Line, x: nat): real {
    l.intercept + Times(l.slope, x as real)
  }

  /** The fitted line; None when the denominator is zero. */
  function Fit(y: seq<real>): Option<Line> {
    var n, den := |y|, Den(|y|);
    if den == 0.0 || n == 0 then None
    else
      var slope := (Times(n as real, SumXY(y)) - Times(SumX(n), Sum(y))) / den;
      Some(Line((Sum(y) - Times(slope, SumX(n))) / n as real, slope))
  }

  /** `linear_regression_channel`, given the square root of the residual variance it computes. */
  function RegressionChannel(prices: seq<real>, lookback: nat, std: real): Outcome
    requires std != 0.0
  {
    if |prices| < lookback then WarmingUp
    else
      match Fit(LastWindow(prices, lookback))
      case None => Invalid
      case Some(line) => Signal(Clamp(-2.0, 2.0, -((prices[|prices| - 1] - At(line, lookback - 1)) / std)))
  }

  // ------------------------------------------------------------------ residuals

  function Residual(y: seq<real>, l: Line, i: nat): real
    requires i < |y|
  {
    y[i] - At(l, i)
  }

  function SumResiduals(y: seq<real>, l: Line): real {
    if y == [] then 0.0 else SumResiduals(y[..|y| - 1], l) + Residual(y, l, |y| - 1)
  }

  function SumXResiduals(y: seq<real>, l: Line): real {
    if y == [] then 0.0
    else SumXResiduals(y[..|y| - 1], l) + Times((|y| - 1) as real, Residual(y, l, |y| - 1))
  }

  function SumSquares(y: seq<real>, l: Line): real {
    if y == [] then 0.0
    else SumSquares(y[..|y| - 1], l) + Times(Residual(y, l, |y| - 1), Residual(y, l, |y| - 1))
  }

  // ------------------------------------------------------------------ the denominator

  lemma {:induction false} ClosedForms(n: nat)
    ensures 2.0 * SumX(n) == Times(n as real, n as real - 1.0)
    ensures 6.0 * SumXX(n) == Times(Times(n as real - 1.0, n as real), 2.0 * n as real - 1.0)
  {
    if n > 0 {
      ClosedForms(n - 1);
      ClosedFormStep((n - 1) as real);
    }
  }

  lemma ClosedFormStep(m: real)
    ensures Times(m, m - 1.0) + 2.0 * m == Times(m + 1.0, m)
    ensures Times(Times(m - 1.0, m), 2.0 * m - 1.0) + 6.0 * Times(m, m) == Times(Times(m, m + 1.0), 2.0 * m + 1.0)
  {
  }

  lemma DenAlgebra(n: real, x: real, xx: real)
    requires 2.0 * x == Times(n, n - 1.0)
    requires 6.0 * xx == Times(Times(n - 1.0, n), 2.0 * n - 1.0)
    ensures 12.0 * (Times(n, xx) - Times(x, x)) == n * n * (n * n - 1.0)
  {
    assert 12.0 * Times(n, xx) == 2.0 * n * (6.0 * xx);
    assert 12.0 * Times(x, x) == 3.0 * ((2.0 * x) * (2.0 * x));
  }

  /** den = n^2 (n^2 - 1) / 12, so it vanishes for at most one point only. */
  lemma DenominatorClosedForm(n: nat)
    ensures 12.0 * Den(n) == (n * n * (n * n - 1)) as real
    ensures Den(n) == 0.0 <==> n <= 1
    ensures n >= 2 ==> Den(n) > 0.0
  {
    ClosedForms(n);
    DenAlgebra(n as real, SumX(n), SumXX(n));
    assert (n * n) as real == n as real * n as real;
    assert (n * n * (n * n - 1)) as real == (n * n) as real * (n * n - 1) as real;
    if n >= 2 {
      assert n * n >= 2 * n;
      assert n * n * (n * n - 1) > 0;
    } else if n == 1 {
      assert n * n * (n * n - 1) == 0;
    } else {
      assert n * n * (n * n - 1) == 0;
    }
  }

  // ------------------------------------------------------------------ the normal equations

  lemma {:induction false} ResidualSums(y: seq<real>, l: Line)
    ensures SumResiduals(y, l) == Sum(y) - Times(|y| as real, l.intercept) - Times(SumX(|y|), l.slope)
    ensures SumXResiduals(y, l) == SumXY(y) - Times(SumX(|y|), l.intercept) - Times(SumXX(|y|), l.slope)
  {
    TimesZero(0.0, l.intercept);
    TimesZero(0.0, l.slope);
    if y != [] {
      var m := |y| - 1;
      var x := m as real;
      ResidualSums(y[..m], l);
      TimesAdd(x, 1.0, l.intercept);
      TimesZero(1.0, l.slope);
      TimesAdd(SumX(m), x, l.slope);
      TimesAdd(SumX(m), x, l.intercept);
      TimesAdd(SumXX(m), Times(x, x), l.slope);
      TimesSub(y[m], At(l, m), x);
      TimesAdd(l.intercept, Times(l.slope, x), x);
      TimesZero(l.slope, x);
      TimesAssoc(x, x, l.slope);
    }
  }

  lemma SolveNormal(n: real, sx: real, sxx: real, sy: real, sxy: real, l: Line, den: real)
    requires n != 0.0 && den == Times(n, sxx) - Times(sx, sx)
    requires Times(l.slope, den) == Times(n, sxy) - Times(sx, sy)
    requires Times(l.intercept, n) == sy - Times(l.slope, sx)
    ensures sy - Times(n, l.intercept) - Times(sx, l.slope) == 0.0
    ensures sxy - Times(sx, l.intercept) - Times(sxx, l.slope) == 0.0
  {
    var a, b := l.intercept, l.slope;
    var e := sxy - sx * a - sxx * b;
    assert n * e == n * sxy - sx * (a * n) - n * sxx * b;
    assert sx * (a * n) == sx * sy - sx * (b * sx);
    assert b * den == b * (n * sxx) - b * (sx * sx);
    assert n * e == 0.0;
  }

  /** The two divisions of the fit, multiplied out. */
  lemma FitSolves(y: seq<real>)
    requires |y| >= 2
    ensures Fit(y).Some?
    ensures Times(Fit(y).value.slope, Den(|y|)) == Times(|y| as real, SumXY(y)) - Times(SumX(|y|), Sum(y))
    ensures Times(Fit(y).value.intercept, |y| as real) == Sum(y) - Times(Fit(y).value.slope, SumX(|y|))
  {
    DenominatorClosedForm(|y|);
    var n, l := |y| as real, Fit(y).value;
    TimesDiv(Times(n, SumXY(y)) - Times(SumX(|y|), Sum(y)), Den(|y|));
    TimesDiv(Sum(y) - Times(l.slope, SumX(|y|)), n);
  }

  /** The fitted line leaves residuals that sum to zero and are orthogonal to x. */
  lemma NormalEquations(y: seq<real>)
    requires |y| >= 2
    ensures Fit(y).Some?
    ensures SumResiduals(y, Fit(y).value) == 0.0
    ensures SumXResiduals(y, Fit(y).value) == 0.0
  {
    FitSolves(y);
    var n, l, den := |y| as real, Fit(y).value, Den(|y|);
    ResidualSums(y, l);
    SolveNormal(n, SumX(|y|), SumXX(|y|), Sum(y), SumXY(y), l, den);
  }

  // ------------------------------------------------------------------ optimality

  /** The sum over x of the squared height of a line. */
  function LineSquares(n: nat, l: Line): real {
    if n == 0 then 0.0 else LineSquares(n - 1, l) + Times(At(l, n - 1), At(l, n - 1))
  }

  lemma SquareSign(r: real)
    ensures Times(r, r) >= 0.0
    ensures Times(r, r) == 0.0 <==> r == 0.0
  {
    TimesZero(r, r);
    SquareNonNegative(r);
  }

  lemma {:induction false} LineSquaresSign(n: nat, l: Line)
    ensures LineSquares(n, l) >= 0.0
    ensures n >= 2 && LineSquares(n, l) == 0.0 ==> l == Line(0.0, 0.0)
  {
    if n > 0 {
      LineSquaresSign(n - 1, l);
      SquareSign(At(l, n - 1));
      if n == 2 {
        SquareSign(At(l, 0));
        assert LineSquares(1, l) == LineSquares(0, l) + Times(At(l, 0), At(l, 0));
        assert At(l, 0) == l.intercept && At(l, 1) == l.intercept + l.slope;
      }
    }
  }

  function Minus(l: Line, m: Line): Line {
    Line(l.intercept - m.intercept, l.slope - m.slope)
  }

  lemma {:induction false} SumSquaresShift(y: seq<real>, l: Line, d: Line)
    ensures SumSquares(y, Minus(l, d))
         == SumSquares(y, l) + 2.0 * Times(d.intercept, SumResiduals(y, l)) + 2.0 * Times(d.slope, SumXResiduals(y, l))
            + LineSquares(|y|, d)
  {
    TimesZero(d.intercept, 0.0);
    TimesZero(d.slope, 0.0);
    if y != [] {
      var m := |y| - 1;
      var x, r, s := m as real, Residual(y, l, m), Residual(y, Minus(l, d), m);
      SumSquaresShift(y[..m], l, d);
      TimesSub(l.slope, d.slope, x);
      SquareStep(r, s, d, m);
      TimesAdd(SumResiduals(y[..m], l), r, d.intercept);
      TimesAdd(SumXResiduals(y[..m], l), Times(x, r), d.slope);
    }
  }

  lemma SquareStep(r: real, s: real, d: Line, m: nat)
    requires s == r + At(d, m)
    ensures Times(s, s) == Times(r, r) + 2.0 * Times(d.intercept, r) + 2.0 * Times(d.slope, Times(m as real, r))
                           + Times(At(d, m), At(d, m))
  {
    var h := At(d, m);
    TimesAdd(r, h, r);
    TimesAdd(r, h, h);
    TimesAdd(r, h, s);
    TimesZero(r, h);
    TimesAdd(d.intercept, Times(d.slope, m as real), r);
    TimesAssoc(d.slope, m as real, r);
  }

  /** Least squares: no line has a smaller sum of squared residuals, and no other line ties. */
  lemma FitIsOptimal(y: seq<real>, other: Line)
    requires |y| >= 2
    ensures Fit(y).Some?
    ensures SumSquares(y, other) >= SumSquares(y, Fit(y).value)
    ensures SumSquares(y, other) == SumSquares(y, Fit(y).value) <==> other == Fit(y).value
  {
    NormalEquations(y);
    var l := Fit(y).value;
    var d := Minus(l, other);
    assert Minus(l, d) == other;
    SumSquaresShift(y, l, d);
    TimesZero(d.intercept, 0.0);
    TimesZero(d.slope, 0.0);
    LineSquaresSign(|y|, d);
  }

  lemma {:induction false} SumSquaresSign(y: seq<real>, l: Line)
    ensures SumSquares(y, l) >= 0.0
    ensures (forall i :: 0 <= i < |y| ==> Residual(y, l, i) == 0.0) ==> SumSquares(y, l) == 0.0
  {
    if y != [] {
      var m := |y| - 1;
      SumSquaresSign(y[..m], l);
      SquareSign(Residual(y, l, m));
      assert forall i :: 0 <= i < m ==> Residual(y[..m], l, i) == Residual(y, l, i);
    }
  }

  function ResidualVariance(y: seq<real>, l: Line): real
    requires y != []
  {
    SumSquares(y, l) / |y| as real
  }

  lemma LastDeviation(y: seq<real>, l: Line, std: real)
    requires y != [] && IsStd(std, ResidualVariance(y, l))
    ensures var z := Residual(y, l, |y| - 1) / std; Times(z, z) <= |y| as real
  {
    var m, n, v := |y| - 1, |y| as real, ResidualVariance(y, l);
    var d := Residual(y, l, m);
    SumSquaresSign(y[..m], l);
    SumSquaresSign(y, l);
    TimesDiv(SumSquares(y, l), n);
    TimesZero(n, v);
    DivMul(d, std);
    DivMono(0.0, SumSquares(y, l), n);
    if v > 0.0 {
      ZAlgebra(d, d / std, std, v, n);
    } else {
      SquareSign(d);
      QuotientIs(d, std, 0.0);
      TimesZero(0.0, 0.0);
    }
  }

  /** Divided by the deviation of its own residuals, the signal of a channel of at most four prices is never cut. */
  lemma ChannelClampNeverBinds(prices: seq<real>, lookback: nat, l: Line, std: real)
    requires 2 <= lookback <= 4 && lookback <= |prices| && Fit(LastWindow(prices, lookback)) == Some(l)
    requires IsStd(std, ResidualVariance(LastWindow(prices, lookback), l))
    ensures RegressionChannel(prices, lookback, std)
         == Signal(-(Residual(LastWindow(prices, lookback), l, lookback - 1) / std))
  {
    var y := LastWindow(prices, lookback);
    LastDeviation(y, l, std);
    assert y[lookback - 1] == prices[|prices| - 1];
    SquareWithinFour(Residual(y, l, lookback - 1) / std);
  }

  /** Prices on a line are fitted exactly, and the channel gives no signal on them. */
  lemma StraightLineIsRecovered(prices: seq<real>, lookback: nat, l: Line, std: real)
    requires 2 <= lookback <= |prices| && std != 0.0
    requires forall i :: 0 <= i < lookback ==> LastWindow(prices, lookback)[i] == At(l, i)
    ensures Fit(LastWindow(prices, lookback)) == Some(l)
    ensures RegressionChannel(prices, lookback, std) == Signal(0.0)
  {
    var y := LastWindow(prices, lookback);
    SumSquaresSign(y, l);
    FitIsOptimal(y, l);
    SumSquaresSign(y, Fit(y).value);
    assert y[lookback - 1] == prices[|prices| - 1];
    QuotientIs(0.0, std, 0.0);
  }

  /** For no lookback of a plan can the "singular" answer (Invalid) be reached. */
  lemma NeverSingular(prices: seq<real>, planLookback: int, std: real)
    requires std != 0.0
    ensures RegressionChannel(prices, Lookback(planLookback), std) != Invalid
  {
    DenominatorClosedForm(Lookback(planLookback));
  }

  /** The signal points back to the line and is zero only on it. */
  lemma SignalPointsToLine(prices: seq<real>, lookback: nat, std: real)
    requires 2 <= lookback <= |prices| && std > 0.0
    ensures Fit(LastWindow(prices, lookback)).Some?
    ensures var y := LastWindow(prices, lookback);
            var last := Residual(y, Fit(y).value, lookback - 1);
            var s := RegressionChannel(prices, lookback, std);
            && s.Signal? && -2.0 <= s.value <= 2.0
            && (s.value > 0.0 <==> last < 0.0) && (s.value < 0.0 <==> last > 0.0)
  {
    DenominatorClosedForm(lookback);
    var y := LastWindow(prices, lookback);
    var last := Residual(y, Fit(y).value, lookback - 1);
    assert y[lookback - 1] == prices[|prices| - 1];
    QuotientIs(0.0, std, 0.0);
    if last > 0.0 {
      DivMonoStrict(0.0, last, std);
    } else if last < 0.0 {
      DivMonoStrict(last, 0.0, std);
    }
  }
}
