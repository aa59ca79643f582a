/** What every trade of a backtest has earned, and why it ended. */
module BacktestTrades {
  import opened Options
  import opened RealLemmas
  import opened BacktestEngine
  import opened BacktestLaws

  // ------------------------------------------------------------------ the size of a pnl

  /** When the price has moved by a fraction g of the entry, a long has gained that fraction of its size and a short
      has lost it, whatever the entry. */
  lemma PnlOfGain(p: Position, g: real)
    ensures PnlUsdt(p, p.entry * (1.0 + g)) == if p.side.Long? then p.sizeUsdt * g else -(p.sizeUsdt * g)
  {
    var exit := p.entry * (1.0 + g);
    QuotientIs(exit - p.entry, p.entry, g);
    QuotientIs(p.entry - exit, p.entry, -g);
  }

  /** The pnl of a trade is to its size as the way of the price to the entry. */
  predicate Earned(t: Trade) {
    t.pnlUsdt * t.entry == t.sizeUsdt * if t.side.Long? then t.exit - t.entry else t.entry - t.exit
  }

  lemma CloseEarns(p: Position, exit: real, reason: Reason)
    ensures Earned(CloseTrade(p, exit, reason))
  {
    var way := if p.side.Long? then exit - p.entry else p.entry - exit;
    DivMul(way, p.entry);
    assert (p.sizeUsdt * (way / p.entry)) * p.entry == p.sizeUsdt * (way / p.entry * p.entry);
  }

  // ------------------------------------------------------------------ which level a candle touches

  predicate BeyondStop(p: Position, price: real) {
    p.stopLoss.Some? && if p.side.Long? then price <= p.stopLoss.value else price >= p.stopLoss.value
  }

  predicate BeyondTarget(p: Position, price: real) {
    p.takeProfit.Some? && if p.side.Long? then price >= p.takeProfit.value else price <= p.takeProfit.value
  }

  /** The stop is tried at the candle's worst price for the position, ... */
  predicate StopTouched(p: Position, c: Candle) {
    BeyondStop(p, if p.side.Long? then c.low else c.high)
  }

  /** ... the target at its best. */
  predicate TargetTouched(p: Position, c: Candle) {
    BeyondTarget(p, if p.side.Long? then c.high else c.low)
  }

  predicate Within(c: Candle, price: real) {
    c.low <= price <= c.high
  }

  /** So a level is touched exactly if some price of the candle is at or beyond it. */
  lemma TouchedBySomePrice(p: Position, c: Candle)
    requires c.low <= c.high
    ensures StopTouched(p, c) <==> exists price :: Within(c, price) && BeyondStop(p, price)
    ensures TargetTouched(p, c) <==> exists price :: Within(c, price) && BeyondTarget(p, price)
  {
    assert Within(c, c.low) && Within(c, c.high);
  }

  // ------------------------------------------------------------------ the window of the strategy

  /** The strategy sees the present candle and up to a hundred before it, newest last. */
  lemma WindowEndsNow(candles: seq<Candle>, i: nat)
    requires i < |candles|
    ensures var w := Window(candles, i);
            && |w| == (if i < 100 then i + 1 else 101)
            && forall k :: i - |w| < k <= i ==> candles[k] == w[|w| - 1 - (i - k)]
  {
  }

  // ------------------------------------------------------------------ why a trade ended

  predicate IsOf(t: Trade, p: Position) {
    t.side == p.side && t.entry == p.entry && t.sizeUsdt == p.sizeUsdt
  }

  /** At candle j the position of the trade was still open, and the candle or the strategy ended it. */
  predicate EndedAt(tick: Strategy, fee: real, initial: real, candles: seq<Candle>, j: nat, t: Trade)
    requires WARMUP <= j < |candles|
  {
    var position, c := Loop(tick, fee, initial, candles, j).position, candles[j];
    && position.Some? && IsOf(t, position.value)
    && var p := position.value;
       match t.reason
       case StopLoss => StopTouched(p, c) && Some(t.exit) == p.stopLoss
       case TakeProfit => !StopTouched(p, c) && TargetTouched(p, c) && Some(t.exit) == p.takeProfit
       case SignalClose =>
         && !StopTouched(p, c) && !TargetTouched(p, c) && t.exit == c.close
         && Asks(tick(Window(candles, j), position), Close)
       case ForceClose => false
  }

  ghost predicate Ended(tick: Strategy, fee: real, initial: real, candles: seq<Candle>, n: nat, t: Trade)
    requires n <= |candles|
  {
    Earned(t) && exists j :: WARMUP <= j < n && EndedAt(tick, fee, initial, candles, j, t)
  }

  ghost predicate AllEnded(tick: Strategy, fee: real, initial: real, candles: seq<Candle>, n: nat, b: Book)
    requires n <= |candles|
  {
    forall t :: t in b.trades ==> Ended(tick, fee, initial, candles, n, t)
  }

  lemma LaterStaysEnded(tick: Strategy, fee: real, initial: real, candles: seq<Candle>, n: nat, b: Book)
    requires n < |candles| && AllEnded(tick, fee, initial, candles, n, b)
    ensures AllEnded(tick, fee, initial, candles, n + 1, b)
  {
  }

  /** The trade that candle j adds, if any, ended there. */
  lemma StepEnds(tick: Strategy, fee: real, initial: real, candles: seq<Candle>, j: nat, t: Trade)
    requires WARMUP <= j < |candles|
    requires var b := Loop(tick, fee, initial, candles, j);
             t in Step(tick, fee, candles, j, b).trades && t !in b.trades
    ensures EndedAt(tick, fee, initial, candles, j, t) && Earned(t)
  {
    var b, c := Loop(tick, fee, initial, candles, j), candles[j];
    var asked := Asked(fee, candles, j, b);
    var p := b.position;
    if p.Some? && Hit(p.value, c.high, c.low).Some? {
      var hit := Hit(p.value, c.high, c.low).value;
      CloseEarns(p.value, hit.0, hit.1);
      assert asked.trades == b.trades + [CloseTrade(p.value, hit.0, hit.1)];
    } else {
      assert asked == b;
      if p.Some? {
        CloseEarns(p.value, c.close, SignalClose);
        ClosesWhenAsked(b, AnswerAt(tick, fee, candles, j, b), c.close, fee);
      }
    }
  }

  lemma {:induction false} LoopEnds(tick: Strategy, fee: real, initial: real, candles: seq<Candle>, i: nat)
    requires WARMUP <= i <= |candles|
    ensures AllEnded(tick, fee, initial, candles, i, Loop(tick, fee, initial, candles, i))
    decreases i
  {
    if i != WARMUP {
      var b := Loop(tick, fee, initial, candles, i - 1);
      LoopEnds(tick, fee, initial, candles, i - 1);
      LaterStaysEnded(tick, fee, initial, candles, i - 1, b);
      LoopUnfolds(tick, fee, initial, candles, i);
      forall t | t in Loop(tick, fee, initial, candles, i).trades && t !in b.trades
        ensures Ended(tick, fee, initial, candles, i, t)
      {
        StepEnds(tick, fee, initial, candles, i - 1, t);
      }
    }
  }

  /** Every trade of a replay earned what the way of the price makes of its size, and ended for the reason it gives:
      at a stop or target that the candle touched, at a close where the strategy said CLOSE, or at the last one. */
  lemma TradesEndForTheirReason(tick: Strategy, fee: real, initial: real, candles: seq<Candle>, t: Trade)
    requires t in Replay(tick, fee, initial, candles).trades
    ensures |candles| > WARMUP && Earned(t)
    ensures if t.reason == ForceClose then
              && t.exit == candles[|candles| - 1].close
              && var p := Loop(tick, fee, initial, candles, |candles|).position; p.Some? && IsOf(t, p.value)
            else exists j :: WARMUP <= j < |candles| && EndedAt(tick, fee, initial, candles, j, t)
  {
    var n := |candles|;
    if n > WARMUP {
      var b := Loop(tick, fee, initial, candles, n);
      LoopEnds(tick, fee, initial, candles, n);
      LoopNeverForces(tick, fee, initial, candles, n);
      LoopCurveLength(tick, fee, initial, candles, n);
      if b.position.Some? {
        CloseEarns(b.position.value, candles[n - 1].close, ForceClose);
      }
    }
  }
}
