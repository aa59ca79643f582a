/** The unit of the prices does not matter to a backtest. */
module BacktestUnits {
  import opened Options
  import opened RealLemmas
  import opened BacktestEngine
  import opened BacktestLaws

  // ------------------------------------------------------------------ everything in another unit

  function RepricePrice(k: real, price: Price): Price
    requires k > 0.0
  {
    TimesZero(k, price);
    Times(k, price)
  }

  function RepriceCandle(k: real, c: Candle): Candle
    requires k > 0.0
  {
    Candle(Times(k, c.open), Times(k, c.high), Times(k, c.low), RepricePrice(k, c.close), c.volume)
  }

  function RepriceCandles(k: real, cs: seq<Candle>): seq<Candle>
    requires k > 0.0
  {
    seq(|cs|, i requires 0 <= i < |cs| => RepriceCandle(k, cs[i]))
  }

  function RepriceLevel(k: real, level: Option<real>): Option<real> {
    if level.Some? then Some(Times(k, level.value)) else None
  }

  /** The size of a position is money, not a price. */
  function RepricePosition(k: real, p: Position): Position
    requires k > 0.0
  {
    p.(entry := RepricePrice(k, p.entry), stopLoss := RepriceLevel(k, p.stopLoss),
       takeProfit := RepriceLevel(k, p.takeProfit))
  }

  function RepriceHolding(k: real, p: Option<Position>): Option<Position>
    requires k > 0.0
  {
    if p.Some? then Some(RepricePosition(k, p.value)) else None
  }

  function RepriceTrade(k: real, t: Trade): Trade
    requires k > 0.0
  {
    t.(entry := RepricePrice(k, t.entry), exit := Times(k, t.exit))
  }

  function RepriceTrades(k: real, ts: seq<Trade>): seq<Trade>
    requires k > 0.0
  {
    seq(|ts|, i requires 0 <= i < |ts| => RepriceTrade(k, ts[i]))
  }

  function RepriceSignalLevel(k: real, l: Level): Level {
    if l.At? then At(Times(k, l.price)) else l
  }

  function RepriceAnswer(k: real, a: Answer): Answer {
    if a.Signal? then a.(stopLoss := RepriceSignalLevel(k, a.stopLoss),
                         takeProfit := RepriceSignalLevel(k, a.takeProfit))
    else a
  }

  /** Cash and curve are money and stay as they are. */
  function Reprice(k: real, b: Book): Book
    requires k > 0.0
  {
    b.(position := RepriceHolding(k, b.position), trades := RepriceTrades(k, b.trades))
  }

  /** Shown the same market in another unit, the strategy gives the same answer in that unit. */
  ghost predicate UnitBlind(k: real, tick: Strategy)
    requires k > 0.0
  {
    forall w, p ::
      tick(RepriceCandles(k, w), RepriceHolding(k, p)) == RepriceAnswer(k, tick(w, p))
  }

  // ------------------------------------------------------------------ step by step

  lemma PnlHasNoUnit(k: real, p: Position, price: real)
    requires k > 0.0
    ensures PnlUsdt(RepricePosition(k, p), Times(k, price)) == PnlUsdt(p, price)
    ensures Value(RepricePosition(k, p), Times(k, price)) == Value(p, price)
  {
    QuotientScales(k, price, p.entry);
  }

  lemma RepriceTradesAppends(k: real, ts: seq<Trade>, t: Trade)
    requires k > 0.0
    ensures RepriceTrades(k, ts + [t]) == RepriceTrades(k, ts) + [RepriceTrade(k, t)]
  {
    forall i | 0 <= i < |ts| + 1
      ensures RepriceTrades(k, ts + [t])[i] == (RepriceTrades(k, ts) + [RepriceTrade(k, t)])[i]
    {
      if i < |ts| { assert (ts + [t])[i] == ts[i]; }
    }
  }

  lemma CloseReprices(k: real, b: Book, p: Position, exit: real, fee: real, reason: Reason)
    requires k > 0.0 && b.position == Some(p)
    ensures CloseBook(Reprice(k, b), RepricePosition(k, p), Times(k, exit), fee, reason)
         == Reprice(k, CloseBook(b, p, exit, fee, reason))
  {
    PnlHasNoUnit(k, p, exit);
    RepriceTradesAppends(k, b.trades, CloseTrade(p, exit, reason));
  }

  lemma TimesOrders(k: real, a: real, b: real)
    requires k > 0.0
    ensures Times(k, a) <= Times(k, b) <==> a <= b
  {
    if a <= b { TimesMono(a, b, k); } else { TimesMonoStrict(b, a, k); }
  }

  lemma HitReprices(k: real, p: Position, high: real, low: real)
    requires k > 0.0
    ensures Hit(RepricePosition(k, p), Times(k, high), Times(k, low)) ==
              match Hit(p, high, low) { case None => None case Some((x, reason)) => Some((Times(k, x), reason)) }
  {
    if p.stopLoss.Some? {
      TimesOrders(k, low, p.stopLoss.value);
      TimesOrders(k, p.stopLoss.value, high);
    }
    if p.takeProfit.Some? {
      TimesOrders(k, low, p.takeProfit.value);
      TimesOrders(k, p.takeProfit.value, high);
    }
  }

  lemma StopsReprice(k: real, b: Book, c: Candle, fee: real)
    requires k > 0.0
    ensures AfterStops(Reprice(k, b), RepriceCandle(k, c), fee) == Reprice(k, AfterStops(b, c, fee))
  {
    if b.position.Some? {
      var p := b.position.value;
      HitReprices(k, p, c.high, c.low);
      if Hit(p, c.high, c.low).Some? {
        var hit := Hit(p, c.high, c.low).value;
        CloseReprices(k, b, p, hit.0, fee, hit.1);
      }
    }
  }

  lemma OpenReprices(k: real, b: Book, side: Side, a: Answer, price: Price, fee: real)
    requires k > 0.0
    ensures OpenBook(Reprice(k, b), side, RepriceAnswer(k, a), RepricePrice(k, price), fee)
         == Reprice(k, OpenBook(b, side, a, price, fee))
  {
    assert SizeFrac(RepriceAnswer(k, a)) == SizeFrac(a);
  }

  lemma ActionReprices(k: real, b: Book, a: Answer, price: Price, fee: real)
    requires k > 0.0
    ensures AfterAction(Reprice(k, b), RepriceAnswer(k, a), RepricePrice(k, price), fee)
         == Reprice(k, AfterAction(b, a, price, fee))
  {
    OpenReprices(k, b, Long, a, price, fee);
    OpenReprices(k, b, Short, a, price, fee);
    if b.position.Some? {
      CloseReprices(k, b, b.position.value, price, fee, SignalClose);
    }
  }

  lemma MarkReprices(k: real, b: Book, price: Price)
    requires k > 0.0
    ensures Mark(Reprice(k, b), RepricePrice(k, price)) == Reprice(k, Mark(b, price))
  {
    if b.position.Some? {
      PnlHasNoUnit(k, b.position.value, price);
    }
  }

  lemma AnswerReprices(k: real, tick: Strategy, fee: real, candles: seq<Candle>, i: nat, b: Book)
    requires k > 0.0 && UnitBlind(k, tick) && i < |candles|
    ensures var repriced := RepriceCandles(k, candles);
            && Asked(fee, repriced, i, Reprice(k, b)) == Reprice(k, Asked(fee, candles, i, b))
            && AnswerAt(tick, fee, repriced, i, Reprice(k, b)) == RepriceAnswer(k, AnswerAt(tick, fee, candles, i, b))
  {
    StopsReprice(k, b, candles[i], fee);
    assert Window(RepriceCandles(k, candles), i) == RepriceCandles(k, Window(candles, i));
  }

  lemma StepReprices(k: real, tick: Strategy, fee: real, candles: seq<Candle>, i: nat, b: Book)
    requires k > 0.0 && UnitBlind(k, tick) && i < |candles|
    ensures Step(tick, fee, RepriceCandles(k, candles), i, Reprice(k, b))
         == Reprice(k, Step(tick, fee, candles, i, b))
  {
    var close, asked, a := candles[i].close, Asked(fee, candles, i, b), AnswerAt(tick, fee, candles, i, b);
    AnswerReprices(k, tick, fee, candles, i, b);
    ActionReprices(k, asked, a, close, fee);
    MarkReprices(k, AfterAction(asked, a, close, fee), close);
  }

  lemma LoopStartReprices(k: real, tick: Strategy, fee: real, initial: real, candles: seq<Candle>)
    requires k > 0.0
    ensures Loop(tick, fee, initial, RepriceCandles(k, candles), WARMUP)
         == Reprice(k, Loop(tick, fee, initial, candles, WARMUP))
  {
  }

  lemma LoopStepReprices(k: real, tick: Strategy, fee: real, initial: real, candles: seq<Candle>, i: nat)
    requires k > 0.0 && UnitBlind(k, tick) && WARMUP < i <= |candles|
    requires Loop(tick, fee, initial, RepriceCandles(k, candles), i - 1)
          == Reprice(k, Loop(tick, fee, initial, candles, i - 1))
    ensures Loop(tick, fee, initial, RepriceCandles(k, candles), i)
         == Reprice(k, Loop(tick, fee, initial, candles, i))
  {
    LoopUnfolds(tick, fee, initial, RepriceCandles(k, candles), i);
    LoopUnfolds(tick, fee, initial, candles, i);
    StepReprices(k, tick, fee, candles, i - 1, Loop(tick, fee, initial, candles, i - 1));
  }

  lemma {:induction false} LoopReprices(k: real, tick: Strategy, fee: real, initial: real, candles: seq<Candle>,
                                        i: nat)
    requires k > 0.0 && UnitBlind(k, tick)
    requires WARMUP <= i && (i == WARMUP || i <= |candles|)
    ensures Loop(tick, fee, initial, RepriceCandles(k, candles), i) == Reprice(k, Loop(tick, fee, initial, candles, i))
    decreases i
  {
    if i == WARMUP {
      LoopStartReprices(k, tick, fee, initial, candles);
    } else {
      LoopReprices(k, tick, fee, initial, candles, i - 1);
      LoopStepReprices(k, tick, fee, initial, candles, i);
    }
  }

  lemma FinishReprices(k: real, b: Book, last: Price, fee: real)
    requires k > 0.0 && b.curve != []
    ensures Finish(Reprice(k, b), RepricePrice(k, last), fee) == Reprice(k, Finish(b, last, fee))
  {
    if b.position.Some? {
      CloseReprices(k, b, b.position.value, last, fee, ForceClose);
    }
  }

  lemma FinishedReprices(k: real, tick: Strategy, fee: real, initial: real, candles: seq<Candle>)
    requires k > 0.0 && UnitBlind(k, tick) && |candles| > WARMUP
    ensures Replay(tick, fee, initial, RepriceCandles(k, candles)) == Reprice(k, Replay(tick, fee, initial, candles))
  {
    var n, repriced := |candles|, RepriceCandles(k, candles);
    var b := Loop(tick, fee, initial, candles, n);
    LoopCurveLength(tick, fee, initial, candles, n);
    assert Replay(tick, fee, initial, candles) == Finish(b, candles[n - 1].close, fee);
    LoopReprices(k, tick, fee, initial, candles, n);
    FinishReprices(k, b, candles[n - 1].close, fee);
    assert repriced[n - 1] == RepriceCandle(k, candles[n - 1]);
  }

  lemma PnlsHaveNoUnit(k: real, ts: seq<Trade>)
    requires k > 0.0
    ensures Pnls(RepriceTrades(k, ts)) == Pnls(ts)
  {
  }

  /** In another price unit a unit-blind strategy has the same equity curve and the same pnl from every trade; only
      the prices in the trades are in the new unit. */
  lemma ReplayHasNoUnit(k: real, tick: Strategy, fee: real, initial: real, candles: seq<Candle>)
    requires k > 0.0 && UnitBlind(k, tick)
    ensures var b, b' := Replay(tick, fee, initial, candles), Replay(tick, fee, initial, RepriceCandles(k, candles));
            b'.curve == b.curve && Pnls(b'.trades) == Pnls(b.trades) && b' == Reprice(k, b)
  {
    if |candles| <= WARMUP {
      LoopStartReprices(k, tick, fee, initial, candles);
    } else {
      FinishedReprices(k, tick, fee, initial, candles);
    }
    PnlsHaveNoUnit(k, Replay(tick, fee, initial, candles).trades);
  }

  /** It breaks off at the same candles, too. */
  lemma BreaksHaveNoUnit(k: real, tick: Strategy, fee: real, initial: real, candles: seq<Candle>, i: nat)
    requires k > 0.0 && UnitBlind(k, tick) && WARMUP <= i < |candles|
    ensures BreaksAt(tick, fee, initial, RepriceCandles(k, candles), i) <==> BreaksAt(tick, fee, initial, candles, i)
  {
    LoopReprices(k, tick, fee, initial, candles, i);
    AnswerReprices(k, tick, fee, candles, i, Loop(tick, fee, initial, candles, i));
  }
}
