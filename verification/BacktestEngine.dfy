/** The backtest replay loop (user-server/user_server/backtest/engine.py). */
module BacktestEngine {
  import opened Options
  import opened Metrics

  const WARMUP: nat := 20
  const WINDOW_LOOKBACK: nat := 100

  /** Closes become entry prices, which the loop divides by. */
  type Price = x: real | x != 0.0 witness 1.0

  datatype Candle = Candle(open: real, high: real, low: real, close: Price, volume: real)

  datatype Side = Long | Short

  datatype Position = Position(
    side: Side,
    entry: Price,
    sizeUsdt: real,
    stopLoss: Option<real>,
    takeProfit: Option<real>)

  datatype Reason = StopLoss | TakeProfit | SignalClose | ForceClose

  datatype Trade = Trade(side: Side, entry: Price, exit: real, sizeUsdt: real, pnlUsdt: real, reason: Reason)

  datatype Action = OpenLong | OpenShort | Close | Hold | OtherAction

  datatype SizeField = Missing | NotANumber | Number(value: real)

  /** A stop or target of a signal: missing, a value `float` refuses, or a price. */
  datatype Level = Absent | NotNumeric | At(price: real)

  /** What `tick_fn` gives back: an exception, or a dict whose keys may be missing. */
  datatype Answer =
    | Raises
    | Signal(action: Option<Action>, size: SizeField, stopLoss: Level, takeProfit: Level)

  /** The strategy: a function of the candle window and the open position in `ctx`. */
  type Strategy = (seq<Candle>, Option<Position>) -> Answer

  /** The four variables the loop updates. */
  datatype Book = Book(cash: real, position: Option<Position>, curve: seq<real>, trades: seq<Trade>)

  datatype Result = Result(
    maxDrawdown: real,
    totalReturn: real,
    winRate: real,
    nTrades: nat,
    finalEquity: real,
    curve: seq<real>,
    trades: seq<Trade>)

  // ------------------------------------------------------------------ the pieces of one step

  function PnlFrac(side: Side, entry: Price, price: real): real {
    if side.Long? then (price - entry) / entry else (entry - price) / entry
  }

  function Fee(size: real, feeBps: real): real {
    size * feeBps / 10000.0
  }

  function PnlUsdt(p: Position, exit: real): real {
    p.sizeUsdt * PnlFrac(p.side, p.entry, exit)
  }

  /** What an open position is worth at a price. */
  function Value(p: Position, price: real): real {
    p.sizeUsdt * (1.0 + PnlFrac(p.side, p.entry, price))
  }

  /** The size opened with a fraction of the cash. */
  function Stake(cash: real, frac: real): real {
    cash * frac
  }

  function CloseTrade(p: Position, exit: real, reason: Reason): Trade {
    Trade(p.side, p.entry, exit, p.sizeUsdt, PnlUsdt(p, exit), reason)
  }

  function CloseBook(b: Book, p: Position, exit: real, feeBps: real, reason: Reason): Book {
    var t := CloseTrade(p, exit, reason);
    b.(cash := b.cash + p.sizeUsdt + t.pnlUsdt - Fee(p.sizeUsdt, feeBps),
       position := None,
       trades := b.trades + [t])
  }

  function Mtm(position: Option<Position>, cash: real, price: real): real {
    match position
    case None => cash
    case Some(p) => cash + Value(p, price)
  }

  /** The level an intrabar move hits, the stop before the target. */
  function Hit(p: Position, high: real, low: real): Option<(real, Reason)> {
    match p.side
    case Long =>
      if p.stopLoss.Some? && low <= p.stopLoss.value then Some((p.stopLoss.value, StopLoss))
      else if p.takeProfit.Some? && high >= p.takeProfit.value then Some((p.takeProfit.value, TakeProfit))
      else None
    case Short =>
      if p.stopLoss.Some? && high >= p.stopLoss.value then Some((p.stopLoss.value, StopLoss))
      else if p.takeProfit.Some? && low <= p.takeProfit.value then Some((p.takeProfit.value, TakeProfit))
      else None
  }

  function AfterStops(b: Book, c: Candle, feeBps: real): Book {
    match b.position
    case None => b
    case Some(p) =>
      match Hit(p, c.high, c.low)
      case None => b
      case Some((price, reason)) => CloseBook(b, p, price, feeBps, reason)
  }

  function SizeFrac(a: Answer): real {
    match a
    case Raises => 0.0
    case Signal(_, Number(x), _, _) => if x < 0.0 then 0.0 else if x > 1.0 then 1.0 else x
    case Signal(_, _, _, _) => 1.0
  }

  function ActionOf(a: Answer): Action {
    if a.Signal? && a.action.Some? then a.action.value else Hold
  }

  /** Cash after paying for a position of the given size and its opening fee. */
  function CashAfterOpen(cash: real, size: real, feeBps: real): real {
    cash - (size + Fee(size, feeBps))
  }

  function Opened(b: Book, p: Position, feeBps: real): Book {
    b.(position := Some(p), cash := CashAfterOpen(b.cash, p.sizeUsdt, feeBps))
  }

  function PriceOf(l: Level): Option<real> {
    if l.At? then Some(l.price) else None
  }

  /** The position a signal asks for. */
  function Requested(cash: real, side: Side, a: Answer, price: Price): Position
    requires a.Signal?
  {
    Position(side, price, Stake(cash, SizeFrac(a)), PriceOf(a.stopLoss), PriceOf(a.takeProfit))
  }

  predicate CanOpen(b: Book, a: Answer) {
    a.Signal? && b.position.None? && b.cash > 0.0 && SizeFrac(a) > 0.0
  }

  function OpenBook(b: Book, side: Side, a: Answer, price: Price, feeBps: real): Book {
    if CanOpen(b, a) then Opened(b, Requested(b.cash, side, a, price), feeBps) else b
  }

  /** The levels are converted only when a position is opened with them; one that is no number ends the run. */
  predicate BreaksOn(b: Book, a: Answer) {
    && CanOpen(b, a) && (ActionOf(a) == OpenLong || ActionOf(a) == OpenShort)
    && (a.stopLoss.NotNumeric? || a.takeProfit.NotNumeric?)
  }

  function AfterAction(b: Book, a: Answer, price: Price, feeBps: real): Book {
    match ActionOf(a)
    case OpenLong => OpenBook(b, Long, a, price, feeBps)
    case OpenShort => OpenBook(b, Short, a, price, feeBps)
    case Close =>
      if b.position.Some? then CloseBook(b, b.position.value, price, feeBps, SignalClose) else b
    case _ => b
  }

  function Window(candles: seq<Candle>, i: nat): seq<Candle>
    requires i < |candles|
  {
    candles[if i < WINDOW_LOOKBACK then 0 else i - WINDOW_LOOKBACK..i + 1]
  }

  /** The book the strategy is asked about at candle i, and its answer. */
  function Asked(feeBps: real, candles: seq<Candle>, i: nat, b: Book): Book
    requires i < |candles|
  {
    AfterStops(b, candles[i], feeBps)
  }

  function AnswerAt(tick: Strategy, feeBps: real, candles: seq<Candle>, i: nat, b: Book): Answer
    requires i < |candles|
  {
    tick(Window(candles, i), Asked(feeBps, candles, i, b).position)
  }

  function Mark(b: Book, price: real): Book {
    b.(curve := b.curve + [Mtm(b.position, b.cash, price)])
  }

  function Step(tick: Strategy, feeBps: real, candles: seq<Candle>, i: nat, b: Book): Book
    requires i < |candles|
  {
    var close := candles[i].close;
    Mark(AfterAction(Asked(feeBps, candles, i, b), AnswerAt(tick, feeBps, candles, i, b), close, feeBps), close)
  }

  /** The book when the loop has replayed the candles before index i. */
  function Loop(tick: Strategy, feeBps: real, initial: real, candles: seq<Candle>, i: nat): Book
    requires WARMUP <= i && (i == WARMUP || i <= |candles|)
    decreases i
  {
    if i == WARMUP then Book(initial, None, [initial], [])
    else Step(tick, feeBps, candles, i - 1, Loop(tick, feeBps, initial, candles, i - 1))
  }

  lemma LoopUnfolds(tick: Strategy, fee: real, initial: real, candles: seq<Candle>, i: nat)
    requires WARMUP < i <= |candles|
    ensures Loop(tick, fee, initial, candles, i)
         == Step(tick, fee, candles, i - 1, Loop(tick, fee, initial, candles, i - 1))
  {
  }

  /** The run ends in an exception at candle i. */
  predicate BreaksAt(tick: Strategy, feeBps: real, initial: real, candles: seq<Candle>, i: nat)
    requires WARMUP <= i < |candles|
  {
    var b := Loop(tick, feeBps, initial, candles, i);
    BreaksOn(Asked(feeBps, candles, i, b), AnswerAt(tick, feeBps, candles, i, b))
  }

  /** No exception up to candle i. */
  ghost predicate Unbroken(tick: Strategy, feeBps: real, initial: real, candles: seq<Candle>, i: nat)
    requires i <= |candles|
  {
    forall k :: WARMUP <= k < i ==> !BreaksAt(tick, feeBps, initial, candles, k)
  }

  lemma UnbrokenExtends(tick: Strategy, feeBps: real, initial: real, candles: seq<Candle>, i: nat)
    requires WARMUP <= i < |candles|
    ensures Unbroken(tick, feeBps, initial, candles, i + 1)
       <==> Unbroken(tick, feeBps, initial, candles, i) && !BreaksAt(tick, feeBps, initial, candles, i)
    ensures BreaksAt(tick, feeBps, initial, candles, i) ==> !Unbroken(tick, feeBps, initial, candles, |candles|)
  {
  }

  /** Force-close at the last close. */
  function Finish(b: Book, last: Price, feeBps: real): Book
    requires b.curve != []
  {
    match b.position
    case None => b
    case Some(p) =>
      var b1 := CloseBook(b, p, last, feeBps, ForceClose);
      b1.(curve := b1.curve[|b1.curve| - 1 := b1.cash])
  }

  lemma {:induction false} LoopCurveLength(tick: Strategy, feeBps: real, initial: real, candles: seq<Candle>, i: nat)
    requires WARMUP <= i && (i == WARMUP || i <= |candles|)
    ensures |Loop(tick, feeBps, initial, candles, i).curve| == 1 + i - WARMUP
    decreases i
  {
    if i != WARMUP {
      LoopCurveLength(tick, feeBps, initial, candles, i - 1);
    }
  }

  /** The specification of `run`: the book it ends with. */
  function Replay(tick: Strategy, feeBps: real, initial: real, candles: seq<Candle>): (b: Book)
    ensures b.curve != []
  {
    var n := |candles|;
    if n <= WARMUP then Loop(tick, feeBps, initial, candles, WARMUP)
    else
      LoopCurveLength(tick, feeBps, initial, candles, n);
      Finish(Loop(tick, feeBps, initial, candles, n), candles[n - 1].close, feeBps)
  }

  function Last(s: seq<real>): real
    requires s != []
  {
    s[|s| - 1]
  }

  function Pnls(trades: seq<Trade>): seq<real> {
    seq(|trades|, i requires 0 <= i < |trades| => trades[i].pnlUsdt)
  }

  /** What `run` reports about its final book; up to the warm-up every figure is 0. */
  ghost predicate Reports(r: Result, b: Book, initial: real, n: nat) {
    && r.curve == b.curve && r.trades == b.trades && r.nTrades == |b.trades|
    && b.curve != [] && r.finalEquity == Last(b.curve)
    && (n <= WARMUP ==> r.maxDrawdown == 0.0 && r.totalReturn == 0.0 && r.winRate == 0.0)
    && (n > WARMUP ==>
          && IsMaxDrawdown(b.curve, r.maxDrawdown)
          && r.totalReturn == TotalReturn(b.curve, initial)
          && r.winRate == WinRate(Pnls(b.trades)))
  }

  // ------------------------------------------------------------------ the code

  method ClosePosition(p: Position, exitPrice: real, feeBps: real, cash: real, trades: seq<Trade>, reason: Reason,
                       ghost b: Book)
    returns (newCash: real, newTrades: seq<Trade>)
    requires b.cash == cash && b.trades == trades
    ensures b.(cash := newCash, position := None, trades := newTrades) == CloseBook(b, p, exitPrice, feeBps, reason)
  {
    var trade := Trade(p.side, p.entry, exitPrice, p.sizeUsdt, PnlUsdt(p, exitPrice), reason);
    newCash := cash + p.sizeUsdt + trade.pnlUsdt - Fee(p.sizeUsdt, feeBps);
    newTrades := trades + [trade];
    ghost var closed := CloseBook(b, p, exitPrice, feeBps, reason);
    assert closed.cash == newCash && closed.trades == newTrades && closed.curve == b.curve;
  }

  /** The intrabar check of the loop body. */
  method StopOut(candle: Candle, feeBps: real, cash: real, position: Option<Position>, trades: seq<Trade>,
                 ghost b: Book)
    returns (newCash: real, newPosition: Option<Position>, newTrades: seq<Trade>)
    requires b.cash == cash && b.position == position && b.trades == trades
    ensures b.(cash := newCash, position := newPosition, trades := newTrades) == AfterStops(b, candle, feeBps)
  {
    newCash, newPosition, newTrades := cash, position, trades;
    if position.Some? {
      var hit := Hit(position.value, candle.high, candle.low);
      if hit.Some? {
        newCash, newTrades := ClosePosition(position.value, hit.value.0, feeBps, cash, trades, hit.value.1, b);
        newPosition := None;
      }
    }
  }

  /** The opening of a position; false stands for the exception of converting its levels. */
  method Open(side: Side, signal: Answer, price: Price, feeBps: real, cash: real, ghost b: Book)
    returns (ok: bool, newCash: real, newPosition: Option<Position>)
    requires b.cash == cash && CanOpen(b, signal)
    ensures ok <==> !signal.stopLoss.NotNumeric? && !signal.takeProfit.NotNumeric?
    ensures ok ==> b.(cash := newCash, position := newPosition) == OpenBook(b, side, signal, price, feeBps)
  {
    var size := Stake(cash, SizeFrac(signal));
    if signal.stopLoss.NotNumeric? || signal.takeProfit.NotNumeric? {
      return false, cash, None;
    }
    newPosition := Some(Position(side, price, size, PriceOf(signal.stopLoss), PriceOf(signal.takeProfit)));
    newCash := CashAfterOpen(cash, size, feeBps);
    ok := true;
    ghost var after := OpenBook(b, side, signal, price, feeBps);
    assert after.cash == newCash && after.position == newPosition;
  }

  /** The action part of the loop body. */
  method ApplyAction(signal: Answer, price: Price, feeBps: real, cash: real, position: Option<Position>,
                     trades: seq<Trade>, ghost b: Book)
    returns (ok: bool, newCash: real, newPosition: Option<Position>, newTrades: seq<Trade>)
    requires b.cash == cash && b.position == position && b.trades == trades
    ensures ok <==> !BreaksOn(b, signal)
    ensures ok ==>
              b.(cash := newCash, position := newPosition, trades := newTrades)
              == AfterAction(b, signal, price, feeBps)
  {
    ok, newCash, newPosition, newTrades := true, cash, position, trades;
    var action, frac := ActionOf(signal), SizeFrac(signal);
    if action == OpenLong && position.None? && cash > 0.0 && frac > 0.0 {
      ok, newCash, newPosition := Open(Long, signal, price, feeBps, cash, b);
    } else if action == OpenShort && position.None? && cash > 0.0 && frac > 0.0 {
      ok, newCash, newPosition := Open(Short, signal, price, feeBps, cash, b);
    } else if action == Close && position.Some? {
      newCash, newTrades := ClosePosition(position.value, price, feeBps, cash, trades, SignalClose, b);
      newPosition := None;
    }
  }

  /** One pass of the loop body. */
  method ReplayCandle(tick: Strategy, candles: seq<Candle>, i: nat, feeBps: real, cash: real,
                      position: Option<Position>, curve: seq<real>, trades: seq<Trade>)
    returns (ok: bool, newCash: real, newPosition: Option<Position>, newCurve: seq<real>, newTrades: seq<Trade>)
    requires i < |candles|
    ensures var b := Book(cash, position, curve, trades);
            && (ok <==> !BreaksOn(Asked(feeBps, candles, i, b), AnswerAt(tick, feeBps, candles, i, b)))
            && (ok ==> Book(newCash, newPosition, newCurve, newTrades) == Step(tick, feeBps, candles, i, b))
  {
    ghost var b := Book(cash, position, curve, trades);
    newCurve := curve;
    newCash, newPosition, newTrades := StopOut(candles[i], feeBps, cash, position, trades, b);
    ghost var asked := Asked(feeBps, candles, i, b);
    var signal := tick(Window(candles, i), newPosition);
    ok, newCash, newPosition, newTrades :=
      ApplyAction(signal, candles[i].close, feeBps, newCash, newPosition, newTrades, asked);
    if ok {
      newCurve := curve + [Mtm(newPosition, newCash, candles[i].close)];
    }
  }

  /** One candle further into the run; false when it breaks off. */
  method Advance(tick: Strategy, candles: seq<Candle>, i: nat, initial: real, feeBps: real, cash: real,
                 position: Option<Position>, curve: seq<real>, trades: seq<Trade>)
    returns (ok: bool, newCash: real, newPosition: Option<Position>, newCurve: seq<real>, newTrades: seq<Trade>)
    requires WARMUP <= i < |candles| && Unbroken(tick, feeBps, initial, candles, i)
    requires Book(cash, position, curve, trades) == Loop(tick, feeBps, initial, candles, i)
    ensures !ok ==> !Unbroken(tick, feeBps, initial, candles, |candles|)
    ensures ok ==> Unbroken(tick, feeBps, initial, candles, i + 1)
    ensures ok ==> Book(newCash, newPosition, newCurve, newTrades) == Loop(tick, feeBps, initial, candles, i + 1)
  {
    LoopUnfolds(tick, feeBps, initial, candles, i + 1);
    ok, newCash, newPosition, newCurve, newTrades :=
      ReplayCandle(tick, candles, i, feeBps, cash, position, curve, trades);
    assert ok <==> !BreaksAt(tick, feeBps, initial, candles, i);
    UnbrokenExtends(tick, feeBps, initial, candles, i);
  }

  /** The loop over all candles after the warm-up. */
  method ReplayAll(tick: Strategy, candles: seq<Candle>, initial: real, feeBps: real)
    returns (ok: bool, cash: real, position: Option<Position>, curve: seq<real>, trades: seq<Trade>)
    requires |candles| > WARMUP
    ensures ok <==> Unbroken(tick, feeBps, initial, candles, |candles|)
    ensures ok ==> Book(cash, position, curve, trades) == Loop(tick, feeBps, initial, candles, |candles|)
  {
    ok, cash, position, curve, trades := true, initial, None, [initial], [];
    for i := WARMUP to |candles|
      invariant ok && Unbroken(tick, feeBps, initial, candles, i)
      invariant Book(cash, position, curve, trades) == Loop(tick, feeBps, initial, candles, i)
    {
      ok, cash, position, curve, trades := Advance(tick, candles, i, initial, feeBps, cash, position, curve, trades);
      if !ok {
        return;
      }
    }
  }

  /** The exception of a level that is no number escapes (None); otherwise the replay is reported. */
  method Run(tick: Strategy, candles: seq<Candle>, initial: real, feeBps: real) returns (r: Option<Result>)
    ensures r.Some? <==> Unbroken(tick, feeBps, initial, candles, |candles|)
    ensures r.Some? ==> Reports(r.value, Replay(tick, feeBps, initial, candles), initial, |candles|)
  {
    var n := |candles|;
    if n <= WARMUP {
      return Some(Result(0.0, 0.0, 0.0, 0, initial, [initial], []));
    }
    var ok, cash, position, curve, trades := ReplayAll(tick, candles, initial, feeBps);
    if !ok {
      return None;
    }
    LoopCurveLength(tick, feeBps, initial, candles, n);
    cash, curve, trades := CloseAtEnd(candles[n - 1].close, feeBps, cash, position, curve, trades);
    var result := Report(cash, curve, trades, initial, n);
    r := Some(result);
  }

  /** A position still open is closed at the last close, for fair metrics. */
  method CloseAtEnd(last: Price, feeBps: real, cash: real, position: Option<Position>, curve: seq<real>,
                    trades: seq<Trade>)
    returns (newCash: real, newCurve: seq<real>, newTrades: seq<Trade>)
    requires curve != []
    ensures Book(newCash, None, newCurve, newTrades) == Finish(Book(cash, position, curve, trades), last, feeBps)
  {
    newCash, newCurve, newTrades := cash, curve, trades;
    if position.Some? {
      newCash, newTrades := ClosePosition(position.value, last, feeBps, cash, trades, ForceClose,
                                          Book(cash, position, curve, trades));
      newCurve := curve[|curve| - 1 := newCash];
    }
  }

  method Report(cash: real, curve: seq<real>, trades: seq<Trade>, initial: real, n: nat) returns (r: Result)
    requires curve != [] && n > WARMUP
    ensures Reports(r, Book(cash, None, curve, trades), initial, n)
  {
    var mdd := MaxDrawdown(curve);
    r := Result(mdd, TotalReturn(curve, initial), WinRate(Pnls(trades)), |trades|, curve[|curve| - 1], curve, trades);
  }
}
