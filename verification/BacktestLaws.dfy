/** Laws of the backtest that relate whole runs. */
module BacktestLaws {
  import opened Options
  import opened Metrics
  import opened RealLemmas
  import opened BacktestEngine

  // ------------------------------------------------------------------ no look-ahead

  /** The book after index i depends on the candles before index i alone. */
  lemma {:induction false} LoopIgnoresFuture(tick: Strategy, fee: real, initial: real, candles: seq<Candle>,
                                             m: nat, i: nat)
    requires WARMUP <= i <= m <= |candles|
    ensures Loop(tick, fee, initial, candles[..m], i) == Loop(tick, fee, initial, candles, i)
    decreases i
  {
    if i != WARMUP {
      LoopIgnoresFuture(tick, fee, initial, candles, m, i - 1);
      assert Window(candles[..m], i - 1) == Window(candles, i - 1);
    }
  }

  predicate Extends(b: Book, longer: Book) {
    b.curve <= longer.curve && b.trades <= longer.trades
  }

  lemma ExtendsTransitively(a: Book, b: Book, c: Book)
    requires Extends(a, b) && Extends(b, c)
    ensures Extends(a, c)
  {
  }

  lemma StepOnlyAppends(tick: Strategy, fee: real, candles: seq<Candle>, i: nat, b: Book)
    requires i < |candles|
    ensures Extends(b, Step(tick, fee, candles, i, b))
  {
    var b1 := AfterStops(b, candles[i], fee);
    assert b.curve == b1.curve && b.trades <= b1.trades;
    var b2 := AfterAction(b1, tick(Window(candles, i), b1.position), candles[i].close, fee);
    assert b1.curve == b2.curve && b1.trades <= b2.trades;
  }

  lemma LoopExtends(tick: Strategy, fee: real, initial: real, candles: seq<Candle>, i: nat)
    requires WARMUP < i <= |candles|
    ensures Extends(Loop(tick, fee, initial, candles, i - 1), Loop(tick, fee, initial, candles, i))
  {
    LoopUnfolds(tick, fee, initial, candles, i);
    StepOnlyAppends(tick, fee, candles, i - 1, Loop(tick, fee, initial, candles, i - 1));
  }

  lemma {:induction false} ChainExtends(books: seq<Book>, i: nat, j: nat)
    requires i <= j < |books| && forall k :: 0 < k < |books| ==> Extends(books[k - 1], books[k])
    ensures Extends(books[i], books[j])
  {
    if i < j {
      ChainExtends(books, i, j - 1);
      ExtendsTransitively(books[i], books[j - 1], books[j]);
    }
  }

  /** The books of a run, one for each candle replayed. */
  function Books(tick: Strategy, fee: real, initial: real, candles: seq<Candle>): seq<Book>
    requires |candles| >= WARMUP
  {
    seq(|candles| - WARMUP + 1,
        k requires 0 <= k <= |candles| - WARMUP => Loop(tick, fee, initial, candles, WARMUP + k))
  }

  lemma BooksExtend(tick: Strategy, fee: real, initial: real, candles: seq<Candle>)
    requires |candles| >= WARMUP
    ensures var books := Books(tick, fee, initial, candles);
            forall k :: 0 < k < |books| ==> Extends(books[k - 1], books[k])
  {
    var books := Books(tick, fee, initial, candles);
    forall k | 0 < k < |books| ensures Extends(books[k - 1], books[k]) {
      LoopExtends(tick, fee, initial, candles, WARMUP + k);
    }
  }

  lemma LoopOnlyAppends(tick: Strategy, fee: real, initial: real, candles: seq<Candle>, i: nat, j: nat)
    requires WARMUP <= i <= j <= |candles|
    ensures Extends(Loop(tick, fee, initial, candles, i), Loop(tick, fee, initial, candles, j))
  {
    BooksExtend(tick, fee, initial, candles);
    ChainExtends(Books(tick, fee, initial, candles), i - WARMUP, j - WARMUP);
  }

  lemma {:induction false} LoopNeverForces(tick: Strategy, fee: real, initial: real, candles: seq<Candle>, i: nat)
    requires WARMUP <= i && (i == WARMUP || i <= |candles|)
    ensures forall t :: t in Loop(tick, fee, initial, candles, i).trades ==> t.reason != ForceClose
    decreases i
  {
    if i != WARMUP {
      LoopNeverForces(tick, fee, initial, candles, i - 1);
    }
  }

  /** The run was still holding a position at its last candle. */
  predicate Forced(b: Book) {
    b.trades != [] && b.trades[|b.trades| - 1].reason == ForceClose
  }

  function Unforced(b: Book): seq<Trade> {
    if Forced(b) then b.trades[..|b.trades| - 1] else b.trades
  }

  function ForcedFee(b: Book, fee: real): real {
    if Forced(b) then Fee(b.trades[|b.trades| - 1].sizeUsdt, fee) else 0.0
  }

  /** Marking a position to market and closing it differ by the closing fee. */
  lemma CloseIsMtmLessFee(b: Book, p: Position, price: real, fee: real, reason: Reason)
    requires b.position == Some(p)
    ensures CloseBook(b, p, price, fee, reason).cash == Mtm(b.position, b.cash, price) - Fee(p.sizeUsdt, fee)
  {
    var f := PnlFrac(p.side, p.entry, price);
    assert p.sizeUsdt * (1.0 + f) == p.sizeUsdt + p.sizeUsdt * f;
    assert Value(p, price) == p.sizeUsdt + PnlUsdt(p, price);
  }

  lemma LastPointIsMtm(tick: Strategy, fee: real, initial: real, candles: seq<Candle>, i: nat)
    requires WARMUP < i <= |candles|
    ensures var b := Loop(tick, fee, initial, candles, i);
            b.curve != [] && Last(b.curve) == Mtm(b.position, b.cash, candles[i - 1].close)
  {
  }

  /** No look-ahead: a run on the first m candles has the curve of the full run up to its own last point, which
      is lower by exactly the closing fee of a position that had to be closed; and it made the same trades. */
  lemma NoLookAhead(tick: Strategy, fee: real, initial: real, candles: seq<Candle>, m: nat)
    requires WARMUP < m < |candles|
    ensures var full := Replay(tick, fee, initial, candles);
            var part := Replay(tick, fee, initial, candles[..m]);
            && |part.curve| == 1 + m - WARMUP && |full.curve| == 1 + |candles| - WARMUP
            && (forall j :: 0 <= j < m - WARMUP ==> part.curve[j] == full.curve[j])
            && full.curve[m - WARMUP] - part.curve[m - WARMUP] == ForcedFee(part, fee)
            && Unforced(part) <= full.trades
  {
    var n := |candles|;
    PrefixRun(tick, fee, initial, candles, m);
    var b, end := Loop(tick, fee, initial, candles, m), Loop(tick, fee, initial, candles, n);
    LoopOnlyAppends(tick, fee, initial, candles, m, n);
    LoopCurveLength(tick, fee, initial, candles, n);
    FinishKeeps(end, candles[n - 1].close, fee);
    assert forall j :: 0 <= j <= m - WARMUP ==> b.curve[j] == end.curve[j];
  }

  lemma PrefixIsFinished(tick: Strategy, fee: real, initial: real, candles: seq<Candle>, m: nat) returns (b: Book)
    requires WARMUP < m < |candles|
    ensures b == Loop(tick, fee, initial, candles, m) && |b.curve| == 1 + m - WARMUP
    ensures Replay(tick, fee, initial, candles[..m]) == Finish(b, candles[m - 1].close, fee)
  {
    b := Loop(tick, fee, initial, candles, m);
    LoopIgnoresFuture(tick, fee, initial, candles, m, m);
    LoopCurveLength(tick, fee, initial, candles, m);
  }

  /** The run on the first m candles, told by the loop of the full run. */
  lemma PrefixRun(tick: Strategy, fee: real, initial: real, candles: seq<Candle>, m: nat)
    requires WARMUP < m < |candles|
    ensures var b := Loop(tick, fee, initial, candles, m);
            var part := Replay(tick, fee, initial, candles[..m]);
            && |part.curve| == |b.curve| == 1 + m - WARMUP
            && (forall j :: 0 <= j < |b.curve| - 1 ==> part.curve[j] == b.curve[j])
            && Last(b.curve) - Last(part.curve) == ForcedFee(part, fee)
            && Unforced(part) == b.trades
  {
    var b := PrefixIsFinished(tick, fee, initial, candles, m);
    LoopNeverForces(tick, fee, initial, candles, m);
    LastPointIsMtm(tick, fee, initial, candles, m);
    FinishCostsFee(b, candles[m - 1].close, fee);
  }

  /** Ending a run on an open position lowers its last point by the closing fee and appends the forced trade. */
  lemma FinishCostsFee(b: Book, last: Price, fee: real)
    requires b.curve != [] && Last(b.curve) == Mtm(b.position, b.cash, last)
    requires forall t :: t in b.trades ==> t.reason != ForceClose
    ensures var end := Finish(b, last, fee);
            && |end.curve| == |b.curve|
            && (forall j :: 0 <= j < |b.curve| - 1 ==> end.curve[j] == b.curve[j])
            && Last(b.curve) - Last(end.curve) == ForcedFee(end, fee)
            && Unforced(end) == b.trades
  {
    if b.position.Some? {
      CloseIsMtmLessFee(b, b.position.value, last, fee, ForceClose);
      assert Finish(b, last, fee).trades == b.trades + [CloseTrade(b.position.value, last, ForceClose)];
    } else if b.trades != [] {
      assert b.trades[|b.trades| - 1] in b.trades;
    }
  }

  /** A run breaks off at a candle exactly if every run on a longer history does. */
  lemma BreaksIgnoreFuture(tick: Strategy, fee: real, initial: real, candles: seq<Candle>, m: nat, i: nat)
    requires WARMUP <= i < m <= |candles|
    ensures BreaksAt(tick, fee, initial, candles[..m], i) <==> BreaksAt(tick, fee, initial, candles, i)
  {
    LoopIgnoresFuture(tick, fee, initial, candles, m, i);
    assert Window(candles[..m], i) == Window(candles, i);
  }

  lemma FinishKeeps(b: Book, last: Price, fee: real)
    requires b.curve != []
    ensures |Finish(b, last, fee).curve| == |b.curve|
    ensures forall j :: 0 <= j < |b.curve| - 1 ==> Finish(b, last, fee).curve[j] == b.curve[j]
    ensures b.trades <= Finish(b, last, fee).trades
  {
  }

  // ------------------------------------------------------------------ cash conservation

  function SumPnl(trades: seq<Trade>): real {
    if trades == [] then 0.0 else SumPnl(trades[..|trades| - 1]) + trades[|trades| - 1].pnlUsdt
  }

  /** Both sides of every finished trade. */
  function SumFees(trades: seq<Trade>, fee: real): real {
    if trades == [] then 0.0
    else SumFees(trades[..|trades| - 1], fee) + 2.0 * trades[|trades| - 1].sizeUsdt * fee / 10000.0
  }

  function OpenSize(b: Book): real {
    if b.position.Some? then b.position.value.sizeUsdt else 0.0
  }

  function FeesPaid(b: Book, fee: real): real {
    SumFees(b.trades, fee) + Fee(OpenSize(b), fee)
  }

  /** Nothing is created or lost: cash plus the open size is the initial cash plus realised pnl less fees. */
  predicate Conserved(b: Book, initial: real, fee: real) {
    b.cash + OpenSize(b) == initial + SumPnl(b.trades) - FeesPaid(b, fee)
  }

  lemma CloseConserves(b: Book, p: Position, exit: real, fee: real, reason: Reason, initial: real)
    requires b.position == Some(p) && Conserved(b, initial, fee)
    ensures Conserved(CloseBook(b, p, exit, fee, reason), initial, fee)
  {
    var b' := CloseBook(b, p, exit, fee, reason);
    assert b'.trades[..|b'.trades| - 1] == b.trades;
    assert 2.0 * p.sizeUsdt * fee / 10000.0 == 2.0 * Fee(p.sizeUsdt, fee);
  }

  lemma StopsConserve(b: Book, c: Candle, fee: real, initial: real)
    requires Conserved(b, initial, fee)
    ensures Conserved(AfterStops(b, c, fee), initial, fee)
  {
    if b.position.Some? && Hit(b.position.value, c.high, c.low).Some? {
      var hit := Hit(b.position.value, c.high, c.low).value;
      CloseConserves(b, b.position.value, hit.0, fee, hit.1, initial);
    }
  }

  lemma OpenConserves(b: Book, p: Position, fee: real, initial: real)
    requires b.position.None? && Conserved(b, initial, fee)
    ensures Conserved(Opened(b, p, fee), initial, fee)
  {
  }

  lemma ActionConserves(b: Book, a: Answer, price: Price, fee: real, initial: real)
    requires Conserved(b, initial, fee)
    ensures Conserved(AfterAction(b, a, price, fee), initial, fee)
  {
    if b.position.Some? {
      CloseConserves(b, b.position.value, price, fee, SignalClose, initial);
    } else if a.Signal? {
      OpenConserves(b, Requested(b.cash, Long, a, price), fee, initial);
      OpenConserves(b, Requested(b.cash, Short, a, price), fee, initial);
    }
  }

  lemma {:induction false} LoopConserves(tick: Strategy, fee: real, initial: real, candles: seq<Candle>, i: nat)
    requires WARMUP <= i && (i == WARMUP || i <= |candles|)
    ensures Conserved(Loop(tick, fee, initial, candles, i), initial, fee)
    decreases i
  {
    if i != WARMUP {
      LoopConserves(tick, fee, initial, candles, i - 1);
      var c, b := candles[i - 1], Loop(tick, fee, initial, candles, i - 1);
      StopsConserve(b, c, fee, initial);
      var b1 := AfterStops(b, c, fee);
      ActionConserves(b1, tick(Window(candles, i - 1), b1.position), c.close, fee, initial);
    }
  }

  /** The attested final equity is the initial cash plus every pnl less the two fees of every trade. */
  lemma FinalEquityIsAccountedFor(tick: Strategy, fee: real, initial: real, candles: seq<Candle>)
    ensures var b := Replay(tick, fee, initial, candles);
            && Last(b.curve) == initial + SumPnl(b.trades) - SumFees(b.trades, fee)
            && b.curve[0] == initial
            && |b.curve| == 1 + (if |candles| > 20 then |candles| - 20 else 0)
  {
    if |candles| > WARMUP {
      var b := LastBook(tick, fee, initial, candles);
      FinishConserves(b, candles[|candles| - 1].close, fee, initial);
      FinishKeeps(b, candles[|candles| - 1].close, fee);
    }
  }

  /** The book on which a run ends, and what is known of it. */
  lemma LastBook(tick: Strategy, fee: real, initial: real, candles: seq<Candle>) returns (b: Book)
    requires |candles| > WARMUP
    ensures |b.curve| == 1 + |candles| - WARMUP && b.curve[0] == initial
    ensures Replay(tick, fee, initial, candles) == Finish(b, candles[|candles| - 1].close, fee)
    ensures Last(b.curve) == Mtm(b.position, b.cash, candles[|candles| - 1].close)
    ensures Conserved(b, initial, fee)
  {
    var n := |candles|;
    b := Loop(tick, fee, initial, candles, n);
    LoopConserves(tick, fee, initial, candles, n);
    LoopCurveLength(tick, fee, initial, candles, n);
    LastPointIsMtm(tick, fee, initial, candles, n);
    LoopOnlyAppends(tick, fee, initial, candles, WARMUP, n);
    assert Loop(tick, fee, initial, candles, WARMUP).curve == [initial];
  }

  lemma FinishConserves(b: Book, last: Price, fee: real, initial: real)
    requires b.curve != [] && Last(b.curve) == Mtm(b.position, b.cash, last) && Conserved(b, initial, fee)
    ensures var end := Finish(b, last, fee);
            Last(end.curve) == initial + SumPnl(end.trades) - SumFees(end.trades, fee)
  {
    if b.position.Some? {
      CloseConserves(b, b.position.value, last, fee, ForceClose, initial);
    }
  }

  // ------------------------------------------------------------------ what an action does

  lemma OpenCostsItsFee(b: Book, p: Position, fee: real)
    requires b.position.None?
    ensures var b' := Opened(b, p, fee);
            Mtm(b'.position, b'.cash, p.entry) == Mtm(b.position, b.cash, p.entry) - Fee(p.sizeUsdt, fee)
  {
    QuotientIs(0.0, p.entry, 0.0);
    assert Value(p, p.entry) == p.sizeUsdt * 1.0;
  }

  /** Acting on a signal moves the marked equity by nothing but the fee on what was opened or closed, and leaves
      finished trades alone. */
  lemma ActionsOnlyCostFees(b: Book, a: Answer, price: Price, fee: real)
    ensures var b' := AfterAction(b, a, price, fee);
            && Mtm(b'.position, b'.cash, price)
               == Mtm(b.position, b.cash, price) - (if b' == b then 0.0 else Fee(OpenSize(b) + OpenSize(b'), fee))
            && b.trades <= b'.trades && |b'.trades| <= |b.trades| + 1
            && (b'.position.Some? ==> b'.trades == b.trades)
  {
    if b.position.Some? {
      CloseIsMtmLessFee(b, b.position.value, price, fee, SignalClose);
    } else if a.Signal? {
      OpenCostsItsFee(b, Requested(b.cash, Long, a, price), fee);
      OpenCostsItsFee(b, Requested(b.cash, Short, a, price), fee);
    }
  }

  lemma StakeRange(cash: real, a: Answer)
    requires cash > 0.0 && SizeFrac(a) > 0.0
    ensures 0.0 < Stake(cash, SizeFrac(a)) <= cash
  {
    MulMonoStrict(0.0, SizeFrac(a), cash);
    MulMono(SizeFrac(a), 1.0, cash);
  }

  /** The answer is a dict with just this action. */
  predicate Asks(a: Answer, action: Action) {
    a.Signal? && a.action == Some(action)
  }

  /** A position appears exactly when a flat book with cash is told to open a positive fraction of it; it is on
      the side asked for, entered at the close, and takes that fraction of the cash, all of it at most. */
  lemma OpensWhenAsked(b: Book, a: Answer, price: Price, fee: real)
    requires b.position.None?
    ensures var p := AfterAction(b, a, price, fee).position;
            && (p.Some? <==> b.cash > 0.0 && (Asks(a, OpenLong) || Asks(a, OpenShort))
                             && (a.size.Number? ==> a.size.value > 0.0))
            && (p.Some? ==> && (p.value.side.Long? <==> Asks(a, OpenLong)) && p.value.entry == price
                            && 0.0 < p.value.sizeUsdt <= b.cash
                            && p.value.stopLoss == PriceOf(a.stopLoss) && p.value.takeProfit == PriceOf(a.takeProfit)
                            && p.value.sizeUsdt == if a.size.Number? && a.size.value < 1.0 then a.size.value * b.cash
                                                   else b.cash)
  {
    if b.cash > 0.0 && SizeFrac(a) > 0.0 {
      StakeRange(b.cash, a);
    }
  }

  /** An open position is closed exactly when the answer says so, at the close; whatever else it says, an exception
      included, changes nothing. */
  lemma ClosesWhenAsked(b: Book, a: Answer, price: Price, fee: real)
    requires b.position.Some?
    ensures var b' := AfterAction(b, a, price, fee);
            && (Asks(a, Close) ==>
                  b'.position.None? && b'.trades == b.trades + [CloseTrade(b.position.value, price, SignalClose)])
            && (!Asks(a, Close) ==> b' == b)
  {
  }

  /** At candle i the strategy, asked with a flat book, asked for just this position. */
  predicate AskedFor(tick: Strategy, fee: real, initial: real, candles: seq<Candle>, i: nat,
                     side: Side, entry: Price, size: real)
    requires WARMUP <= i < |candles|
  {
    var b := Loop(tick, fee, initial, candles, i);
    var asked := Asked(fee, candles, i, b);
    && asked.position.None? && 0.0 < size <= asked.cash && entry == candles[i].close
    && Asks(AnswerAt(tick, fee, candles, i, b), if side.Long? then OpenLong else OpenShort)
  }

  ghost predicate WasAskedFor(tick: Strategy, fee: real, initial: real, candles: seq<Candle>, n: nat,
                              side: Side, entry: Price, size: real)
    requires n <= |candles|
  {
    exists i :: WARMUP <= i < n && AskedFor(tick, fee, initial, candles, i, side, entry, size)
  }

  /** The position of b and its trades were asked for before candle n. */
  ghost predicate AllAskedFor(tick: Strategy, fee: real, initial: real, candles: seq<Candle>, n: nat, b: Book)
    requires n <= |candles|
  {
    && (b.position.Some? ==>
          var p := b.position.value; WasAskedFor(tick, fee, initial, candles, n, p.side, p.entry, p.sizeUsdt))
    && forall t :: t in b.trades ==> WasAskedFor(tick, fee, initial, candles, n, t.side, t.entry, t.sizeUsdt)
  }

  lemma CloseStaysAskedFor(tick: Strategy, fee: real, initial: real, candles: seq<Candle>, n: nat, b: Book,
                           exit: real, reason: Reason)
    requires n <= |candles| && AllAskedFor(tick, fee, initial, candles, n, b) && b.position.Some?
    ensures AllAskedFor(tick, fee, initial, candles, n, CloseBook(b, b.position.value, exit, fee, reason))
  {
  }

  lemma LaterStaysAskedFor(tick: Strategy, fee: real, initial: real, candles: seq<Candle>, n: nat, b: Book)
    requires n < |candles| && AllAskedFor(tick, fee, initial, candles, n, b)
    ensures AllAskedFor(tick, fee, initial, candles, n + 1, b)
  {
  }

  lemma OpenIsAskedFor(tick: Strategy, fee: real, initial: real, candles: seq<Candle>, i: nat)
    requires WARMUP <= i < |candles|
    requires Asked(fee, candles, i, Loop(tick, fee, initial, candles, i)).position.None?
    ensures var b := Loop(tick, fee, initial, candles, i);
            var a, asked := AnswerAt(tick, fee, candles, i, b), Asked(fee, candles, i, b);
            var p := AfterAction(asked, a, candles[i].close, fee).position;
            p.Some? ==> AskedFor(tick, fee, initial, candles, i, p.value.side, p.value.entry, p.value.sizeUsdt)
  {
    var b := Loop(tick, fee, initial, candles, i);
    OpensWhenAsked(Asked(fee, candles, i, b), AnswerAt(tick, fee, candles, i, b), candles[i].close, fee);
  }

  lemma StepStaysAskedFor(tick: Strategy, fee: real, initial: real, candles: seq<Candle>, i: nat)
    requires WARMUP <= i < |candles|
    requires AllAskedFor(tick, fee, initial, candles, i, Loop(tick, fee, initial, candles, i))
    ensures AllAskedFor(tick, fee, initial, candles, i + 1,
                        Step(tick, fee, candles, i, Loop(tick, fee, initial, candles, i)))
  {
    var b, c := Loop(tick, fee, initial, candles, i), candles[i];
    LaterStaysAskedFor(tick, fee, initial, candles, i, b);
    if b.position.Some? && Hit(b.position.value, c.high, c.low).Some? {
      var hit := Hit(b.position.value, c.high, c.low).value;
      CloseStaysAskedFor(tick, fee, initial, candles, i + 1, b, hit.0, hit.1);
    }
    var asked := Asked(fee, candles, i, b);
    assert AllAskedFor(tick, fee, initial, candles, i + 1, asked);
    if asked.position.Some? {
      CloseStaysAskedFor(tick, fee, initial, candles, i + 1, asked, c.close, SignalClose);
    } else {
      OpenIsAskedFor(tick, fee, initial, candles, i);
    }
  }

  lemma {:induction false} LoopStaysAskedFor(tick: Strategy, fee: real, initial: real, candles: seq<Candle>, i: nat)
    requires WARMUP <= i <= |candles|
    ensures AllAskedFor(tick, fee, initial, candles, i, Loop(tick, fee, initial, candles, i))
    decreases i
  {
    if i != WARMUP {
      LoopStaysAskedFor(tick, fee, initial, candles, i - 1);
      StepStaysAskedFor(tick, fee, initial, candles, i - 1);
      LoopUnfolds(tick, fee, initial, candles, i);
    }
  }

  /** Every trade of a replay was asked for: at some candle, with a flat book, on its side, entered at that
      candle's close and no larger than the cash there was. */
  lemma TradesWereAskedFor(tick: Strategy, fee: real, initial: real, candles: seq<Candle>, t: Trade)
    requires t in Replay(tick, fee, initial, candles).trades
    ensures WasAskedFor(tick, fee, initial, candles, |candles|, t.side, t.entry, t.sizeUsdt)
  {
    var n := |candles|;
    if n > WARMUP {
      LoopStaysAskedFor(tick, fee, initial, candles, n);
      var b := Loop(tick, fee, initial, candles, n);
      LoopCurveLength(tick, fee, initial, candles, n);
      if b.position.Some? {
        CloseStaysAskedFor(tick, fee, initial, candles, n, b, candles[n - 1].close, ForceClose);
      }
    }
  }

  // ------------------------------------------------------------------ long and short are mirror images

  function Negate(o: Option<real>): Option<real> {
    if o.Some? then Some(-o.value) else None
  }

  function Mirror(p: Position): Position {
    p.(side := if p.side.Long? then Short else Long,
       stopLoss := Negate(p.stopLoss), takeProfit := Negate(p.takeProfit))
  }

  /** Turning every price upside down turns a long into a short: the same level is hit for the same reason. */
  lemma StopsAreSymmetric(p: Position, high: real, low: real)
    ensures Hit(Mirror(p), -low, -high) ==
              match Hit(p, high, low) { case None => None case Some((price, reason)) => Some((-price, reason)) }
  {
  }

  /** A long gains exactly when the price is above its entry, and the equal short loses what the long gains. */
  lemma ShortIsOppositeOfLong(p: Position, price: real)
    requires p.side.Long? && p.sizeUsdt > 0.0 && p.entry > 0.0
    ensures PnlUsdt(p, price) > 0.0 <==> price > p.entry
    ensures PnlUsdt(p.(side := Short), price) == -PnlUsdt(p, price)
  {
    var up := (price - p.entry) / p.entry;
    DivMul(price - p.entry, p.entry);
    QuotientIs(p.entry - price, p.entry, -up);
    assert up > 0.0 <==> price > p.entry by {
      if up > 0.0 { MulMonoStrict(0.0, up, p.entry); } else { MulMono(up, 0.0, p.entry); }
    }
    if up > 0.0 { MulMonoStrict(0.0, up, p.sizeUsdt); } else { MulMono(up, 0.0, p.sizeUsdt); }
  }

  predicate LevelsBracket(p: Position) {
    && p.stopLoss.Some? && p.takeProfit.Some?
    && if p.side.Long? then p.stopLoss.value < p.entry < p.takeProfit.value
       else p.takeProfit.value < p.entry < p.stopLoss.value
  }

  /** With levels on the proper sides of the entry a hit stop books a loss and a hit target a gain, and a candle
      that spans both books the loss. */
  lemma StopsLoseTargetsWin(p: Position, high: real, low: real)
    requires p.sizeUsdt > 0.0 && p.entry > 0.0 && LevelsBracket(p)
    ensures match Hit(p, high, low)
            case None =>
              if p.side.Long? then p.stopLoss.value < low && high < p.takeProfit.value
              else high < p.stopLoss.value && p.takeProfit.value < low
            case Some((price, reason)) =>
              && (reason == StopLoss || reason == TakeProfit)
              && (reason == StopLoss <==> PnlUsdt(p, price) < 0.0)
              && (reason == TakeProfit <==> PnlUsdt(p, price) > 0.0)
    ensures low <= p.stopLoss.value <= high && low <= p.takeProfit.value <= high ==>
              Hit(p, high, low) == Some((p.stopLoss.value, StopLoss))
  {
    ShortIsOppositeOfLong(p.(side := Long), p.stopLoss.value);
    ShortIsOppositeOfLong(p.(side := Long), p.takeProfit.value);
    NotFlat(p, p.stopLoss.value);
    NotFlat(p, p.takeProfit.value);
  }

  lemma NotFlat(p: Position, price: real)
    requires p.sizeUsdt > 0.0 && p.entry > 0.0 && price != p.entry
    ensures PnlUsdt(p, price) != 0.0
  {
    var f := PnlFrac(p.side, p.entry, price);
    DivMul(price - p.entry, p.entry);
    DivMul(p.entry - price, p.entry);
    assert f != 0.0;
  }

  // ------------------------------------------------------------------ equity below zero

  /** A strategy that says the same at every candle. */
  function Always(action: Action): Strategy {
    (w: seq<Candle>, p: Option<Position>) => Signal(Some(action), Missing, Absent, Absent)
  }

  lemma TwoCandles(action: Action, side: Side, fee: real, initial: real, candles: seq<Candle>)
    requires |candles| == WARMUP + 2 && initial > 0.0
    requires (action == OpenLong && side == Long) || (action == OpenShort && side == Short)
    ensures var e0, e1 := candles[WARMUP].close, candles[WARMUP + 1].close;
            var p := Position(side, e0, initial, None, None);
            var b := Replay(Always(action), fee, initial, candles);
            b.curve == [initial, initial - Fee(initial, fee),
                        initial + PnlUsdt(p, e1) - Fee(initial, fee) - Fee(initial, fee)]
  {
    var tick := Always(action);
    var e0, e1 := candles[WARMUP].close, candles[WARMUP + 1].close;
    var p := Position(side, e0, initial, None, None);
    var b0 := Loop(tick, fee, initial, candles, WARMUP);
    LoopUnfolds(tick, fee, initial, candles, WARMUP + 1);
    LoopUnfolds(tick, fee, initial, candles, WARMUP + 2);
    assert Stake(initial, 1.0) == initial;
    OpenCostsItsFee(b0, p, fee);
    var b1 := Step(tick, fee, candles, WARMUP, b0);
    assert b1 == Mark(Opened(b0, p, fee), e0);
    var b2 := Step(tick, fee, candles, WARMUP + 1, b1);
    assert b2 == Mark(b1, e1);
    CloseIsMtmLessFee(b2, p, e1, fee, ForceClose);
    assert Replay(tick, fee, initial, candles) == Finish(b2, e1, fee);
    CloseIsMtmLessFee(b1, p, e1, fee, ForceClose);
  }

  /** Equity does go below zero, so the reported drawdown does exceed 1: a short loses more than the account when
      the price triples, ... */
  lemma ShortLosesMoreThanAll(candles: seq<Candle>, d: real)
    requires |candles| == WARMUP + 2 && candles[WARMUP].close == 1.0 && candles[WARMUP + 1].close == 3.0
    requires IsMaxDrawdown(Replay(Always(OpenShort), 10.0, 1000.0, candles).curve, d)
    ensures Last(Replay(Always(OpenShort), 10.0, 1000.0, candles).curve) == -1002.0 && d > 1.0
  {
    TwoCandles(OpenShort, Short, 10.0, 1000.0, candles);
    var curve := Replay(Always(OpenShort), 10.0, 1000.0, candles).curve;
    assert curve[0] == 1000.0 && curve[2] == -1002.0;
    DrawdownRange(curve, d);
  }

  /** ... and a full-size long owes its fees when the price falls to next to nothing. */
  lemma LongOwesItsFees(candles: seq<Candle>, d: real)
    requires |candles| == WARMUP + 2 && candles[WARMUP].close == 1.0 && candles[WARMUP + 1].close == 0.001
    requires IsMaxDrawdown(Replay(Always(OpenLong), 10.0, 1000.0, candles).curve, d)
    ensures Last(Replay(Always(OpenLong), 10.0, 1000.0, candles).curve) == -1.0 && d > 1.0
  {
    TwoCandles(OpenLong, Long, 10.0, 1000.0, candles);
    var curve := Replay(Always(OpenLong), 10.0, 1000.0, candles).curve;
    assert curve[0] == 1000.0 && curve[2] == -1.0;
    DrawdownRange(curve, d);
  }

  // ------------------------------------------------------------------ scale invariance

  /** The strategy looks at the position but not at its size. */
  ghost predicate SizeBlind(tick: Strategy) {
    forall w, p: Position, q: Position :: p == q.(sizeUsdt := p.sizeUsdt) ==> tick(w, Some(p)) == tick(w, Some(q))
  }

  function ScaleCurve(k: real, c: seq<real>): seq<real> {
    seq(|c|, i requires 0 <= i < |c| => Times(k, c[i]))
  }

  function ScaleTrade(k: real, t: Trade): Trade {
    t.(sizeUsdt := Times(k, t.sizeUsdt), pnlUsdt := Times(k, t.pnlUsdt))
  }

  function ScaleTrades(k: real, ts: seq<Trade>): seq<Trade> {
    seq(|ts|, i requires 0 <= i < |ts| => ScaleTrade(k, ts[i]))
  }

  function ScalePosition(k: real, p: Option<Position>): Option<Position> {
    if p.Some? then Some(p.value.(sizeUsdt := Times(k, p.value.sizeUsdt))) else None
  }

  /** Every amount of money multiplied by k, everything else as it was. */
  function Scale(k: real, b: Book): Book {
    Book(Times(k, b.cash), ScalePosition(k, b.position), ScaleCurve(k, b.curve), ScaleTrades(k, b.trades))
  }

  lemma TimesProduct(k: real, a: real, b: real)
    ensures Times(k, a) * b == Times(k, a * b)
  {
  }

  lemma TimesSum(k: real, a: real, b: real, c: real, d: real)
    ensures Times(k, a) + Times(k, b) + Times(k, c) - Times(k, d) == Times(k, a + b + c - d)
    ensures Times(k, 0.0) == 0.0
  {
  }

  lemma TimesSign(k: real, x: real)
    requires k > 0.0
    ensures Times(k, x) > 0.0 <==> x > 0.0
    ensures Times(k, x) == 0.0 <==> x == 0.0
  {
  }

  lemma FeeScales(k: real, size: real, fee: real)
    ensures Fee(Times(k, size), fee) == Times(k, Fee(size, fee))
  {
    TimesProduct(k, size, fee);
    MulDiv(k, size * fee, 10000.0);
  }

  lemma ScaleCurveAppends(k: real, c: seq<real>, x: real)
    ensures ScaleCurve(k, c + [x]) == ScaleCurve(k, c) + [Times(k, x)]
  {
    forall i | 0 <= i < |c| + 1 ensures ScaleCurve(k, c + [x])[i] == (ScaleCurve(k, c) + [Times(k, x)])[i] {
      if i < |c| { assert (c + [x])[i] == c[i]; }
    }
  }

  lemma ScaleTradesAppends(k: real, ts: seq<Trade>, t: Trade)
    ensures ScaleTrades(k, ts + [t]) == ScaleTrades(k, ts) + [ScaleTrade(k, t)]
  {
    forall i | 0 <= i < |ts| + 1 ensures ScaleTrades(k, ts + [t])[i] == (ScaleTrades(k, ts) + [ScaleTrade(k, t)])[i] {
      if i < |ts| { assert (ts + [t])[i] == ts[i]; }
    }
  }

  lemma PositionScales(k: real, p: Position, price: real)
    ensures PnlUsdt(ScalePosition(k, Some(p)).value, price) == Times(k, PnlUsdt(p, price))
    ensures Value(ScalePosition(k, Some(p)).value, price) == Times(k, Value(p, price))
  {
    var f := PnlFrac(p.side, p.entry, price);
    TimesProduct(k, p.sizeUsdt, f);
    TimesProduct(k, p.sizeUsdt, 1.0 + f);
  }

  lemma CloseTradeScales(k: real, p: Position, exit: real, reason: Reason)
    ensures CloseTrade(ScalePosition(k, Some(p)).value, exit, reason) == ScaleTrade(k, CloseTrade(p, exit, reason))
  {
    PositionScales(k, p, exit);
  }

  lemma CloseScales(k: real, b: Book, p: Position, exit: real, fee: real, reason: Reason)
    requires b.position == Some(p)
    ensures CloseBook(Scale(k, b), ScalePosition(k, b.position).value, exit, fee, reason)
         == Scale(k, CloseBook(b, p, exit, fee, reason))
  {
    var t := CloseTrade(p, exit, reason);
    CloseTradeScales(k, p, exit, reason);
    ScaleTradesAppends(k, b.trades, t);
    FeeScales(k, p.sizeUsdt, fee);
    TimesSum(k, b.cash, p.sizeUsdt, t.pnlUsdt, Fee(p.sizeUsdt, fee));
  }

  lemma MtmScales(k: real, position: Option<Position>, cash: real, price: real)
    ensures Mtm(ScalePosition(k, position), Times(k, cash), price) == Times(k, Mtm(position, cash, price))
  {
    if position.Some? {
      PositionScales(k, position.value, price);
      TimesSum(k, cash, Value(position.value, price), 0.0, 0.0);
    }
  }

  lemma CashAfterOpenScales(k: real, cash: real, size: real, fee: real)
    ensures CashAfterOpen(Times(k, cash), Times(k, size), fee) == Times(k, CashAfterOpen(cash, size, fee))
  {
    FeeScales(k, size, fee);
    TimesSum(k, cash, 0.0, 0.0, size + Fee(size, fee));
    TimesSum(k, size, Fee(size, fee), 0.0, 0.0);
  }

  lemma StakeScales(k: real, cash: real, frac: real)
    ensures Stake(Times(k, cash), frac) == Times(k, Stake(cash, frac))
  {
    TimesProduct(k, cash, frac);
  }

  lemma BookOpenedScales(k: real, b: Book, p: Position, fee: real)
    ensures Opened(Scale(k, b), ScalePosition(k, Some(p)).value, fee) == Scale(k, Opened(b, p, fee))
  {
    CashAfterOpenScales(k, b.cash, p.sizeUsdt, fee);
  }

  lemma OpenScales(k: real, b: Book, side: Side, a: Answer, price: Price, fee: real)
    requires k > 0.0
    ensures OpenBook(Scale(k, b), side, a, price, fee) == Scale(k, OpenBook(b, side, a, price, fee))
  {
    StakeScales(k, b.cash, SizeFrac(a));
    TimesSign(k, b.cash);
    if a.Signal? {
      BookOpenedScales(k, b, Requested(b.cash, side, a, price), fee);
    }
  }

  lemma ActionScales(k: real, b: Book, a: Answer, price: Price, fee: real)
    requires k > 0.0
    ensures AfterAction(Scale(k, b), a, price, fee) == Scale(k, AfterAction(b, a, price, fee))
  {
    OpenScales(k, b, Long, a, price, fee);
    OpenScales(k, b, Short, a, price, fee);
    if b.position.Some? {
      CloseScales(k, b, b.position.value, price, fee, SignalClose);
    }
  }

  lemma StopsScale(k: real, b: Book, c: Candle, fee: real)
    ensures AfterStops(Scale(k, b), c, fee) == Scale(k, AfterStops(b, c, fee))
  {
    if b.position.Some? && Hit(b.position.value, c.high, c.low).Some? {
      var hit := Hit(b.position.value, c.high, c.low).value;
      CloseScales(k, b, b.position.value, hit.0, fee, hit.1);
    }
  }

  lemma MarkScales(k: real, b: Book, price: real)
    ensures Mark(Scale(k, b), price) == Scale(k, Mark(b, price))
  {
    MtmScales(k, b.position, b.cash, price);
    ScaleCurveAppends(k, b.curve, Mtm(b.position, b.cash, price));
  }

  lemma AnswerScales(k: real, tick: Strategy, fee: real, candles: seq<Candle>, i: nat, b: Book)
    requires SizeBlind(tick) && i < |candles|
    ensures Asked(fee, candles, i, Scale(k, b)) == Scale(k, Asked(fee, candles, i, b))
    ensures AnswerAt(tick, fee, candles, i, Scale(k, b)) == AnswerAt(tick, fee, candles, i, b)
  {
    StopsScale(k, b, candles[i], fee);
    var w, asked := Window(candles, i), Asked(fee, candles, i, b);
    if asked.position.Some? {
      var p := asked.position.value;
      var q := ScalePosition(k, asked.position).value;
      assert q == p.(sizeUsdt := q.sizeUsdt);
      assert tick(w, Some(q)) == tick(w, Some(p));
    }
  }

  lemma StepScales(k: real, tick: Strategy, fee: real, candles: seq<Candle>, i: nat, b: Book)
    requires k > 0.0 && SizeBlind(tick) && i < |candles|
    ensures Step(tick, fee, candles, i, Scale(k, b)) == Scale(k, Step(tick, fee, candles, i, b))
  {
    var close, asked, a := candles[i].close, Asked(fee, candles, i, b), AnswerAt(tick, fee, candles, i, b);
    AnswerScales(k, tick, fee, candles, i, b);
    ActionScales(k, asked, a, close, fee);
    MarkScales(k, AfterAction(asked, a, close, fee), close);
  }

  lemma LoopStartScales(k: real, tick: Strategy, fee: real, initial: real, candles: seq<Candle>)
    ensures Loop(tick, fee, Times(k, initial), candles, WARMUP) == Scale(k, Loop(tick, fee, initial, candles, WARMUP))
  {
    ScaleCurveAppends(k, [], initial);
    assert [] + [initial] == [initial];
  }

  lemma {:induction false} LoopScales(k: real, tick: Strategy, fee: real, initial: real, candles: seq<Candle>, i: nat)
    requires k > 0.0 && SizeBlind(tick)
    requires WARMUP <= i && (i == WARMUP || i <= |candles|)
    ensures Loop(tick, fee, Times(k, initial), candles, i) == Scale(k, Loop(tick, fee, initial, candles, i))
    decreases i
  {
    if i == WARMUP {
      LoopStartScales(k, tick, fee, initial, candles);
    } else {
      var b := Loop(tick, fee, initial, candles, i - 1);
      calc {
        Loop(tick, fee, Times(k, initial), candles, i);
        Step(tick, fee, candles, i - 1, Loop(tick, fee, Times(k, initial), candles, i - 1));
        { LoopScales(k, tick, fee, initial, candles, i - 1); }
        Step(tick, fee, candles, i - 1, Scale(k, b));
        { StepScales(k, tick, fee, candles, i - 1, b); }
        Scale(k, Step(tick, fee, candles, i - 1, b));
        Scale(k, Loop(tick, fee, initial, candles, i));
      }
    }
  }

  /** With k times the money it breaks off at the same candles. */
  lemma BreaksScale(k: real, tick: Strategy, fee: real, initial: real, candles: seq<Candle>, i: nat)
    requires k > 0.0 && SizeBlind(tick) && WARMUP <= i < |candles|
    ensures BreaksAt(tick, fee, Times(k, initial), candles, i) <==> BreaksAt(tick, fee, initial, candles, i)
  {
    var b := Loop(tick, fee, initial, candles, i);
    LoopScales(k, tick, fee, initial, candles, i);
    AnswerScales(k, tick, fee, candles, i, b);
    TimesSign(k, Asked(fee, candles, i, b).cash);
  }

  lemma FinishScales(k: real, b: Book, last: Price, fee: real)
    requires b.curve != []
    ensures Finish(Scale(k, b), last, fee) == Scale(k, Finish(b, last, fee))
  {
    if b.position.Some? {
      CloseScales(k, b, b.position.value, last, fee, ForceClose);
      var b1 := CloseBook(b, b.position.value, last, fee, ForceClose);
      var l, r := Finish(Scale(k, b), last, fee), Finish(b, last, fee);
      assert l.cash == Times(k, b1.cash) && r.cash == b1.cash;
      forall i | 0 <= i < |b.curve| ensures l.curve[i] == ScaleCurve(k, r.curve)[i] {
      }
      assert l.curve == ScaleCurve(k, r.curve);
      assert l.trades == ScaleTrades(k, r.trades);
    }
  }

  /** Scale invariance: with k times the money a size-blind strategy makes the same trades k times as large,
      and the whole equity curve is k times as high. */
  lemma ReplayScales(k: real, tick: Strategy, fee: real, initial: real, candles: seq<Candle>)
    requires k > 0.0 && SizeBlind(tick)
    ensures Replay(tick, fee, Times(k, initial), candles) == Scale(k, Replay(tick, fee, initial, candles))
  {
    var n := |candles|;
    if n <= WARMUP {
      LoopScales(k, tick, fee, initial, candles, WARMUP);
    } else {
      LoopScales(k, tick, fee, initial, candles, n);
      LoopCurveLength(tick, fee, initial, candles, n);
      FinishScales(k, Loop(tick, fee, initial, candles, n), candles[n - 1].close, fee);
    }
  }

  lemma {:induction false} PeakScales(k: real, c: seq<real>, j: nat)
    requires k > 0.0 && j < |c|
    ensures PeakAt(ScaleCurve(k, c), j) == Times(k, PeakAt(c, j))
  {
    if j > 0 {
      PeakScales(k, c, j - 1);
      var old', v := PeakAt(c, j - 1), c[j];
      assert ScaleCurve(k, c)[j] == Times(k, v);
      if v > old' { TimesMonoStrict(old', v, k); } else { TimesMono(v, old', k); }
    }
  }

  lemma QuotientScales(k: real, a: real, b: real)
    requires k > 0.0 && b != 0.0
    ensures Times(k, b) != 0.0 && (Times(k, b) - Times(k, a)) / Times(k, b) == (b - a) / b
    ensures (Times(k, a) - Times(k, b)) / Times(k, b) == (a - b) / b
  {
    TimesSign(k, b);
    TimesSum(k, b, 0.0, 0.0, a);
    TimesSum(k, a, 0.0, 0.0, b);
    DivScale(k, b - a, b);
    DivScale(k, a - b, b);
  }

  lemma DrawdownScales(k: real, c: seq<real>, j: nat)
    requires k > 0.0 && j < |c|
    ensures DrawdownAt(ScaleCurve(k, c), j) == DrawdownAt(c, j)
  {
    PeakScales(k, c, j);
    TimesSign(k, PeakAt(c, j));
    if PeakAt(c, j) > 0.0 {
      QuotientScales(k, c[j], PeakAt(c, j));
    }
  }

  lemma StepReturnScales(k: real, prev: real, next: real)
    requires k > 0.0
    ensures StepReturn(Times(k, prev), Times(k, next)) == StepReturn(prev, next)
  {
    TimesSign(k, prev);
    if prev != 0.0 {
      QuotientScales(k, next, prev);
    }
  }

  lemma {:induction false} WinsScale(k: real, ts: seq<Trade>)
    requires k > 0.0
    ensures Wins(Pnls(ScaleTrades(k, ts))) == Wins(Pnls(ts))
  {
    if ts != [] {
      var last := |ts| - 1;
      WinsScale(k, ts[..last]);
      assert Pnls(ts)[..last] == Pnls(ts[..last]);
      assert Pnls(ScaleTrades(k, ts))[..last] == Pnls(ScaleTrades(k, ts[..last]));
      TimesSign(k, ts[last].pnlUsdt);
    }
  }

  lemma CurveFiguresScale(k: real, c: seq<real>, initial: real, d: real)
    requires k > 0.0 && c != []
    ensures IsMaxDrawdown(c, d) <==> IsMaxDrawdown(ScaleCurve(k, c), d)
    ensures TotalReturn(ScaleCurve(k, c), Times(k, initial)) == TotalReturn(c, initial)
    ensures forall j :: 0 <= j < |c| - 1 ==>
              StepReturn(ScaleCurve(k, c)[j], ScaleCurve(k, c)[j + 1]) == StepReturn(c[j], c[j + 1])
  {
    forall i | 0 <= i < |c| ensures DrawdownAt(ScaleCurve(k, c), i) == DrawdownAt(c, i) {
      DrawdownScales(k, c, i);
    }
    StepReturnScales(k, initial, Last(c));
    forall j | 0 <= j < |c| - 1
      ensures StepReturn(ScaleCurve(k, c)[j], ScaleCurve(k, c)[j + 1]) == StepReturn(c[j], c[j + 1])
    {
      StepReturnScales(k, c[j], c[j + 1]);
    }
  }

  /** ... so every figure reported about it is unchanged: drawdown, total return, win rate, and each step return. */
  lemma FiguresAreScaleFree(k: real, tick: Strategy, fee: real, initial: real, candles: seq<Candle>, d: real)
    requires k > 0.0 && SizeBlind(tick)
    ensures var b := Replay(tick, fee, initial, candles);
            var b' := Replay(tick, fee, k * initial, candles);
            && (IsMaxDrawdown(b.curve, d) <==> IsMaxDrawdown(b'.curve, d))
            && TotalReturn(b'.curve, k * initial) == TotalReturn(b.curve, initial)
            && WinRate(Pnls(b'.trades)) == WinRate(Pnls(b.trades))
            && |b'.trades| == |b.trades| && |b'.curve| == |b.curve|
            && forall j :: 0 <= j < |b.curve| - 1 ==>
                 StepReturn(b'.curve[j], b'.curve[j + 1]) == StepReturn(b.curve[j], b.curve[j + 1])
  {
    var b := Replay(tick, fee, initial, candles);
    ReplayScales(k, tick, fee, initial, candles);
    CurveFiguresScale(k, b.curve, initial, d);
    WinsScale(k, b.trades);
    assert Times(k, initial) == k * initial;
  }
}
