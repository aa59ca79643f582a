/** What the tick loop keeps over whole sessions. */
module TradingLaws {
  import opened Options
  import opened RealLemmas
  import opened PaperTrading
  import opened Trading

  // ------------------------------------------------------------------ runs

  /** A session is starts, ticks, hot reloads of the configuration, and stops, which close the position silently or
      keep it for the next start. */
  datatype Event =
    | Start(cfg: Config, maxLossPct: real, price: Option<Price>)
    | Tick(input: TickInput)
    | Reload(cfg: Config, tpChanged: bool, slChanged: bool)
    | Stop(closes: bool)

  /** The visible and the silent openings and closings. */
  datatype Act = Opened | Closed | ClosedSilently

  function ActOf(r: Report): Act {
    if r.OpenReport? then Opened else Closed
  }

  /** `/config` copies changed percentages into an open position. */
  function Reconfigured(p: Position, cfg: Config, tpChanged: bool, slChanged: bool): Position {
    if p.Flat? then p
    else p.(tpPct := if tpChanged then cfg.tpPct else p.tpPct, slPct := if slChanged then cfg.slPct else p.slPct)
  }

  /** A running engine refuses to start, and one that does not run does nothing else. */
  function Next(s: State, e: Event): (State, seq<Report>) {
    if s.running == e.Start? then (s, []) else
    match e
    case Start(cfg, maxLoss, price) => (Started(s, cfg, maxLoss, price), [])
    case Tick(i) => TickStep(s, i)
    case Reload(cfg, tp, sl) => (s.(cfg := cfg, position := Reconfigured(s.position, cfg, tp, sl)), [])
    case Stop(closes) => (s.(running := false, position := if closes then Flat else s.position), [])
  }

  function Acts(s: State, e: Event): seq<Act> {
    if e.Stop? then (if s.running && e.closes && s.position.Open? then [ClosedSilently] else [])
    else
      var reports := Next(s, e).1;
      seq(|reports|, i requires 0 <= i < |reports| => ActOf(reports[i]))
  }

  function Run(s: State, es: seq<Event>): State {
    if es == [] then s else Next(Run(s, es[..|es| - 1]), es[|es| - 1]).0
  }

  function Log(s: State, es: seq<Event>): seq<Act> {
    if es == [] then [] else Log(s, es[..|es| - 1]) + Acts(Run(s, es[..|es| - 1]), es[|es| - 1])
  }

  // ------------------------------------------------------------------ alternation

  /** Reading a log with a position open or not: `None` as soon as it opens twice or closes nothing. */
  function OpenAfter(open0: bool, log: seq<Act>): Option<bool> {
    if log == [] then Some(open0)
    else
      match OpenAfter(open0, log[..|log| - 1])
      case None => None
      case Some(o) => if log[|log| - 1].Opened? == o then None else Some(!o)
  }

  lemma EventAlternates(s: State, e: Event)
    ensures |Acts(s, e)| <= 1
    ensures Acts(s, e) == [] ==> Next(s, e).0.position.Open? == s.position.Open?
    ensures |Acts(s, e)| == 1 ==>
              Acts(s, e)[0].Opened? == s.position.Flat? && Next(s, e).0.position.Open? != s.position.Open?
  {
    if e.Tick? && e.input.price.Some? {
      TickAlternates(s, e.input, e.input.price.value);
    }
  }

  lemma TickAlternates(s: State, i: TickInput, price: Price)
    requires i.price == Some(price)
    ensures var (s', reports) := TickStep(s, i);
            && |reports| <= 1
            && (reports == [] ==> s'.position.Open? == s.position.Open?)
            && (|reports| == 1 ==> reports[0].OpenReport? == s.position.Flat? && s'.position.Open? != s.position.Open?)
  {
  }

  lemma OpenAfterOne(open0: bool, log: seq<Act>, act: Act)
    requires OpenAfter(open0, log) == Some(!act.Opened?)
    ensures OpenAfter(open0, log + [act]) == Some(act.Opened?)
  {
    assert (log + [act])[..|log|] == log;
  }

  lemma OpenAfterEvent(open0: bool, log: seq<Act>, s: State, e: Event)
    requires OpenAfter(open0, log) == Some(s.position.Open?)
    ensures OpenAfter(open0, log + Acts(s, e)) == Some(Next(s, e).0.position.Open?)
  {
    EventAlternates(s, e);
    var acts := Acts(s, e);
    if acts == [] {
      assert log + acts == log;
    } else {
      assert acts == [acts[0]];
      OpenAfterOne(open0, log, acts[0]);
    }
  }

  /** Executed actions strictly alternate between opening and closing, in every session; a silent close by
      `stop` is the only one the reports miss. */
  lemma {:induction false} ActionsAlternate(s: State, es: seq<Event>)
    ensures OpenAfter(s.position.Open?, Log(s, es)) == Some(Run(s, es).position.Open?)
  {
    if es != [] {
      var front, last := es[..|es| - 1], es[|es| - 1];
      ActionsAlternate(s, front);
      OpenAfterEvent(s.position.Open?, Log(s, front), Run(s, front), last);
    }
  }

  // ------------------------------------------------------------------ the loss bound of fixed mode

  /** Fixed mode with a constant positive stop percentage and orders of positive size. */
  predicate FixedStop(cfg: Config, sl: real) {
    !cfg.dynamic && cfg.slPct == Some(sl) && sl > 0.0 && cfg.amount > 0.0 && cfg.leverage > 0
  }

  predicate Guarded(p: Position, sl: real) {
    p.Open? ==> p.slPct == Some(sl) && p.tpPrice.None? && p.slPrice.None? && p.size > 0.0 && p.leverage > 0
  }

  /** A position that is still open has not lost its stop percentage at the price last fetched. */
  predicate AboveStop(s: State, sl: real) {
    s.position.Open? ==> s.lastPrice.Some? && PnlPct(s.position.side, s.position.entry, s.lastPrice.value) > -sl
  }

  /** What holds of an engine while it runs; between sessions only the position itself matters. */
  predicate Safe(s: State, sl: real) {
    && sl > 0.0 && Guarded(s.position, sl)
    && (s.running ==> FixedStop(s.cfg, sl) && AboveStop(s, sl))
  }

  /** The event leaves a running engine its stop percentage, and does not start one below the stop of a position
      kept from before. */
  predicate KeepsStop(s: State, e: Event, sl: real) {
    var s' := Next(s, e).0;
    && (s'.running ==> FixedStop(s'.cfg, sl))
    && (s'.running && !s.running && s.position.Open? ==>
          PnlPct(s.position.side, s.position.entry, e.price.value) > -sl)
  }

  predicate KeepStop(s: State, es: seq<Event>, sl: real) {
    forall k :: 0 <= k < |es| ==> KeepsStop(Run(s, es[..k]), es[k], sl)
  }

  lemma QuietIsAboveStop(p: Position, sl: real, price: real)
    requires p.Open? && Guarded(p, sl) && sl > 0.0
    requires CheckTpSl(p, price) == Quiet
    ensures PnlPct(p.side, p.entry, price) > -sl
  {
    assert Notional(p.size, p.leverage) != 0.0;
    PctIsPriceMove(p, price);
  }

  lemma FreshPositionIsFlat(side: Side, price: Price)
    ensures PnlPct(side, price, price) == 0.0
  {
    QuotientIs(0.0, price, 0.0);
  }

  lemma TickKeepsSafe(s: State, i: TickInput, sl: real)
    requires Safe(s, sl) && s.running
    ensures Safe(TickStep(s, i).0, sl)
  {
    if i.price.Some? {
      var price := i.price.value;
      FreshPositionIsFlat(Long, price);
      FreshPositionIsFlat(Short, price);
      if s.position.Open? && CheckTpSl(s.position, price) == Quiet {
        QuietIsAboveStop(s.position, sl, price);
      }
      if s.position.Open? {
        assert Notional(s.position.size, s.position.leverage) != 0.0;
        assert CheckTpSl(s.position, price) != DividesByZero;
      }
    }
  }

  lemma EventKeepsSafe(s: State, e: Event, sl: real)
    requires Safe(s, sl) && KeepsStop(s, e, sl)
    ensures Safe(Next(s, e).0, sl)
  {
    if e.Tick? && s.running {
      TickKeepsSafe(s, e.input, sl);
    }
  }

  lemma FrontKeepsStop(s: State, es: seq<Event>, sl: real)
    requires es != [] && KeepStop(s, es, sl)
    ensures KeepStop(s, es[..|es| - 1], sl) && KeepsStop(Run(s, es[..|es| - 1]), es[|es| - 1], sl)
  {
    var front := es[..|es| - 1];
    forall k | 0 <= k < |front| ensures KeepsStop(Run(s, front[..k]), front[k], sl) {
      assert front[..k] == es[..k];
    }
  }

  /** A session that leaves the stop alone stays safe. */
  lemma {:induction false} RunKeepsSafe(s: State, es: seq<Event>, sl: real)
    requires Safe(s, sl) && KeepStop(s, es, sl)
    ensures Safe(Run(s, es), sl)
  {
    if es != [] {
      FrontKeepsStop(s, es, sl);
      RunKeepsSafe(s, es[..|es| - 1], sl);
      EventKeepsSafe(Run(s, es[..|es| - 1]), es[|es| - 1], sl);
    }
  }

  /** The fetched price moved by at most the fraction g of the open position's entry. */
  predicate GapWithin(s: State, price: Price, g: real) {
    s.position.Open? && s.lastPrice.Some? ==>
      -(g * s.position.entry) <= price - s.lastPrice.value <= g * s.position.entry
  }

  lemma GapCostsAtMost(side: Side, entry: Price, p: real, q: real, g: real)
    requires -(g * entry) <= q - p <= g * entry
    ensures PnlPct(side, entry, q) >= PnlPct(side, entry, p) - g
  {
    if side.Long? {
      DivSub(q - entry, p - entry, entry);
      DivMono(-(g * entry), q - p, entry);
      QuotientIs(-(g * entry), entry, -g);
    } else {
      DivSub(entry - q, entry - p, entry);
      DivMono(-(g * entry), p - q, entry);
      QuotientIs(-(g * entry), entry, -g);
    }
  }

  /** Whatever ends it, stop, supervisor or signal, the report of a close carries the pnl at this tick's price. */
  lemma CloseReportsPnl(s: State, i: TickInput)
    ensures forall r :: r in TickStep(s, i).1 && r.CloseReport? ==>
              && i.price.Some? && s.position.Open? && r.exit == i.price.value
              && r.side == s.position.side && r.entry == s.position.entry
              && r.size == s.position.size && r.leverage == s.position.leverage
              && r.pnl == PnlUsdt(PnlPct(r.side, r.entry, r.exit), r.size, r.leverage)
  {
  }

  lemma NotionalLoss(f: real, bound: real, size: real, leverage: int)
    requires f > bound && size > 0.0 && leverage > 0
    ensures PnlUsdt(f, size, leverage) > bound * Notional(size, leverage)
  {
    var n := Notional(size, leverage);
    assert n > 0.0;
    MulMonoStrict(bound, f, n);
    assert f * size * leverage as real == f * n;
  }

  lemma LossStep(t: State, i: TickInput, sl: real, g: real, r: Report)
    requires Safe(t, sl) && t.running && i.price.Some? && GapWithin(t, i.price.value, g)
    requires r in TickStep(t, i).1 && r.CloseReport?
    ensures r.pnl > -(sl + g) * Notional(r.size, r.leverage)
  {
    CloseReportsPnl(t, i);
    GapCostsAtMost(r.side, r.entry, t.lastPrice.value, r.exit, g);
    NotionalLoss(PnlPct(r.side, r.entry, r.exit), -(sl + g), r.size, r.leverage);
  }

  /** Loss bound.  In any session in fixed mode with a constant stop of sl, a close made by the loop at a price
      within g of the last one loses less than sl + g of the notional. */
  lemma LossIsBounded(s: State, es: seq<Event>, i: TickInput, sl: real, g: real, r: Report)
    requires Safe(s, sl) && KeepStop(s, es, sl)
    requires i.price.Some? && GapWithin(Run(s, es), i.price.value, g)
    requires r in Next(Run(s, es), Tick(i)).1 && r.CloseReport?
    ensures r.pnl > -(sl + g) * Notional(r.size, r.leverage)
  {
    RunKeepsSafe(s, es, sl);
    LossStep(Run(s, es), i, sl, g, r);
  }

  lemma AtStopFires(p: Position, sl: real, price: real)
    requires p.Open? && Guarded(p, sl) && sl > 0.0 && PnlPct(p.side, p.entry, price) <= -sl
    ensures CheckTpSl(p, price) == SlHit || CheckTpSl(p, price) == TpHit
    ensures UnrealizedPnl(p, price) <= -sl * Notional(p.size, p.leverage)
  {
    assert Notional(p.size, p.leverage) > 0.0;
    PctIsPriceMove(p, price);
    var f, n := PnlPct(p.side, p.entry, price), Notional(p.size, p.leverage);
    MulMono(f, -sl, n);
    assert f * p.size * p.leverage as real == f * n;
  }

  /** The session starts at a price, and its first tick, at the very same price, closes the kept position with a
      loss of sl or more. */
  ghost predicate StartsIntoLoss(s: State, start: Event, i: TickInput, sl: real) {
    exists r :: r in Next(Next(s, start).0, Tick(i)).1 && r.CloseReport? && r.pnl <= -sl * Notional(r.size, r.leverage)
  }

  /** The condition on starts is the one needed: a position kept over a stop is closed at the price of the next
      start with a loss of sl or more, although the price has not moved since, exactly if that price is not above
      its stop. */
  lemma StartsIntoLossIff(s: State, cfg: Config, maxLoss: real, price: Price, i: TickInput, sl: real)
    requires Safe(s, sl) && !s.running && s.position.Open? && i.price == Some(price)
    ensures GapWithin(Next(s, Start(cfg, maxLoss, Some(price))).0, price, 0.0)
    ensures StartsIntoLoss(s, Start(cfg, maxLoss, Some(price)), i, sl)
       <==> PnlPct(s.position.side, s.position.entry, price) <= -sl
  {
    var p, start := s.position, Start(cfg, maxLoss, Some(price));
    var s1 := Next(s, start).0;
    CloseReportsPnl(s1, i);
    if PnlPct(p.side, p.entry, price) <= -sl {
      AtStopFires(p, sl, price);
      assert Next(s1, Tick(i)).1 == [CloseReport(p.side, p.entry, p.size, p.leverage, price, UnrealizedPnl(p, price))];
      assert CloseReport(p.side, p.entry, p.size, p.leverage, price, UnrealizedPnl(p, price)) in Next(s1, Tick(i)).1;
    } else {
      NotionalLoss(PnlPct(p.side, p.entry, price), -sl, p.size, p.leverage);
    }
  }

  // ------------------------------------------------------------------ dynamic levels

  lemma DistanceIsPositive(entry: real, atr: Option<real>, atrMult: real)
    requires entry > 0.0 && atrMult > 0.0
    ensures StopDistance(entry, atr, atrMult) > 0.0
  {
  }

  /** Dynamic levels always bracket the entry, with a reward of exactly rrRatio times the risk. */
  lemma DynamicLevelsBracketEntry(entry: real, text: string, atr: Option<real>, atrMult: real, rrRatio: real)
    requires entry > 0.0 && atrMult > 0.0 && rrRatio > 0.0
    ensures var (tp, sl) := DynamicLevels(entry, text, atr, atrMult, rrRatio);
            && (tp < entry < sl || sl < entry < tp)
            && Abs(tp - entry) == rrRatio * Abs(entry - sl)
            && Abs(entry - sl) == if atr.Some? && atr.value > 0.0 then atrMult * atr.value else 0.03 * entry
  {
    DistanceIsPositive(entry, atr, atrMult);
    var dist := StopDistance(entry, atr, atrMult);
    MulMonoStrict(0.0, dist, rrRatio);
  }

  /** The levels lie on the sides the position needs: profit above a long's entry, below a short's. */
  predicate Oriented(side: Side, entry: real, tp: real, sl: real) {
    if side.Long? then sl < entry < tp else tp < entry < sl
  }

  /** They do exactly when the side argument spells "long" for longs and only for them. */
  lemma OrientedIff(entry: real, side: Side, text: string, atr: Option<real>, atrMult: real, rrRatio: real)
    requires entry > 0.0 && atrMult > 0.0 && rrRatio > 0.0
    ensures var (tp, sl) := DynamicLevels(entry, text, atr, atrMult, rrRatio);
            Oriented(side, entry, tp, sl) <==> (Lower(text) == "long" <==> side.Long?)
  {
    DistanceIsPositive(entry, atr, atrMult);
    MulMonoStrict(0.0, StopDistance(entry, atr, atrMult), rrRatio);
  }

  /** The engine passes the enumeration member, whose text never spells "long": so its levels are right for
      shorts and upside down for longs. */
  lemma EngineLevelsOrientedIff(entry: Price, side: Side, atr: Option<real>)
    ensures var (tp, sl) := EngineLevels(entry, side, atr);
            && (Oriented(side, entry, tp, sl) <==> side.Short?)
            && Abs(entry - sl) == (if atr.Some? && atr.value > 0.0 then 2.0 * atr.value else 0.03 * entry)
            && Abs(tp - entry) == 2.0 * Abs(entry - sl)
  {
    DynamicLevelsBracketEntry(entry, SideText(side), atr, 2.0, 2.0);
    OrientedIff(entry, side, SideText(side), atr, 2.0, 2.0);
    assert |Lower(SideText(side))| > 4;
  }

  /** Upside-down levels overlap, so a dynamic long "takes profit" or "stops" at whatever price comes next. */
  lemma DynamicLongAlwaysTriggers(cfg: Config, price: Price, atr: Option<real>, next: real)
    requires cfg.dynamic
    ensures CheckTpSl(NewPosition(cfg, Long, price, atr), next) != Quiet
    ensures next >= EngineLevels(price, Long, atr).0 ==> CheckTpSl(NewPosition(cfg, Long, price, atr), next) == TpHit
  {
    EngineLevelsOrientedIff(price, Long, atr);
    DynamicLevelsBracketEntry(price, SideText(Long), atr, 2.0, 2.0);
  }

  /** In dynamic mode a long therefore never survives the next fetched price, even one above its entry. */
  lemma DynamicLongLivesOneTick(s: State, i: TickInput, j: TickInput)
    requires s.cfg.dynamic && i.price.Some? && j.price.Some?
    requires TickStep(s, i).0.position.Open? && TickStep(s, i).0.position.side.Long? && s.position.Flat?
    ensures var s1 := TickStep(s, i).0;
            TickStep(s1, j).0.position == Flat && |TickStep(s1, j).1| == 1 && TickStep(s1, j).1[0].CloseReport?
  {
    var price := i.price.value;
    assert TickStep(s, i).0.position == NewPosition(s.cfg, Long, price, i.atr);
    DynamicLongAlwaysTriggers(s.cfg, price, i.atr, j.price.value);
  }
}
