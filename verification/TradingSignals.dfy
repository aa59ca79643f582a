/** When a tick opens a position, on which side, and when it closes one. */
module TradingSignals {
  import opened Options
  import opened RealLemmas
  import opened PaperTrading
  import opened Trading
  import opened TradingLaws

  // ------------------------------------------------------------------ opening

  /** The tick reported an open on this side, and nothing else. */
  predicate Opens(reports: seq<Report>, side: Side) {
    |reports| == 1 && reports[0].OpenReport? && reports[0].side == side
  }

  /** The position is the one the configuration asks for: levels as prices only in dynamic mode. */
  predicate IsOrdered(p: Position, cfg: Config, side: Side, price: Price) {
    && p.Open? && p.side == side && p.entry == price && p.size == cfg.amount && p.leverage == cfg.leverage
    && p.tpPct == cfg.tpPct && p.slPct == cfg.slPct
    && (p.tpPrice.Some? <==> cfg.dynamic) && (p.slPrice.Some? <==> cfg.dynamic)
  }

  /** A flat engine with a price goes long exactly on a signal above its threshold, and short exactly on one below
      the negated threshold; what it reports is what it holds. */
  lemma OpensOnSignal(s: State, i: TickInput)
    requires s.position.Flat? && i.price.Some?
    ensures var (s', reports) := TickStep(s, i);
            && (Opens(reports, Long) <==> i.signal.Some? && i.signal.value > s.cfg.threshold)
            && (Opens(reports, Short) <==> i.signal.Some? && i.signal.value <= s.cfg.threshold
                                           && i.signal.value < -s.cfg.threshold)
            && (s'.position.Flat? <==> reports == []) && |reports| <= 1
            && (reports != [] ==>
                  var r := reports[0];
                  && r == OpenReport(r.side, i.price.value, s.cfg.amount, s.cfg.leverage)
                  && IsOrdered(s'.position, s.cfg, r.side, i.price.value))
  {
  }

  /** The first position after a start has the stop of the start, or the loss limit of its plan if it named none. */
  lemma FirstOpenUsesPlan(s: State, cfg: Config, maxLoss: real, price: Price, i: TickInput)
    requires !s.running && s.position.Flat? && i.price.Some?
    ensures var s1 := Next(s, Start(cfg, maxLoss, Some(price))).0;
            var s2 := Next(s1, Tick(i)).0;
            && s1.running
            && (s2.position.Open? <==>
                  i.signal.Some? && (i.signal.value > cfg.threshold || i.signal.value < -cfg.threshold))
            && (s2.position.Open? ==>
                  && s2.position.size == cfg.amount && s2.position.tpPct == cfg.tpPct
                  && s2.position.slPct == Some(if cfg.slPct.Some? then cfg.slPct.value else maxLoss))
  {
    OpensOnSignal(Next(s, Start(cfg, maxLoss, Some(price))).0, i);
  }

  // ------------------------------------------------------------------ closing

  /** The signal passes the threshold against the side. */
  predicate Against(side: Side, signal: Option<real>, threshold: real) {
    signal.Some? && if side.Long? then signal.value < -threshold else signal.value > threshold
  }

  /** The supervisor is asked in this tick. */
  predicate Supervised(s: State, i: TickInput) {
    && i.price.Some? && CheckTpSl(s.position, i.price.value) == Quiet
    && (s.lastSupervisor == 0.0 || i.now >= s.lastSupervisor + s.cfg.supervisorInterval)
  }

  predicate StopFires(check: Check) {
    check == TpHit || check == SlHit
  }

  /** An open position is closed exactly by one of three: its stops, a supervisor that is due and says so, or a
      signal against its side that the supervisor did not keep from being computed. */
  lemma ClosesIff(s: State, i: TickInput)
    requires s.position.Open? && i.price.Some?
    ensures var (s', reports) := TickStep(s, i);
            var check := CheckTpSl(s.position, i.price.value);
            && (s'.position.Flat? <==>
                  || StopFires(check)
                  || (Supervised(s, i) && i.supervisor == CloseIt)
                  || (check == Quiet && !(Supervised(s, i) && i.supervisor == SupervisorRaises)
                      && Against(s.position.side, i.signal, s.cfg.threshold)))
            && (reports == [] <==> s'.position.Open?)
  {
  }

  /** Held, it is left alone, but that a supervisor may move its levels in dynamic mode; and the supervisor's
      clock restarts exactly when it is asked. */
  lemma HeldIsUntouched(s: State, i: TickInput)
    requires s.position.Open? && i.price.Some? && TickStep(s, i).0.position.Open?
    ensures var p, p' := s.position, TickStep(s, i).0.position;
            && p' == p.(tpPrice := p'.tpPrice, slPrice := p'.slPrice)
            && if s.cfg.dynamic && Supervised(s, i) && i.supervisor == Adjust then
                 var (tp, sl) := EngineLevels(p.entry, p.side, i.atr);
                 p'.tpPrice == Some(tp) && p'.slPrice == Some(sl)
               else p' == p
    ensures TickStep(s, i).0 == s.(position := TickStep(s, i).0.position, lastPrice := i.price,
                                   lastSupervisor := if Supervised(s, i) then i.now else s.lastSupervisor)
  {
  }

  // ------------------------------------------------------------------ long and short are mirror images

  function Opposite(side: Side): Side {
    if side.Long? then Short else Long
  }

  function Mirrored(p: Position): Position {
    if p.Flat? then p else p.(side := Opposite(p.side))
  }

  function MirroredAction(a: Action): Action {
    match a
    case OpenLong => OpenShort
    case OpenShort => OpenLong
    case _ => a
  }

  /** The negated signal on the mirrored position gives the mirrored action, exactly unless the engine is flat and a
      negative threshold lets the signal pass both ways, when it goes long twice. */
  lemma DecisionIsSymmetric(s: State, signal: real)
    ensures DecideAction(s.(position := Mirrored(s.position)), -signal) == MirroredAction(DecideAction(s, signal))
       <==> !(s.position.Flat? && s.cfg.threshold < signal < -s.cfg.threshold)
  {
  }

  // ------------------------------------------------------------------ where the percentage stops fire

  /** With the price a fraction g above the entry a long has gained g and a short has lost it, leverage and size
      apart; the target fires at its percentage or more, the stop at its percentage lost or more. */
  lemma StopsFireAtTheirGains(p: Position, g: real)
    requires p.Open? && Notional(p.size, p.leverage) != 0.0 && !(p.tpPrice.Some? && p.slPrice.Some?)
    ensures var gain := if p.side.Long? then g else -g;
            var check := CheckTpSl(p, p.entry * (1.0 + g));
            && (check == TpHit <==> Truthy(p.tpPct) && gain >= p.tpPct.value)
            && (check == SlHit <==> Truthy(p.slPct) && gain <= -p.slPct.value && check != TpHit)
            && (check == Quiet <==> check != TpHit && check != SlHit)
            && UnrealizedPnl(p, p.entry * (1.0 + g)) == gain * Notional(p.size, p.leverage)
  {
    var price := p.entry * (1.0 + g);
    PctIsPriceMove(p, price);
    QuotientIs(price - p.entry, p.entry, g);
    QuotientIs(p.entry - price, p.entry, -g);
  }

  lemma LostStopFires(p: Position, price: real, sl: real, g: real)
    requires p.Open? && Notional(p.size, p.leverage) != 0.0 && !(p.tpPrice.Some? && p.slPrice.Some?)
    requires price == p.entry * (1.0 + g) && p.slPct == Some(sl) && sl > 0.0
    requires (if p.side.Long? then g else -g) <= -sl
    ensures StopFires(CheckTpSl(p, price))
  {
    StopsFireAtTheirGains(p, g);
  }

  /** A stop changed by a hot reload holds for the position already open: the next tick that finds it lost closes. */
  lemma ReloadedStopFires(s: State, cfg: Config, tpChanged: bool, i: TickInput, g: real)
    requires s.running && s.position.Open? && Notional(s.position.size, s.position.leverage) != 0.0
    requires !(s.position.tpPrice.Some? && s.position.slPrice.Some?)
    requires i.price.Some? && i.price.value == s.position.entry * (1.0 + g)
    requires cfg.slPct.Some? && cfg.slPct.value > 0.0
    requires (if s.position.side.Long? then g else -g) <= -cfg.slPct.value
    ensures Next(Next(s, Reload(cfg, tpChanged, true)).0, Tick(i)).0.position.Flat?
  {
    var s1 := Next(s, Reload(cfg, tpChanged, true)).0;
    LostStopFires(s1.position, i.price.value, cfg.slPct.value, g);
    ClosesIff(s1, i);
  }
}
