/** The agent's tick loop (app/engine.py). */
module Trading {
  import opened Options
  import opened PaperTrading

  // ------------------------------------------------------------------ dynamic levels

  /** `str(...)` of the side argument: the enumeration mixes in str, and its str() is the qualified name. */
  function SideText(side: Side): string {
    if side.Long? then "PositionSide.LONG" else "PositionSide.SHORT"
  }

  function LowerChar(c: char): char {
    if 'A' <= c <= 'Z' then (c as int + 32) as char else c
  }

  function Lower(s: string): string {
    seq(|s|, i requires 0 <= i < |s| => LowerChar(s[i]))
  }

  function StopDistance(entry: real, atr: Option<real>, atrMult: real): real {
    if atr.None? || atr.value <= 0.0 then entry * 0.03 else atr.value * atrMult
  }

  /** `_compute_dynamic_tp_sl`: (take profit, stop loss).  `text` is `str(side)`. */
  function DynamicLevels(entry: real, text: string, atr: Option<real>, atrMult: real, rrRatio: real): (real, real) {
    var dist := StopDistance(entry, atr, atrMult);
    if Lower(text) == "long" then (entry + dist * rrRatio, entry - dist)
    else (entry - dist * rrRatio, entry + dist)
  }

  /** The call the engine makes, with the enumeration member and the default multipliers. */
  function EngineLevels(entry: Price, side: Side, atr: Option<real>): (real, real) {
    DynamicLevels(entry, SideText(side), atr, 2.0, 2.0)
  }

  // ------------------------------------------------------------------ one tick

  datatype Config = Config(
    amount: real,
    leverage: int,
    tpPct: Option<real>,
    slPct: Option<real>,
    dynamic: bool,
    supervisorInterval: real,
    threshold: real)

  /** What was handed to `hub_callback.report_trade`. */
  datatype Report =
    | OpenReport(side: Side, entry: Price, size: real, leverage: int)
    | CloseReport(side: Side, entry: Price, size: real, leverage: int, exit: Price, pnl: real)

  datatype State = State(
    cfg: Config,
    position: Position,
    lastPrice: Option<Price>,
    lastSupervisor: real,
    running: bool)

  datatype SupervisorAnswer = Keep | CloseIt | Adjust | SupervisorRaises

  /** What the outside world answers during one tick.  `None` for the price is a failed fetch, for the signal
      a raising strategy. */
  datatype TickInput = TickInput(
    price: Option<Price>,
    now: real,
    supervisor: SupervisorAnswer,
    atr: Option<real>,
    signal: Option<real>)

  datatype Action = OpenLong | OpenShort | Close | Hold

  function DecideAction(s: State, signal: real): Action {
    match s.position
    case Open(Long, _, _, _, _, _, _, _) => if signal < -s.cfg.threshold then Close else Hold
    case Open(Short, _, _, _, _, _, _, _) => if signal > s.cfg.threshold then Close else Hold
    case Flat => if signal > s.cfg.threshold then OpenLong else if signal < -s.cfg.threshold then OpenShort else Hold
  }

  function NewPosition(cfg: Config, side: Side, price: Price, atr: Option<real>): Position {
    var levels := EngineLevels(price, side, atr);
    if cfg.dynamic then
      Open(side, price, cfg.amount, cfg.leverage, cfg.tpPct, cfg.slPct, Some(levels.0), Some(levels.1))
    else Open(side, price, cfg.amount, cfg.leverage, cfg.tpPct, cfg.slPct, None, None)
  }

  /** `_execute_action` and the report it sends. */
  function Execute(s: State, a: Action, price: Price, atr: Option<real>): (State, seq<Report>) {
    match a
    case OpenLong =>
      (s.(position := NewPosition(s.cfg, Long, price, atr)), [OpenReport(Long, price, s.cfg.amount, s.cfg.leverage)])
    case OpenShort =>
      (s.(position := NewPosition(s.cfg, Short, price, atr)), [OpenReport(Short, price, s.cfg.amount, s.cfg.leverage)])
    case Close =>
      (match s.position
       case Flat => (s, [])
       case Open(side, entry, size, leverage, _, _, _, _) =>
         (s.(position := Flat), [CloseReport(side, entry, size, leverage, price, UnrealizedPnl(s.position, price))]))
    case Hold => (s, [])
  }

  function AfterSignal(s: State, i: TickInput, price: Price): (State, seq<Report>) {
    if i.signal.None? then (s, []) else Execute(s, DecideAction(s, i.signal.value), price, i.atr)
  }

  predicate SupervisorDue(s: State, now: real) {
    s.lastSupervisor == 0.0 || now - s.lastSupervisor >= s.cfg.supervisorInterval
  }

  /** The rest of a tick whose stops did not fire. */
  function AfterStops(s: State, i: TickInput, price: Price): (State, seq<Report>) {
    if s.position.Flat? || !SupervisorDue(s, i.now) then AfterSignal(s, i, price) else
    var s1 := s.(lastSupervisor := i.now);
    match i.supervisor
    case SupervisorRaises => (s1, [])
    case CloseIt => Execute(s1, Close, price, i.atr)
    case Adjust =>
      if s.cfg.dynamic then
        var levels := EngineLevels(s.position.entry, s.position.side, i.atr);
        AfterSignal(s1.(position := s.position.(tpPrice := Some(levels.0), slPrice := Some(levels.1))), i, price)
      else AfterSignal(s1, i, price)
    case Keep => AfterSignal(s1, i, price)
  }

  /** One pass of the loop body, with the reports it makes. */
  function TickStep(s: State, i: TickInput): (State, seq<Report>) {
    match i.price
    case None => (s, [])
    case Some(price) =>
      var s1 := s.(lastPrice := Some(price));
      match CheckTpSl(s.position, price)
      case DividesByZero => (s1, [])
      case Quiet => AfterStops(s1, i, price)
      case _ => Execute(s1, Close, price, i.atr)
  }

  /** `start` on a stopped engine: new settings, a new plan with its loss limit as the default stop, and the price
      it begins with; without a price it gives up half way. */
  function Started(s: State, cfg: Config, maxLossPct: real, price: Option<Price>): State {
    match price
    case None => s.(cfg := cfg.(threshold := s.cfg.threshold), lastSupervisor := 0.0)
    case Some(_) =>
      s.(cfg := cfg.(slPct := if cfg.slPct.None? then Some(maxLossPct) else cfg.slPct),
         lastPrice := price, lastSupervisor := 0.0, running := true)
  }

  /** The loop body does not look at `running`; only the loop does. */
  lemma TickIgnoresRunning(s: State, i: TickInput, running: bool)
    ensures TickStep(s.(running := running), i) == (TickStep(s, i).0.(running := running), TickStep(s, i).1)
  {
  }

  // ------------------------------------------------------------------ the engine object

  class TradingEngine {
    var cfg: Config
    const position: PaperPosition
    var lastPrice: Option<Price>
    var lastSupervisor: real
    var running: bool

    constructor (cfg: Config)
      ensures fresh(position) && Valid() && View() == State(cfg, Flat, None, 0.0, false)
    {
      this.cfg := cfg;
      position := new PaperPosition();
      lastPrice, lastSupervisor, running := None, 0.0, false;
    }

    predicate Valid()
      reads this, position
    {
      position.Valid()
    }

    function View(): State
      reads this, position
      requires Valid()
    {
      State(cfg, position.View(), lastPrice, lastSupervisor, running)
    }

    method ExecuteAction(a: Action, price: Price, atr: Option<real>) returns (reports: seq<Report>)
      requires Valid()
      modifies position
      ensures Valid() && (View(), reports) == Execute(old(View()), a, price, atr)
    {
      match a
      case OpenLong =>
        var tpp, slp := None, None;
        if cfg.dynamic {
          var levels := EngineLevels(price, Long, atr);
          tpp, slp := Some(levels.0), Some(levels.1);
        }
        position.OpenLong(price, cfg.amount, cfg.leverage, cfg.tpPct, cfg.slPct, tpp, slp);
        reports := [OpenReport(Long, price, cfg.amount, cfg.leverage)];
      case OpenShort =>
        var tpp, slp := None, None;
        if cfg.dynamic {
          var levels := EngineLevels(price, Short, atr);
          tpp, slp := Some(levels.0), Some(levels.1);
        }
        position.OpenShort(price, cfg.amount, cfg.leverage, cfg.tpPct, cfg.slPct, tpp, slp);
        reports := [OpenReport(Short, price, cfg.amount, cfg.leverage)];
      case Close =>
        if position.side.Some? {
          var pnl := position.ComputePnl(price);
          reports := [CloseReport(position.side.value, position.entryPrice.value, position.sizeUsdt.value,
                                  position.leverage.value, price, pnl)];
          position.Close();
        } else {
          reports := [];
        }
      case Hold =>
        reports := [];
    }

    /** One pass of `_trading_loop`; an exception anywhere ends the pass and is swallowed. */
    method Tick(i: TickInput) returns (reports: seq<Report>)
      requires Valid()
      modifies this`lastPrice, this`lastSupervisor, position
      ensures Valid() && (View(), reports) == TickStep(old(View()), i)
    {
      reports := [];
      if i.price.None? {
        return;
      }
      var price := i.price.value;
      lastPrice := Some(price);
      if position.side.Some? {
        var check := CheckTpSl(position.View(), price);
        if check == DividesByZero {
          return;
        }
        if check != Quiet {
          reports := ExecuteAction(Close, price, i.atr);
          return;
        }
        if lastSupervisor == 0.0 || i.now - lastSupervisor >= cfg.supervisorInterval {
          lastSupervisor := i.now;
          match i.supervisor
          case SupervisorRaises => return;
          case CloseIt =>
            reports := ExecuteAction(Close, price, i.atr);
            return;
          case Adjust =>
            if cfg.dynamic {
              var levels := EngineLevels(position.entryPrice.value, position.side.value, i.atr);
              position.UpdateDynamicTpSl(levels.0, levels.1);
            }
          case Keep =>
        }
      }
      if i.signal.None? {
        return;
      }
      var action := DecideAction(View(), i.signal.value);
      reports := ExecuteAction(action, price, i.atr);
    }

    /** `start`, refused while running.  A position kept by the last `stop` stays as it is. */
    method Start(cfg: Config, maxLossPct: real, price: Option<Price>)
      requires Valid()
      modifies this
      ensures Valid() && View() == if old(running) then old(View()) else Started(old(View()), cfg, maxLossPct, price)
      ensures position.View() == old(position.View())
    {
      if running {
        return;
      }
      this.cfg := cfg.(threshold := this.cfg.threshold);
      lastSupervisor := 0.0;
      if price.None? {
        return;
      }
      lastPrice := price;
      this.cfg := cfg.(slPct := if cfg.slPct.None? then Some(maxLossPct) else cfg.slPct);
      running := true;
    }

    /** `stop`: a tick already under way ends first; then the position is closed without a report, unless fetching
        the final price raises, which leaves it open (ok is false). */
    method Stop(closePosition: bool, pending: Option<TickInput>, priceRaises: bool)
      returns (reports: seq<Report>, ok: bool)
      requires Valid()
      modifies this`running, this`lastPrice, this`lastSupervisor, position
      ensures Valid()
      ensures !old(running) ==> ok && reports == [] && View() == old(View())
      ensures old(running) ==>
                var (after, sent) := if pending.Some? then TickStep(old(View()), pending.value) else (old(View()), []);
                && reports == sent
                && ok == !(closePosition && after.position.Open? && priceRaises)
                && View() == after.(running := false, position := if closePosition && ok then Flat else after.position)
    {
      reports, ok := [], true;
      if !running {
        return;
      }
      running := false;
      if pending.Some? {
        TickIgnoresRunning(old(View()), pending.value, false);
        reports := Tick(pending.value);
      }
      if closePosition && position.side.Some? {
        if priceRaises {
          ok := false;
          return;
        }
        position.Close();
      }
    }
  }
}
