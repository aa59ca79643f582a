/** Paper positions and their stops (app/executor/paper.py). */
module PaperTrading {
  import opened Options
  import opened RealLemmas

  type Price = x: real | x > 0.0 witness 1.0

  datatype Side = Long | Short

  /** A position as a value; the optional fields of the source are all set or all unset together. */
  datatype Position =
    | Flat
    | Open(side: Side, entry: Price, size: real, leverage: int,
           tpPct: Option<real>, slPct: Option<real>, tpPrice: Option<real>, slPrice: Option<real>)

  datatype Check = Quiet | TpHit | SlHit | DividesByZero

  function PnlPct(side: Side, entry: Price, price: real): real {
    if side.Long? then (price - entry) / entry else (entry - price) / entry
  }

  function Notional(size: real, leverage: int): real {
    size * leverage as real
  }

  function PnlUsdt(pct: real, size: real, leverage: int): real {
    pct * size * leverage as real
  }

  function UnrealizedPnl(p: Position, price: real): real {
    match p
    case Flat => 0.0
    case Open(side, entry, size, leverage, _, _, _, _) => PnlUsdt(PnlPct(side, entry, price), size, leverage)
  }

  /** Python truth of an optional number: neither None nor 0. */
  predicate Truthy(o: Option<real>) {
    o.Some? && o.value != 0.0
  }

  function CheckLevels(side: Side, tp: real, sl: real, price: real): Check {
    match side
    case Long => if price >= tp then TpHit else if price <= sl then SlHit else Quiet
    case Short => if price <= tp then TpHit else if price >= sl then SlHit else Quiet
  }

  function CheckPct(p: Position, price: real): Check
    requires p.Open?
  {
    if Notional(p.size, p.leverage) == 0.0 then DividesByZero else
    var pct := UnrealizedPnl(p, price) / Notional(p.size, p.leverage);
    if Truthy(p.tpPct) && pct >= p.tpPct.value then TpHit
    else if Truthy(p.slPct) && pct <= -p.slPct.value then SlHit
    else Quiet
  }

  function CheckTpSl(p: Position, price: real): Check {
    if p.Flat? then Quiet
    else if p.tpPrice.Some? && p.slPrice.Some? then CheckLevels(p.side, p.tpPrice.value, p.slPrice.value, price)
    else CheckPct(p, price)
  }

  class PaperPosition {
    var side: Option<Side>      // None is FLAT
    var entryPrice: Option<Price>
    var sizeUsdt: Option<real>
    var leverage: Option<int>
    var tpPct: Option<real>
    var slPct: Option<real>
    var tpPrice: Option<real>
    var slPrice: Option<real>

    predicate Valid()
      reads this
    {
      if side.None? then
        && entryPrice.None? && sizeUsdt.None? && leverage.None?
        && tpPct.None? && slPct.None? && tpPrice.None? && slPrice.None?
      else entryPrice.Some? && sizeUsdt.Some? && leverage.Some?
    }

    function View(): Position
      reads this
      requires Valid()
    {
      if side.None? then Flat
      else Open(side.value, entryPrice.value, sizeUsdt.value, leverage.value, tpPct, slPct, tpPrice, slPrice)
    }

    constructor ()
      ensures Valid() && View() == Flat
    {
      side, entryPrice, sizeUsdt, leverage := None, None, None, None;
      tpPct, slPct, tpPrice, slPrice := None, None, None, None;
    }

    method OpenLong(entry: Price, size: real, lev: int, tp: Option<real>, sl: Option<real>,
                    tpp: Option<real>, slp: Option<real>)
      modifies this
      ensures Valid() && View() == Open(Long, entry, size, lev, tp, sl, tpp, slp)
    {
      side, entryPrice, sizeUsdt, leverage := Some(Long), Some(entry), Some(size), Some(lev);
      tpPct, slPct, tpPrice, slPrice := tp, sl, tpp, slp;
    }

    method OpenShort(entry: Price, size: real, lev: int, tp: Option<real>, sl: Option<real>,
                    tpp: Option<real>, slp: Option<real>)
      modifies this
      ensures Valid() && View() == Open(Short, entry, size, lev, tp, sl, tpp, slp)
    {
      side, entryPrice, sizeUsdt, leverage := Some(Short), Some(entry), Some(size), Some(lev);
      tpPct, slPct, tpPrice, slPrice := tp, sl, tpp, slp;
    }

    method Close()
      modifies this
      ensures Valid() && View() == Flat
    {
      side, entryPrice, sizeUsdt, leverage := None, None, None, None;
      tpPct, slPct, tpPrice, slPrice := None, None, None, None;
    }

    method UpdateDynamicTpSl(tpp: real, slp: real)
      requires Valid() && View().Open?
      modifies this
      ensures Valid() && View() == old(View()).(tpPrice := Some(tpp), slPrice := Some(slp))
    {
      tpPrice, slPrice := Some(tpp), Some(slp);
    }

    method ComputePnl(price: real) returns (pnl: real)
      requires Valid()
      ensures pnl == UnrealizedPnl(View(), price)
    {
      if side.None? || entryPrice.None? {
        return 0.0;
      }
      var pct: real;
      if side.value.Long? {
        pct := (price - entryPrice.value) / entryPrice.value;
      } else {
        pct := (entryPrice.value - price) / entryPrice.value;
      }
      assert pct == PnlPct(side.value, entryPrice.value, price);
      return PnlUsdt(pct, sizeUsdt.value, leverage.value);
    }
  }

  // ------------------------------------------------------------------ percentages and price levels

  /** The levels `_execute_live_order` sends to the exchange in fixed mode. */
  function LiveTakeProfit(side: Side, entry: real, tp: real): real {
    entry * (1.0 + if side.Long? then tp else -tp)
  }

  function LiveStopLoss(side: Side, entry: real, sl: real): real {
    entry * (1.0 - if side.Long? then sl else -sl)
  }

  /** For a position of non-zero notional the percentage check measures just the relative price move. */
  lemma PctIsPriceMove(p: Position, price: real)
    requires p.Open? && Notional(p.size, p.leverage) != 0.0
    ensures UnrealizedPnl(p, price) / Notional(p.size, p.leverage) == PnlPct(p.side, p.entry, price)
  {
    var f := PnlPct(p.side, p.entry, price);
    assert f * p.size * p.leverage as real == f * Notional(p.size, p.leverage);
    QuotientIs(UnrealizedPnl(p, price), Notional(p.size, p.leverage), f);
  }

  lemma MoveAgainstLevel(entry: real, move: real, x: real)
    requires entry > 0.0
    ensures move / entry >= x <==> move >= entry * x
    ensures move / entry <= x <==> move <= entry * x
  {
    var q := move / entry;
    assert q * entry == move by { DivMul(move, entry); }
    if q > x {
      MulMonoStrict(x, q, entry);
    } else if q < x {
      MulMonoStrict(q, x, entry);
    }
    assert x * entry == entry * x;
  }

  /** The percentage stops of the paper position and the price stops sent with the live order fire at the same
      prices for the same reason. */
  lemma PercentAndPriceStopsAgree(p: Position, price: real)
    requires p.Open? && p.size > 0.0 && p.leverage > 0
    requires p.tpPct.Some? && p.tpPct.value > 0.0 && p.slPct.Some? && p.slPct.value > 0.0
    requires p.tpPrice.None? || p.slPrice.None?
    ensures CheckTpSl(p, price)
         == CheckTpSl(p.(tpPrice := Some(LiveTakeProfit(p.side, p.entry, p.tpPct.value)),
                         slPrice := Some(LiveStopLoss(p.side, p.entry, p.slPct.value))), price)
  {
    var tp, sl, e := p.tpPct.value, p.slPct.value, p.entry;
    assert Notional(p.size, p.leverage) != 0.0;
    PctIsPriceMove(p, price);
    if p.side.Long? {
      LevelsOfMove(e, tp, sl, price);
    } else {
      LevelsOfMove(e, sl, tp, price);
      assert (e - price) / e == -((price - e) / e) by { QuotientIs(e - price, e, -((price - e) / e)); }
    }
  }

  /** A relative move of up or down, and the price level it amounts to. */
  lemma LevelsOfMove(e: real, up: real, down: real, price: real)
    requires e > 0.0
    ensures (price - e) / e >= up <==> price >= e * (1.0 + up)
    ensures (price - e) / e <= -down <==> price <= e * (1.0 - down)
  {
    MoveAgainstLevel(e, price - e, up);
    MoveAgainstLevel(e, price - e, -down);
    assert e * (1.0 + up) == e + e * up && e * (1.0 - down) == e - e * down;
  }
}
