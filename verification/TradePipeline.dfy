/** Engine, push client and trades table run together, over a network that may lose or repeat any POST. */
module TradePipeline {
  import opened Options
  import opened RealLemmas
  import P = PaperTrading
  import E = Trading
  import L = TradingLaws
  import opened TradeLog

  /** The strategy in charge and its hash; a start replaces them. */
  datatype Plan = Plan(strategy: Option<string>, hash: Option<string>)

  datatype Pipeline = Pipeline(
    engine: E.State,
    plan: Plan,
    hub: Hub,
    rows: Rows,
    used: set<Uuid>,                      // ids uuid4 has handed out
    current: Option<(Uuid, Time)>,        // id and time given out at the engine's last open
    opens: map<Uuid, Record>,             // every open as it was posted
    arrived: set<Uuid>,                   // the opens that have arrived at least once
    closed: map<Uuid, Record>)            // every close that has arrived at least once

  /** One engine event and everything the outside world decides about the report it may send; the plan is the one
      a start puts in charge. */
  datatype Event =
    | Engine(event: L.Event, plan: Plan, freshId: Uuid, now: Time, reason: string, cid: Option<string>, copies: nat)
    | PatchTx(tx: string, arrives: bool)

  function SideOf(s: P.Side): Side {
    if s.Long? then Long else Short
  }

  function TradeOf(a: AgentId, plan: Plan, r: E.Report, reason: string): Trade {
    match r
    case OpenReport(side, entry, size, leverage) =>
      Trade(a, SideOf(side), entry, None, size, leverage, None, plan.strategy, plan.hash, None, None, None)
    case CloseReport(side, entry, size, leverage, exit, pnl) =>
      Trade(a, SideOf(side), entry, Some(exit), size, leverage, Some(pnl), plan.strategy, plan.hash,
            Some(reason), None, None)
  }

  /** The body posted for a report. */
  function Posted(p: Pipeline, a: AgentId, r: E.Report, e: Event): Record
    requires e.Engine?
  {
    var t := TradeOf(a, p.plan, r, e.reason);
    Payload(t, Identity(p.hub, t, e.freshId, e.now), e.now, e.cid)
  }

  function Send(p: Pipeline, a: AgentId, r: E.Report, e: Event): Pipeline
    requires e.Engine?
  {
    var body := Posted(p, a, r, e);
    var q := p.(hub := AfterReport(p.hub, TradeOf(a, p.plan, r, e.reason), e.freshId, e.now),
                rows := Deliver(p.rows, body, e.copies),
                used := p.used + {e.freshId});
    if r.OpenReport? then
      q.(current := Some((e.freshId, e.now)), opens := p.opens[body.id := body],
         arrived := if e.copies > 0 then p.arrived + {body.id} else p.arrived)
    else q.(closed := if e.copies > 0 then p.closed[body.id := body] else p.closed)
  }

  /** A start that succeeds puts a new plan in charge. */
  function PlanAfter(p: Pipeline, ev: L.Event, plan: Plan): Plan {
    if ev.Start? && !p.engine.running && ev.price.Some? then plan else p.plan
  }

  /** uuid4 never repeats, so an event that would repeat an id does not happen. */
  function Next(p: Pipeline, a: AgentId, e: Event): Pipeline {
    match e
    case PatchTx(tx, arrives) =>
      if arrives && a in p.hub.lastTradeId then p.(rows := Patched(p.rows, p.hub.lastTradeId[a], tx)) else p
    case Engine(ev, plan, freshId, _, _, _, _) =>
      if freshId in p.used then p else
      var (engine, reports) := L.Next(p.engine, ev);
      var q := p.(engine := engine, plan := PlanAfter(p, ev, plan));
      if reports == [] then q else Send(q, a, reports[0], e)
  }

  function Run(p: Pipeline, a: AgentId, es: seq<Event>): Pipeline {
    if es == [] then p else Next(Run(p, a, es[..|es| - 1]), a, es[|es| - 1])
  }

  function Init(cfg: E.Config, plan: Plan): Pipeline {
    Pipeline(E.State(cfg, P.Flat, None, 0.0, false), plan, Hub(map[], map[]), map[], {}, None, map[], {}, map[])
  }

  /** The record describes the open position under the identity its open was given. */
  predicate Describes(r: Record, a: AgentId, pos: P.Position, identity: (Uuid, Time)) {
    && pos.Open? && r.id == identity.0 && r.openAt == identity.1 && r.agentId == a
    && r.side == SideOf(pos.side) && r.entryPrice == pos.entry && r.sizeUsdt == pos.size && r.leverage == pos.leverage
  }

  /** The open position has its own open on record, and the table has it exactly if it arrived. */
  ghost predicate CurrentInv(p: Pipeline, a: AgentId, pos: P.Position) {
    pos.Open? ==>
      && p.current.Some? && a in p.hub.openTrades && p.hub.openTrades[a] == p.current.value
      && var id := p.current.value.0;
         && id in p.used && id !in p.closed && id in p.opens && Describes(p.opens[id], a, pos, p.current.value)
         && (id in p.rows <==> id in p.arrived)
         && (id in p.arrived ==> Core(p.rows[id]) == Core(p.opens[id]))
  }

  ghost predicate ClosedInv(p: Pipeline) {
    forall id :: id in p.closed ==>
      && id in p.rows && id in p.opens && SameTrade(p.opens[id], p.closed[id])
      && Core(p.rows[id]) == Final(p.opens[id], p.closed[id], id in p.arrived)
  }

  ghost predicate IdsInv(p: Pipeline, a: AgentId) {
    && (forall id :: id in p.rows ==> id in p.used)
    && (forall id :: id in p.opens ==> id in p.used)
    && p.arrived <= p.opens.Keys
    && (a in p.hub.openTrades ==> p.hub.openTrades[a].0 in p.used)
  }

  ghost predicate Inv(p: Pipeline, a: AgentId) {
    IdsInv(p, a) && CurrentInv(p, a, p.engine.position) && ClosedInv(p)
  }

  /** What an event does to the position and what it reports about it. */
  lemma ReportsMatchPosition(s: E.State, ev: L.Event)
    ensures var (s', reports) := L.Next(s, ev);
            && |reports| <= 1
            && (reports == [] ==> s'.position.Open? ==>
                  && s.position.Open? && s'.position.side == s.position.side && s'.position.entry == s.position.entry
                  && s'.position.size == s.position.size && s'.position.leverage == s.position.leverage)
            && (reports != [] ==>
                  match reports[0]
                  case OpenReport(side, entry, size, leverage) =>
                    && s'.position.Open? && s'.position.side == side && s'.position.entry == entry
                    && s'.position.size == size && s'.position.leverage == leverage
                  case CloseReport(side, entry, size, leverage, _, _) =>
                    && s'.position.Flat? && s.position.Open? && s.position.side == side && s.position.entry == entry
                    && s.position.size == size && s.position.leverage == leverage)
  {
  }

  lemma DeliverTouchesOnlyItsRow(rows: Rows, body: Record, copies: nat)
    ensures forall id :: id in Deliver(rows, body, copies) && id != body.id ==>
              id in rows && Deliver(rows, body, copies)[id] == rows[id]
    ensures forall id :: id in rows ==> id in Deliver(rows, body, copies)
    ensures copies > 0 ==> body.id in Deliver(rows, body, copies)
    ensures copies > 0 && body.id !in rows ==> Core(Deliver(rows, body, copies)[body.id]) == Core(body)
    ensures copies == 0 ==> Deliver(rows, body, copies) == rows
  {
    if copies > 0 {
      RedeliveryIsIdempotent(rows, body, copies);
    }
  }

  lemma SendOpenKeepsInv(p: Pipeline, a: AgentId, r: E.Report, e: Event, pos: P.Position)
    requires e.Engine? && e.freshId !in p.used && r.OpenReport?
    requires IdsInv(p, a) && CurrentInv(p, a, pos) && ClosedInv(p)
    requires p.engine.position.Open? && p.engine.position.side == r.side && p.engine.position.entry == r.entry
    requires p.engine.position.size == r.size && p.engine.position.leverage == r.leverage
    ensures Inv(Send(p, a, r, e), a)
  {
    DeliverTouchesOnlyItsRow(p.rows, Posted(p, a, r, e), e.copies);
  }

  lemma SendCloseKeepsInv(p: Pipeline, a: AgentId, r: E.Report, e: Event, pos: P.Position)
    requires e.Engine? && e.freshId !in p.used && r.CloseReport?
    requires IdsInv(p, a) && CurrentInv(p, a, pos) && ClosedInv(p)
    requires pos.Open? && pos.side == r.side && pos.entry == r.entry && pos.size == r.size && pos.leverage == r.leverage
    requires p.engine.position.Flat?
    ensures Inv(Send(p, a, r, e), a)
  {
    var body := Posted(p, a, r, e);
    var o := p.opens[body.id];
    assert SameTrade(o, body);
    DeliverTouchesOnlyItsRow(p.rows, body, e.copies);
    if e.copies > 0 {
      RedeliveryIsIdempotent(p.rows, body, e.copies);
      assert Core(Upsert(p.rows, body)[body.id]) == Final(o, body, body.id in p.arrived);
    }
  }

  lemma PatchKeepsInv(p: Pipeline, a: AgentId, id: Uuid, tx: string)
    requires Inv(p, a)
    ensures Inv(p.(rows := Patched(p.rows, id, tx)), a)
  {
  }

  lemma NextKeepsInv(p: Pipeline, a: AgentId, e: Event)
    requires Inv(p, a)
    ensures Inv(Next(p, a, e), a)
  {
    match e {
      case PatchTx(tx, arrives) =>
        if arrives && a in p.hub.lastTradeId { PatchKeepsInv(p, a, p.hub.lastTradeId[a], tx); }
      case Engine(ev, plan, freshId, _, _, _, _) =>
        var (engine, reports) := L.Next(p.engine, ev);
        ReportsMatchPosition(p.engine, ev);
        var q := p.(engine := engine, plan := PlanAfter(p, ev, plan));
        if freshId !in p.used && reports != [] {
          if reports[0].OpenReport? {
            SendOpenKeepsInv(q, a, reports[0], e, p.engine.position);
          } else {
            SendCloseKeepsInv(q, a, reports[0], e, p.engine.position);
          }
        }
    }
  }

  lemma {:induction false} RunKeepsInv(p: Pipeline, a: AgentId, es: seq<Event>)
    requires Inv(p, a)
    ensures Inv(Run(p, a, es), a)
  {
    if es != [] {
      RunKeepsInv(p, a, es[..|es| - 1]);
      NextKeepsInv(Run(p, a, es[..|es| - 1]), a, es[|es| - 1]);
    }
  }

  /** The record books the position it describes as closed at this price. */
  predicate ClosedAt(r: Record, price: P.Price) {
    && r.exitPrice == Some(price as real) && r.entryPrice > 0.0
    && r.pnlUsdt.Some?
    && r.pnlUsdt.value * r.entryPrice
       == (if r.side.Long? then price - r.entryPrice else r.entryPrice - price) * r.sizeUsdt * r.leverage as real
  }

  lemma CloseBooksPnl(p: Pipeline, a: AgentId, e: Event)
    requires e.Engine?
    requires L.Next(p.engine, e.event).1 != [] && L.Next(p.engine, e.event).1[0].CloseReport?
    ensures e.event.Tick? && e.event.input.price.Some?
    ensures ClosedAt(Posted(p, a, L.Next(p.engine, e.event).1[0], e), e.event.input.price.value)
  {
    var r := L.Next(p.engine, e.event).1[0];
    L.CloseReportsPnl(p.engine, e.event.input);
    assert r in E.TickStep(p.engine, e.event.input).1;
    PnlAlgebra(if r.side.Long? then r.exit - r.entry else r.entry - r.exit, r.entry, r.size, r.leverage as real);
  }

  lemma PnlAlgebra(way: real, entry: real, size: real, leverage: real)
    requires entry > 0.0
    ensures (way / entry * size * leverage) * entry == way * size * leverage
  {
    DivMul(way, entry);
    assert (way / entry * size * leverage) * entry == (way / entry * entry) * size * leverage;
  }

  /** An open is posted as an open trade under a fresh id, describing the position the engine has just taken. */
  lemma OpenStartsATrade(p: Pipeline, a: AgentId, e: Event)
    requires e.Engine?
    requires L.Next(p.engine, e.event).1 != [] && L.Next(p.engine, e.event).1[0].OpenReport?
    ensures var (engine, reports) := L.Next(p.engine, e.event);
            var body := Posted(p, a, reports[0], e);
            && Describes(body, a, engine.position, (e.freshId, e.now))
            && body.exitPrice.None? && body.pnlUsdt.None? && body.closeAt.None? && body.closeReason.None?
            && body.strategyHash == p.plan.hash && body.reasoningCid == OrElse(None, e.cid)
  {
    ReportsMatchPosition(p.engine, e.event);
  }

  /** In every session, a close reported by the loop carries the id and open time of its own open; the fallback
      to a fresh id never fires.  Its exit is the price of the tick, with the pnl of that price. */
  lemma CloseCarriesItsOpen(cfg: E.Config, plan: Plan, a: AgentId, es: seq<Event>, e: Event)
    requires e.Engine?
    requires var p := Run(Init(cfg, plan), a, es);
             L.Next(p.engine, e.event).1 != [] && L.Next(p.engine, e.event).1[0].CloseReport?
    ensures var p := Run(Init(cfg, plan), a, es);
            var body := Posted(p, a, L.Next(p.engine, e.event).1[0], e);
            && a in p.hub.openTrades
            && p.current == Some((body.id, body.openAt))
            && body.id in p.opens && SameTrade(p.opens[body.id], body)
            && body.closeAt == Some(e.now) && body.closeReason == Some(e.reason)
            && body.strategyHash == p.plan.hash
            && body.strategy == (if p.plan.strategy.Some? && p.plan.strategy.value != "" then p.plan.strategy.value
                                 else "unknown")
            && e.event.Tick? && e.event.input.price.Some? && ClosedAt(body, e.event.input.price.value)
  {
    RunKeepsInv(Init(cfg, plan), a, es);
    var p := Run(Init(cfg, plan), a, es);
    ReportsMatchPosition(p.engine, e.event);
    CloseBooksPnl(p, a, e);
  }

  /** Convergence: whatever was lost or repeated, and whichever strategies were in charge, the row of every close
      that arrived is that close in every field but tx_hash and reasoning_cid, under the strategy of its open if
      that arrived and its own if not; so it does not tell whether the open was lost exactly if open and close
      name the same strategy and hash. */
  lemma TableConverges(cfg: E.Config, plan: Plan, a: AgentId, es: seq<Event>, id: Uuid)
    requires id in Run(Init(cfg, plan), a, es).closed
    ensures var p := Run(Init(cfg, plan), a, es);
            && id in p.rows && id in p.opens && SameTrade(p.opens[id], p.closed[id])
            && Core(p.rows[id]) == Final(p.opens[id], p.closed[id], id in p.arrived)
            && (SamePlan(p.opens[id], p.closed[id]) <==>
                Final(p.opens[id], p.closed[id], true) == Final(p.opens[id], p.closed[id], false))
  {
    RunKeepsInv(Init(cfg, plan), a, es);
  }

  /** Delivered closes are never forgotten nor replaced by another. */
  lemma ClosedOnlyGrows(p: Pipeline, a: AgentId, e: Event)
    requires Inv(p, a)
    ensures forall id :: id in p.closed ==> id in Next(p, a, e).closed && Next(p, a, e).closed[id] == p.closed[id]
  {
    if e.Engine? && e.freshId !in p.used {
      ReportsMatchPosition(p.engine, e.event);
    }
  }
}
