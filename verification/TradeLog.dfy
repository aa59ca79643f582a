/** From an executed action to its row: the agent's push client (app/hub_callback.py) and the upsert behind
    POST /trades (user-server/user_server/agents/push_router.py). */
module TradeLog {
  import opened Options

  type Uuid = nat
  type AgentId = string
  type Time = int

  datatype Side = Long | Short

  /** A trade as posted and as stored. */
  datatype Record = Record(
    id: Uuid,
    agentId: AgentId,
    side: Side,
    entryPrice: real,
    exitPrice: Option<real>,
    sizeUsdt: real,
    leverage: int,
    pnlUsdt: Option<real>,
    strategy: string,
    strategyHash: Option<string>,
    openAt: Time,
    closeAt: Option<Time>,
    closeReason: Option<string>,
    txHash: Option<string>,
    reasoningCid: Option<string>)

  /** The dict the engine hands to `report_trade`. */
  datatype Trade = Trade(
    agentId: AgentId,
    side: Side,
    entryPrice: real,
    exitPrice: Option<real>,
    sizeUsdt: real,
    leverage: int,
    pnl: Option<real>,
    strategy: Option<string>,
    strategyHash: Option<string>,
    closeReason: Option<string>,
    txHash: Option<string>,
    reasoningCid: Option<string>)

  predicate Truthy(o: Option<string>) {
    o.Some? && o.value != ""
  }

  function OrElse(o: Option<string>, other: Option<string>): Option<string> {
    if Truthy(o) then o else other
  }

  // ------------------------------------------------------------------ the client

  datatype Hub = Hub(openTrades: map<AgentId, (Uuid, Time)>, lastTradeId: map<AgentId, Uuid>)

  /** The id and open time a report is sent under. */
  function Identity(h: Hub, t: Trade, freshId: Uuid, now: Time): (Uuid, Time) {
    if t.exitPrice.Some? && t.agentId in h.openTrades then h.openTrades[t.agentId] else (freshId, now)
  }

  function AfterReport(h: Hub, t: Trade, freshId: Uuid, now: Time): Hub {
    var identity := Identity(h, t, freshId, now);
    Hub(if t.exitPrice.None? then h.openTrades[t.agentId := identity] else h.openTrades - {t.agentId},
        h.lastTradeId[t.agentId := identity.0])
  }

  function Payload(t: Trade, identity: (Uuid, Time), now: Time, lastCid: Option<string>): Record {
    Record(identity.0, t.agentId, t.side, t.entryPrice, t.exitPrice, t.sizeUsdt, t.leverage, t.pnl,
           if Truthy(t.strategy) then t.strategy.value else "unknown", t.strategyHash, identity.1,
           if t.exitPrice.Some? then Some(now) else None, t.closeReason, t.txHash,
           OrElse(t.reasoningCid, lastCid))
  }

  /** A close goes out under the id and time of the report that opened the trade, whatever other agents report in
      between; it is forgotten then, so that another close gets an id of its own; and a hash that comes later finds
      the id reported last. */
  lemma CloseTakesItsOpen(h: Hub, o: Trade, id: Uuid, at: Time, other: Trade, id2: Uuid, at2: Time,
                          c: Trade, id3: Uuid, at3: Time, again: Trade, id4: Uuid, at4: Time)
    requires o.exitPrice.None? && c.exitPrice.Some? && again.exitPrice.Some?
    requires other.agentId != o.agentId && c.agentId == o.agentId && again.agentId == o.agentId
    ensures var h1 := AfterReport(h, o, id, at);
            var h2 := AfterReport(h1, other, id2, at2);
            var h3 := AfterReport(h2, c, id3, at3);
            && Identity(h, o, id, at) == (id, at) && Identity(h2, c, id3, at3) == (id, at)
            && Identity(h3, again, id4, at4) == (id4, at4)
            && o.agentId in h3.lastTradeId && h3.lastTradeId[o.agentId] == id
            && other.agentId in h3.lastTradeId
            && h3.lastTradeId[other.agentId] == Identity(h1, other, id2, at2).0
  {
  }

  class HubCallback {
    var openTrades: map<AgentId, (Uuid, Time)>
    var lastTradeId: map<AgentId, Uuid>
    const enabled: bool

    constructor (enabled: bool)
      ensures View() == Hub(map[], map[]) && this.enabled == enabled
    {
      openTrades, lastTradeId := map[], map[];
      this.enabled := enabled;
    }

    function View(): Hub
      reads this
    {
      Hub(openTrades, lastTradeId)
    }

    /** The bookkeeping of `report_trade` and the body it posts. */
    method ReportTrade(t: Trade, freshId: Uuid, now: Time, lastCid: Option<string>) returns (post: Option<Record>)
      modifies this
      ensures !enabled ==> post.None? && View() == old(View())
      ensures enabled ==> View() == AfterReport(old(View()), t, freshId, now)
      ensures enabled ==> post == Some(Payload(t, Identity(old(View()), t, freshId, now), now, lastCid))
    {
      if !enabled {
        return None;
      }
      var tradeId, openAt;
      if t.exitPrice.None? {
        tradeId, openAt := freshId, now;
        openTrades := openTrades[t.agentId := (tradeId, openAt)];
      } else {
        if t.agentId in openTrades {
          tradeId, openAt := openTrades[t.agentId].0, openTrades[t.agentId].1;
        } else {
          tradeId, openAt := freshId, now;
        }
        openTrades := openTrades - {t.agentId};
      }
      lastTradeId := lastTradeId[t.agentId := tradeId];
      return Some(Payload(t, (tradeId, openAt), now, lastCid));
    }
  }

  // ------------------------------------------------------------------ the table

  type Rows = map<Uuid, Record>

  /** The first truthy value that came stays. */
  function FilledIn(stored: Option<string>, posted: Option<string>): Option<string> {
    if Truthy(posted) && !Truthy(stored) then posted else stored
  }

  function Merged(row: Record, body: Record): Record {
    row.(exitPrice := body.exitPrice,
         pnlUsdt := body.pnlUsdt,
         closeAt := body.closeAt,
         closeReason := body.closeReason,
         txHash := FilledIn(row.txHash, body.txHash),
         reasoningCid := FilledIn(row.reasoningCid, body.reasoningCid))
  }

  function Upsert(rows: Rows, body: Record): Rows {
    rows[body.id := if body.id in rows then Merged(rows[body.id], body) else body]
  }

  /** `POST /trades/{id}/tx-hash`; a 404 when there is no such trade. */
  function Patched(rows: Rows, id: Uuid, tx: string): Rows {
    if id in rows then rows[id := rows[id].(txHash := Some(tx))] else rows
  }

  class TradesTable {
    var rows: Rows

    constructor ()
      ensures rows == map[]
    {
      rows := map[];
    }

    method PushTrade(body: Record)
      modifies this
      ensures rows == Upsert(old(rows), body)
    {
      if body.id !in rows {
        rows := rows[body.id := body];
      } else {
        var row := rows[body.id];
        row := row.(exitPrice := body.exitPrice, pnlUsdt := body.pnlUsdt,
                    closeAt := body.closeAt, closeReason := body.closeReason);
        if Truthy(body.txHash) && !Truthy(row.txHash) {
          row := row.(txHash := body.txHash);
        }
        if Truthy(body.reasoningCid) && !Truthy(row.reasoningCid) {
          row := row.(reasoningCid := body.reasoningCid);
        }
        rows := rows[body.id := row];
      }
    }

    method PatchTradeTxHash(id: Uuid, tx: string) returns (found: bool)
      modifies this
      ensures found <==> id in old(rows)
      ensures rows == Patched(old(rows), id, tx)
    {
      found := id in rows;
      if found {
        rows := rows[id := rows[id].(txHash := Some(tx))];
      }
    }
  }

  // ------------------------------------------------------------------ laws of the upsert

  /** The row without the two fields that are filled in by whoever comes first. */
  function Core(r: Record): Record {
    r.(txHash := None, reasoningCid := None)
  }

  /** A POST that arrives `copies` times. */
  function Deliver(rows: Rows, body: Record, copies: nat): Rows {
    if copies == 0 then rows else Upsert(Deliver(rows, body, copies - 1), body)
  }

  /** Re-delivery changes nothing: any positive number of copies of a POST is as good as one. */
  lemma {:induction false} RedeliveryIsIdempotent(rows: Rows, body: Record, copies: nat)
    requires copies > 0
    ensures Deliver(rows, body, copies) == Upsert(rows, body)
  {
    if copies > 1 {
      RedeliveryIsIdempotent(rows, body, copies - 1);
    } else {
      assert Deliver(rows, body, 0) == rows;
    }
  }

  /** Two reports of one trade agree on everything an upsert never changes, but for the strategy and its hash: a
      restart that keeps the position may have put another strategy in charge. */
  predicate SameTrade(o: Record, c: Record) {
    && o.id == c.id && o.agentId == c.agentId && o.side == c.side && o.entryPrice == c.entryPrice
    && o.sizeUsdt == c.sizeUsdt && o.leverage == c.leverage && o.openAt == c.openAt
  }

  predicate SamePlan(o: Record, c: Record) {
    o.strategy == c.strategy && o.strategyHash == c.strategyHash
  }

  /** What the row of a closed trade holds, tx_hash and reasoning_cid apart: the close, under the strategy of the
      open if that arrived. */
  function Final(o: Record, c: Record, arrived: bool): Record {
    if arrived then Core(c).(strategy := o.strategy, strategyHash := o.strategyHash) else Core(c)
  }

  /** Whether the open was lost, delivered, or delivered many times, and however often the close was, the row is
      the close's in every other field. */
  lemma CloseSettles(rows: Rows, o: Record, c: Record, opens: nat, closes: nat)
    requires SameTrade(o, c) && o.id !in rows && closes > 0
    ensures c.id in Deliver(Deliver(rows, o, opens), c, closes)
    ensures Core(Deliver(Deliver(rows, o, opens), c, closes)[c.id]) == Final(o, c, opens > 0)
  {
    if opens > 0 {
      RedeliveryIsIdempotent(rows, o, opens);
    }
    RedeliveryIsIdempotent(Deliver(rows, o, opens), c, closes);
  }

  /** So the open may be lost without a trace exactly if the close names the same strategy and hash. */
  lemma OpenMayBeLostIff(rows: Rows, o: Record, c: Record, opens: nat, closes: nat)
    requires SameTrade(o, c) && o.id !in rows && opens > 0 && closes > 0
    ensures c.id in Deliver(rows, c, closes) && c.id in Deliver(Deliver(rows, o, opens), c, closes)
    ensures Core(Deliver(rows, c, closes)[c.id]) == Core(Deliver(Deliver(rows, o, opens), c, closes)[c.id])
       <==> SamePlan(o, c)
  {
    CloseSettles(rows, o, c, opens, closes);
    CloseSettles(rows, o, c, 0, closes);
  }

  /** Several POSTs one after the other. */
  function Posts(rows: Rows, bodies: seq<Record>): Rows {
    if bodies == [] then rows else Upsert(Posts(rows, bodies[..|bodies| - 1]), bodies[|bodies| - 1])
  }

  lemma {:induction false} NoneTruthySoFar(rows: Rows, bodies: seq<Record>, id: Uuid)
    requires id !in rows && forall b :: b in bodies ==> b.id == id && !Truthy(b.txHash)
    ensures if bodies == [] then id !in Posts(rows, bodies)
            else id in Posts(rows, bodies) && !Truthy(Posts(rows, bodies)[id].txHash)
  {
    if bodies != [] {
      NoneTruthySoFar(rows, bodies[..|bodies| - 1], id);
    }
  }

  /** Of all the POSTs about a trade the first one that knows its transaction hash decides it. */
  lemma {:induction false} FirstHashStays(rows: Rows, bodies: seq<Record>, id: Uuid, i: nat)
    requires id !in rows && (forall b :: b in bodies ==> b.id == id) && i < |bodies|
    requires Truthy(bodies[i].txHash) && forall j :: 0 <= j < i ==> !Truthy(bodies[j].txHash)
    ensures id in Posts(rows, bodies) && Posts(rows, bodies)[id].txHash == bodies[i].txHash
  {
    var front := bodies[..|bodies| - 1];
    if i < |front| {
      FirstHashStays(rows, front, id, i);
    } else {
      NoneTruthySoFar(rows, front, id);
    }
  }

  /** Order matters: an open that arrives after its close takes the exit away again. */
  lemma LateOpenReopens(rows: Rows, o: Record, c: Record)
    requires o.id == c.id && o.exitPrice.None? && o.closeAt.None? && c.exitPrice.Some?
    ensures Upsert(rows, c)[c.id].exitPrice.Some?
    ensures Upsert(Upsert(rows, c), o)[c.id].exitPrice.None? && Upsert(Upsert(rows, c), o)[c.id].closeAt.None?
  {
  }
}
