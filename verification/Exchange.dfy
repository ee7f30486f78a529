/**
  The signed exchange client as the bot sees it: requests go out, replies may be missing, wrong
  or late. The field `venue` is the exchange's own state; the bot never reads it. A reply that
  passes the bot's validation is truthful about the moment it was produced:
    - a list reported as terminal is dead (a dead list may still be reported as executing);
    - a leg's executed quantity is exact, and zero for the leg that does not execute;
    - account fills add up to some execution the list really had;
    - an order's executed quantity is exact and an order reported as terminal is dead;
    - a successful cancellation means the list is dead.

  The ghost fields hold the last answer given about each list, each leg, each market order and the
  account fills of each order and each leg, the last free balance, lot quantity and order-book
  verdict, and how often was asked, so that the bot's contracts can say which answer a stored
  value or a refusal came from.
*/
module ExchangeClient {
  import opened Wrappers
  import opened Ledger
  import opened Venue
  import opened OcoReply

  datatype OrderDoc = OrderDoc(
    symbol: string, side: Side, client: OrderId, orderId: Option<int>, status: OrderStatus,
    executed: real, fills: seq<TradeFill>)

  predicate TruthfulList(v: Venue, symbol: string, l: ListId, doc: ListDoc) {
    Believable(doc, symbol, l) ==>
      l in v.lists && (TerminalList(doc.status) ==> v.lists[l].phase.Dead?)
  }

  predicate TruthfulLeg(v: Venue, l: ListId, leg: Leg, doc: LegDoc) {
    doc.clientId == LegId(leg, l) && doc.executed.Some? && l in v.lists ==>
      doc.executed.value == (if v.lists[l].winner == leg then Executed(v.lists[l]) else 0.0)
  }

  predicate TruthfulFills(v: Venue, symbol: string, l: ListId, orderId: int, fills: seq<TradeFill>) {
    l in v.lists && AllValid(fills, symbol, orderId) ==>
      Fill(FillTotals(fills, orderId).qty, FillTotals(fills, orderId).quote) in v.lists[l].cum
  }

  predicate TruthfulOrder(v: Venue, symbol: string, c: OrderId, doc: OrderDoc) {
    doc.symbol == symbol && doc.client == c ==>
      && c in v.orders && doc.executed == v.orders[c].executed
      && (TerminalStatus(doc.status) ==> v.orders[c].phase.Dead?)
  }

  class Exchange {
    var venue: Venue
    ghost var listAnswers: map<ListId, ListDoc>
    ghost var orderAnswers: map<OrderId, OrderDoc>
    ghost var legAnswers: map<(ListId, Leg), LegDoc>
    ghost var listQueries: nat
    ghost var orderQueries: nat
    ghost var fillAnswers: map<int, seq<TradeFill>>
    ghost var legFills: map<int, seq<TradeFill>>
    ghost var freeAnswer: real
    ghost var lotAnswer: real
    ghost var liquidAnswer: bool

    /** Time passes. */
    method Drift()
      requires GoodVenue(venue)
      modifies this`venue
      ensures Advance(old(venue), venue)
    {
      var v: Venue := *;
      if Advance(venue, v) {
        venue := v;
      } else {
        AdvanceReflexive(venue);
      }
    }

    method FreshListId() returns (l: ListId)
      requires GoodVenue(venue)
      ensures l !in venue.lists
    {
      l := AboveAll(venue.listLog);
    }

    method FreshOrderId() returns (c: OrderId)
      requires GoodVenue(venue)
      ensures c !in venue.orders
    {
      c := AboveAll(venue.orderLog);
    }

    method AcceptList(l: ListId, position: TradeId, quantity: real) returns (winner: Leg)
      modifies this`venue
      ensures venue == WithList(old(venue), l, position, quantity, winner)
    {
      winner := *;
      venue := WithList(venue, l, position, quantity, winner);
    }

    method AcceptOrder(c: OrderId, position: TradeId, side: Side, quantity: real)
      modifies this`venue
      ensures venue == WithOrder(old(venue), c, position, side, quantity)
    {
      venue := WithOrder(venue, c, position, side, quantity);
    }

    method CancelOrderList(l: ListId) returns (done: bool)
      requires GoodVenue(venue)
      modifies this`venue
      ensures Advance(old(venue), venue)
      ensures done ==> l in venue.lists && venue.lists[l].phase.Dead?
    {
      Drift();
      done := *;
      if !(l in venue.lists && venue.lists[l].phase.Dead?) {
        done := false;
      }
    }

    method GetOrderList(symbol: string, l: ListId) returns (reply: Option<ListDoc>)
      modifies this`listAnswers, this`listQueries
      ensures listQueries == old(listQueries) + 1
      ensures reply.Some? ==> TruthfulList(venue, symbol, l, reply.value)
      ensures listAnswers == if reply.Some? then old(listAnswers)[l := reply.value] else old(listAnswers)
    {
      var doc: ListDoc := *;
      var answered := *;
      reply := if answered && TruthfulList(venue, symbol, l, doc) then Some(doc) else None;
      listQueries := listQueries + 1;
      if reply.Some? {
        listAnswers := listAnswers[l := doc];
      }
    }

    method GetLeg(l: ListId, leg: Leg) returns (reply: Option<LegDoc>)
      modifies this`legAnswers
      ensures legAnswers == if reply.Some? then old(legAnswers)[(l, leg) := reply.value] else old(legAnswers)
      ensures reply.Some? ==> TruthfulLeg(venue, l, leg, reply.value)
    {
      var doc: LegDoc := *;
      var answered := *;
      reply := if answered && TruthfulLeg(venue, l, leg, doc) then Some(doc) else None;
      if reply.Some? {
        legAnswers := legAnswers[(l, leg) := doc];
      }
    }

    method MyTrades(symbol: string, l: ListId, orderId: int) returns (reply: Option<seq<TradeFill>>)
      modifies this`legFills
      ensures reply.Some? ==> orderId in legFills && legFills[orderId] == reply.value
      ensures reply.Some? ==> TruthfulFills(venue, symbol, l, orderId, reply.value)
    {
      var fills: seq<TradeFill> := *;
      var answered := *;
      reply := if answered && TruthfulFills(venue, symbol, l, orderId, fills) then Some(fills) else None;
      if reply.Some? {
        legFills := legFills[orderId := fills];
      }
    }

    method GetOrder(symbol: string, c: OrderId) returns (reply: Option<OrderDoc>)
      modifies this`orderAnswers, this`orderQueries
      ensures orderQueries == old(orderQueries) + 1
      ensures reply.Some? ==> TruthfulOrder(venue, symbol, c, reply.value)
      ensures orderAnswers == if reply.Some? then old(orderAnswers)[c := reply.value] else old(orderAnswers)
    {
      var doc: OrderDoc := *;
      var answered := *;
      reply := if answered && TruthfulOrder(venue, symbol, c, doc) then Some(doc) else None;
      orderQueries := orderQueries + 1;
      if reply.Some? {
        orderAnswers := orderAnswers[c := doc];
      }
    }

    /** Account fills of a market order; only their amounts and prices are used. */
    method OrderTrades(orderId: int) returns (reply: Option<seq<TradeFill>>)
      modifies this`fillAnswers
      ensures fillAnswers == if reply.Some? then old(fillAnswers)[orderId := reply.value] else old(fillAnswers) - {orderId}
    {
      reply := *;
      fillAnswers := if reply.Some? then fillAnswers[orderId := reply.value] else fillAnswers - {orderId};
    }

    /** The commission in the quote asset, valued at prices that are not modelled. */
    method OrderFeeQuote() returns (fee: real)
      ensures fee >= 0.0
    {
      fee := *;
      fee := Max(fee, 0.0);
    }

    /** What normalize_quantity promises; module LotFilter proves it of the filters. */
    method NormalizeQuantity(quantity: real) returns (q: real)
      modifies this`lotAnswer
      ensures q <= Max(quantity, 0.0) && lotAnswer == q
    {
      q := *;
      if q > Max(quantity, 0.0) {
        q := 0.0;
      }
      lotAnswer := q;
    }

    /** The verdict of the order-book check; module OrderBook says what it is. */
    method CheckLiquidity() returns (liquid: bool)
      modifies this`liquidAnswer
      ensures liquid == liquidAnswer
    {
      liquid := *;
      liquidAnswer := liquid;
    }

    method AssetBalance() returns (free: real)
      modifies this`freeAnswer
      ensures free == freeAnswer
    {
      free := *;
      freeAnswer := free;
    }
  }

  lemma AdvanceReflexive(v: Venue)
    requires GoodVenue(v)
    ensures Advance(v, v)
  {
  }

  lemma AdvanceTransitive(a: Venue, b: Venue, c: Venue)
    requires Advance(a, b) && Advance(b, c)
    ensures Advance(a, c)
  {
    forall l | l in a.lists ensures OcoAdvance(a.lists[l], c.lists[l], a.grain) {
      assert OcoAdvance(a.lists[l], b.lists[l], a.grain) && OcoAdvance(b.lists[l], c.lists[l], b.grain);
    }
    forall o | o in a.orders ensures MarketAdvance(a.orders[o], c.orders[o]) {
      assert MarketAdvance(a.orders[o], b.orders[o]) && MarketAdvance(b.orders[o], c.orders[o]);
    }
  }

  /** An id larger than any used before. */
  method AboveAll(log: seq<nat>) returns (id: nat)
    ensures id !in log
  {
    id := 0;
    for i := 0 to |log|
      invariant forall k :: 0 <= k < i ==> log[k] < id
    {
      if log[i] >= id {
        id := log[i] + 1;
      }
    }
  }
}
