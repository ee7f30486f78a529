/**
  The exchange as the environment of the bot: two-leg OCO lists and market orders, each known by
  the client id it was submitted under. The bot never reads this state; it only sees replies.

  The assumptions made about the exchange are exactly `Advance` below (what may happen to a
  request) and the truthfulness predicates of module Exchange (what a reply may claim):
    - a request may stay in flight, arrive, or be lost; a dead list or order never executes again;
    - only one leg of a list executes, and at most the quantity of the list;
    - fills come in multiples of the lot size `grain`: two cumulative executions of one list
      differ by at least `grain`, and so do an execution and the whole quantity unless equal.
*/
module Venue {
  import opened Ledger

  datatype Phase = InFlight | Live | Dead

  datatype Leg = TakeProfitLeg | StopLeg

  datatype Fill = Fill(qty: real, quote: real)

  /** `cum` is the history of cumulative executions; `winner` the one leg that may execute. */
  datatype Oco = Oco(position: TradeId, quantity: real, phase: Phase, cum: seq<Fill>, winner: Leg)

  datatype Market = Market(position: TradeId, side: Side, quantity: real, phase: Phase, executed: real)

  /** The logs list every request ever submitted, in order. */
  datatype Venue = Venue(
    grain: real, lists: map<ListId, Oco>, orders: map<OrderId, Market>,
    listLog: seq<ListId>, orderLog: seq<OrderId>)

  function Last(o: Oco): Fill {
    if o.cum == [] then Fill(0.0, 0.0) else o.cum[|o.cum| - 1]
  }

  function Executed(o: Oco): real {
    Last(o).qty
  }

  predicate CanExecute(o: Oco) {
    !o.phase.Dead? && Executed(o) < o.quantity
  }

  predicate GoodOco(o: Oco, grain: real) {
    && o.quantity > 0.0
    && o.cum != [] && o.cum[0] == Fill(0.0, 0.0)
    && (forall i, j :: 0 <= i < j < |o.cum| ==>
          o.cum[i].qty + grain <= o.cum[j].qty && o.cum[i].quote < o.cum[j].quote)
    && (forall i :: 1 <= i < |o.cum| ==>
          o.cum[i].qty == o.quantity || o.cum[i].qty + grain <= o.quantity)
    && (o.phase.InFlight? ==> |o.cum| == 1)
  }

  predicate GoodMarket(m: Market) {
    && 0.0 <= m.executed <= m.quantity
    && (m.phase.InFlight? ==> m.executed == 0.0)
  }

  predicate NoDuplicates(log: seq<nat>) {
    forall i, j :: 0 <= i < j < |log| ==> log[i] != log[j]
  }

  ghost predicate GoodVenue(v: Venue) {
    && v.grain > 0.0
    && NoDuplicates(v.listLog) && NoDuplicates(v.orderLog)
    && (forall l :: l in v.lists <==> l in v.listLog)
    && (forall c :: c in v.orders <==> c in v.orderLog)
    && (forall l :: l in v.lists ==> GoodOco(v.lists[l], v.grain))
    && (forall c :: c in v.orders ==> GoodMarket(v.orders[c]))
  }

  predicate OcoAdvance(a: Oco, b: Oco, grain: real) {
    && b.position == a.position && b.quantity == a.quantity && b.winner == a.winner
    && a.cum <= b.cum && GoodOco(b, grain)
    && (a.phase.Dead? ==> b == a)
    && (a.phase.Live? ==> !b.phase.InFlight?)
  }

  predicate MarketAdvance(a: Market, b: Market) {
    && b.position == a.position && b.quantity == a.quantity && b.side == a.side
    && a.executed <= b.executed && GoodMarket(b)
    && (a.phase.Dead? ==> b == a)
    && (a.phase.Live? ==> !b.phase.InFlight?)
  }

  /** Anything the exchange may do on its own between two actions of the bot. */
  predicate Advance(v: Venue, v': Venue) {
    && v'.grain == v.grain && v'.listLog == v.listLog && v'.orderLog == v.orderLog
    && v'.lists.Keys == v.lists.Keys && v'.orders.Keys == v.orders.Keys
    && (forall l :: l in v.lists ==> OcoAdvance(v.lists[l], v'.lists[l], v.grain))
    && (forall c :: c in v.orders ==> MarketAdvance(v.orders[c], v'.orders[c]))
  }

  function WithList(v: Venue, l: ListId, position: TradeId, quantity: real, winner: Leg): Venue {
    v.(lists := v.lists[l := Oco(position, quantity, InFlight, [Fill(0.0, 0.0)], winner)],
       listLog := v.listLog + [l])
  }

  function WithOrder(v: Venue, c: OrderId, position: TradeId, side: Side, quantity: real): Venue {
    v.(orders := v.orders[c := Market(position, side, quantity, InFlight, 0.0)],
       orderLog := v.orderLog + [c])
  }

  // ---------------------------------------------------------------- what was sold for a position

  function Sum(parts: map<nat, real>, log: seq<nat>): real {
    if log == [] then 0.0
    else
      var k := log[|log| - 1];
      Sum(parts, log[..|log| - 1]) + (if k in parts then parts[k] else 0.0)
  }

  function ListParts(v: Venue, p: TradeId): map<nat, real> {
    map l | l in v.lists && v.lists[l].position == p :: Executed(v.lists[l])
  }

  function SellParts(v: Venue, p: TradeId): map<nat, real> {
    map c | c in v.orders && v.orders[c].side.Sell? && v.orders[c].position == p :: v.orders[c].executed
  }

  function SoldByLists(v: Venue, p: TradeId): real {
    Sum(ListParts(v, p), v.listLog)
  }

  function SoldByOrders(v: Venue, p: TradeId): real {
    Sum(SellParts(v, p), v.orderLog)
  }

  /** Total executed by every list and every market SELL ever submitted for position p. */
  function Sold(v: Venue, p: TradeId): real {
    SoldByLists(v, p) + SoldByOrders(v, p)
  }

  function Part(parts: map<nat, real>, k: nat): real {
    if k in parts then parts[k] else 0.0
  }

  lemma {:induction false} SumSame(m: map<nat, real>, m': map<nat, real>, log: seq<nat>)
    requires forall k :: k in log ==> Part(m, k) == Part(m', k)
    ensures Sum(m, log) == Sum(m', log)
  {
    if log != [] {
      var k := log[|log| - 1];
      assert Part(m, k) == Part(m', k);
      SumSame(m, m', log[..|log| - 1]);
    }
  }

  lemma {:induction false} SumChange(m: map<nat, real>, m': map<nat, real>, log: seq<nat>, x: nat)
    requires NoDuplicates(log) && x in log
    requires forall k :: k in log && k != x ==> Part(m, k) == Part(m', k)
    ensures Sum(m', log) == Sum(m, log) - Part(m, x) + Part(m', x)
  {
    var n := |log| - 1;
    if log[n] == x {
      SumSame(m, m', log[..n]);
    } else {
      assert Part(m, log[n]) == Part(m', log[n]);
      assert x in log[..n];
      SumChange(m, m', log[..n], x);
    }
  }

  lemma SumAppend(m: map<nat, real>, log: seq<nat>, x: nat)
    ensures Sum(m, log + [x]) == Sum(m, log) + Part(m, x)
  {
    assert (log + [x])[..|log|] == log;
  }

  lemma {:induction false} SumOfNothing(m: map<nat, real>, log: seq<nat>)
    requires forall k :: k in log ==> Part(m, k) == 0.0
    ensures Sum(m, log) == 0.0
  {
    if log != [] {
      assert Part(m, log[|log| - 1]) == 0.0;
      SumOfNothing(m, log[..|log| - 1]);
    }
  }

  // ---------------------------------------------------------------- facts about one list

  /** Executions of one list are ordered: two of them differ by a whole number of lots. */
  lemma FillsOrdered(o: Oco, grain: real, f: Fill, g: Fill)
    requires GoodOco(o, grain) && grain > 0.0 && f in o.cum && g in o.cum
    ensures f == g || f.qty + grain <= g.qty || g.qty + grain <= f.qty
    ensures f.qty < g.qty <==> f.quote < g.quote
    ensures 0.0 <= f.qty <= Executed(o) <= o.quantity && 0.0 <= f.quote <= Last(o).quote
    ensures f.qty > 0.0 ==> f.qty == o.quantity || f.qty + grain <= o.quantity
  {
    var i :| 0 <= i < |o.cum| && o.cum[i] == f;
    var j :| 0 <= j < |o.cum| && o.cum[j] == g;
    assert i < |o.cum| - 1 ==> o.cum[i].qty + grain <= o.cum[|o.cum| - 1].qty;
    assert 0 < i ==> o.cum[0].qty + grain <= o.cum[i].qty;
    assert 0 < j ==> o.cum[0].qty + grain <= o.cum[j].qty;
  }

  /** A list that cannot execute any more never does. */
  lemma ExhaustedStays(a: Oco, b: Oco, grain: real)
    requires grain > 0.0 && GoodOco(a, grain) && OcoAdvance(a, b, grain) && !CanExecute(a)
    ensures Executed(b) == Executed(a) && !CanExecute(b)
  {
    if !a.phase.Dead? {
      assert b.cum[|a.cum| - 1] == Last(a);
      FillsOrdered(b, grain, Last(a), Last(b));
    }
  }
}
