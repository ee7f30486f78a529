/**
  The durable state of the bot for one symbol (the ledger) together with the exchange, and the
  steps that may change it. A step is one database transaction, one request sent, or a move of
  the exchange. The local variables of the bot are not part of the state: dying between two
  steps and starting again is a run like any other, so what holds in every reachable state
  holds after a crash at any point.

  `Guard` is what the code establishes before a transaction; class Broker proves that every
  transaction and every request it issues meets it.
*/
module Protocol {
  import opened Wrappers
  import opened Ledger
  import opened Venue
  import opened Accounting

  datatype World = World(book: Book, venue: Venue)

  datatype Step =
    | Tx(op: Op)
    | SubmitList(list: ListId, winner: Leg)
    | SubmitOrder(order: OrderId)
    | Environment

  predicate Holds(w: World, l: ListId) {
    w.book.open.Some? && w.book.open.value.list == Some(l)
  }

  /** What was applied to the open row from the list it currently names. */
  function AppliedFromList(t: OpenTrade): Fill {
    match t.base
    case Some(bs) => Fill(t.applied.qty - bs.qty, t.applied.quote - bs.quote)
    case None => Fill(t.applied.qty, t.applied.quote)
  }

  predicate Guard(w: World, op: Op) {
    match op
    case OpIntent(c, side, qty) =>
      // A fresh client id; a SELL only after the list was retired and for at most the position.
      // Positions are below a thousand million lots, so the ledger's tolerance is below one lot.
      && c !in w.venue.orders && qty > 0.0
      && (side.Buy? ==> Tolerance(qty) < w.venue.grain)
      && (side.Sell? && w.book.open.Some? ==>
            w.book.open.value.list == None && qty <= w.book.open.value.quantity)
    case OpUpdate(c, executed, status) =>
      // The record of an unresolved order follows the exchange and is never ahead of it.
      && c in w.book.orders && Unresolved(w.book.orders[c]) && 0.0 <= executed
      && (if c in w.venue.orders
          then executed <= w.venue.orders[c].executed
          else executed == 0.0)
      && (TerminalStatus(status) ==>
            c in w.venue.orders && w.venue.orders[c].phase.Dead? && w.venue.orders[c].executed == executed)
    case OpOpen(origin, quantity, price, fee, stop, take) =>
      // What was bought, less a commission taken from it.
      && origin.Some? && origin.value in w.book.orders
      && 0.0 < quantity <= w.book.orders[origin.value].executed && fee >= 0.0
    case OpClose(id, price, fee, amount, exit) =>
      exit.Some? && exit.value in w.book.orders && amount == Some(w.book.orders[exit.value].executed)
    case OpProtective(id, total) =>
      // The reported total is the base plus an execution the list really had.
      && w.book.open.Some? && w.book.open.value.list.Some?
      && var t := w.book.open.value; var l := t.list.value;
         l in w.venue.lists && t.base.Some?
         && Fill(total.qty - t.base.value.qty, total.quote - t.base.value.quote) in w.venue.lists[l].cum
    case OpSetProtection(id, list, state) =>
      // The same identity, or a fresh one when none is stored and no order is unresolved.
      && w.book.open.Some? && list.Some?
      && (w.book.open.value.list == list
          || (w.book.open.value.list == None && list.value !in w.venue.lists && !HasUnresolved(w.book)))
    case OpClearProtection(id, state) =>
      // Only a list that is dead and whose whole execution has been applied is forgotten.
      && w.book.open.Some? && w.book.open.value.list.Some?
      && var t := w.book.open.value; var l := t.list.value;
         l in w.venue.lists && w.venue.lists[l].phase.Dead?
         && Executed(w.venue.lists[l]) == AppliedFromList(t).qty
    case OpRaiseStop(id, observed, level) => true
  }

  predicate Next(w: World, s: Step, w': World) {
    match s
    case Tx(op) =>
      w'.venue == w.venue && Guard(w, op) && Attempt(w.book, op) == Success(w'.book)
    case SubmitList(l, winner) =>
      && w'.book == w.book && Holds(w, l) && l !in w.venue.lists
      && w'.venue == WithList(w.venue, l, w.book.open.value.id, w.book.open.value.quantity, winner)
    case SubmitOrder(c) =>
      && w'.book == w.book && c in w.book.orders && Unresolved(w.book.orders[c]) && c !in w.venue.orders
      && (w.book.orders[c].side.Sell? ==> w.book.open.Some?)
      && w'.venue == WithOrder(w.venue, c, if w.book.orders[c].side.Sell? then w.book.open.value.id else 0,
                               w.book.orders[c].side, w.book.orders[c].requested)
    case Environment =>
      w'.book == w.book && Advance(w.venue, w'.venue)
  }

  // ---------------------------------------------------------------- the invariant

  predicate IsPendingSell(w: World, c: OrderId) {
    IsUnresolved(w.book, c) && w.book.orders[c].side.Sell? && c in w.venue.orders
  }

  /** Executed by the unresolved SELL, if there is one, and not yet in the ledger. */
  ghost function PendingSell(w: World): real {
    if exists c :: IsPendingSell(w, c) then
      var c :| IsPendingSell(w, c); w.venue.orders[c].executed
    else 0.0
  }

  /** Executed by the list the open row names and not yet in the ledger. */
  function PendingList(w: World): real {
    if w.book.open.Some? && w.book.open.value.list.Some? && w.book.open.value.list.value in w.venue.lists
    then Executed(w.venue.lists[w.book.open.value.list.value]) - AppliedFromList(w.book.open.value).qty
    else 0.0
  }

  predicate OrderAgrees(w: World, c: OrderId)
    requires c in w.book.orders
  {
    var o := w.book.orders[c];
    && 0.0 <= o.executed && o.requested > 0.0
    && (o.side.Buy? ==> Tolerance(o.requested) < w.venue.grain)
    && (if c in w.venue.orders
        then o.side == w.venue.orders[c].side && o.requested == w.venue.orders[c].quantity
             && o.executed <= w.venue.orders[c].executed
        else o.executed == 0.0)
    && (TerminalStatus(o.status) ==>
          c in w.venue.orders && w.venue.orders[c].phase.Dead? && w.venue.orders[c].executed == o.executed)
    && (o.applied ==> o.executed > 0.0 && TerminalStatus(o.status))
  }

  predicate RecordsAgree(w: World) {
    && (forall c :: c in w.venue.orders ==> c in w.book.orders)
    && (forall c :: c in w.book.orders ==> OrderAgrees(w, c))
    && (forall c :: c in w.venue.orders && w.venue.orders[c].side.Sell? ==>
          w.venue.orders[c].position < |w.book.origins|)
  }

  predicate IsUnresolved(b: Book, c: OrderId) {
    c in b.orders && Unresolved(b.orders[c])
  }

  ghost predicate OneUnresolved(b: Book) {
    forall c, d :: IsUnresolved(b, c) && IsUnresolved(b, d) ==> c == d
  }

  /** An unresolved BUY finds no position; an unresolved SELL a position without a list, big enough. */
  ghost predicate UnresolvedFits(w: World) {
    forall c :: IsUnresolved(w.book, c) ==>
      if w.book.orders[c].side.Buy? then w.book.open.None?
      else
        && w.book.open.Some? && w.book.open.value.list == None
        && w.book.orders[c].requested <= w.book.open.value.quantity
        && (c in w.venue.orders ==> w.venue.orders[c].position == w.book.open.value.id)
  }

  ghost predicate OrdersInv(w: World) {
    RecordsAgree(w) && OneUnresolved(w.book) && UnresolvedFits(w)
  }

  /** Every list that may still execute is the one named by the open row it was submitted for. */
  predicate NoLostList(w: World) {
    forall l :: l in w.venue.lists && CanExecute(w.venue.lists[l]) ==>
      Holds(w, l) && w.venue.lists[l].position == w.book.open.value.id
  }

  predicate ListsInv(w: World) {
    && NoLostList(w)
    && (forall l :: l in w.venue.lists ==> w.venue.lists[l].position < |w.book.origins|)
    && (w.book.open.Some? ==>
          var t := w.book.open.value;
          && t.applied.qty >= 0.0 && t.applied.quote >= 0.0 && t.applied.fee >= 0.0
          && (t.list.Some? ==>
                && t.base.Some? && t.base.value.qty >= 0.0 && t.base.value.quote >= 0.0
                && if t.list.value in w.venue.lists then
                     var o := w.venue.lists[t.list.value];
                     && o.position == t.id && AppliedFromList(t) in o.cum
                     && t.quantity + AppliedFromList(t).qty == o.quantity
                   else t.base == Some(t.applied)))
  }

  /** The exchange's sales against the ledger's, position by position. */
  ghost predicate SalesInv(w: World) {
    && (forall p: TradeId :: p < |w.book.origins| && !(w.book.open.Some? && w.book.open.value.id == p) ==>
          Sold(w.venue, p) <= TallyOf(w.book.closed, p).qty)
    && (w.book.open.Some? ==>
          var t := w.book.open.value;
          && Sold(w.venue, t.id) == TallyOf(w.book.closed, t.id).qty + PendingList(w) + PendingSell(w)
          && SoldByLists(w.venue, t.id) == t.applied.qty + PendingList(w)
          && t.applied.qty <= TallyOf(w.book.closed, t.id).qty
          && Tolerance(LineageQty(w.book, t.id)) < w.venue.grain)
  }

  function CountOrigins(origins: seq<Option<OrderId>>, c: OrderId): nat {
    if origins == [] then 0
    else CountOrigins(origins[..|origins| - 1], c) + (if origins[|origins| - 1] == Some(c) then 1 else 0)
  }

  function CountCauses(rows: seq<ClosedTrade>, c: OrderId): nat {
    if rows == [] then 0
    else CountCauses(rows[..|rows| - 1], c) + (if rows[|rows| - 1].cause == ByOrder(c) then 1 else 0)
  }

  /** How many trades order c opened plus how many sales were booked for it. */
  function Effects(b: Book, c: OrderId): nat {
    CountOrigins(b.origins, c) + CountCauses(b.closed, c)
  }

  predicate AppliedOnce(b: Book, c: OrderId) {
    Effects(b, c) == (if c in b.orders && b.orders[c].applied then 1 else 0)
  }

  ghost predicate EffectsInv(b: Book) {
    forall c: OrderId :: AppliedOnce(b, c)
  }

  ghost predicate Inv(w: World) {
    && WellFormed(w.book) && GoodVenue(w.venue)
    && OrdersInv(w) && ListsInv(w) && SalesInv(w) && EffectsInv(w.book)
  }

  predicate Initial(w: World) {
    w.book == EMPTY_BOOK && w.venue.grain > 0.0
    && w.venue == Venue(w.venue.grain, map[], map[], [], [])
  }

  // ---------------------------------------------------------------- runs

  ghost predicate IsRun(ws: seq<World>, ss: seq<Step>) {
    && |ws| == |ss| + 1
    && forall i :: 0 <= i < |ss| ==> Next(ws[i], ss[i], ws[i + 1])
  }
}
