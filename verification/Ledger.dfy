/**
  The `trades` and `orders` tables of app/storage/db.py, restricted to one (mode, symbol) pair.
  Every query of the source filters on that pair, so one such partition is a closed world.

  The functions here are the specifications of the transactions; class TradingDB implements
  them step by step. A Failure stands for the exception that rolls the transaction back.
  Quantities and money are exact reals and the source's comparison tolerances are kept.
*/
module Ledger {
  import opened Wrappers

  type OrderId = nat
  type ListId = nat
  type TradeId = nat

  datatype Side = Buy | Sell

  datatype OrderStatus =
    | PendingSubmit | Unknown | RecoveryRequired | New | PartiallyFilled | PendingCancel
    | Filled | Canceled | Rejected | Expired | ExpiredInMatch

  datatype OrderRow = OrderRow(side: Side, requested: real, executed: real, status: OrderStatus, applied: bool)

  /** `protection_status` of an open trade; NoProtection is the initial NULL. */
  datatype Protection =
    | NoProtection | Submitting | ProtectionUnknown | Executing | AllDone | Reject | ListExpired
    | Reconciled | CanceledForExit

  /** Cumulative protective execution over the life of one open position. */
  datatype Totals = Totals(qty: real, quote: real, fee: real)

  datatype OpenTrade = OpenTrade(
    id: TradeId, quantity: real, entryPrice: real, entryFee: real,
    stop: real, takeProfit: real, highest: real,
    list: Option<ListId>, protection: Protection, applied: Totals, base: Option<Totals>)

  datatype Cause = ByOrder(order: OrderId) | ByProtection | Simulated

  /** A CLOSED row. `lineage` is the open trade it was split from, `cause` what was executed. */
  datatype ClosedTrade = ClosedTrade(
    lineage: TradeId, quantity: real, entryPrice: real, exitPrice: real,
    entryFee: real, exitFee: real, pnl: real, cause: Cause)

  /**
    `open` is an Option because of the unique index on OPEN rows. `origins[i]` is the BUY order,
    if any, that opened trade i; its length is the next trade id.
  */
  datatype Book = Book(
    open: Option<OpenTrade>, closed: seq<ClosedTrade>,
    orders: map<OrderId, OrderRow>, origins: seq<Option<OrderId>>)

  const EMPTY_BOOK := Book(None, [], map[], [])

  datatype DbError =
    | UnresolvedOrder | SideConflict | DuplicateOrder | NotUpdatedOnce | OrderNotApplicable
    | OpenTradeExists | NoOpenTrade | NothingExecuted
    | QuantityBackwards | AccountingBackwards | NoQuoteValue | ExceedsPosition | Disk

  function Max(a: real, b: real): real { if a < b then b else a }

  function Min(a: real, b: real): real { if a < b then a else b }

  function Abs(x: real): real { if x < 0.0 then -x else x }

  // ---------------------------------------------------------------- orders

  predicate TerminalStatus(s: OrderStatus) {
    s in {Filled, Canceled, Rejected, Expired, ExpiredInMatch}
  }

  /** The statuses whose fills a position may be built from; REJECTED is not one of them. */
  predicate AppliableStatus(s: OrderStatus) {
    s in {Filled, Canceled, Expired, ExpiredInMatch}
  }

  predicate Unresolved(o: OrderRow) {
    !TerminalStatus(o.status) || (o.executed > 0.0 && !o.applied)
  }

  predicate HasUnresolved(b: Book) {
    exists c :: c in b.orders && Unresolved(b.orders[c])
  }

  function RecordIntent(b: Book, c: OrderId, side: Side, qty: real): Result<Book, DbError> {
    if HasUnresolved(b) then Failure(UnresolvedOrder)
    else if side.Buy? == b.open.Some? then Failure(SideConflict)
    else if c in b.orders then Failure(DuplicateOrder)
    else Success(b.(orders := b.orders[c := OrderRow(side, qty, 0.0, PendingSubmit, false)]))
  }

  function UpdateOrder(b: Book, c: OrderId, executed: real, status: OrderStatus): Result<Book, DbError> {
    if c !in b.orders then Failure(NotUpdatedOnce)
    else Success(b.(orders := b.orders[c := b.orders[c].(executed := executed, status := status)]))
  }

  function ApplyOrder(b: Book, c: OrderId, side: Side): Result<Book, DbError> {
    if c in b.orders && b.orders[c].side == side && !b.orders[c].applied
       && b.orders[c].executed > 0.0 && AppliableStatus(b.orders[c].status)
    then Success(b.(orders := b.orders[c := b.orders[c].(applied := true)]))
    else Failure(OrderNotApplicable)
  }

  function ApplyIfAny(b: Book, c: Option<OrderId>, side: Side): Result<Book, DbError> {
    if c.Some? then ApplyOrder(b, c.value, side) else Success(b)
  }

  // ---------------------------------------------------------------- positions

  function OpenTradeTx(b: Book, c: Option<OrderId>, quantity: real, price: real, fee: real,
                       stop: real, takeProfit: real): Result<Book, DbError>
  {
    var b1 :- ApplyIfAny(b, c, Buy);
    if b1.open.Some? then Failure(OpenTradeExists)
    else
      Success(b1.(
        open := Some(OpenTrade(|b1.origins|, quantity, price, fee, stop, takeProfit, price,
                               None, NoProtection, Totals(0.0, 0.0, 0.0), None)),
        origins := b1.origins + [c]))
  }

  function Ratio(x: real, y: real): real
    requires y != 0.0
  {
    x / y
  }

  function AllocatedEntryFee(t: OpenTrade, sold: real): real {
    t.entryFee * (if t.quantity > 0.0 then Ratio(sold, t.quantity) else 1.0)
  }

  function Pnl(t: OpenTrade, sold: real, price: real, exitFee: real): real {
    (price - t.entryPrice) * sold - AllocatedEntryFee(t, sold) - exitFee
  }

  /**
    Sell `sold` of the open trade. When more than `dust` remains the row shrinks and a CLOSED
    row is split off; otherwise the row itself becomes CLOSED and keeps its whole quantity.
  */
  function Settle(b: Book, t: OpenTrade, sold: real, price: real, exitFee: real,
                  cause: Cause, applied: Totals, dust: real): Book
  {
    var feeShare := AllocatedEntryFee(t, sold);
    var pnl := Pnl(t, sold, price, exitFee);
    var remaining := Max(0.0, t.quantity - sold);
    if remaining > dust then
      b.(open := Some(t.(quantity := remaining, entryFee := Max(0.0, t.entryFee - feeShare), applied := applied)),
         closed := b.closed + [ClosedTrade(t.id, sold, t.entryPrice, price, feeShare, exitFee, pnl, cause)])
    else
      b.(open := None,
         closed := b.closed + [ClosedTrade(t.id, t.quantity, t.entryPrice, price, t.entryFee, exitFee, pnl, cause)])
  }

  const CLOSE_DUST := 0.000000000001

  function CauseOf(c: Option<OrderId>): Cause {
    if c.Some? then ByOrder(c.value) else Simulated
  }

  function CloseTradeTx(b: Book, id: TradeId, price: real, exitFee: real,
                        executed: Option<real>, c: Option<OrderId>): Result<Book, DbError>
  {
    if b.open.None? || b.open.value.id != id then Failure(NoOpenTrade)
    else
      var t := b.open.value;
      var b1 :- ApplyIfAny(b, c, Sell);
      var sold := if executed.None? then t.quantity else Min(t.quantity, Max(0.0, executed.value));
      if sold <= 0.0 then Failure(NothingExecuted)
      else Success(Settle(b1, t, sold, price, exitFee, CauseOf(c), t.applied, CLOSE_DUST))
  }

  // ---------------------------------------------------------------- protective executions

  /** What apply_protective_execution reports: no open row, no new quantity, or a sale. */
  datatype Outcome = Absent | NothingNew | Applied(sold: real, partial: bool)

  function Tolerance(original: real): real {
    Max(CLOSE_DUST, original * 0.000000001)
  }

  const MONEY_EPS := 0.000000001

  function Clamp(total: Totals): Totals {
    Totals(Max(0.0, total.qty), Max(0.0, total.quote), Max(0.0, total.fee))
  }

  function ApplyProtectiveTx(b: Book, id: TradeId, cumulative: Totals): Result<(Book, Outcome), DbError> {
    if b.open.None? || b.open.value.id != id then Success((b, Absent))
    else
      var t := b.open.value;
      var total := Clamp(cumulative);
      var tol := Tolerance(t.quantity + t.applied.qty);
      if total.qty + tol < t.applied.qty then Failure(QuantityBackwards)
      else if total.quote + MONEY_EPS < t.applied.quote || total.fee + MONEY_EPS < t.applied.fee then
        Failure(AccountingBackwards)
      else
        var delta := Max(0.0, total.qty - t.applied.qty);
        if delta <= tol then Success((b, NothingNew))
        else
          var deltaQuote := Max(0.0, total.quote - t.applied.quote);
          var deltaFee := Max(0.0, total.fee - t.applied.fee);
          if deltaQuote <= 0.0 then Failure(NoQuoteValue)
          else if delta > t.quantity + tol then Failure(ExceedsPosition)
          else
            var sold := Min(t.quantity, delta);
            Success((Settle(b, t, sold, Ratio(deltaQuote, delta), deltaFee, ByProtection, total, tol),
                     Applied(sold, Max(0.0, t.quantity - sold) > tol)))
  }

  // ---------------------------------------------------------------- protection columns

  /** A new list identity moves the accounting baseline; the same identity leaves it alone. */
  function SetProtectionTx(b: Book, id: TradeId, list: Option<ListId>, status: Protection): Result<Book, DbError> {
    if b.open.None? || b.open.value.id != id then Failure(NoOpenTrade)
    else
      var t := b.open.value;
      Success(b.(open := Some(t.(
        list := list, protection := status,
        base := if t.list != list then Some(t.applied) else t.base))))
  }

  function ClearProtectionTx(b: Book, id: TradeId, status: Protection): Result<Book, DbError> {
    if b.open.None? || b.open.value.id != id then Failure(NoOpenTrade)
    else Success(b.(open := Some(b.open.value.(list := None, protection := status))))
  }

  function RaiseStopTx(b: Book, id: TradeId, observed: real, stop: real): Result<Book, DbError> {
    if b.open.None? || b.open.value.id != id then Failure(NoOpenTrade)
    else
      var t := b.open.value;
      Success(b.(open := Some(t.(highest := Max(t.highest, observed), stop := Max(t.stop, stop)))))
  }

  // ---------------------------------------------------------------- transactions as data

  datatype Op =
    | OpIntent(c: OrderId, side: Side, qty: real)
    | OpUpdate(c: OrderId, executed: real, status: OrderStatus)
    | OpOpen(origin: Option<OrderId>, quantity: real, price: real, fee: real, stop: real, takeProfit: real)
    | OpClose(id: TradeId, price: real, fee: real, amount: Option<real>, exit: Option<OrderId>)
    | OpProtective(id: TradeId, total: Totals)
    | OpSetProtection(id: TradeId, list: Option<ListId>, state: Protection)
    | OpClearProtection(id: TradeId, state: Protection)
    | OpRaiseStop(id: TradeId, observed: real, level: real)

  function Attempt(b: Book, op: Op): Result<Book, DbError> {
    match op
    case OpIntent(c, side, qty) => RecordIntent(b, c, side, qty)
    case OpUpdate(c, executed, status) => UpdateOrder(b, c, executed, status)
    case OpOpen(c, quantity, price, fee, stop, take) => OpenTradeTx(b, c, quantity, price, fee, stop, take)
    case OpClose(id, price, fee, amount, c) => CloseTradeTx(b, id, price, fee, amount, c)
    case OpProtective(id, total) =>
      var r :- ApplyProtectiveTx(b, id, total);
      Success(r.0)
    case OpSetProtection(id, list, status) => SetProtectionTx(b, id, list, status)
    case OpClearProtection(id, status) => ClearProtectionTx(b, id, status)
    case OpRaiseStop(id, observed, level) => RaiseStopTx(b, id, observed, level)
  }

  // ---------------------------------------------------------------- sums over a lineage

  /** What the CLOSED rows of one lineage add up to. */
  datatype Tally = Tally(qty: real, entryFee: real, exitFee: real, pnl: real)

  function TallyOf(rows: seq<ClosedTrade>, p: TradeId): Tally {
    if rows == [] then Tally(0.0, 0.0, 0.0, 0.0)
    else
      var t := TallyOf(rows[..|rows| - 1], p);
      var x := rows[|rows| - 1];
      if x.lineage == p
      then Tally(t.qty + x.quantity, t.entryFee + x.entryFee, t.exitFee + x.exitFee, t.pnl + x.pnl)
      else t
  }

  /** Quantity that lineage p accounts for: its CLOSED rows plus what is still open. */
  function LineageQty(b: Book, p: TradeId): real {
    TallyOf(b.closed, p).qty + (if b.open.Some? && b.open.value.id == p then b.open.value.quantity else 0.0)
  }

  function LineageEntryFee(b: Book, p: TradeId): real {
    TallyOf(b.closed, p).entryFee + (if b.open.Some? && b.open.value.id == p then b.open.value.entryFee else 0.0)
  }

  predicate WellFormed(b: Book) {
    && (b.open.Some? ==>
          b.open.value.id < |b.origins| && b.open.value.quantity > 0.0 && b.open.value.entryFee >= 0.0)
    && forall i :: 0 <= i < |b.closed| ==> b.closed[i].lineage < |b.origins|
  }
}
