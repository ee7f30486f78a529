/**
  app/storage/db.py, class TradingDB: each transaction reads and updates the tables step by step
  and is rolled back when it raises. The functions of module Ledger say what it commits.
*/
module TradingDatabase {
  import opened Wrappers
  import opened Ledger

  /** The query for unresolved rows. */
  method AnyUnresolved(orders: map<OrderId, OrderRow>) returns (pending: bool)
    ensures pending <==> exists c :: c in orders && Unresolved(orders[c])
  {
    var todo := orders.Keys;
    pending := false;
    while todo != {} && !pending
      invariant todo <= orders.Keys
      invariant pending ==> exists c :: c in orders && Unresolved(orders[c])
      invariant !pending ==> forall c :: c in orders && c !in todo ==> !Unresolved(orders[c])
      decreases |todo|
    {
      var c :| c in todo;
      pending := Unresolved(orders[c]);
      todo := todo - {c};
    }
  }

  class TradingDB {
    var open: Option<OpenTrade>
    var closed: seq<ClosedTrade>
    var orders: map<OrderId, OrderRow>
    var origins: seq<Option<OrderId>>

    function Tables(): Book
      reads this
    {
      Book(open, closed, orders, origins)
    }

    constructor ()
      ensures Tables() == EMPTY_BOOK
    {
      open, closed, orders, origins := None, [], map[], [];
    }

    /** The except branch of the connection context: every change since `saved` is undone. */
    method Rollback(saved: Book)
      modifies this
      ensures Tables() == saved
    {
      open, closed, orders, origins := saved.open, saved.closed, saved.orders, saved.origins;
    }

    /** COMMIT, which may still fail (a full or locked disk) and then rolls back. */
    method Commit(saved: Book) returns (r: Result<(), DbError>)
      modifies this
      ensures (r == Success(()) && Tables() == old(Tables())) || (r == Failure(Disk) && Tables() == saved)
    {
      if * {
        Rollback(saved);
        return Failure(Disk);
      }
      return Success(());
    }

    method HasUnresolvedOrder() returns (pending: bool)
      ensures pending == HasUnresolved(Tables())
    {
      pending := AnyUnresolved(orders);
    }

    method RecordOrderIntent(c: OrderId, side: Side, qty: real) returns (r: Result<(), DbError>)
      modifies this
      ensures r.Success? ==> RecordIntent(old(Tables()), c, side, qty) == Success(Tables())
      ensures r.Failure? ==> Tables() == old(Tables())
      ensures r.Failure? ==> r.error == Disk || RecordIntent(old(Tables()), c, side, qty) == Failure(r.error)
    {
      var saved := Tables();
      var pending := HasUnresolvedOrder();
      if pending {
        return Failure(UnresolvedOrder);
      }
      if (side.Buy? && open.Some?) || (side.Sell? && open.None?) {
        return Failure(SideConflict);
      }
      if c in orders {
        return Failure(DuplicateOrder);
      }
      orders := orders[c := OrderRow(side, qty, 0.0, PendingSubmit, false)];
      r := Commit(saved);
    }

    method UpdateOrderRecord(c: OrderId, executed: real, status: OrderStatus) returns (r: Result<(), DbError>)
      modifies this
      ensures r.Success? ==> UpdateOrder(old(Tables()), c, executed, status) == Success(Tables())
      ensures r.Failure? ==> Tables() == old(Tables())
      ensures r.Failure? ==> r.error == Disk || UpdateOrder(old(Tables()), c, executed, status) == Failure(r.error)
    {
      var saved := Tables();
      if c !in orders {
        return Failure(NotUpdatedOnce);
      }
      orders := orders[c := orders[c].(executed := executed, status := status)];
      r := Commit(saved);
    }

    /** The guarded UPDATE inside a transaction: it must hit exactly one row. */
    method ApplyOrderConn(c: OrderId, side: Side) returns (r: Result<(), DbError>)
      modifies this`orders
      ensures r.Success? ==> ApplyOrder(old(Tables()), c, side) == Success(Tables())
      ensures r.Failure? ==> Tables() == old(Tables()) && ApplyOrder(Tables(), c, side) == Failure(r.error)
    {
      if c !in orders || orders[c].side != side || orders[c].applied
         || orders[c].executed <= 0.0 || !AppliableStatus(orders[c].status) {
        return Failure(OrderNotApplicable);
      }
      orders := orders[c := orders[c].(applied := true)];
      return Success(());
    }

    method OpenTrade(c: Option<OrderId>, quantity: real, price: real, fee: real, stop: real, take: real)
      returns (r: Result<TradeId, DbError>)
      modifies this
      ensures r.Success? ==> OpenTradeTx(old(Tables()), c, quantity, price, fee, stop, take) == Success(Tables())
                             && Tables().open.Some? && Tables().open.value.id == r.value
      ensures r.Failure? ==> Tables() == old(Tables())
      ensures r.Failure? ==> r.error == Disk || OpenTradeTx(old(Tables()), c, quantity, price, fee, stop, take) == Failure(r.error)
    {
      var saved := Tables();
      if c.Some? {
        var applied := ApplyOrderConn(c.value, Buy);
        if applied.Failure? {
          return Failure(applied.error);
        }
      }
      if open.Some? {
        // The unique index refuses a second OPEN row; the order is unapplied again.
        Rollback(saved);
        return Failure(OpenTradeExists);
      }
      var id := |origins|;
      open := Some(Ledger.OpenTrade(id, quantity, price, fee, stop, take, price, None, NoProtection,
                                    Totals(0.0, 0.0, 0.0), None));
      origins := origins + [c];
      var done := Commit(saved);
      r := if done.Success? then Success(id) else Failure(done.error);
    }

    /** The row updates shared by close_trade and apply_protective_execution. */
    method BookSale(t: Ledger.OpenTrade, sold: real, price: real, exitFee: real, cause: Cause,
                    applied: Totals, dust: real)
      requires open == Some(t) && t.quantity > 0.0
      modifies this`open, this`closed
      ensures Tables() == Settle(old(Tables()), t, sold, price, exitFee, cause, applied, dust)
    {
      var ratio := if t.quantity > 0.0 then Ratio(sold, t.quantity) else 1.0;
      var entryFeeShare := t.entryFee * ratio;
      var gross := (price - t.entryPrice) * sold;
      var pnl := gross - entryFeeShare - exitFee;
      assert entryFeeShare == AllocatedEntryFee(t, sold) && pnl == Pnl(t, sold, price, exitFee);
      var remaining := Max(0.0, t.quantity - sold);
      hide Pnl, AllocatedEntryFee, Ratio;
      if remaining > dust {
        open := Some(t.(quantity := remaining, entryFee := Max(0.0, t.entryFee - entryFeeShare), applied := applied));
        closed := closed + [ClosedTrade(t.id, sold, t.entryPrice, price, entryFeeShare, exitFee, pnl, cause)];
      } else {
        open := None;
        closed := closed + [ClosedTrade(t.id, t.quantity, t.entryPrice, price, t.entryFee, exitFee, pnl, cause)];
      }
    }

    method CloseTrade(id: TradeId, price: real, exitFee: real, executed: Option<real>, c: Option<OrderId>)
      returns (r: Result<(), DbError>)
      requires open.Some? ==> open.value.quantity > 0.0
      modifies this
      ensures r.Success? ==> CloseTradeTx(old(Tables()), id, price, exitFee, executed, c) == Success(Tables())
      ensures r.Failure? ==> Tables() == old(Tables())
      ensures r.Failure? ==> r.error == Disk || CloseTradeTx(old(Tables()), id, price, exitFee, executed, c) == Failure(r.error)
    {
      var saved := Tables();
      if open.None? || open.value.id != id {
        return Failure(NoOpenTrade);
      }
      var t := open.value;
      if c.Some? {
        var applied := ApplyOrderConn(c.value, Sell);
        if applied.Failure? {
          return Failure(applied.error);
        }
      }
      var sold := if executed.None? then t.quantity else Min(t.quantity, Max(0.0, executed.value));
      if sold <= 0.0 {
        Rollback(saved);
        return Failure(NothingExecuted);
      }
      BookSale(t, sold, price, exitFee, CauseOf(c), t.applied, CLOSE_DUST);
      r := Commit(saved);
    }

    method ApplyProtectiveExecution(id: TradeId, cumulative: Totals) returns (r: Result<Outcome, DbError>)
      requires open.Some? ==> open.value.quantity > 0.0
      modifies this
      ensures r.Success? ==> ApplyProtectiveTx(old(Tables()), id, cumulative) == Success((Tables(), r.value))
      ensures r.Failure? ==> Tables() == old(Tables())
      ensures r.Failure? ==> r.error == Disk || ApplyProtectiveTx(old(Tables()), id, cumulative) == Failure(r.error)
    {
      hide Settle;
      var saved := Tables();
      if open.None? || open.value.id != id {
        return Success(Absent);
      }
      var t := open.value;
      var total := Clamp(cumulative);
      var tolerance := Tolerance(t.quantity + t.applied.qty);
      if total.qty + tolerance < t.applied.qty {
        return Failure(QuantityBackwards);
      }
      if total.quote + MONEY_EPS < t.applied.quote || total.fee + MONEY_EPS < t.applied.fee {
        return Failure(AccountingBackwards);
      }
      var delta := Max(0.0, total.qty - t.applied.qty);
      if delta <= tolerance {
        return Success(NothingNew);
      }
      var deltaQuote := Max(0.0, total.quote - t.applied.quote);
      var deltaFee := Max(0.0, total.fee - t.applied.fee);
      if deltaQuote <= 0.0 {
        return Failure(NoQuoteValue);
      }
      var price := Ratio(deltaQuote, delta);
      if delta > t.quantity + tolerance {
        return Failure(ExceedsPosition);
      }
      var sold := Min(t.quantity, delta);
      BookSale(t, sold, price, deltaFee, ByProtection, total, tolerance);
      var done := Commit(saved);
      r := if done.Success? then Success(Applied(sold, Max(0.0, t.quantity - sold) > tolerance)) else Failure(done.error);
    }

    method SetTradeProtection(id: TradeId, list: Option<ListId>, status: Protection) returns (r: Result<(), DbError>)
      modifies this
      ensures r.Success? ==> SetProtectionTx(old(Tables()), id, list, status) == Success(Tables())
      ensures r.Failure? ==> Tables() == old(Tables())
      ensures r.Failure? ==> r.error == Disk || SetProtectionTx(old(Tables()), id, list, status) == Failure(r.error)
    {
      var saved := Tables();
      if open.None? || open.value.id != id {
        return Failure(NoOpenTrade);
      }
      var t := open.value;
      if t.list != list {
        // A new list counts its own fills from zero: keep what is applied as its baseline.
        open := Some(t.(list := list, protection := status, base := Some(t.applied)));
      } else {
        open := Some(t.(list := list, protection := status));
      }
      r := Commit(saved);
    }

    method ClearTradeProtection(id: TradeId, status: Protection) returns (r: Result<(), DbError>)
      modifies this
      ensures r.Success? ==> ClearProtectionTx(old(Tables()), id, status) == Success(Tables())
      ensures r.Failure? ==> Tables() == old(Tables())
      ensures r.Failure? ==> r.error == Disk || ClearProtectionTx(old(Tables()), id, status) == Failure(r.error)
    {
      var saved := Tables();
      if open.None? || open.value.id != id {
        return Failure(NoOpenTrade);
      }
      open := Some(open.value.(list := None, protection := status));
      r := Commit(saved);
    }

    /** Neither the high-water mark nor the stop ever falls. */
    method RaisePositionStop(id: TradeId, observed: real, level: real) returns (r: Result<(), DbError>)
      modifies this
      ensures r.Success? ==> RaiseStopTx(old(Tables()), id, observed, level) == Success(Tables())
      ensures r.Success? ==> open.Some? && open.value.stop >= old(open).value.stop && open.value.highest >= old(open).value.highest
      ensures r.Failure? ==> Tables() == old(Tables())
      ensures r.Failure? ==> r.error == Disk || RaiseStopTx(old(Tables()), id, observed, level) == Failure(r.error)
    {
      var saved := Tables();
      if open.None? || open.value.id != id {
        return Failure(NoOpenTrade);
      }
      var t := open.value;
      var newHigh := Max(t.highest, observed);
      var newStop := Max(t.stop, level);
      open := Some(t.(highest := newHigh, stop := newStop));
      r := Commit(saved);
    }
  }
}
