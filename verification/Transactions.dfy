/**
  What the transactions of the ledger refuse and what they leave, said without the functions that
  specify them: when each one commits, the tolerances as numbers, and every column it writes.
*/
module Transactions {
  import opened Wrappers
  import opened Ledger
  import opened RealFacts

  /** Every order is terminal, and booked if it executed anything. */
  ghost predicate AllSettled(b: Book) {
    forall c :: c in b.orders ==>
      && b.orders[c].status in {Filled, Canceled, Rejected, Expired, ExpiredInMatch}
      && (b.orders[c].executed > 0.0 ==> b.orders[c].applied)
  }

  /** An execution of order c that may be booked once. */
  predicate Bookable(b: Book, c: OrderId, side: Side) {
    && c in b.orders && b.orders[c].side == side && !b.orders[c].applied && b.orders[c].executed > 0.0
    && b.orders[c].status in {Filled, Canceled, Expired, ExpiredInMatch}
  }

  lemma IntentIs(b: Book, c: OrderId, side: Side, qty: real)
    ensures RecordIntent(b, c, side, qty).Success? <==>
      AllSettled(b) && c !in b.orders && (if side == Buy then b.open == None else b.open != None)
    ensures RecordIntent(b, c, side, qty) == Failure(UnresolvedOrder) <==> !AllSettled(b)
    ensures RecordIntent(b, c, side, qty).Success? ==>
      RecordIntent(b, c, side, qty).value == b.(orders := b.orders[c := OrderRow(side, qty, 0.0, PendingSubmit, false)])
  {
    if !AllSettled(b) {
      var d :| d in b.orders && Unresolved(b.orders[d]);
      assert HasUnresolved(b);
    }
  }

  lemma UpdateIs(b: Book, c: OrderId, executed: real, status: OrderStatus)
    ensures UpdateOrder(b, c, executed, status).Success? <==> c in b.orders
    ensures UpdateOrder(b, c, executed, status).Success? ==>
      var o := b.orders[c];
      UpdateOrder(b, c, executed, status).value
        == b.(orders := b.orders[c := OrderRow(o.side, o.requested, executed, status, o.applied)])
  {
  }

  lemma ApplyIs(b: Book, c: OrderId, side: Side)
    ensures ApplyOrder(b, c, side).Success? <==> Bookable(b, c, side)
    ensures ApplyOrder(b, c, side).Success? ==>
      var o := b.orders[c];
      ApplyOrder(b, c, side).value == b.(orders := b.orders[c := OrderRow(o.side, o.requested, o.executed, o.status, true)])
  {
  }

  lemma OpenIs(b: Book, c: Option<OrderId>, quantity: real, price: real, fee: real, stop: real, take: real)
    ensures OpenTradeTx(b, c, quantity, price, fee, stop, take).Success? <==>
      b.open == None && (c.Some? ==> Bookable(b, c.value, Buy))
    ensures OpenTradeTx(b, c, quantity, price, fee, stop, take).Success? ==>
      var b' := OpenTradeTx(b, c, quantity, price, fee, stop, take).value;
      && b'.closed == b.closed && b'.origins == b.origins + [c]
      && b'.open == Some(OpenTrade(|b.origins|, quantity, price, fee, stop, take, price, None, NoProtection,
                                   Totals(0.0, 0.0, 0.0), None))
      && b'.orders == if c.None? then b.orders else b.orders[c.value := b.orders[c.value].(applied := true)]
  {
    if c.Some? {
      ApplyIs(b, c.value, Buy);
    }
  }

  /**
    What a sale of `sold` out of t left: the row shrinks and a CLOSED row is split off while more
    than `dust` remains, else the whole row is closed. The entry fee is shared in proportion.
  */
  predicate Sold(b: Book, t: OpenTrade, sold: real, price: real, exitFee: real, cause: Cause, applied: Totals, dust: real,
                 b': Book)
    requires t.quantity > 0.0
  {
    var share := t.entryFee * (sold / t.quantity);
    var rest := t.quantity - sold;
    && |b'.closed| == |b.closed| + 1 && b.closed <= b'.closed && b'.origins == b.origins
    && var row := b'.closed[|b.closed|];
       && row.lineage == t.id && row.entryPrice == t.entryPrice && row.exitPrice == price && row.exitFee == exitFee
       && row.cause == cause && row.pnl == (price - t.entryPrice) * sold - share - exitFee
       && if rest > dust && rest > 0.0 then
            && row.quantity == sold && row.entryFee == share
            && b'.open == Some(t.(quantity := rest, entryFee := if t.entryFee < share then 0.0 else t.entryFee - share,
                                  applied := applied))
          else row.quantity == t.quantity && row.entryFee == t.entryFee && b'.open == None
  }

  lemma SettleIs(b: Book, t: OpenTrade, sold: real, price: real, exitFee: real, cause: Cause, applied: Totals, dust: real)
    requires t.quantity > 0.0 && dust >= 0.0
    ensures Settle(b, t, sold, price, exitFee, cause, applied, dust).orders == b.orders
    ensures Sold(b, t, sold, price, exitFee, cause, applied, dust,
                 Settle(b, t, sold, price, exitFee, cause, applied, dust))
  {
  }

  lemma CloseIs(b: Book, id: TradeId, price: real, exitFee: real, amount: Option<real>, c: Option<OrderId>)
    requires b.open.Some? ==> b.open.value.quantity > 0.0
    ensures CloseTradeTx(b, id, price, exitFee, amount, c).Success? <==>
      && b.open.Some? && b.open.value.id == id && (c.Some? ==> Bookable(b, c.value, Sell))
      && (amount.Some? ==> amount.value > 0.0)
    ensures CloseTradeTx(b, id, price, exitFee, amount, c).Success? ==>
      var b' := CloseTradeTx(b, id, price, exitFee, amount, c).value;
      var t := b.open.value;
      var sold := if amount.Some? && amount.value < t.quantity then amount.value else t.quantity;
      && b'.orders == (if c.None? then b.orders else b.orders[c.value := b.orders[c.value].(applied := true)])
      && Sold(b, t, sold, price, exitFee, if c.Some? then ByOrder(c.value) else Simulated, t.applied, 0.000000000001, b')
  {
    hide Settle, Sold;
    if c.Some? {
      ApplyIs(b, c.value, Sell);
    }
    if b.open.Some? && (c.Some? ==> Bookable(b, c.value, Sell)) {
      var t := b.open.value;
      var sold := if amount.Some? && amount.value < t.quantity then amount.value else t.quantity;
      var b1 := if c.None? then b else b.(orders := b.orders[c.value := b.orders[c.value].(applied := true)]);
      SameRows(b, b1, t, sold, price, exitFee, CauseOf(c), t.applied, CLOSE_DUST);
    }
  }

  lemma SameRows(b: Book, b1: Book, t: OpenTrade, sold: real, price: real, exitFee: real, cause: Cause, applied: Totals,
                 dust: real)
    requires b1 == b.(orders := b1.orders) && t.quantity > 0.0 && dust >= 0.0
    ensures Settle(b1, t, sold, price, exitFee, cause, applied, dust).orders == b1.orders
    ensures Sold(b, t, sold, price, exitFee, cause, applied, dust,
                 Settle(b1, t, sold, price, exitFee, cause, applied, dust))
  {
    hide Pnl, AllocatedEntryFee;
    SettleIs(b, t, sold, price, exitFee, cause, applied, dust);
  }

  /** Negative totals count as zero. */
  function NotNegative(x: real): real {
    if x < 0.0 then 0.0 else x
  }

  /** One 1e-9th of what the position was before it was sold in parts, but at least 1e-12. */
  predicate IsTolerance(t: OpenTrade, tol: real) {
    && tol >= 0.000000000001 && tol * 1000000000.0 >= t.quantity + t.applied.qty
    && (tol == 0.000000000001 || tol * 1000000000.0 == t.quantity + t.applied.qty)
  }

  /**
    A cumulative protective report is refused exactly if it falls behind what was applied, in
    quantity by more than the tolerance, in money by more than 1e-9; or if it brings more
    quantity but no quote, or more than is open. It is ignored if it brings no more than the
    tolerance. Else what it brings is sold at its average price.
  */
  lemma ProtectiveIs(b: Book, id: TradeId, report: Totals, tol: real)
    requires b.open.Some? && b.open.value.quantity > 0.0 && b.open.value.id == id && IsTolerance(b.open.value, tol)
    ensures var t := b.open.value; var done := ApplyProtectiveTx(b, id, report);
      var qty, quote, fee := NotNegative(report.qty), NotNegative(report.quote), NotNegative(report.fee);
      var more := qty - t.applied.qty;
      && (done.Success? <==>
            && more >= -tol && quote - t.applied.quote >= -0.000000001 && fee - t.applied.fee >= -0.000000001
            && (more > tol ==> quote > t.applied.quote && more <= t.quantity + tol))
      && (done.Success? && more <= tol ==> done.value == (b, NothingNew))
      && (done.Success? && more > tol ==>
            && done.value.0.orders == b.orders
            && done.value.1 == Applied(if more < t.quantity then more else t.quantity, done.value.0.open.Some?)
            && Sold(b, t, if more < t.quantity then more else t.quantity, (quote - t.applied.quote) / more,
                    if fee > t.applied.fee then fee - t.applied.fee else 0.0, ByProtection, Totals(qty, quote, fee), tol,
                    done.value.0))
  {
    hide Settle, Sold;
    var t := b.open.value;
    assert Tolerance(t.quantity + t.applied.qty) == tol;
    hide Tolerance;
    var qty, quote, fee := NotNegative(report.qty), NotNegative(report.quote), NotNegative(report.fee);
    assert Clamp(report) == Totals(qty, quote, fee);
    hide Clamp, NotNegative;
    var more := qty - t.applied.qty;
    if more > tol {
      var sold := if more < t.quantity then more else t.quantity;
      var price, exitFee := Ratio(quote - t.applied.quote, more), if fee > t.applied.fee then fee - t.applied.fee else 0.0;
      SettleIs(b, t, sold, price, exitFee, ByProtection, Totals(qty, quote, fee), tol);
      SettleOpen(b, t, sold, price, exitFee, ByProtection, Totals(qty, quote, fee), tol);
    }
  }

  lemma SettleOpen(b: Book, t: OpenTrade, sold: real, price: real, exitFee: real, cause: Cause, applied: Totals, dust: real)
    ensures Settle(b, t, sold, price, exitFee, cause, applied, dust).open.Some? <==> Max(0.0, t.quantity - sold) > dust
  {
    hide Pnl, AllocatedEntryFee;
  }

  /** The protection columns: only the open row with this id, and only these columns. */
  lemma ProtectionIs(b: Book, id: TradeId, list: Option<ListId>, status: Protection)
    ensures SetProtectionTx(b, id, list, status).Success? <==> b.open.Some? && b.open.value.id == id
    ensures ClearProtectionTx(b, id, status).Success? <==> b.open.Some? && b.open.value.id == id
    ensures SetProtectionTx(b, id, list, status).Success? ==>
      var t := b.open.value; var b' := SetProtectionTx(b, id, list, status).value;
      && b' == b.(open := b'.open) && b'.open.Some?
      && b'.open.value == t.(list := list, protection := status, base := b'.open.value.base)
      && b'.open.value.base == (if list == t.list then t.base else Some(t.applied))
    ensures ClearProtectionTx(b, id, status).Success? ==>
      ClearProtectionTx(b, id, status).value == b.(open := Some(b.open.value.(list := None, protection := status)))
  {
  }

  lemma RaiseIs(b: Book, id: TradeId, observed: real, level: real)
    ensures RaiseStopTx(b, id, observed, level).Success? <==> b.open.Some? && b.open.value.id == id
    ensures RaiseStopTx(b, id, observed, level).Success? ==>
      var t := b.open.value;
      RaiseStopTx(b, id, observed, level).value == b.(open := Some(t.(
        highest := if observed > t.highest then observed else t.highest, stop := if level > t.stop then level else t.stop)))
  {
  }
}
