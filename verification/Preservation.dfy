/**
  Every step of the protocol keeps the invariant, one lemma per kind of step. The lemmas take
  the step apart into what the transaction returned and what its guard gave, so that each part
  of the invariant is re-established from the few facts it needs.
*/
module Preservation {
  import opened Wrappers
  import opened Ledger
  import opened Venue
  import opened Accounting
  import opened Protocol

  // ---------------------------------------------------------------- pending sales and counts

  lemma PendingSellIs(w: World, c: OrderId)
    requires OneUnresolved(w.book) && IsPendingSell(w, c)
    ensures PendingSell(w) == w.venue.orders[c].executed
  {
  }

  lemma NoPendingSell(w: World)
    requires forall c :: !IsPendingSell(w, c)
    ensures PendingSell(w) == 0.0
  {
  }

  lemma CauseAppend(rows: seq<ClosedTrade>, x: ClosedTrade, c: OrderId)
    ensures CountCauses(rows + [x], c) == CountCauses(rows, c) + (if x.cause == ByOrder(c) then 1 else 0)
  {
    assert (rows + [x])[..|rows|] == rows;
  }

  lemma OriginAppend(origins: seq<Option<OrderId>>, x: Option<OrderId>, c: OrderId)
    ensures CountOrigins(origins + [x], c) == CountOrigins(origins, c) + (if x == Some(c) then 1 else 0)
  {
    assert (origins + [x])[..|origins|] == origins;
  }

  // ---------------------------------------------------------------- frames
  // A part of the invariant survives a step that leaves alone what it talks about.

  lemma EffectsFrame(b: Book, b': Book)
    requires EffectsInv(b) && b'.closed == b.closed && b'.origins == b.origins
    requires forall c :: (c in b.orders && b.orders[c].applied) <==> (c in b'.orders && b'.orders[c].applied)
    ensures EffectsInv(b')
  {
    forall c: OrderId ensures AppliedOnce(b', c) {
      assert AppliedOnce(b, c);
    }
  }

  predicate SameHolding(t: Option<OpenTrade>, t': Option<OpenTrade>) {
    if t.None? then t'.None?
    else t'.Some? && t'.value.id == t.value.id && t'.value.quantity == t.value.quantity
         && t'.value.applied == t.value.applied && t'.value.entryFee == t.value.entryFee
  }

  lemma SalesFrame(w: World, w': World)
    requires SalesInv(w) && w'.book.closed == w.book.closed && w'.book.origins == w.book.origins
    requires SameHolding(w.book.open, w'.book.open) && w'.venue.grain == w.venue.grain
    requires forall p: TradeId :: Sold(w'.venue, p) == Sold(w.venue, p) && SoldByLists(w'.venue, p) == SoldByLists(w.venue, p)
    requires PendingList(w') == PendingList(w) && PendingSell(w') == PendingSell(w)
    ensures SalesInv(w')
  {
    hide Sold, SoldByLists, PendingList, PendingSell;
  }

  lemma ListsFrame(w: World, w': World)
    requires ListsInv(w) && w'.book.open == w.book.open && w'.book.origins == w.book.origins
    requires w'.venue.lists == w.venue.lists
    ensures ListsInv(w')
  {
  }

  // ---------------------------------------------------------------- order records

  lemma IntentKeepsInv(w: World, c: OrderId, side: Side, qty: real, b': Book)
    requires Inv(w) && RecordIntent(w.book, c, side, qty) == Success(b')
    requires c !in w.venue.orders && qty > 0.0
    requires side.Buy? ==> Tolerance(qty) < w.venue.grain
    requires side.Sell? && w.book.open.Some? ==>
      w.book.open.value.list == None && qty <= w.book.open.value.quantity
    ensures Inv(World(b', w.venue))
  {
    hide GoodVenue, SalesInv, EffectsInv, ListsInv, WellFormed, Sold, SoldByLists;
    var w' := World(b', w.venue);
    forall d | d in b'.orders ensures OrderAgrees(w', d) {
      assert d != c ==> OrderAgrees(w, d);
    }
    forall d ensures IsUnresolved(b', d) <==> d == c {
      assert !IsUnresolved(w.book, d);
    }
    assert WellFormed(b') by { assert WellFormed(w.book); IntentWellFormed(w.book, c, side, qty, b'); }
    NoPendingSell(w);
    NoPendingSell(w');
    EffectsFrame(w.book, b');
    SalesFrame(w, w');
    ListsFrame(w, w');
  }

  lemma IntentWellFormed(b: Book, c: OrderId, side: Side, qty: real, b': Book)
    requires WellFormed(b) && RecordIntent(b, c, side, qty) == Success(b')
    ensures WellFormed(b')
  {
  }

  lemma UpdateKeepsOrders(w: World, c: OrderId, executed: real, status: OrderStatus, b': Book)
    requires OrdersInv(w) && UpdateOrder(w.book, c, executed, status) == Success(b')
    requires IsUnresolved(w.book, c) && 0.0 <= executed
    requires if c in w.venue.orders then executed <= w.venue.orders[c].executed else executed == 0.0
    requires TerminalStatus(status) ==>
      c in w.venue.orders && w.venue.orders[c].phase.Dead? && w.venue.orders[c].executed == executed
    ensures OrdersInv(World(b', w.venue)) && !w.book.orders[c].applied
  {
    var w' := World(b', w.venue);
    assert OrderAgrees(w, c);
    forall d | d in b'.orders ensures OrderAgrees(w', d) {
      assert OrderAgrees(w, d);
    }
    forall d | IsUnresolved(b', d) ensures d == c {
      assert d != c ==> IsUnresolved(w.book, d);
    }
  }

  lemma UpdateKeepsPending(w: World, c: OrderId, executed: real, status: OrderStatus, b': Book)
    requires OrdersInv(w) && UpdateOrder(w.book, c, executed, status) == Success(b')
    requires IsUnresolved(w.book, c) && OrdersInv(World(b', w.venue))
    ensures PendingSell(World(b', w.venue)) == PendingSell(w)
  {
    var w' := World(b', w.venue);
    hide UnresolvedFits;
    forall d | d != c ensures !IsPendingSell(w, d) && !IsPendingSell(w', d) {
      assert IsUnresolved(b', d) ==> IsUnresolved(w.book, d);
    }
    assert OrderAgrees(w', c);
    if IsPendingSell(w, c) {
      PendingSellIs(w, c);
      if IsPendingSell(w', c) {
        PendingSellIs(w', c);
      } else {
        NoPendingSell(w');
      }
    } else {
      NoPendingSell(w);
      NoPendingSell(w');
    }
  }

  lemma UpdateKeepsInv(w: World, c: OrderId, executed: real, status: OrderStatus, b': Book)
    requires Inv(w) && UpdateOrder(w.book, c, executed, status) == Success(b')
    requires IsUnresolved(w.book, c) && 0.0 <= executed
    requires if c in w.venue.orders then executed <= w.venue.orders[c].executed else executed == 0.0
    requires TerminalStatus(status) ==>
      c in w.venue.orders && w.venue.orders[c].phase.Dead? && w.venue.orders[c].executed == executed
    ensures Inv(World(b', w.venue))
  {
    hide GoodVenue, SalesInv, EffectsInv, ListsInv, OrdersInv, PendingSell, Sold, SoldByLists;
    var w' := World(b', w.venue);
    UpdateKeepsOrders(w, c, executed, status, b');
    UpdateKeepsPending(w, c, executed, status, b');
    EffectsFrame(w.book, b');
    SalesFrame(w, w');
    ListsFrame(w, w');
  }

  // ---------------------------------------------------------------- opening

  lemma OpenKeepsOrders(w: World, c: OrderId, b1: Book, b': Book)
    requires OrdersInv(w) && ApplyOrder(w.book, c, Buy) == Success(b1)
    requires b'.orders == b1.orders && b'.origins == w.book.origins + [Some(c)]
    ensures IsUnresolved(w.book, c) && w.book.open.None?
    ensures OrdersInv(World(b', w.venue)) && PendingSell(World(b', w.venue)) == 0.0
  {
    var w' := World(b', w.venue);
    assert IsUnresolved(w.book, c);
    forall d | d in b'.orders ensures OrderAgrees(w', d) {
      assert OrderAgrees(w, d);
    }
    forall d ensures !IsUnresolved(b', d) {
      assert d != c && IsUnresolved(b', d) ==> IsUnresolved(w.book, d);
    }
    NoPendingSell(w');
  }

  lemma OpenKeepsEffects(b: Book, c: OrderId, b1: Book, b': Book)
    requires EffectsInv(b) && ApplyOrder(b, c, Buy) == Success(b1)
    requires b'.orders == b1.orders && b'.origins == b.origins + [Some(c)] && b'.closed == b.closed
    ensures EffectsInv(b')
  {
    forall d: OrderId ensures AppliedOnce(b', d) {
      assert AppliedOnce(b, d);
      OriginAppend(b.origins, Some(c), d);
    }
  }

  lemma NothingSoldYet(w: World, p: TradeId)
    requires RecordsAgree(w) && ListsInv(w) && GoodVenue(w.venue) && p >= |w.book.origins|
    ensures Sold(w.venue, p) == 0.0 && SoldByLists(w.venue, p) == 0.0
  {
    SumOfNothing(ListParts(w.venue, p), w.venue.listLog);
    SumOfNothing(SellParts(w.venue, p), w.venue.orderLog);
  }

  lemma OpenKeepsSales(w: World, w': World)
    requires WellFormed(w.book) && SalesInv(w) && w.book.open.None? && w'.venue == w.venue
    requires w'.book.open.Some? && w'.book.closed == w.book.closed && |w'.book.origins| == |w.book.origins| + 1
    requires var t := w'.book.open.value;
      && t.id == |w.book.origins| && t.list == None && t.applied == Totals(0.0, 0.0, 0.0)
      && Tolerance(t.quantity) < w.venue.grain
      && Sold(w.venue, t.id) == 0.0 && SoldByLists(w.venue, t.id) == 0.0
    requires PendingSell(w') == 0.0
    ensures SalesInv(w')
  {
    TallyOfUnused(w.book.closed, |w.book.origins|);
    hide Sold, SoldByLists, TallyOf, PendingSell;
  }

  lemma OpenKeepsInv(w: World, c: OrderId, quantity: real, price: real, fee: real, stop: real, take: real, b': Book)
    requires Inv(w) && OpenTradeTx(w.book, Some(c), quantity, price, fee, stop, take) == Success(b')
    requires c in w.book.orders && 0.0 < quantity <= w.book.orders[c].executed && fee >= 0.0
    ensures Inv(World(b', w.venue))
  {
    BoughtIsSmall(w, c);
    hide GoodVenue, SalesInv, EffectsInv, OrdersInv, Sold, SoldByLists, PendingSell;
    var w' := World(b', w.venue);
    var b1 := ApplyOrder(w.book, c, Buy).value;
    OpenKeepsOrders(w, c, b1, b');
    OpenKeepsEffects(w.book, c, b1, b');
    assert RecordsAgree(w) by { OrdersInvParts(w); }
    NothingSoldYet(w, |w.book.origins|);
    OpenKeepsSales(w, w');
  }

  lemma BoughtIsSmall(w: World, c: OrderId)
    requires OrdersInv(w) && GoodVenue(w.venue) && c in w.book.orders
    ensures w.book.orders[c].executed <= w.book.orders[c].requested
    ensures w.book.orders[c].side.Buy? ==> Tolerance(w.book.orders[c].requested) < w.venue.grain
  {
    assert OrderAgrees(w, c);
  }

  lemma OrdersInvParts(w: World)
    requires OrdersInv(w)
    ensures RecordsAgree(w) && OneUnresolved(w.book) && UnresolvedFits(w)
  {
  }

  // ---------------------------------------------------------------- sales

  /** What a booked sale does: one CLOSED row, and the open row shrinks or goes. */
  predicate Sale(b: Book, b': Book, sold: real, cause: Cause) {
    && b.open.Some? && b'.origins == b.origins && |b'.closed| == |b.closed| + 1
    && b'.closed == b.closed + [b'.closed[|b.closed|]]
    && var t := b.open.value; var x := b'.closed[|b.closed|];
       && x.lineage == t.id && x.cause == cause
       && 0.0 < sold <= t.quantity
       && (if b'.open.Some?
           then b'.open.value.id == t.id && b'.open.value.quantity == t.quantity - sold && x.quantity == sold
                && b'.open.value.quantity > 0.0
           else x.quantity == t.quantity)
  }

  lemma SaleTallies(b: Book, b': Book, sold: real, cause: Cause, p: TradeId)
    requires Sale(b, b', sold, cause)
    ensures TallyOf(b'.closed, p).qty ==
      TallyOf(b.closed, p).qty + (if p == b.open.value.id then b'.closed[|b.closed|].quantity else 0.0)
  {
    TallyAppend(b.closed, b'.closed[|b.closed|], p);
  }

  lemma SaleEffects(b: Book, b': Book, sold: real, cause: Cause)
    requires EffectsInv(b) && Sale(b, b', sold, cause)
    requires forall d :: (d in b'.orders && b'.orders[d].applied) <==>
                         ((d in b.orders && b.orders[d].applied) || cause == ByOrder(d))
    requires cause.ByOrder? ==> !(cause.order in b.orders && b.orders[cause.order].applied)
    ensures EffectsInv(b')
  {
    forall d: OrderId ensures AppliedOnce(b', d) {
      assert AppliedOnce(b, d);
      CauseAppend(b.closed, b'.closed[|b.closed|], d);
    }
  }

  /** Booking a sale moves `sold` from what is pending into the ledger, so both still agree. */
  lemma SaleSales(w: World, w': World, sold: real, cause: Cause)
    requires SalesInv(w) && WellFormed(w.book) && w'.venue == w.venue && Sale(w.book, w'.book, sold, cause)
    requires PendingList(w') + PendingSell(w') == PendingList(w) + PendingSell(w) - sold || w'.book.open.None?
    requires PendingList(w) + PendingSell(w) <= w.book.open.value.quantity
    requires w'.book.open.Some? ==>
      && w'.book.open.value.applied.qty + PendingList(w') == w.book.open.value.applied.qty + PendingList(w)
      && w'.book.open.value.applied.qty <= w.book.open.value.applied.qty + sold
    ensures SalesInv(w')
  {
    forall p: TradeId {
      SaleTallies(w.book, w'.book, sold, cause, p);
    }
    hide Sold, SoldByLists, TallyOf, PendingSell, PendingList, Tolerance, WellFormed;
  }

  lemma SaleWellFormed(b: Book, b': Book, sold: real, cause: Cause)
    requires WellFormed(b) && Sale(b, b', sold, cause)
    requires b'.open.Some? ==> b'.open.value.entryFee >= 0.0
    ensures WellFormed(b')
  {
  }

  /** A successful close_trade books exactly what the unresolved SELL executed. */
  lemma CloseIsSale(w: World, c: OrderId, id: TradeId, price: real, fee: real, b': Book)
    requires OrdersInv(w) && WellFormed(w.book) && c in w.book.orders
    requires c in w.venue.orders ==> GoodMarket(w.venue.orders[c])
    requires CloseTradeTx(w.book, id, price, fee, Some(w.book.orders[c].executed), Some(c)) == Success(b')
    ensures IsPendingSell(w, c) && w.book.open.value.list == None && !w.book.orders[c].applied
    ensures TerminalStatus(w.book.orders[c].status) && w.book.orders[c].executed > 0.0
    ensures b'.orders == w.book.orders[c := w.book.orders[c].(applied := true)]
    ensures Sale(w.book, b', w.venue.orders[c].executed, ByOrder(c))
    ensures b'.open.Some? ==>
      && b'.open.value == w.book.open.value.(quantity := b'.open.value.quantity, entryFee := b'.open.value.entryFee)
      && b'.open.value.entryFee >= 0.0
  {
    assert ApplyOrder(w.book, c, Sell).Success?;
    assert IsUnresolved(w.book, c);
    assert OrderAgrees(w, c);
    hide Pnl, AllocatedEntryFee, OrdersInv;
  }

  lemma CloseKeepsOrders(w: World, c: OrderId, b': Book)
    requires OrdersInv(w) && IsPendingSell(w, c) && b'.origins == w.book.origins
    requires TerminalStatus(w.book.orders[c].status) && w.book.orders[c].executed > 0.0
    requires b'.orders == w.book.orders[c := w.book.orders[c].(applied := true)]
    ensures OrdersInv(World(b', w.venue)) && PendingSell(World(b', w.venue)) == 0.0
  {
    var w' := World(b', w.venue);
    forall d | d in b'.orders ensures OrderAgrees(w', d) {
      assert OrderAgrees(w, d);
    }
    forall d ensures !IsUnresolved(b', d) {
      assert d != c && IsUnresolved(b', d) ==> IsUnresolved(w.book, d);
    }
    NoPendingSell(w');
  }

  lemma CloseKeepsInv(w: World, c: OrderId, id: TradeId, price: real, fee: real, b': Book)
    requires Inv(w) && c in w.book.orders
    requires CloseTradeTx(w.book, id, price, fee, Some(w.book.orders[c].executed), Some(c)) == Success(b')
    ensures Inv(World(b', w.venue))
  {
    assert c in w.venue.orders ==> GoodMarket(w.venue.orders[c]);
    hide GoodVenue, SalesInv, EffectsInv, OrdersInv, PendingSell, CloseTradeTx, Sale, WellFormed;
    var w' := World(b', w.venue);
    CloseIsSale(w, c, id, price, fee, b');
    var sold := w.venue.orders[c].executed;
    assert b'.origins == w.book.origins && sold <= w.book.open.value.quantity by {
      SaleBasics(w.book, b', sold, ByOrder(c));
    }
    OrdersInvParts(w);
    PendingSellIs(w, c);
    CloseKeepsOrders(w, c, b');
    SaleWellFormed(w.book, b', sold, ByOrder(c));
    SaleEffects(w.book, b', sold, ByOrder(c));
    SaleSales(w, w', sold, ByOrder(c));
    SaleLists(w, w');
  }

  lemma SaleBasics(b: Book, b': Book, sold: real, cause: Cause)
    requires Sale(b, b', sold, cause)
    ensures b'.origins == b.origins && 0.0 < sold <= b.open.value.quantity
  {
  }

  lemma SaleLists(w: World, w': World)
    requires ListsInv(w) && w.book.open.Some? && w.book.open.value.list == None
    requires w'.venue == w.venue && w'.book.origins == w.book.origins
    requires w'.book.open.Some? ==> w'.book.open.value.applied == w.book.open.value.applied && w'.book.open.value.list == None
    ensures ListsInv(w')
  {
  }

  /** A protective transaction that changes the book books exactly the new quantity, if it fits. */
  lemma AppliedDelta(b: Book, t: OpenTrade, total: Totals, b': Book)
    requires b.open == Some(t) && t.applied.qty >= 0.0 && total.qty >= 0.0
    requires total.qty <= t.applied.qty + t.quantity
    requires ApplyProtectiveTx(b, t.id, total).Success? && ApplyProtectiveTx(b, t.id, total).value.0 == b' && b' != b
    ensures b'.orders == b.orders && total.qty - t.applied.qty > Tolerance(t.quantity + t.applied.qty)
    ensures Sale(b, b', total.qty - t.applied.qty, ByProtection)
    ensures if b'.open.Some?
            then b'.open.value == t.(quantity := b'.open.value.quantity, entryFee := b'.open.value.entryFee,
                                     applied := Clamp(total)) && b'.open.value.entryFee >= 0.0
            else t.quantity - (total.qty - t.applied.qty) <= Tolerance(t.quantity + t.applied.qty)
  {
    hide Pnl, AllocatedEntryFee, Ratio;
    var tol := Tolerance(t.quantity + t.applied.qty);
    var delta := total.qty - t.applied.qty;
    assert tol < delta <= t.quantity;
  }

  /** Facts about the list the open row names, for a reported execution f of that list. */
  predicate Reported(w: World, t: OpenTrade, o: Oco, f: Fill) {
    && w.book.open == Some(t) && t.list.Some? && t.list.value in w.venue.lists
    && o == w.venue.lists[t.list.value] && f in o.cum && t.base.Some?
  }

  lemma ReportedFits(w: World, t: OpenTrade, o: Oco, f: Fill)
    requires Inv(w) && Reported(w, t, o, f)
    ensures GoodOco(o, w.venue.grain) && o.position == t.id && AppliedFromList(t) in o.cum
    ensures t.quantity + AppliedFromList(t).qty == o.quantity
    ensures 0.0 <= f.qty <= Executed(o) <= o.quantity && 0.0 <= f.quote
    ensures f.qty > 0.0 ==> f.qty == o.quantity || f.qty + w.venue.grain <= o.quantity
    ensures t.applied.qty >= 0.0 && t.base.value.qty >= 0.0 && t.base.value.quote >= 0.0
    ensures Tolerance(t.quantity + t.applied.qty) < w.venue.grain
    ensures forall c :: !IsPendingSell(w, c)
  {
    hide EffectsInv, TallyOf, Sold, SoldByLists, PendingSell;
    FillsOrdered(o, w.venue.grain, f, Last(o));
  }

  lemma ProtectiveKeepsLists(w: World, t: OpenTrade, o: Oco, f: Fill, total: Totals, w': World)
    requires ListsInv(w) && Reported(w, t, o, f) && w'.venue == w.venue && w'.book.origins == w.book.origins
    requires total.qty == t.base.value.qty + f.qty && total.quote == t.base.value.quote + f.quote
    requires f.qty >= 0.0 && f.quote >= 0.0
    requires if w'.book.open.Some?
             then w'.book.open.value == t.(quantity := w'.book.open.value.quantity, entryFee := w'.book.open.value.entryFee,
                                           applied := Clamp(total))
                  && w'.book.open.value.quantity + f.qty == o.quantity
             else !CanExecute(o)
    ensures ListsInv(w')
    ensures w'.book.open.Some? ==> PendingList(w') == Executed(o) - f.qty
  {
    if w'.book.open.Some? {
      assert AppliedFromList(w'.book.open.value) == f;
    }
  }

  lemma ProtectiveKeepsOrders(w: World, b': Book)
    requires OrdersInv(w) && w.book.open.Some? && w.book.open.value.list.Some?
    requires b'.orders == w.book.orders && b'.origins == w.book.origins
    ensures OrdersInv(World(b', w.venue)) && PendingSell(World(b', w.venue)) == 0.0 && PendingSell(w) == 0.0
  {
    var w' := World(b', w.venue);
    forall d | d in b'.orders ensures OrderAgrees(w', d) && !IsUnresolved(w'.book, d) {
      assert OrderAgrees(w, d);
      assert !IsUnresolved(w.book, d);
    }
    NoPendingSell(w);
    NoPendingSell(w');
  }

  lemma ProtectiveKeepsInv(w: World, t: OpenTrade, o: Oco, f: Fill, total: Totals, b': Book)
    requires Inv(w) && Reported(w, t, o, f)
    requires total.qty == t.base.value.qty + f.qty && total.quote == t.base.value.quote + f.quote
    requires ApplyProtectiveTx(w.book, t.id, total).Success? && ApplyProtectiveTx(w.book, t.id, total).value.0 == b'
    ensures Inv(World(b', w.venue))
  {
    if b' != w.book {
      ReportedFits(w, t, o, f);
      hide GoodVenue, SalesInv, EffectsInv, OrdersInv, PendingSell;
      hide ListsInv, Sale, WellFormed, ApplyProtectiveTx, GoodOco, Tolerance;
      var w' := World(b', w.venue);
      var sold := f.qty - AppliedFromList(t).qty;
      AppliedDelta(w.book, t, total, b');
      SaleBasics(w.book, b', sold, ByProtection);
      SaleRemainder(w.book, b', sold, ByProtection);
      assert b'.open.None? ==> f.qty == o.quantity && !CanExecute(o);
      ProtectiveKeepsLists(w, t, o, f, total, w');
      ProtectiveKeepsOrders(w, b');
      SaleWellFormed(w.book, b', sold, ByProtection);
      SaleEffects(w.book, b', sold, ByProtection);
      SaleSales(w, w', sold, ByProtection);
    }
  }

  lemma SaleRemainder(b: Book, b': Book, sold: real, cause: Cause)
    requires Sale(b, b', sold, cause)
    ensures b'.open.Some? ==> b'.open.value.quantity == b.open.value.quantity - sold
  {
  }

  // ---------------------------------------------------------------- protection columns and the stop

  lemma ColumnKeepsInv(w: World, b': Book)
    requires Inv(w) && b' == w.book.(open := b'.open) && SameHolding(w.book.open, b'.open)
    requires ListsInv(World(b', w.venue)) && PendingList(World(b', w.venue)) == PendingList(w)
    requires b'.open.Some?
    requires (w.book.open.value.list == b'.open.value.list || !HasUnresolved(w.book) || b'.open.value.list == None)
    ensures Inv(World(b', w.venue))
  {
    hide GoodVenue, SalesInv, EffectsInv, ListsInv, PendingList, Sold, SoldByLists;
    var w' := World(b', w.venue);
    forall d | d in b'.orders ensures OrderAgrees(w', d) {
      assert OrderAgrees(w, d);
    }
    forall d ensures IsUnresolved(b', d) <==> IsUnresolved(w.book, d) {
    }
    forall d ensures IsPendingSell(w', d) <==> IsPendingSell(w, d) {
    }
    if c :| IsPendingSell(w, c) {
      PendingSellIs(w, c);
      PendingSellIs(w', c);
    } else {
      NoPendingSell(w);
      NoPendingSell(w');
    }
    hide OrdersInv;
    EffectsFrame(w.book, b');
    SalesFrame(w, w');
  }

  lemma SetProtectionKeepsInv(w: World, id: TradeId, list: Option<ListId>, state: Protection, b': Book)
    requires Inv(w) && SetProtectionTx(w.book, id, list, state) == Success(b') && list.Some?
    requires w.book.open.value.list == list
             || (w.book.open.value.list == None && list.value !in w.venue.lists && !HasUnresolved(w.book))
    ensures Inv(World(b', w.venue))
  {
    hide GoodVenue, SalesInv, EffectsInv, OrdersInv;
    ColumnKeepsInv(w, b');
  }

  lemma ClearProtectionKeepsInv(w: World, id: TradeId, state: Protection, b': Book)
    requires Inv(w) && ClearProtectionTx(w.book, id, state) == Success(b')
    requires w.book.open.value.list.Some? && w.book.open.value.list.value in w.venue.lists
    requires w.venue.lists[w.book.open.value.list.value].phase.Dead?
    requires Executed(w.venue.lists[w.book.open.value.list.value]) == AppliedFromList(w.book.open.value).qty
    ensures Inv(World(b', w.venue))
  {
    hide GoodVenue, SalesInv, EffectsInv, OrdersInv;
    ColumnKeepsInv(w, b');
  }

  lemma RaiseStopKeepsInv(w: World, id: TradeId, observed: real, level: real, b': Book)
    requires Inv(w) && RaiseStopTx(w.book, id, observed, level) == Success(b')
    ensures Inv(World(b', w.venue))
  {
    hide GoodVenue, SalesInv, EffectsInv, OrdersInv;
    ColumnKeepsInv(w, b');
  }

  // ---------------------------------------------------------------- requests

  lemma ListLogGrows(v: Venue, l: ListId, position: TradeId, quantity: real, winner: Leg, p: TradeId)
    requires GoodVenue(v) && l !in v.lists
    ensures var v' := WithList(v, l, position, quantity, winner);
      Sold(v', p) == Sold(v, p) && SoldByLists(v', p) == SoldByLists(v, p)
  {
    var v' := WithList(v, l, position, quantity, winner);
    assert SellParts(v', p) == SellParts(v, p);
    var m, m' := ListParts(v, p), ListParts(v', p);
    assert forall k :: k in v.listLog ==> Part(m, k) == Part(m', k);
    assert Part(m', l) == 0.0;
    SumSame(m, m', v.listLog);
    SumAppend(m', v.listLog, l);
  }

  lemma GoodWithList(v: Venue, l: ListId, position: TradeId, quantity: real, winner: Leg)
    requires GoodVenue(v) && l !in v.lists && quantity > 0.0
    ensures GoodVenue(WithList(v, l, position, quantity, winner))
  {
  }

  lemma SubmitListKeepsLists(w: World, l: ListId, winner: Leg, v': Venue)
    requires ListsInv(w) && WellFormed(w.book) && Holds(w, l) && l !in w.venue.lists
    requires v' == WithList(w.venue, l, w.book.open.value.id, w.book.open.value.quantity, winner)
    ensures ListsInv(World(w.book, v')) && PendingList(World(w.book, v')) == PendingList(w)
  {
  }

  lemma SubmitListKeepsOrders(w: World, v': Venue)
    requires OrdersInv(w) && v'.orders == w.venue.orders && v'.grain == w.venue.grain
    requires w.book.open.Some? && w.book.open.value.list.Some?
    ensures OrdersInv(World(w.book, v')) && PendingSell(World(w.book, v')) == PendingSell(w)
  {
    var w' := World(w.book, v');
    forall d | d in w.book.orders ensures OrderAgrees(w', d) && !IsUnresolved(w.book, d) {
      assert OrderAgrees(w, d);
    }
    NoPendingSell(w);
    NoPendingSell(w');
  }

  lemma SubmitListKeepsInv(w: World, l: ListId, winner: Leg, v': Venue)
    requires Inv(w) && Holds(w, l) && l !in w.venue.lists
    requires v' == WithList(w.venue, l, w.book.open.value.id, w.book.open.value.quantity, winner)
    ensures Inv(World(w.book, v'))
  {
    var t := w.book.open.value;
    GoodWithList(w.venue, l, t.id, t.quantity, winner);
    hide SalesInv, EffectsInv, GoodVenue, ListsInv, OrdersInv, Sold, SoldByLists, PendingSell, PendingList;
    SubmitListKeepsLists(w, l, winner, v');
    SubmitListKeepsOrders(w, v');
    forall p: TradeId ensures Sold(v', p) == Sold(w.venue, p) && SoldByLists(v', p) == SoldByLists(w.venue, p) {
      ListLogGrows(w.venue, l, t.id, t.quantity, winner, p);
    }
    SalesFrame(w, World(w.book, v'));
  }

  lemma OrderLogGrows(v: Venue, c: OrderId, position: TradeId, side: Side, quantity: real, p: TradeId)
    requires GoodVenue(v) && c !in v.orders
    ensures var v' := WithOrder(v, c, position, side, quantity);
      Sold(v', p) == Sold(v, p) && SoldByLists(v', p) == SoldByLists(v, p)
  {
    var v' := WithOrder(v, c, position, side, quantity);
    assert ListParts(v', p) == ListParts(v, p);
    var m, m' := SellParts(v, p), SellParts(v', p);
    assert forall k :: k in v.orderLog ==> Part(m, k) == Part(m', k);
    assert Part(m', c) == 0.0;
    SumSame(m, m', v.orderLog);
    SumAppend(m', v.orderLog, c);
  }

  lemma GoodWithOrder(v: Venue, c: OrderId, position: TradeId, side: Side, quantity: real)
    requires GoodVenue(v) && c !in v.orders && quantity > 0.0
    ensures GoodVenue(WithOrder(v, c, position, side, quantity))
  {
  }

  lemma SubmitOrderKeepsOrders(w: World, c: OrderId, position: TradeId, v': Venue)
    requires OrdersInv(w) && WellFormed(w.book) && IsUnresolved(w.book, c) && c !in w.venue.orders
    requires w.book.orders[c].side.Sell? ==> w.book.open.Some? && position == w.book.open.value.id
    requires v' == WithOrder(w.venue, c, position, w.book.orders[c].side, w.book.orders[c].requested)
    ensures OrdersInv(World(w.book, v')) && PendingSell(World(w.book, v')) == PendingSell(w)
    ensures w.book.orders[c].requested > 0.0
  {
    var w' := World(w.book, v');
    assert OrderAgrees(w, c);
    forall d | d in w.book.orders ensures OrderAgrees(w', d) {
      assert OrderAgrees(w, d);
    }
    assert OrdersInv(w');
    forall d | d != c ensures !IsPendingSell(w, d) && !IsPendingSell(w', d) {
    }
    hide OrdersInv;
    NoPendingSell(w);
    if IsPendingSell(w', c) {
      OrdersInvParts(w');
      PendingSellIs(w', c);
    } else {
      NoPendingSell(w');
    }
  }

  lemma SubmitOrderKeepsInv(w: World, c: OrderId, position: TradeId, v': Venue)
    requires Inv(w) && IsUnresolved(w.book, c) && c !in w.venue.orders
    requires w.book.orders[c].side.Sell? ==> w.book.open.Some? && position == w.book.open.value.id
    requires v' == WithOrder(w.venue, c, position, w.book.orders[c].side, w.book.orders[c].requested)
    ensures Inv(World(w.book, v'))
  {
    hide SalesInv, EffectsInv, GoodVenue, ListsInv, OrdersInv, Sold, SoldByLists, PendingSell;
    var w' := World(w.book, v');
    SubmitOrderKeepsOrders(w, c, position, v');
    GoodWithOrder(w.venue, c, position, w.book.orders[c].side, w.book.orders[c].requested);
    forall p: TradeId ensures Sold(v', p) == Sold(w.venue, p) && SoldByLists(v', p) == SoldByLists(w.venue, p) {
      OrderLogGrows(w.venue, c, position, w.book.orders[c].side, w.book.orders[c].requested, p);
    }
    ListsFrame(w, w');
    SalesFrame(w, w');
  }

  // ---------------------------------------------------------------- the exchange moves

  lemma AdvanceKeepsOrders(w: World, v': Venue)
    requires OrdersInv(w) && Advance(w.venue, v')
    ensures OrdersInv(World(w.book, v'))
    ensures forall c :: IsPendingSell(World(w.book, v'), c) <==> IsPendingSell(w, c)
  {
    var w' := World(w.book, v');
    forall c | c in w.book.orders ensures OrderAgrees(w', c) {
      assert OrderAgrees(w, c);
      if c in w.venue.orders {
        assert MarketAdvance(w.venue.orders[c], v'.orders[c]);
      }
    }
    forall c | c in v'.orders && v'.orders[c].side.Sell? ensures v'.orders[c].position < |w.book.origins| {
      assert MarketAdvance(w.venue.orders[c], v'.orders[c]);
    }
    forall c | IsUnresolved(w.book, c) && c in v'.orders ensures v'.orders[c].position == w.venue.orders[c].position {
      assert MarketAdvance(w.venue.orders[c], v'.orders[c]);
    }
  }

  lemma AdvanceKeepsLists(w: World, v': Venue)
    requires ListsInv(w) && GoodVenue(w.venue) && Advance(w.venue, v')
    ensures ListsInv(World(w.book, v'))
  {
    var w' := World(w.book, v');
    forall l | l in v'.lists && CanExecute(v'.lists[l]) ensures Holds(w', l) && v'.lists[l].position == w.book.open.value.id {
      assert OcoAdvance(w.venue.lists[l], v'.lists[l], w.venue.grain);
      if !CanExecute(w.venue.lists[l]) {
        ExhaustedStays(w.venue.lists[l], v'.lists[l], w.venue.grain);
      }
    }
    forall l | l in v'.lists ensures v'.lists[l].position < |w.book.origins| {
      assert OcoAdvance(w.venue.lists[l], v'.lists[l], w.venue.grain);
    }
    if w.book.open.Some? && w.book.open.value.list.Some? && w.book.open.value.list.value in w.venue.lists {
      var l := w.book.open.value.list.value;
      assert OcoAdvance(w.venue.lists[l], v'.lists[l], w.venue.grain);
    }
  }

  predicate IsOpen(w: World, p: TradeId) {
    w.book.open.Some? && w.book.open.value.id == p
  }

  lemma OtherListStays(w: World, v': Venue, p: TradeId, l: ListId)
    requires ListsInv(w) && GoodVenue(w.venue) && Advance(w.venue, v') && l in w.venue.lists
    requires !(IsOpen(w, p) && Holds(w, l))
    ensures Part(ListParts(w.venue, p), l) == Part(ListParts(v', p), l)
  {
    assert OcoAdvance(w.venue.lists[l], v'.lists[l], w.venue.grain);
    if !CanExecute(w.venue.lists[l]) {
      ExhaustedStays(w.venue.lists[l], v'.lists[l], w.venue.grain);
    }
  }

  /** Lists sell more for p only through the list that the open row of p names. */
  lemma AdvanceLists(w: World, v': Venue, p: TradeId)
    requires ListsInv(w) && GoodVenue(w.venue) && Advance(w.venue, v')
    ensures SoldByLists(v', p) == SoldByLists(w.venue, p)
              + (if IsOpen(w, p) then PendingList(World(w.book, v')) - PendingList(w) else 0.0)
  {
    var m, m' := ListParts(w.venue, p), ListParts(v', p);
    forall l | l in w.venue.listLog && !(IsOpen(w, p) && Holds(w, l)) ensures Part(m, l) == Part(m', l) {
      OtherListStays(w, v', p, l);
    }
    if IsOpen(w, p) && w.book.open.value.list.Some? && w.book.open.value.list.value in w.venue.lists {
      var l := w.book.open.value.list.value;
      assert OcoAdvance(w.venue.lists[l], v'.lists[l], w.venue.grain);
      assert l in w.venue.listLog && NoDuplicates(w.venue.listLog);
      assert w.venue.lists[l].position == p;
      hide GoodVenue, ListsInv, Advance;
      SumChange(m, m', w.venue.listLog, l);
    } else {
      SumSame(m, m', w.venue.listLog);
    }
  }

  /** Market orders sell more for p only through the unresolved SELL of p. */
  lemma AdvanceOrders(w: World, v': Venue, p: TradeId)
    requires OrdersInv(w) && GoodVenue(w.venue) && Advance(w.venue, v')
    ensures SoldByOrders(v', p) == SoldByOrders(w.venue, p)
              + (if IsOpen(w, p) then PendingSell(World(w.book, v')) - PendingSell(w) else 0.0)
  {
    var w' := World(w.book, v');
    var m, m' := SellParts(w.venue, p), SellParts(v', p);
    AdvanceKeepsOrders(w, v');
    forall c | c in w.venue.orderLog && !(IsPendingSell(w, c) && IsOpen(w, p)) ensures Part(m, c) == Part(m', c) {
      assert MarketAdvance(w.venue.orders[c], v'.orders[c]);
      assert OrderAgrees(w, c);
    }
    if c :| IsPendingSell(w, c) {
      PendingSellIs(w, c);
      PendingSellIs(w', c);
      if IsOpen(w, p) {
        SumChange(m, m', w.venue.orderLog, c);
      } else {
        SumSame(m, m', w.venue.orderLog);
      }
    } else {
      NoPendingSell(w);
      NoPendingSell(w');
      SumSame(m, m', w.venue.orderLog);
    }
  }

  lemma AdvanceKeepsSales(w: World, v': Venue)
    requires Inv(w) && Advance(w.venue, v')
    ensures SalesInv(World(w.book, v'))
  {
    hide OrdersInv, ListsInv, GoodVenue, WellFormed, EffectsInv, OcoAdvance, MarketAdvance;
    var w' := World(w.book, v');
    forall p: TradeId
      ensures SoldByLists(v', p) == SoldByLists(w.venue, p) + (if IsOpen(w, p) then PendingList(w') - PendingList(w) else 0.0)
      ensures SoldByOrders(v', p) == SoldByOrders(w.venue, p) + (if IsOpen(w, p) then PendingSell(w') - PendingSell(w) else 0.0)
    {
      AdvanceLists(w, v', p);
      AdvanceOrders(w, v', p);
    }
    hide SoldByLists, SoldByOrders, PendingList, PendingSell, TallyOf, Advance, Tolerance;
  }

  lemma AdvanceKeepsInv(w: World, v': Venue)
    requires Inv(w) && Advance(w.venue, v')
    ensures Inv(World(w.book, v'))
  {
    AdvanceKeepsSales(w, v');
    hide SalesInv, EffectsInv, ListsInv, OrdersInv, WellFormed;
    AdvanceKeepsOrders(w, v');
    AdvanceKeepsLists(w, v');
  }

  // ---------------------------------------------------------------- all steps together

  lemma TxKeepsInv(w: World, op: Op, b': Book)
    requires Inv(w) && Guard(w, op) && Attempt(w.book, op) == Success(b')
    ensures Inv(World(b', w.venue))
  {
    hide Inv, RecordIntent, UpdateOrder, OpenTradeTx, CloseTradeTx, ApplyProtectiveTx, HasUnresolved, Tolerance;
    match op {
      case OpIntent(c, side, qty) => IntentKeepsInv(w, c, side, qty, b');
      case OpUpdate(c, executed, status) => UpdateKeepsInv(w, c, executed, status, b');
      case OpOpen(origin, quantity, price, fee, stop, take) =>
        OpenKeepsInv(w, origin.value, quantity, price, fee, stop, take, b');
      case OpClose(id, price, fee, amount, exit) => CloseKeepsInv(w, exit.value, id, price, fee, b');
      case OpProtective(id, total) =>
        var t := w.book.open.value;
        if t.id == id {
          ProtectiveKeepsInv(w, t, w.venue.lists[t.list.value],
                             Fill(total.qty - t.base.value.qty, total.quote - t.base.value.quote), total, b');
        } else {
          assert b' == w.book by { ProtectiveElsewhere(w.book, id, total); }
        }
      case OpSetProtection(id, list, state) => SetProtectionKeepsInv(w, id, list, state, b');
      case OpClearProtection(id, state) => ClearProtectionKeepsInv(w, id, state, b');
      case OpRaiseStop(id, observed, level) => RaiseStopKeepsInv(w, id, observed, level, b');
    }
  }

  lemma ProtectiveElsewhere(b: Book, id: TradeId, total: Totals)
    requires b.open.None? || b.open.value.id != id
    ensures ApplyProtectiveTx(b, id, total) == Success((b, Absent))
  {
  }

  /** Every step keeps the invariant. */
  lemma StepKeepsInv(w: World, s: Step, w': World)
    requires Inv(w) && Next(w, s, w')
    ensures Inv(w')
  {
    hide Inv, Guard, Attempt, Advance, WithList, WithOrder;
    match s
    case Tx(op) => TxKeepsInv(w, op, w'.book);
    case SubmitList(l, winner) => SubmitListKeepsInv(w, l, winner, w'.venue);
    case SubmitOrder(c) =>
      SubmitOrderKeepsInv(w, c, if w.book.orders[c].side.Sell? then w.book.open.value.id else 0, w'.venue);
    case Environment => AdvanceKeepsInv(w, w'.venue);
  }

  lemma InitialInv(w: World)
    requires Initial(w)
    ensures Inv(w)
  {
    NoPendingSell(w);
  }

  /** The invariant holds in every state of every run, however the run is interrupted. */
  lemma {:induction false} RunKeepsInv(ws: seq<World>, ss: seq<Step>, i: nat)
    requires IsRun(ws, ss) && Inv(ws[0]) && i < |ws|
    ensures Inv(ws[i])
  {
    if i > 0 {
      RunKeepsInv(ws, ss, i - 1);
      StepKeepsInv(ws[i - 1], ss[i - 1], ws[i]);
    }
  }
}
