/**
  Startup installs a protective list for an open position that names none without looking at
  unresolved orders. That is safe exactly when no order is unresolved.
*/
module Startup {
  import opened Wrappers
  import opened Ledger
  import opened Venue
  import opened Accounting
  import opened Protocol
  import opened Preservation
  import opened Safety

  /** The world after startup persisted list id l and sent the request, with no further check. */
  function Installed(w: World, l: ListId, winner: Leg): World
    requires w.book.open.Some?
  {
    var t := w.book.open.value;
    World(SetProtectionTx(w.book, t.id, Some(l), Submitting).value,
          WithList(w.venue, l, t.id, t.quantity, winner))
  }

  /** The exchange may sell more for p than the ledger has for it. */
  ghost predicate MayOversell(w: World, p: TradeId) {
    exists v :: Advance(w.venue, v) && Sold(v, p) > LineageQty(w.book, p)
  }

  /** All worlds that look the same to the bot: the same database, some exchange. */
  ghost predicate LooksLike(u: World, w: World) {
    Inv(u) && u.book == w.book && u.venue.grain == w.venue.grain
  }

  ghost predicate InstallIsSafe(w: World, l: ListId, winner: Leg)
    requires w.book.open.Some?
  {
    forall u :: LooksLike(u, w) && l !in u.venue.lists ==> !MayOversell(Installed(u, l, winner), w.book.open.value.id)
  }

  lemma GuardedInstallIsSafe(u: World, l: ListId, winner: Leg)
    requires Inv(u) && u.book.open.Some? && u.book.open.value.list == None && !HasUnresolved(u.book)
    requires l !in u.venue.lists
    ensures !MayOversell(Installed(u, l, winner), u.book.open.value.id)
  {
    var t := u.book.open.value;
    var u1 := World(SetProtectionTx(u.book, t.id, Some(l), Submitting).value, u.venue);
    SetProtectionKeepsInv(u, t.id, Some(l), Submitting, u1.book);
    var u2 := Installed(u, l, winner);
    SubmitListKeepsInv(u1, l, winner, u2.venue);
    forall v | Advance(u2.venue, v) ensures Sold(v, t.id) <= LineageQty(u2.book, t.id) {
      AdvanceKeepsInv(u2, v);
      SoldWithinLineage(World(u2.book, v), t.id);
    }
  }

  /** The exchange may have executed the whole of an unresolved SELL without the bot knowing. */
  function FullySold(w: World, c: OrderId): World
    requires c in w.book.orders && w.book.open.Some?
  {
    var o := w.book.orders[c];
    if TerminalStatus(o.status) then w
    else
      var m := Market(w.book.open.value.id, Sell, o.requested, Live, o.requested);
      World(w.book, w.venue.(orders := w.venue.orders[c := m],
                             orderLog := if c in w.venue.orders then w.venue.orderLog else w.venue.orderLog + [c]))
  }

  lemma FullySoldOrders(w: World, c: OrderId)
    requires OrdersInv(w) && IsUnresolved(w.book, c) && w.book.open.Some?
    requires WellFormed(w.book) && (c in w.venue.orders ==> GoodMarket(w.venue.orders[c]))
    ensures OrdersInv(FullySold(w, c)) && IsPendingSell(FullySold(w, c), c)
    ensures FullySold(w, c).venue.orders[c].executed > 0.0
    ensures FullySold(w, c).venue.orders[c].position == w.book.open.value.id
    ensures w.book.open.value.list == None && w.book.orders[c].side.Sell? && w.book.orders[c].requested > 0.0
    ensures IsPendingSell(w, c) || forall d :: !IsPendingSell(w, d)
    ensures c in w.venue.orders ==> IsPendingSell(w, c) && w.venue.orders[c].side.Sell?
                                    && w.venue.orders[c].position == w.book.open.value.id
  {
    var u := FullySold(w, c);
    assert OrderAgrees(w, c);
    forall d | d in u.book.orders ensures OrderAgrees(u, d) {
      assert OrderAgrees(w, d);
    }
  }

  lemma FullySoldVenue(w: World, c: OrderId)
    requires GoodVenue(w.venue) && c in w.book.orders && w.book.orders[c].requested > 0.0 && w.book.open.Some?
    ensures GoodVenue(FullySold(w, c).venue)
  {
  }

  lemma FullySoldSum(w: World, c: OrderId, p: TradeId)
    requires GoodVenue(w.venue) && c in w.book.orders && w.book.open.Some?
    requires var u := FullySold(w, c);
      && c in u.venue.orders && u.venue.orders[c].side.Sell? && u.venue.orders[c].position == w.book.open.value.id
    requires c in w.venue.orders ==> w.venue.orders[c].side.Sell? && w.venue.orders[c].position == w.book.open.value.id
    ensures var u := FullySold(w, c);
      SoldByOrders(u.venue, p) == SoldByOrders(w.venue, p)
        + (if IsOpen(w, p)
           then u.venue.orders[c].executed - (if c in w.venue.orders then w.venue.orders[c].executed else 0.0)
           else 0.0)
  {
    var u := FullySold(w, c);
    if u != w {
      var m, m' := SellParts(w.venue, p), SellParts(u.venue, p);
      assert forall k :: k != c ==> Part(m, k) == Part(m', k);
      if c in w.venue.orders {
        SumChange(m, m', w.venue.orderLog, c);
      } else {
        SumSame(m, m', w.venue.orderLog);
        SumAppend(m', w.venue.orderLog, c);
      }
    }
  }

  lemma FullySoldSales(w: World, c: OrderId, p: TradeId)
    requires Inv(w) && IsUnresolved(w.book, c) && w.book.open.Some?
    ensures var u := FullySold(w, c);
      && SoldByLists(u.venue, p) == SoldByLists(w.venue, p)
      && SoldByOrders(u.venue, p) == SoldByOrders(w.venue, p)
           + (if IsOpen(w, p) then PendingSell(u) - PendingSell(w) else 0.0)
  {
    assert c in w.venue.orders ==> GoodMarket(w.venue.orders[c]);
    hide GoodVenue, SalesInv, EffectsInv, ListsInv, OrdersInv;
    hide WellFormed, FullySold, SoldByOrders, PendingSell, GoodMarket;
    var u := FullySold(w, c);
    FullySoldOrders(w, c);
    FullySoldLists(w, c, p);
    OrdersInvParts(u);
    OrdersInvParts(w);
    PendingSellIs(u, c);
    if IsPendingSell(w, c) {
      PendingSellIs(w, c);
    } else {
      NoPendingSell(w);
    }
    FullySoldSum(w, c, p);
  }

  lemma FullySoldLists(w: World, c: OrderId, p: TradeId)
    requires c in w.book.orders && w.book.open.Some?
    ensures SoldByLists(FullySold(w, c).venue, p) == SoldByLists(w.venue, p) && FullySold(w, c).book == w.book
  {
    assert ListParts(FullySold(w, c).venue, p) == ListParts(w.venue, p);
  }

  lemma FullySoldKeepsSales(w: World, u: World)
    requires SalesInv(w) && u.book == w.book && u.venue.grain == w.venue.grain && PendingList(u) == PendingList(w)
    requires forall p: TradeId ::
      && SoldByLists(u.venue, p) == SoldByLists(w.venue, p)
      && SoldByOrders(u.venue, p) == SoldByOrders(w.venue, p)
           + (if IsOpen(w, p) then PendingSell(u) - PendingSell(w) else 0.0)
    ensures SalesInv(u)
  {
    hide SoldByLists, SoldByOrders, PendingSell, PendingList, TallyOf, Tolerance;
  }

  lemma FullySoldLooksLike(w: World, c: OrderId)
    requires Inv(w) && IsUnresolved(w.book, c) && w.book.open.Some?
    ensures LooksLike(FullySold(w, c), w) && FullySold(w, c).venue.lists == w.venue.lists
  {
    assert c in w.venue.orders ==> GoodMarket(w.venue.orders[c]);
    hide OrdersInv, EffectsInv, GoodVenue, ListsInv, SalesInv, SoldByLists;
    hide SoldByOrders, PendingSell, TallyOf, Tolerance, WellFormed, GoodMarket;
    var u := FullySold(w, c);
    FullySoldOrders(w, c);
    FullySoldVenue(w, c);
    ListsFrame(w, u);
    forall p: TradeId
      ensures && SoldByLists(u.venue, p) == SoldByLists(w.venue, p)
              && SoldByOrders(u.venue, p) == SoldByOrders(w.venue, p)
                   + (if IsOpen(w, p) then PendingSell(u) - PendingSell(w) else 0.0)
    {
      FullySoldSales(w, c, p);
    }
    FullySoldKeepsSales(w, u);
  }

  /** The exchange fills the whole of list l at once. */
  function FilledList(v: Venue, l: ListId): Venue
    requires l in v.lists
  {
    v.(lists := v.lists[l := v.lists[l].(phase := Dead, cum := [Fill(0.0, 0.0), Fill(v.lists[l].quantity, 1.0)])])
  }

  lemma FillIsAdvance(v: Venue, l: ListId)
    requires GoodVenue(v) && l in v.lists && v.lists[l].phase.InFlight? && v.grain <= v.lists[l].quantity
    ensures Advance(v, FilledList(v, l))
  {
    var o, o' := v.lists[l], FilledList(v, l).lists[l];
    assert o.cum == [Fill(0.0, 0.0)] && o.cum <= o'.cum;
    assert OcoAdvance(o, o', v.grain);
    forall k | k in v.lists && k != l ensures OcoAdvance(v.lists[k], v.lists[k], v.grain) {
    }
    forall c | c in v.orders ensures MarketAdvance(v.orders[c], v.orders[c]) {
    }
    hide GoodOco, GoodVenue, OcoAdvance, MarketAdvance;
  }

  lemma FillWholeList(v: Venue, l: ListId, p: TradeId)
    requires GoodVenue(v) && l in v.lists && v.lists[l].position == p && v.lists[l].phase.InFlight?
    ensures Sold(FilledList(v, l), p) == Sold(v, p) + v.lists[l].quantity
  {
    var v' := FilledList(v, l);
    assert SellParts(v', p) == SellParts(v, p);
    var m, m' := ListParts(v, p), ListParts(v', p);
    assert l in v.listLog && NoDuplicates(v.listLog) && Executed(v.lists[l]) == 0.0;
    hide GoodVenue, GoodOco;
    assert forall k :: k != l ==> Part(m, k) == Part(m', k);
    SumChange(m, m', v.listLog, l);
  }

  lemma InstallAfterSaleOversells(u: World, l: ListId, winner: Leg, c: OrderId)
    requires Inv(u) && u.book.open.Some? && IsPendingSell(u, c) && u.venue.orders[c].executed > 0.0
    requires l !in u.venue.lists && u.venue.grain <= u.book.open.value.quantity
    ensures MayOversell(Installed(u, l, winner), u.book.open.value.id)
  {
    hide GoodVenue, EffectsInv, ListsInv, OrdersInv, Sold, TallyOf, PendingSell, Advance, SoldByLists, Tolerance;
    var t := u.book.open.value;
    var v := Installed(u, l, winner).venue;
    assert v == WithList(u.venue, l, t.id, t.quantity, winner);
    ListLogGrows(u.venue, l, t.id, t.quantity, winner, t.id);
    GoodWithList(u.venue, l, t.id, t.quantity, winner);
    FillIsAdvance(v, l);
    FillWholeList(v, l, t.id);
    OrdersInvParts(u);
    PendingSellIs(u, c);
    assert Sold(FilledList(v, l), t.id) == TallyOf(u.book.closed, t.id).qty + u.venue.orders[c].executed + t.quantity by {
      NoListWhilePending(u, c);
    }
  }

  lemma NoListWhilePending(u: World, c: OrderId)
    requires OrdersInv(u) && IsPendingSell(u, c)
    ensures PendingList(u) == 0.0
  {
  }

  /**
    Startup's unguarded installation is safe, in every exchange state the database is consistent
    with, if and only if the database shows no unresolved order. (The position is at least one
    lot; the exchange would not accept the list otherwise.)
  */
  lemma StartupInstallSafeIff(w: World, l: ListId, winner: Leg)
    requires Inv(w) && w.book.open.Some? && w.book.open.value.list == None
    requires w.venue.grain <= w.book.open.value.quantity && l !in w.venue.lists
    ensures InstallIsSafe(w, l, winner) <==> !HasUnresolved(w.book)
  {
    if HasUnresolved(w.book) {
      var c :| c in w.book.orders && Unresolved(w.book.orders[c]);
      var u := FullySold(w, c);
      FullySoldLooksLike(w, c);
      assert c in w.venue.orders ==> GoodMarket(w.venue.orders[c]);
      FullySoldOrders(w, c);
      InstallAfterSaleOversells(u, l, winner, c);
    } else {
      forall u | LooksLike(u, w) && l !in u.venue.lists
        ensures !MayOversell(Installed(u, l, winner), w.book.open.value.id)
      {
        GuardedInstallIsSafe(u, l, winner);
      }
    }
  }

  // ---------------------------------------------------------------- a history that goes wrong

  const LOT := 0.01

  function BookOf(open: Option<OpenTrade>, orders: map<OrderId, OrderRow>, origins: seq<Option<OrderId>>): Book {
    Book(open, [], orders, origins)
  }

  function VenueOf(orders: map<OrderId, Market>, log: seq<OrderId>): Venue {
    Venue(LOT, map[], orders, [], log)
  }

  /** Buy one coin, try to sell it, and lose the reply to the SELL after it filled. */
  function Disaster(): (seq<World>, seq<Step>) {
    var pendingBuy := OrderRow(Buy, 1.0, 0.0, PendingSubmit, false);
    var filledBuy := OrderRow(Buy, 1.0, 1.0, Filled, false);
    var appliedBuy := OrderRow(Buy, 1.0, 1.0, Filled, true);
    var pendingSell := OrderRow(Sell, 1.0, 0.0, PendingSubmit, false);
    var bought := Market(0, Buy, 1.0, Dead, 1.0);
    var t := OpenTrade(0, 1.0, 100.0, 0.0, 98.0, 102.0, 100.0, None, NoProtection, Totals(0.0, 0.0, 0.0), None);
    var v2 := VenueOf(map[0 := Market(0, Buy, 1.0, InFlight, 0.0)], [0]);
    var v3 := VenueOf(map[0 := bought], [0]);
    var b6 := BookOf(Some(t), map[0 := appliedBuy, 1 := pendingSell], [Some(0)]);
    ([World(EMPTY_BOOK, VenueOf(map[], [])),
      World(BookOf(None, map[0 := pendingBuy], []), VenueOf(map[], [])),
      World(BookOf(None, map[0 := pendingBuy], []), v2),
      World(BookOf(None, map[0 := pendingBuy], []), v3),
      World(BookOf(None, map[0 := filledBuy], []), v3),
      World(BookOf(Some(t), map[0 := appliedBuy], [Some(0)]), v3),
      World(b6, v3),
      World(b6, VenueOf(map[0 := bought, 1 := Market(0, Sell, 1.0, InFlight, 0.0)], [0, 1])),
      World(b6, VenueOf(map[0 := bought, 1 := Market(0, Sell, 1.0, Dead, 1.0)], [0, 1]))],
     [Tx(OpIntent(0, Buy, 1.0)), SubmitOrder(0), Environment, Tx(OpUpdate(0, 1.0, Filled)),
      Tx(OpOpen(Some(0), 1.0, 100.0, 0.0, 98.0, 102.0)), Tx(OpIntent(1, Sell, 1.0)), SubmitOrder(1), Environment])
  }

  lemma DisasterBuys()
    ensures var (ws, ss) := Disaster();
      forall i :: 0 <= i < 4 ==> Next(ws[i], ss[i], ws[i + 1])
  {
    var (ws, ss) := Disaster();
    assert Next(ws[0], ss[0], ws[1]);
    assert Next(ws[1], ss[1], ws[2]);
    assert Next(ws[2], ss[2], ws[3]);
    var o := ws[3].book.orders[0];
    assert ws[3].book.orders[0 := o.(executed := 1.0, status := Filled)] == ws[4].book.orders;
    assert Next(ws[3], ss[3], ws[4]);
    hide Next;
  }

  lemma DisasterSells()
    ensures var (ws, ss) := Disaster();
      forall i :: 4 <= i < 8 ==> Next(ws[i], ss[i], ws[i + 1])
  {
    var (ws, ss) := Disaster();
    var o := ws[4].book.orders[0];
    assert ws[4].book.orders[0 := o.(applied := true)] == ws[5].book.orders;
    assert [] + [Some(0)] == ws[5].book.origins;
    assert Next(ws[4], ss[4], ws[5]);
    assert Next(ws[5], ss[5], ws[6]);
    assert Next(ws[6], ss[6], ws[7]);
    assert Next(ws[7], ss[7], ws[8]);
    hide Next;
  }

  lemma DisasterIsHistory()
    ensures IsHistory(Disaster().0, Disaster().1)
  {
    DisasterBuys();
    DisasterSells();
    hide Next;
  }

  /**
    The precondition is needed: a history that obeys every other rule reaches a state in which
    startup's installation of a list lets the exchange sell the position a second time.
  */
  lemma StartupCanOversell(l: ListId, winner: Leg)
    ensures var (ws, ss) := Disaster();
      && IsHistory(ws, ss) && ws[8].book.open.Some? && ws[8].book.open.value.list == None
      && MayOversell(Installed(ws[8], l, winner), ws[8].book.open.value.id)
  {
    DisasterIsHistory();
    var (ws, ss) := Disaster();
    Reachable(ws, ss, 8);
    InstallAfterSaleOversells(ws[8], l, winner, 1);
  }
}
