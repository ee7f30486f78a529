/**
  What one look at a protective list tells: facts that link the replies about a list, its legs and
  its fills to the execution history the list really has, and that stay true while the exchange
  moves on between two queries.
*/
module Observation {
  import opened Wrappers
  import opened Ledger
  import opened Venue
  import opened Accounting
  import opened Protocol
  import opened Preservation
  import opened OcoReply
  import opened ExchangeClient

  datatype LegState = LegState(leg: Leg, orderId: int, executed: real, status: LegStatus)

  /** List l is dead and its whole execution is in the ledger. */
  predicate Retired(v: Venue, t: OpenTrade, l: ListId) {
    l in v.lists && v.lists[l].phase.Dead? && Executed(v.lists[l]) == AppliedFromList(t).qty
  }

  /** The current list may be forgotten. */
  predicate Retirable(w: World) {
    && w.book.open.Some? && w.book.open.value.list.Some?
    && Retired(w.venue, w.book.open.value, w.book.open.value.list.value)
  }

  /** The state of a leg is what was last answered about it. */
  predicate LegAnswered(answers: map<(ListId, Leg), LegDoc>, l: ListId, s: LegState) {
    (l, s.leg) in answers && answers[(l, s.leg)].executed == Some(s.executed) && answers[(l, s.leg)].status == s.status
  }

  /** The legs of list l as last answered fit the status of the list. */
  predicate LegAnswersFit(answers: map<(ListId, Leg), LegDoc>, l: ListId, status: ListStatus, open: bool) {
    && (l, TakeProfitLeg) in answers && (l, StopLeg) in answers
    && LegsFit(status, answers[(l, TakeProfitLeg)], answers[(l, StopLeg)], open)
  }

  /** Dead lists are still there, as they were. */
  predicate DeadStay(v: Venue, v': Venue) {
    forall l :: l in v.lists && v.lists[l].phase.Dead? ==> l in v'.lists && v'.lists[l] == v.lists[l]
  }

  /** Order c is dead, the record holds its final execution, and that was booked exactly once. */
  predicate Settled(w: World, c: OrderId) {
    && c in w.book.orders && c in w.venue.orders && w.venue.orders[c].phase.Dead?
    && w.book.orders[c].executed == w.venue.orders[c].executed
    && Effects(w.book, c) == (if w.venue.orders[c].executed > 0.0 then 1 else 0)
  }

  /** math.isclose with relative tolerance 1e-9. */
  predicate IsClose(a: real, b: real, absolute: real) {
    Abs(a - b) <= Max(0.000000001 * Max(Abs(a), Abs(b)), absolute)
  }

  /** Two quantities are close if they differ by at most the absolute bound or a 1e-9th of one of them. */
  lemma IsCloseMeans(a: real, b: real, absolute: real)
    requires a >= 0.0 && b >= 0.0 && absolute >= 0.0
    ensures IsClose(a, b, absolute) <==>
      || (a - b <= absolute && b - a <= absolute)
      || ((a - b) * 1000000000.0 <= a && (b - a) * 1000000000.0 <= b)
  {
  }

  /** The stored list is none that was dead in v. */
  predicate StoresLiving(v: Venue, open: Option<OpenTrade>) {
    open.Some? && open.value.list.Some? && open.value.list.value in v.lists ==> !v.lists[open.value.list.value].phase.Dead?
  }

  lemma RetirableIsDead(w: World)
    requires Retirable(w)
    ensures var l := w.book.open.value.list;
      l.Some? && l.value in w.venue.lists && w.venue.lists[l.value].phase.Dead?
  {
  }

  // ---------------------------------------------------------------- facts taken from the invariant

  /** What the invariant says about the list that an open row names. */
  predicate ListFacts(w: World) {
    && w.book.open.Some? && w.book.open.value.list.Some?
    && var t := w.book.open.value; var l := t.list.value;
       && t.base.Some? && t.base.value.qty >= 0.0 && t.base.value.quote >= 0.0 && t.quantity > 0.0
       && w.venue.grain > 0.0 && Tolerance(t.quantity + t.applied.qty) < w.venue.grain
       && (l in w.venue.lists ==>
             var o := w.venue.lists[l];
             GoodOco(o, w.venue.grain) && AppliedFromList(t) in o.cum
             && t.quantity + AppliedFromList(t).qty == o.quantity)
  }

  lemma CurrentList(w: World)
    requires Inv(w) && w.book.open.Some? && w.book.open.value.list.Some?
    ensures ListFacts(w) && !HasUnresolved(w.book)
  {
    hide EffectsInv, Sold, SoldByLists, PendingSell, PendingList, TallyOf;
    forall c | c in w.book.orders ensures !Unresolved(w.book.orders[c]) {
      assert !IsUnresolved(w.book, c);
    }
  }

  /** Two executions of the list that are close in the sense of the source are the same one. */
  lemma CloseIsEqual(w: World, a: Fill, b: Fill, absolute: real)
    requires Inv(w) && w.book.open.Some? && w.book.open.value.list.Some?
    requires w.book.open.value.list.value in w.venue.lists && absolute <= CLOSE_DUST
    requires a in w.venue.lists[w.book.open.value.list.value].cum
    requires b in w.venue.lists[w.book.open.value.list.value].cum
    requires IsClose(a.qty, b.qty, absolute)
    ensures a == b
  {
    CurrentList(w);
    var t := w.book.open.value;
    var o := w.venue.lists[t.list.value];
    FillsOrdered(o, w.venue.grain, a, b);
    FillsOrdered(o, w.venue.grain, b, a);
    assert o.quantity <= t.quantity + t.applied.qty;
    hide Inv, GoodOco;
  }

  /** Forgetting a retirable list leaves it dead and booked. */
  lemma ForgottenIsRetired(w: World, id: TradeId, status: Protection, b': Book)
    requires Retirable(w) && ClearProtectionTx(w.book, id, status) == Success(b')
    ensures b'.open.Some? && b'.open.value.list == None
    ensures Retired(w.venue, b'.open.value, w.book.open.value.list.value)
  {
  }

  lemma ResolvedIsSettled(w: World, c: OrderId)
    requires Inv(w) && !HasUnresolved(w.book) && c in w.book.orders
    ensures Settled(w, c)
  {
    hide ListsInv, SalesInv, GoodVenue, Effects;
    assert OrderAgrees(w, c) && AppliedOnce(w.book, c) && !Unresolved(w.book.orders[c]);
  }

  /** After an order has been applied nothing else is unresolved. */
  lemma AppliedLeavesNone(b: Book, b': Book, c: OrderId)
    requires OneUnresolved(b) && IsUnresolved(b, c) && c in b'.orders && !IsUnresolved(b', c)
    requires b'.orders.Keys == b.orders.Keys && forall d :: d in b.orders && d != c ==> b'.orders[d] == b.orders[d]
    ensures !HasUnresolved(b')
  {
    if HasUnresolved(b') {
      var d :| d in b'.orders && Unresolved(b'.orders[d]);
      assert IsUnresolved(b, d);
    }
  }

  lemma Parts(w: World)
    requires Inv(w)
    ensures WellFormed(w.book) && GoodVenue(w.venue) && OrdersInv(w)
    ensures RecordsAgree(w) && OneUnresolved(w.book) && UnresolvedFits(w)
  {
  }

  lemma SameOrders(b: Book, b': Book)
    requires b'.orders == b.orders
    ensures HasUnresolved(b') == HasUnresolved(b)
  {
  }

  lemma VenueIsGood(w: World)
    requires Inv(w)
    ensures GoodVenue(w.venue)
  {
  }

  // ---------------------------------------------------------------- tracking one list over time

  /** List l is `o` moved on; and if it was dead it still is `o`. */
  ghost predicate Tracks(v: Venue, l: ListId, o: Oco) {
    && l in v.lists && v.lists[l].winner == o.winner && o.cum <= v.lists[l].cum
    && (o.phase.Dead? ==> v.lists[l] == o)
  }

  /** A leg report agrees with an execution that list l had, the final one if it was dead. */
  ghost predicate LegFact(v: Venue, s: LegState, l: ListId, o: Oco) {
    && l in v.lists
    && (s.leg != o.winner ==> s.executed == 0.0)
    && (s.leg == o.winner ==>
          && (exists f :: f in v.lists[l].cum && f.qty == s.executed)
          && (o.phase.Dead? ==> s.executed == Executed(o)))
  }

  lemma TrackStart(v: Venue, v': Venue, l: ListId)
    requires Advance(v, v') && l in v'.lists
    ensures Tracks(v', l, v'.lists[l])
    ensures l in v.lists && v.lists[l].phase.Dead? ==> v'.lists[l].phase.Dead?
  {
    assert OcoAdvance(v.lists[l], v'.lists[l], v.grain);
  }

  lemma TrackOn(v: Venue, v': Venue, l: ListId, o: Oco)
    requires Advance(v, v') && Tracks(v, l, o)
    ensures Tracks(v', l, o) && v.lists[l].cum <= v'.lists[l].cum && GoodOco(v'.lists[l], v.grain)
  {
    assert OcoAdvance(v.lists[l], v'.lists[l], v.grain);
  }

  lemma LegFactOn(v: Venue, v': Venue, l: ListId, o: Oco, s: LegState)
    requires Advance(v, v') && Tracks(v, l, o) && LegFact(v, s, l, o)
    ensures LegFact(v', s, l, o)
  {
    TrackOn(v, v', l, o);
    hide Advance, GoodOco;
    if s.leg == o.winner {
      var f :| f in v.lists[l].cum && f.qty == s.executed;
      assert f in v'.lists[l].cum;
    }
  }

  /** The leg reports collected so far, one for each of the first children of the list. */
  ghost predicate Observed(v: Venue, states: seq<LegState>, children: seq<Child>, l: ListId, o: Oco) {
    && |states| <= |children|
    && forall i :: 0 <= i < |states| ==>
         children[i].clientId.LegId? && states[i].leg == children[i].clientId.leg && LegFact(v, states[i], l, o)
  }

  lemma NothingObserved(v: Venue, children: seq<Child>, l: ListId, o: Oco, answers: map<(ListId, Leg), LegDoc>)
    ensures Observed(v, [], children, l, o) && AllAnswered(answers, l, [])
  {
  }

  lemma OneMoreObserved(v: Venue, v': Venue, states: seq<LegState>, children: seq<Child>, l: ListId, o: Oco,
                        s: LegState)
    requires Advance(v, v') && Tracks(v, l, o) && Observed(v, states, children, l, o) && |states| < |children|
    requires children[|states|].clientId.LegId? && s.leg == children[|states|].clientId.leg && LegFact(v', s, l, o)
    ensures Observed(v', states + [s], children, l, o)
  {
    hide Advance, Tracks, LegFact;
    forall i | 0 <= i < |states| ensures LegFact(v', states[i], l, o) {
      LegFactOn(v, v', l, o, states[i]);
    }
  }

  predicate AllAnswered(answers: map<(ListId, Leg), LegDoc>, l: ListId, states: seq<LegState>) {
    forall i :: 0 <= i < |states| ==> LegAnswered(answers, l, states[i])
  }

  /** Only the answer about the leg just asked for changed. */
  predicate OnlyLeg(answers: map<(ListId, Leg), LegDoc>, answers': map<(ListId, Leg), LegDoc>, l: ListId, leg: Leg) {
    forall k :: k in answers && k != (l, leg) ==> k in answers' && answers'[k] == answers[k]
  }

  lemma AnsweredNow(answers: map<(ListId, Leg), LegDoc>, l: ListId, doc: LegDoc, s: LegState)
    requires doc.executed == Some(s.executed) && doc.status == s.status
    ensures var answers' := answers[(l, s.leg) := doc];
      LegAnswered(answers', l, s) && OnlyLeg(answers, answers', l, s.leg)
  {
  }

  lemma OneMoreAnswered(v: Venue, states: seq<LegState>, children: seq<Child>, symbol: string, l: ListId, o: Oco, s: LegState,
                        answers: map<(ListId, Leg), LegDoc>, answers': map<(ListId, Leg), LegDoc>)
    requires BothLegs(children, symbol, l) && Observed(v, states, children, l, o) && |states| < 2
    requires children[|states|].clientId.LegId? && s.leg == children[|states|].clientId.leg
    requires AllAnswered(answers, l, states) && OnlyLeg(answers, answers', l, s.leg) && LegAnswered(answers', l, s)
    ensures AllAnswered(answers', l, states + [s])
  {
    hide LegFact;
    forall i | 0 <= i < |states| ensures LegAnswered(answers', l, states[i]) {
      assert LegAnswered(answers, l, states[i]);
      assert states[i].leg != s.leg;
    }
  }

  /** The checks on the two collected states decide whether the answers fit. */
  lemma FitIs(answers: map<(ListId, Leg), LegDoc>, l: ListId, states: seq<LegState>, status: ListStatus, open: bool)
    requires AllAnswered(answers, l, states) && |states| == 2 && states[0].leg != states[1].leg
    ensures LegAnswersFit(answers, l, status, open) <==>
      && !(TerminalList(status) && !(TerminalLeg(states[0].status) && TerminalLeg(states[1].status)))
      && !(states[0].executed > 0.0 && states[1].executed > 0.0)
      && (status == ListExecuting && open ==> ActiveLeg(states[0].status) && ActiveLeg(states[1].status))
  {
    assert LegAnswered(answers, l, states[0]) && LegAnswered(answers, l, states[1]);
    hide AllAnswered;
  }

  lemma BothObserved(v: Venue, states: seq<LegState>, children: seq<Child>, symbol: string, l: ListId, o: Oco)
    requires BothLegs(children, symbol, l) && Observed(v, states, children, l, o) && |states| == 2
    ensures states[0].leg != states[1].leg && forall i :: 0 <= i < 2 ==> LegFact(v, states[i], l, o)
  {
  }

  lemma ChildrenAreLegs(children: seq<Child>, symbol: string, l: ListId)
    requires BothLegs(children, symbol, l)
    ensures |children| == 2 && children[0].clientId.LegId? && children[1].clientId.LegId?
    ensures children[0].orderId.Some? && children[1].orderId.Some?
    ensures children[0].clientId.list == l && children[1].clientId.list == l
    ensures children[0].clientId.leg != children[1].clientId.leg
  {
  }

  /** A truthful report about a leg is a fact about the list. */
  lemma ReportIsFact(v: Venue, l: ListId, o: Oco, s: LegState)
    requires Tracks(v, l, o) && v.lists[l].cum != []
    requires s.executed == (if v.lists[l].winner == s.leg then Executed(v.lists[l]) else 0.0)
    ensures LegFact(v, s, l, o)
  {
    assert Last(v.lists[l]) in v.lists[l].cum;
  }

  lemma ReplyIsLegFact(v: Venue, symbol: string, l: ListId, o: Oco, child: Child, doc: LegDoc, s: LegState)
    requires GoodVenue(v) && Tracks(v, l, o) && child.clientId == LegId(s.leg, l)
    requires TruthfulLeg(v, l, s.leg, doc) && BelievableLeg(doc, child, symbol) && doc.executed == Some(s.executed)
    ensures LegFact(v, s, l, o)
  {
    assert GoodOco(v.lists[l], v.grain);
    ReportIsFact(v, l, o, s);
  }

  /** If no leg executed and the list is dead, nothing of it is missing in the ledger. */
  lemma NothingExecutedYet(w: World, states: seq<LegState>, l: ListId, o: Oco)
    requires Inv(w) && Holds(w, l) && Tracks(w.venue, l, o) && o.phase.Dead?
    requires |states| == 2 && states[0].leg != states[1].leg
    requires forall i :: 0 <= i < 2 ==> LegFact(w.venue, states[i], l, o) && states[i].executed <= 0.0
    ensures Retirable(w)
  {
    CurrentList(w);
    hide Inv;
    var t := w.book.open.value;
    assert states[0].leg == o.winner || states[1].leg == o.winner;
    FillsOrdered(o, w.venue.grain, AppliedFromList(t), Last(o));
  }

  /** The summed fills are the execution that the leg reported. */
  lemma HitIsFill(w: World, hit: LegState, l: ListId, o: Oco, f: Fill)
    requires Inv(w) && Holds(w, l) && Tracks(w.venue, l, o) && LegFact(w.venue, hit, l, o)
    requires hit.executed > 0.0 && f in w.venue.lists[l].cum && IsClose(f.qty, hit.executed, CLOSE_DUST)
    ensures f.qty == hit.executed && (o.phase.Dead? ==> f.qty == Executed(o))
  {
    var g :| g in w.venue.lists[l].cum && g.qty == hit.executed;
    CloseIsEqual(w, f, g, CLOSE_DUST);
  }

  /** What the list really executed, on top of its base, may be applied. */
  lemma ReportedGuard(w: World, t: OpenTrade, total: Totals)
    requires Inv(w) && w.book.open == Some(t) && t.list.Some? && t.list.value in w.venue.lists
    requires Fill(total.qty, total.quote) in w.venue.lists[t.list.value].cum
    ensures t.base.Some?
    ensures var base := t.base.value;
      Guard(w, OpProtective(t.id, Totals(base.qty + total.qty, base.quote + total.quote, base.fee + total.fee)))
  {
    hide Inv, GoodOco, HasUnresolved;
    CurrentList(w);
  }

  /** The same position, at most as large, with the terms it was opened on and the same stop. */
  predicate KeepsTerms(t: OpenTrade, open: Option<OpenTrade>) {
    open.Some? ==>
      && open.value.id == t.id && open.value.quantity <= t.quantity
      && open.value.entryPrice == t.entryPrice && open.value.stop == t.stop
      && open.value.takeProfit == t.takeProfit && open.value.highest == t.highest
  }

  /** Applying a cumulative execution touches only the accounting columns of the open row. */
  lemma AppliedColumns(b: Book, t: OpenTrade, cumulative: Totals, b': Book, out: Outcome)
    requires b.open == Some(t) && ApplyProtectiveTx(b, t.id, cumulative) == Success((b', out))
    ensures b'.orders == b.orders && !out.Absent?
    ensures b'.open.Some? ==> b'.open.value.list == t.list && b'.open.value.base == t.base
                              && b'.open.value.protection == t.protection
    ensures KeepsTerms(t, b'.open)
    ensures out.NothingNew? ==> b' == b && Clamp(cumulative).qty - t.applied.qty <= Tolerance(t.quantity + t.applied.qty)
    ensures out.Applied? && b'.open.Some? ==> b'.open.value.applied == Clamp(cumulative)
    ensures out.Applied? ==> |b'.closed| == |b.closed| + 1 && b.closed <= b'.closed && out.partial == b'.open.Some?
  {
    hide Pnl, AllocatedEntryFee, Ratio;
  }

  /** After the fill of a dead list was applied, the whole list is in the ledger. */
  lemma HitRetires(w: World, w': World, t: OpenTrade, l: ListId, o: Oco, f: Fill, cumulative: Totals, out: Outcome)
    requires ListFacts(w) && w.book.open == Some(t) && t.list == Some(l) && Tracks(w.venue, l, o) && o.phase.Dead?
    requires f in o.cum && f.qty == Executed(o) && w'.venue == w.venue && w'.book.open.Some?
    requires cumulative.qty == t.base.value.qty + f.qty
    requires ApplyProtectiveTx(w.book, t.id, cumulative) == Success((w'.book, out))
    ensures Retirable(w')
  {
    hide GoodOco, ApplyProtectiveTx;
    FillsOrdered(o, w.venue.grain, f, AppliedFromList(t));
    FillsOrdered(o, w.venue.grain, AppliedFromList(t), f);
    AppliedColumns(w.book, t, cumulative, w'.book, out);
  }

  // ---------------------------------------------------------------- market orders

  /** An order report that may be recorded: not ahead of the exchange, exact once terminal. */
  ghost predicate OrderFact(v: Venue, c: OrderId, executed: real, status: OrderStatus) {
    && c in v.orders && 0.0 <= executed <= v.orders[c].executed
    && (TerminalStatus(status) ==> v.orders[c].phase.Dead? && executed == v.orders[c].executed)
  }

  lemma ReplyIsOrderFact(v: Venue, symbol: string, c: OrderId, doc: OrderDoc)
    requires GoodVenue(v) && TruthfulOrder(v, symbol, c, doc) && doc.symbol == symbol && doc.client == c
    ensures OrderFact(v, c, doc.executed, doc.status)
  {
  }

  lemma OrderFactOn(v: Venue, v': Venue, c: OrderId, executed: real, status: OrderStatus)
    requires Advance(v, v') && OrderFact(v, c, executed, status)
    ensures OrderFact(v', c, executed, status)
  {
    assert MarketAdvance(v.orders[c], v'.orders[c]);
  }

  /** The same order known only to be active or unknown, with what it had executed at least. */
  lemma OrderFactWeakens(v: Venue, c: OrderId, executed: real, status: OrderStatus, weaker: OrderStatus)
    requires OrderFact(v, c, executed, status) && !TerminalStatus(weaker)
    ensures OrderFact(v, c, executed, weaker)
  {
  }

  lemma OnlyAppliedResolved(w: World, c: OrderId)
    requires Inv(w) && IsUnresolved(w.book, c)
    ensures !w.book.orders[c].applied
  {
    assert OrderAgrees(w, c);
  }

  lemma UpdateGuard(w: World, c: OrderId, executed: real, status: OrderStatus)
    requires Inv(w) && IsUnresolved(w.book, c)
    requires OrderFact(w.venue, c, executed, status) || (executed == 0.0 && !TerminalStatus(status))
    ensures Guard(w, OpUpdate(c, executed, status))
  {
    assert c in w.venue.orders ==> GoodMarket(w.venue.orders[c]);
  }

  lemma SettledLeavesNone(w: World, b': Book, c: OrderId)
    requires Inv(w) && IsUnresolved(w.book, c) && b'.orders.Keys == w.book.orders.Keys && c in b'.orders
    requires !Unresolved(b'.orders[c]) && forall d :: d in b'.orders && d != c ==> b'.orders[d] == w.book.orders[d]
    ensures !HasUnresolved(b')
  {
    Parts(w);
    hide Inv, RecordsAgree, UnresolvedFits, OrdersInv, GoodVenue;
    AppliedLeavesNone(w.book, b', c);
  }

  /** A trade opened for an order resolves it, and has no list yet. */
  lemma OpenedLeavesNone(w: World, c: OrderId, quantity: real, price: real, fee: real, stop: real, take: real, b': Book)
    requires Inv(w) && OpenTradeTx(w.book, Some(c), quantity, price, fee, stop, take) == Success(b')
    ensures !HasUnresolved(b') && b'.open.Some? && b'.open.value.list == None
    ensures SameRequests(w.book.orders, b'.orders)
    ensures b'.open.value.entryPrice == price && b'.open.value.stop == stop && b'.open.value.takeProfit == take
    ensures b'.open.value.quantity == quantity
  {
    hide Inv;
    assert IsUnresolved(w.book, c);
    SettledLeavesNone(w, b', c);
  }

  /** The same orders, asked for as before. */
  predicate SameRequests(orders: map<OrderId, OrderRow>, orders': map<OrderId, OrderRow>) {
    && orders'.Keys == orders.Keys
    && forall c :: c in orders ==> orders'[c].side == orders[c].side && orders'[c].requested == orders[c].requested
  }

  function LastClosed(b: Book): ClosedTrade
    requires b.closed != []
  {
    b.closed[|b.closed| - 1]
  }

  lemma ClosedLeavesNone(w: World, c: OrderId, id: TradeId, price: real, fee: real, amount: Option<real>, b': Book)
    requires Inv(w) && CloseTradeTx(w.book, id, price, fee, amount, Some(c)) == Success(b')
    ensures !HasUnresolved(b') && SameRequests(w.book.orders, b'.orders)
    ensures b'.closed != [] && LastClosed(b').exitPrice == price && LastClosed(b').cause == ByOrder(c)
    ensures b'.open.None? || (w.book.open.Some? && b'.open.value.quantity < w.book.open.value.quantity)
  {
    hide Inv, Pnl, AllocatedEntryFee;
    if w.book.open.Some? {
      OpenIsPositive(w);
    }
    assert IsUnresolved(w.book, c);
    SettledLeavesNone(w, b', c);
  }

  lemma OpenIsPositive(w: World)
    requires Inv(w) && w.book.open.Some?
    ensures w.book.open.value.quantity > 0.0
  {
  }

  // ---------------------------------------------------------------- the unresolved records

  ghost predicate AllUnresolved(b: Book, todo: set<OrderId>) {
    forall c :: c in todo ==> IsUnresolved(b, c)
  }

  lemma AllOfThem(b: Book, todo: set<OrderId>)
    requires forall c :: c in todo <==> c in b.orders && Unresolved(b.orders[c])
    ensures AllUnresolved(b, todo) && (todo == {} <==> !HasUnresolved(b))
  {
    if HasUnresolved(b) {
      var c :| c in b.orders && Unresolved(b.orders[c]);
      assert c in todo;
    }
  }

  lemma NoneLeft(b: Book)
    ensures AllUnresolved(b, {})
  {
  }

  lemma OnlyOne(w: World, todo: set<OrderId>, c: OrderId)
    requires Inv(w) && AllUnresolved(w.book, todo) && c in todo
    ensures todo == {c} && IsUnresolved(w.book, c)
  {
    Parts(w);
    hide Inv, RecordsAgree, UnresolvedFits, OrdersInv, GoodVenue, WellFormed;
    assert forall d :: d in todo ==> IsUnresolved(w.book, d) && d == c;
  }
}
