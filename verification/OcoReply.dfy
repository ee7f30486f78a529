/**
  The replies about order lists, their legs and their fills, as parsed from the exchange, and the
  validators of app/execution/protection.py that decide which of them may be believed.
*/
module OcoReply {
  import opened Wrappers
  import opened Ledger
  import opened Venue
  import opened RealFacts

  /** A leg's client id embeds the token of its list; any other id is foreign, an empty one missing. */
  datatype ClientId = LegId(leg: Leg, list: ListId) | Foreign(tag: nat) | MissingId

  datatype Kind = LimitMaker | StopLoss | StopLossLimit | TakeProfit | TakeProfitLimit | OtherKind

  datatype Child = Child(symbol: string, clientId: ClientId, orderId: Option<int>, side: Option<Side>, kind: Option<Kind>)

  datatype ListStatus = ListExecuting | ListAllDone | ListReject | ListExpiredStatus | ListOther

  datatype ListDoc = ListDoc(symbol: string, list: ListId, orderListId: Option<int>, status: ListStatus, orders: seq<Child>)

  datatype Fault =
    | Database(cause: DbError) | Unverified | Uncertain | NotProtected | LegsDisagree | Incomplete
    | Refused | NotExecuted | NotInstalled | Filtered

  /** What may go wrong while a list is looked at. */
  predicate ObservationFault(f: Fault) {
    f.Database? || f in {Uncertain, Unverified, LegsDisagree, Incomplete}
  }

  predicate KnownStatus(s: ListStatus) {
    !s.ListOther?
  }

  predicate TerminalList(s: ListStatus) {
    s in {ListAllDone, ListReject, ListExpiredStatus}
  }

  /** The stored status is the one that was reported; an unknown one is never stored. */
  function AsProtection(s: ListStatus): (p: Protection)
    ensures p == Executing <==> s == ListExecuting
    ensures TerminalProtection(p) <==> s in {ListAllDone, ListReject, ListExpiredStatus}
    ensures p == AllDone <==> s == ListAllDone
    ensures p == Reject <==> s == ListReject
    ensures p == ListExpired <==> s == ListExpiredStatus
  {
    match s
    case ListExecuting => Executing
    case ListAllDone => AllDone
    case ListReject => Reject
    case ListExpiredStatus => ListExpired
    case ListOther => ProtectionUnknown
  }

  predicate TerminalProtection(p: Protection) {
    p in {AllDone, Reject, ListExpired}
  }

  /** The types that the bot gives the two legs when it places a list. */
  function KindOf(leg: Leg): Kind {
    if leg.TakeProfitLeg? then LimitMaker else StopLoss
  }

  /** The child is acceptable as the given leg of list l. */
  predicate IsLeg(x: Child, symbol: string, l: ListId, leg: Leg) {
    && x.symbol == symbol && x.clientId == LegId(leg, l)
    && x.orderId.Some? && x.orderId.value > 0
    && x.side in {None, Some(Sell)}
    && x.kind in {None, Some(KindOf(leg))}
  }

  /** The two children are the take-profit and the stop leg of l, in either order. */
  predicate BothLegs(orders: seq<Child>, symbol: string, l: ListId) {
    && |orders| == 2
    && orders[0].orderId != orders[1].orderId
    && (   (IsLeg(orders[0], symbol, l, TakeProfitLeg) && IsLeg(orders[1], symbol, l, StopLeg))
        || (IsLeg(orders[0], symbol, l, StopLeg) && IsLeg(orders[1], symbol, l, TakeProfitLeg)))
  }

  /** A usable child of a list whose client id has no token to tell the legs by. */
  predicate IsUntagged(x: Child, symbol: string) {
    && x.symbol == symbol && x.clientId != MissingId
    && x.orderId.Some? && x.orderId.value > 0 && x.side in {None, Some(Sell)}
  }

  predicate TwoUntagged(orders: seq<Child>, symbol: string) {
    && |orders| == 2 && orders[0].clientId != orders[1].clientId && orders[0].orderId != orders[1].orderId
    && IsUntagged(orders[0], symbol) && IsUntagged(orders[1], symbol)
  }

  /** The token in the client id of a list, if the id follows the present naming scheme. */
  datatype Token = Tagged(list: ListId) | Untagged

  /** The children are acceptable for a list with this token. */
  predicate GoodChildren(orders: seq<Child>, symbol: string, token: Token) {
    match token
    case Tagged(l) => BothLegs(orders, symbol, l)
    case Untagged => TwoUntagged(orders, symbol)
  }

  predicate GoodHeader(doc: ListDoc, symbol: string, l: ListId) {
    && doc.symbol == symbol && doc.list == l
    && doc.orderListId.Some? && doc.orderListId.value > 0
    && doc.status in {ListExecuting, ListAllDone, ListReject, ListExpiredStatus}
  }

  predicate Believable(doc: ListDoc, symbol: string, l: ListId) {
    GoodHeader(doc, symbol, l) && BothLegs(doc.orders, symbol, l)
  }

  /** The row names a list, and its status is the one last answered about that list. */
  predicate StatusAnswered(open: Option<OpenTrade>, answers: map<ListId, ListDoc>, symbol: string) {
    && open.Some? && open.value.list.Some?
    && var l := open.value.list.value;
       && l in answers && GoodHeader(answers[l], symbol, l)
       && open.value.protection == AsProtection(answers[l].status)
  }

  /** The row names a list that was last answered as executing. */
  predicate AnsweredExecuting(open: Option<OpenTrade>, answers: map<ListId, ListDoc>) {
    && open.Some? && open.value.list.Some?
    && var l := open.value.list.value;
       l in answers && answers[l].list == l && answers[l].status == ListExecuting
  }

  /** One child against the expectations that the token gives. */
  predicate GoodChild(x: Child, symbol: string, token: Token) {
    && IsUntagged(x, symbol)
    && (token.Tagged? ==> IsLeg(x, symbol, token.list, TakeProfitLeg) || IsLeg(x, symbol, token.list, StopLeg))
  }

  /**
    The loop shared by the two list validators: every child must have a client id not seen
    before, one of the expected ones if the list carries a token, with a fresh positive order
    id, not a BUY and not of the wrong type.
  */
  method ValidateChildren(orders: seq<Child>, symbol: string, token: Token) returns (ok: bool)
    ensures ok <==> GoodChildren(orders, symbol, token)
  {
    if |orders| != 2 {
      return false;
    }
    var seenClients: set<ClientId> := {};
    var seenOrders: set<int> := {};
    for i := 0 to |orders|
      invariant i == 0 ==> seenClients == {} && seenOrders == {}
      invariant i >= 1 ==> GoodChild(orders[0], symbol, token)
      invariant i == 1 ==> seenClients == {orders[0].clientId} && seenOrders == {orders[0].orderId.value}
      invariant i == 2 ==> GoodChild(orders[1], symbol, token)
                           && orders[0].clientId != orders[1].clientId && orders[0].orderId != orders[1].orderId
    {
      var child := orders[i];
      if child.symbol != symbol {
        return false;
      }
      if child.clientId == MissingId || child.clientId in seenClients {
        return false;
      }
      if token.Tagged? && child.clientId !in {LegId(TakeProfitLeg, token.list), LegId(StopLeg, token.list)} {
        return false;
      }
      seenClients := seenClients + {child.clientId};
      if child.orderId.None? || child.orderId.value <= 0 || child.orderId.value in seenOrders {
        return false;
      }
      seenOrders := seenOrders + {child.orderId.value};
      if child.side.Some? && child.side.value != Sell {
        return false;
      }
      if token.Tagged? && child.kind.Some? && child.kind.value != KindOf(child.clientId.leg) {
        return false;
      }
    }
    return true;
  }

  /** _validate_protective_oco_response; the bot names the lists it places itself. */
  method ValidatePlaced(doc: ListDoc, symbol: string, l: ListId) returns (r: Result<ListStatus, Fault>)
    ensures r.Success? <==> Believable(doc, symbol, l)
    ensures r.Success? ==> r.value == doc.status && GoodHeader(doc, symbol, l)
  {
    if doc.symbol != symbol || doc.list != l {
      return Failure(Unverified);
    }
    if doc.orderListId.None? || doc.orderListId.value <= 0 {
      return Failure(Unverified);
    }
    if !KnownStatus(doc.status) {
      return Failure(Unverified);
    }
    var ok := ValidateChildren(doc.orders, symbol, Tagged(l));
    if !ok {
      return Failure(Unverified);
    }
    return Success(doc.status);
  }

  /** _validate_protective_order_list, which also compares the order-list id stored earlier. */
  method ValidateQueried(doc: ListDoc, symbol: string, l: ListId, token: Token, stored: Option<int>)
    returns (r: Result<(ListStatus, seq<Child>), Fault>)
    ensures r.Success? <==>
      && GoodHeader(doc, symbol, l) && GoodChildren(doc.orders, symbol, token)
      && (stored == None || stored == doc.orderListId)
    ensures r.Success? ==> r.value == (doc.status, doc.orders)
  {
    if doc.symbol != symbol || doc.list != l {
      return Failure(Unverified);
    }
    if doc.orderListId.None? || doc.orderListId.value <= 0 {
      return Failure(Unverified);
    }
    if stored.Some? && stored.value != doc.orderListId.value {
      return Failure(Unverified);
    }
    if !KnownStatus(doc.status) {
      return Failure(Unverified);
    }
    var ok := ValidateChildren(doc.orders, symbol, token);
    if !ok {
      return Failure(Unverified);
    }
    return Success((doc.status, doc.orders));
  }

  // ---------------------------------------------------------------- one leg and its fills

  datatype LegStatus =
    | LegNew | LegPendingNew | LegPartiallyFilled | LegFilled | LegPendingCancel | LegCanceled
    | LegRejected | LegExpired | LegExpiredInMatch | LegOther

  datatype LegDoc = LegDoc(symbol: string, clientId: ClientId, orderId: Option<int>, side: Option<Side>,
                           status: LegStatus, kind: Option<Kind>, executed: Option<real>)

  predicate ActiveLeg(s: LegStatus) {
    s in {LegNew, LegPartiallyFilled}
  }

  predicate TerminalLeg(s: LegStatus) {
    s in {LegFilled, LegCanceled, LegRejected, LegExpired, LegExpiredInMatch}
  }

  /**
    The two legs as last answered fit the status of their list: not both executed, both settled
    once the list is terminal, and both working while the list is executing and a position is open.
  */
  predicate LegsFit(status: ListStatus, a: LegDoc, b: LegDoc, open: bool) {
    && a.executed.Some? && b.executed.Some? && (a.executed.value <= 0.0 || b.executed.value <= 0.0)
    && (status in {ListAllDone, ListReject, ListExpiredStatus} ==>
          {a.status, b.status} <= {LegFilled, LegCanceled, LegRejected, LegExpired, LegExpiredInMatch})
    && (status == ListExecuting && open ==> {a.status, b.status} <= {LegNew, LegPartiallyFilled})
  }

  /** A leg whose client id names it has exactly its type; another id admits any sell-side OCO type. */
  predicate GoodKind(kind: Option<Kind>, id: ClientId) {
    if id.LegId? then kind == Some(KindOf(id.leg)) else kind.Some? && !kind.value.OtherKind?
  }

  /** A leg report is usable for the child it was asked for. */
  predicate BelievableLeg(doc: LegDoc, child: Child, symbol: string) {
    && doc.symbol == symbol && doc.clientId == child.clientId && doc.orderId == child.orderId
    && doc.side == Some(Sell) && !doc.status.LegOther?
    && GoodKind(doc.kind, child.clientId)
    && doc.executed.Some? && doc.executed.value >= 0.0
    && (doc.status in {LegFilled, LegPartiallyFilled} ==> doc.executed.value > 0.0)
    && (doc.status == LegNew ==> doc.executed.value <= 0.0)
  }

  /** _validate_protective_child_order and the quantity checks of _protective_fill. */
  method ValidateLeg(doc: LegDoc, child: Child, symbol: string) returns (r: Result<(real, LegStatus), Fault>)
    ensures r.Success? <==> BelievableLeg(doc, child, symbol)
    ensures r.Success? ==> doc.executed == Some(r.value.0) && doc.status == r.value.1
    ensures r.Success? && child.clientId.LegId? ==>
      if child.clientId.leg.StopLeg? then doc.kind == Some(StopLoss) else doc.kind == Some(LimitMaker)
  {
    if doc.symbol != symbol || doc.clientId != child.clientId || doc.orderId != child.orderId {
      return Failure(Unverified);
    }
    if doc.side != Some(Sell) {
      return Failure(Unverified);
    }
    if doc.status.LegOther? {
      return Failure(Unverified);
    }
    if child.clientId.LegId? {
      if doc.kind != Some(KindOf(child.clientId.leg)) {
        return Failure(Unverified);
      }
    } else if doc.kind.None? || doc.kind.value.OtherKind? {
      return Failure(Unverified);
    }
    if doc.executed.None? || doc.executed.value < 0.0 {
      return Failure(Unverified);
    }
    var executed := doc.executed.value;
    if doc.status == LegFilled && executed <= 0.0 {
      return Failure(Unverified);
    }
    if doc.status == LegPartiallyFilled && executed <= 0.0 {
      return Failure(Unverified);
    }
    if doc.status == LegNew && executed > 0.0 {
      return Failure(Unverified);
    }
    return Success((executed, doc.status));
  }

  /** One account fill; `commission` is its value in the quote asset, `base` what was taken in the base asset. */
  datatype TradeFill = TradeFill(
    orderId: int, symbol: Option<string>, price: real, qty: real, commission: real, base: real)

  predicate ValidFill(f: TradeFill, symbol: string) {
    f.symbol in {None, Some(symbol)} && f.price > 0.0 && f.qty > 0.0 && f.commission >= 0.0
  }

  predicate AllValid(fills: seq<TradeFill>, symbol: string, orderId: int) {
    forall i :: 0 <= i < |fills| && fills[i].orderId == orderId ==> ValidFill(fills[i], symbol)
  }

  // What a list of fills adds up to, from the first fill on.

  function TotalQty(fills: seq<TradeFill>): real {
    if fills == [] then 0.0 else fills[0].qty + TotalQty(fills[1..])
  }

  function TotalQuote(fills: seq<TradeFill>): real {
    if fills == [] then 0.0 else fills[0].qty * fills[0].price + TotalQuote(fills[1..])
  }

  function TotalFee(fills: seq<TradeFill>): real {
    if fills == [] then 0.0 else fills[0].commission + TotalFee(fills[1..])
  }

  function TotalBase(fills: seq<TradeFill>): real {
    if fills == [] then 0.0 else fills[0].base + TotalBase(fills[1..])
  }

  function OfOrder(fills: seq<TradeFill>, orderId: int): seq<TradeFill> {
    if fills == [] then []
    else if fills[0].orderId == orderId then [fills[0]] + OfOrder(fills[1..], orderId)
    else OfOrder(fills[1..], orderId)
  }

  lemma {:induction false} OneMoreFill(fills: seq<TradeFill>, f: TradeFill)
    ensures TotalQty(fills + [f]) == TotalQty(fills) + f.qty
    ensures TotalQuote(fills + [f]) == TotalQuote(fills) + f.price * f.qty
    ensures TotalFee(fills + [f]) == TotalFee(fills) + f.commission
    ensures TotalBase(fills + [f]) == TotalBase(fills) + f.base
  {
    if fills != [] {
      assert (fills + [f])[1..] == fills[1..] + [f];
      OneMoreFill(fills[1..], f);
    }
  }

  lemma {:induction false} OneMoreOfOrder(fills: seq<TradeFill>, f: TradeFill, orderId: int)
    ensures OfOrder(fills + [f], orderId) == OfOrder(fills, orderId) + (if f.orderId == orderId then [f] else [])
  {
    if fills != [] {
      assert (fills + [f])[1..] == fills[1..] + [f];
      OneMoreOfOrder(fills[1..], f, orderId);
    }
  }

  /** The running sums of the bot are the sums over the fills of the order. */
  lemma {:induction false} FillTotalsAre(fills: seq<TradeFill>, orderId: int)
    ensures var mine := OfOrder(fills, orderId);
      FillTotals(fills, orderId) == Totals(TotalQty(mine), TotalQuote(mine), TotalFee(mine))
  {
    if fills != [] {
      var n := |fills| - 1;
      FillTotalsAre(fills[..n], orderId);
      assert fills == fills[..n] + [fills[n]];
      OneMoreOfOrder(fills[..n], fills[n], orderId);
      var before := OfOrder(fills[..n], orderId);
      assert before + [] == before;
      if fills[n].orderId == orderId {
        OneMoreFill(OfOrder(fills[..n], orderId), fills[n]);
      }
    }
  }

  lemma {:induction false} FillSumIs(fills: seq<TradeFill>)
    ensures FillSum(fills) == Fill(TotalQty(fills), TotalQuote(fills))
  {
    if fills != [] {
      var n := |fills| - 1;
      FillSumIs(fills[..n]);
      assert fills == fills[..n] + [fills[n]];
      OneMoreFill(fills[..n], fills[n]);
    }
  }

  /** p is the price at which the whole quantity is worth what the fills were. */
  predicate IsFillPrice(p: real, fills: seq<TradeFill>) {
    TotalQty(fills) > 0.0 && p * TotalQty(fills) == TotalQuote(fills)
  }

  lemma AveragePriceIs(fills: seq<TradeFill>, f: Fill)
    requires f.qty > 0.0 && f.qty == TotalQty(fills) && f.quote == TotalQuote(fills)
    ensures IsFillPrice(AveragePrice(f), fills)
  {
    DivTimes(f.quote, f.qty);
  }

  /** A fill price lies between any bounds of the prices of the fills. */
  lemma FillPriceBetween(p: real, fills: seq<TradeFill>, low: real, high: real)
    requires IsFillPrice(p, fills)
    requires forall i :: 0 <= i < |fills| ==> fills[i].qty >= 0.0 && low <= fills[i].price <= high
    ensures low <= p <= high
  {
    QuoteBetween(fills, low, high);
    var q := TotalQty(fills);
    if p < low {
      PositiveProduct(low - p, q);
    } else if p > high {
      PositiveProduct(p - high, q);
    }
  }

  lemma {:induction false} QuoteBetween(fills: seq<TradeFill>, low: real, high: real)
    requires forall i :: 0 <= i < |fills| ==> fills[i].qty >= 0.0 && low <= fills[i].price <= high
    ensures low * TotalQty(fills) <= TotalQuote(fills) <= high * TotalQty(fills)
  {
    if fills != [] {
      QuoteBetween(fills[1..], low, high);
      OrderTimes(low, fills[0].price, fills[0].qty);
      OrderTimes(fills[0].price, high, fills[0].qty);
    }
  }

  /** Cumulative quantity, quote and fee of the fills of one order. */
  function FillTotals(fills: seq<TradeFill>, orderId: int): Totals {
    if fills == [] then Totals(0.0, 0.0, 0.0)
    else
      var t := FillTotals(fills[..|fills| - 1], orderId);
      var f := fills[|fills| - 1];
      if f.orderId == orderId
      then Totals(t.qty + f.qty, t.quote + f.price * f.qty, t.fee + f.commission)
      else t
  }

  /** The loop over account fills: skip other orders, refuse another symbol or bad values, add up. */
  method SumFills(fills: seq<TradeFill>, symbol: string, orderId: int) returns (r: Result<Totals, Fault>)
    ensures r.Success? <==> AllValid(fills, symbol, orderId)
    ensures r.Success? ==> r.value == FillTotals(fills, orderId) && r.value.fee >= 0.0
    ensures r.Success? ==>
      var mine := OfOrder(fills, orderId);
      r.value == Totals(TotalQty(mine), TotalQuote(mine), TotalFee(mine))
  {
    var total := Totals(0.0, 0.0, 0.0);
    for i := 0 to |fills|
      invariant AllValid(fills[..i], symbol, orderId)
      invariant total == FillTotals(fills[..i], orderId) && total.fee >= 0.0
    {
      assert fills[..i + 1][..i] == fills[..i];
      var f := fills[i];
      if f.orderId != orderId {
        continue;
      }
      if f.symbol.Some? && f.symbol.value != symbol {
        return Failure(Incomplete);
      }
      if f.price <= 0.0 || f.qty <= 0.0 || f.commission < 0.0 {
        return Failure(Incomplete);
      }
      total := Totals(total.qty + f.qty, total.quote + f.price * f.qty, total.fee + f.commission);
    }
    assert fills[..|fills|] == fills;
    FillTotalsAre(fills, orderId);
    return Success(total);
  }

  // ---------------------------------------------------------------- fills of a market order

  function FillSum(fills: seq<TradeFill>): Fill {
    if fills == [] then Fill(0.0, 0.0)
    else
      var t := FillSum(fills[..|fills| - 1]);
      var f := fills[|fills| - 1];
      Fill(t.qty + f.qty, t.quote + f.price * f.qty)
  }

  /** _base_commission */
  function BaseCommission(fills: seq<TradeFill>): real {
    if fills == [] then 0.0 else BaseCommission(fills[..|fills| - 1]) + fills[|fills| - 1].base
  }

  lemma {:induction false} BaseCommissionIs(fills: seq<TradeFill>)
    ensures BaseCommission(fills) == TotalBase(fills)
  {
    if fills != [] {
      var n := |fills| - 1;
      BaseCommissionIs(fills[..n]);
      assert fills == fills[..n] + [fills[n]];
      OneMoreFill(fills[..n], fills[n]);
    }
  }

  /** weighted_fill_price with fallback zero. */
  function AveragePrice(f: Fill): real {
    if f.qty > 0.0 then f.quote / f.qty else 0.0
  }
}
