/**
  Paper mode: the branches of Broker.enter and Broker.maybe_exit that fill at a simulated price,
  for several symbols that share one cash balance. Each operation commits in one transaction.
*/
module PaperLedger {
  import opened Wrappers
  import opened Ledger
  import opened RealFacts
  import opened Venue
  import opened Accounting
  import opened TradingRules

  type Symbol = nat

  /** `cash` and `held` are the rows of the state table, `books` the trades of each symbol. */
  datatype Paper = Paper(cash: real, held: map<Symbol, real>, books: map<Symbol, Book>)

  predicate Knows(p: Paper, s: Symbol) {
    s in p.held.Keys && s in p.books.Keys
  }

  function Gross(fill: real, qty: real): real { fill * qty }

  function Commission(cfg: Settings, gross: real): real { gross * cfg.feeRate }

  function Cost(cfg: Settings, price: real, qty: real): real {
    var gross := Gross(BuyPrice(cfg, price), qty);
    gross + Commission(cfg, gross)
  }

  /** The paper branch of enter; None leaves everything as it was. */
  function Bought(p: Paper, cfg: Settings, s: Symbol, price: real, qty: real): (r: Option<Paper>)
    requires Knows(p, s)
    ensures r.Some? ==> r.value.held.Keys == p.held.Keys && r.value.books.Keys == p.books.Keys
  {
    if price <= 0.0 || qty <= 0.0 || Cost(cfg, price, qty) > p.cash then None
    else
      var fill := BuyPrice(cfg, price);
      var fee := Commission(cfg, Gross(fill, qty));
      match OpenTradeTx(p.books[s], None, qty, fill, fee, RiskStop(cfg, fill), RiskTake(cfg, fill))
      case Failure(_) => None
      case Success(b) =>
        Some(Paper(p.cash - Cost(cfg, price, qty), p.held[s := p.held[s] + qty], p.books[s := b]))
  }

  /** The paper branch of maybe_exit once there is a reason to leave. */
  function SoldOff(p: Paper, cfg: Settings, s: Symbol, price: real): (r: Option<Paper>)
    requires Knows(p, s)
    ensures r.Some? ==> r.value.held.Keys == p.held.Keys && r.value.books.Keys == p.books.Keys
  {
    if price <= 0.0 || p.books[s].open.None? then None
    else
      var t := p.books[s].open.value;
      var fill := SellPrice(cfg, price);
      var gross := Gross(fill, t.quantity);
      var fee := Commission(cfg, gross);
      match CloseTradeTx(p.books[s], t.id, fill, fee, Some(t.quantity), None)
      case Failure(_) => None
      case Success(b) =>
        Some(Paper(p.cash + (gross - fee), p.held[s := Max(0.0, p.held[s] - t.quantity)], p.books[s := b]))
  }

  function Raised(p: Paper, s: Symbol, observed: real, level: real): (r: Option<Paper>)
    requires Knows(p, s)
    ensures r.Some? ==> r.value.held.Keys == p.held.Keys && r.value.books.Keys == p.books.Keys
  {
    if p.books[s].open.None? then None
    else Some(p.(books := p.books[s := RaiseStopTx(p.books[s], p.books[s].open.value.id, observed, level).value]))
  }

  datatype PaperOp =
    | PaperBuy(symbol: Symbol, price: real, qty: real)
    | PaperSell(symbol: Symbol, price: real)
    | PaperRaise(symbol: Symbol, observed: real, level: real)

  function Perform(p: Paper, cfg: Settings, op: PaperOp): (r: Option<Paper>)
    requires Knows(p, op.symbol)
    ensures r.Some? ==> r.value.held.Keys == p.held.Keys && r.value.books.Keys == p.books.Keys
  {
    match op
    case PaperBuy(s, price, qty) => Bought(p, cfg, s, price, qty)
    case PaperSell(s, price) => SoldOff(p, cfg, s, price)
    case PaperRaise(s, observed, level) => Raised(p, s, observed, level)
  }

  // ---------------------------------------------------------------- the ledger identity

  function PnlSum(rows: seq<ClosedTrade>): real {
    if rows == [] then 0.0 else PnlSum(rows[..|rows| - 1]) + rows[|rows| - 1].pnl
  }

  /** What an open position cost: price times quantity plus the entry fee. */
  function OpenCost(b: Book): real {
    if b.open.Some? then b.open.value.entryPrice * b.open.value.quantity + b.open.value.entryFee else 0.0
  }

  function PnlParts(p: Paper): map<nat, real> {
    map s | s in p.books :: PnlSum(p.books[s].closed)
  }

  function CostParts(p: Paper): map<nat, real> {
    map s | s in p.books :: OpenCost(p.books[s])
  }

  function Realized(p: Paper, symbols: seq<Symbol>): real { Sum(PnlParts(p), symbols) }

  function Invested(p: Paper, symbols: seq<Symbol>): real { Sum(CostParts(p), symbols) }

  function OpenQty(b: Book): real { if b.open.Some? then b.open.value.quantity else 0.0 }

  predicate SoundSymbol(p: Paper, s: Symbol) {
    && Knows(p, s) && p.held[s] == OpenQty(p.books[s])
    && (p.books[s].open.Some? ==> p.books[s].open.value.quantity > 0.0)
  }

  /** The identity of the paper ledger. */
  predicate Balanced(p: Paper, symbols: seq<Symbol>, start: real) {
    && p.cash == start + Realized(p, symbols) - Invested(p, symbols)
    && p.cash >= 0.0
    && forall i :: 0 <= i < |symbols| ==> SoundSymbol(p, symbols[i])
  }

  lemma PnlAppend(rows: seq<ClosedTrade>, x: ClosedTrade)
    ensures PnlSum(rows + [x]) == PnlSum(rows) + x.pnl
  {
    assert (rows + [x])[..|rows|] == rows;
  }

  /** Changing one symbol moves the two sums by what that symbol's book changed. */
  lemma OneBookChanges(p: Paper, p': Paper, symbols: seq<Symbol>, s: Symbol)
    requires NoDuplicates(symbols) && s in symbols && Knows(p, s) && Knows(p', s)
    requires p'.books == p.books[s := p'.books[s]]
    ensures Realized(p', symbols) == Realized(p, symbols) - PnlSum(p.books[s].closed) + PnlSum(p'.books[s].closed)
    ensures Invested(p', symbols) == Invested(p, symbols) - OpenCost(p.books[s]) + OpenCost(p'.books[s])
  {
    hide PnlSum, OpenCost;
    SumChange(PnlParts(p), PnlParts(p'), symbols, s);
    SumChange(CostParts(p), CostParts(p'), symbols, s);
  }

  lemma StillSound(p: Paper, p': Paper, symbols: seq<Symbol>, s: Symbol)
    requires forall i :: 0 <= i < |symbols| ==> SoundSymbol(p, symbols[i])
    requires SoundSymbol(p', s) && p'.books == p.books[s := p'.books[s]] && p'.held == p.held[s := p'.held[s]]
    ensures forall i :: 0 <= i < |symbols| ==> SoundSymbol(p', symbols[i])
  {
    forall i | 0 <= i < |symbols| ensures SoundSymbol(p', symbols[i]) {
      assert SoundSymbol(p, symbols[i]);
    }
  }

  lemma BoughtIs(p: Paper, cfg: Settings, s: Symbol, price: real, qty: real, p': Paper)
    requires Knows(p, s) && Bought(p, cfg, s, price, qty) == Some(p')
    ensures price > 0.0 && qty > 0.0 && p.books[s].open.None? && Knows(p', s)
    ensures p'.cash == p.cash - Cost(cfg, price, qty) >= 0.0
    ensures p'.held == p.held[s := p.held[s] + qty] && p'.books == p.books[s := p'.books[s]]
    ensures p'.books[s].closed == p.books[s].closed
    ensures p'.books[s].open.Some? && p'.books[s].open.value.quantity == qty
    ensures p'.books[s].open.value.stop == RiskStop(cfg, BuyPrice(cfg, price))
    ensures p'.books[s].open.value.takeProfit == RiskTake(cfg, BuyPrice(cfg, price))
    ensures p'.books[s].open.value.entryPrice == BuyPrice(cfg, price)
    ensures OpenCost(p'.books[s]) == Cost(cfg, price, qty)
  {
    hide Commission, BuyPrice, RiskStop, RiskTake;
  }

  lemma BuyBalanced(p: Paper, cfg: Settings, symbols: seq<Symbol>, start: real, s: Symbol, price: real, qty: real, p': Paper)
    requires NoDuplicates(symbols) && s in symbols && Balanced(p, symbols, start)
    requires Knows(p, s) && Bought(p, cfg, s, price, qty) == Some(p')
    ensures Balanced(p', symbols, start)
  {
    hide Bought, Cost, Realized, Invested, PnlSum, BuyPrice;
    BoughtIs(p, cfg, s, price, qty, p');
    assert SoundSymbol(p, s);
    OneBookChanges(p, p', symbols, s);
    assert SoundSymbol(p', s);
    hide OpenCost;
    StillSound(p, p', symbols, s);
  }

  /** Selling the whole quantity books a P&L that is the proceeds less everything the trade cost. */
  lemma FullSale(b: Book, t: OpenTrade, fill: real, fee: real, b': Book)
    requires b.open == Some(t) && t.quantity > 0.0
    requires CloseTradeTx(b, t.id, fill, fee, Some(t.quantity), None) == Success(b')
    ensures b'.open == None && |b'.closed| == |b.closed| + 1 && b'.closed[..|b.closed|] == b.closed
    ensures b'.closed[|b.closed|].pnl == (Gross(fill, t.quantity) - fee) - OpenCost(b)
    ensures PnlSum(b'.closed) == PnlSum(b.closed) + b'.closed[|b.closed|].pnl
  {
    var x := b'.closed[|b.closed|];
    assert b'.closed == b.closed + [x];
    PnlAppend(b.closed, x);
    assert AllocatedEntryFee(t, t.quantity) == t.entryFee * Ratio(t.quantity, t.quantity) == t.entryFee;
  }

  lemma ProceedsNotNegative(cfg: Settings, price: real, qty: real)
    requires price > 0.0 && qty > 0.0
    ensures var gross := Gross(SellPrice(cfg, price), qty); gross >= 0.0 && gross - Commission(cfg, gross) >= 0.0
  {
    var fill := SellPrice(cfg, price);
    assert fill > 0.0;
    var gross := Gross(fill, qty);
    assert gross > 0.0;
    assert gross - Commission(cfg, gross) == gross * (1.0 - cfg.feeRate);
  }

  lemma SoldIs(p: Paper, cfg: Settings, s: Symbol, price: real, p': Paper)
    requires Knows(p, s) && SoldOff(p, cfg, s, price) == Some(p') && p.held[s] == OpenQty(p.books[s])
    requires p.books[s].open.Some? ==> p.books[s].open.value.quantity > 0.0
    ensures price > 0.0 && p.books[s].open.Some? && Knows(p', s)
    ensures p'.cash >= p.cash && p'.held == p.held[s := 0.0] && p'.books == p.books[s := p'.books[s]]
    ensures p'.books[s].open.None? && |p'.books[s].closed| == |p.books[s].closed| + 1
    ensures p'.books[s].closed[|p.books[s].closed|].pnl == (p'.cash - p.cash) - OpenCost(p.books[s])
    ensures PnlSum(p'.books[s].closed) == PnlSum(p.books[s].closed) + (p'.cash - p.cash) - OpenCost(p.books[s])
    ensures var gross := Gross(SellPrice(cfg, price), p.books[s].open.value.quantity);
      p'.cash - p.cash == gross - Commission(cfg, gross)
  {
    hide CloseTradeTx, PnlSum, OpenCost, SellPrice, Gross, Commission;
    var t := p.books[s].open.value;
    var gross := Gross(SellPrice(cfg, price), t.quantity);
    FullSale(p.books[s], t, SellPrice(cfg, price), Commission(cfg, gross), p'.books[s]);
    ProceedsNotNegative(cfg, price, t.quantity);
  }

  lemma SellBalanced(p: Paper, cfg: Settings, symbols: seq<Symbol>, start: real, s: Symbol, price: real, p': Paper)
    requires NoDuplicates(symbols) && s in symbols && Balanced(p, symbols, start)
    requires Knows(p, s) && SoldOff(p, cfg, s, price) == Some(p')
    ensures Balanced(p', symbols, start)
  {
    hide SoldOff, Realized, Invested, PnlSum, SellPrice;
    assert SoundSymbol(p, s);
    SoldIs(p, cfg, s, price, p');
    OneBookChanges(p, p', symbols, s);
    assert SoundSymbol(p', s);
    hide OpenCost;
    StillSound(p, p', symbols, s);
  }

  lemma RaisedIs(p: Paper, s: Symbol, observed: real, level: real, p': Paper)
    requires Knows(p, s) && Raised(p, s, observed, level) == Some(p')
    ensures Knows(p', s) && p'.cash == p.cash && p'.held == p.held && p'.books == p.books[s := p'.books[s]]
    ensures p'.books[s].closed == p.books[s].closed && OpenCost(p'.books[s]) == OpenCost(p.books[s])
    ensures p.books[s].open.Some? && p'.books[s].open.Some? && OpenQty(p'.books[s]) == OpenQty(p.books[s])
  {
  }

  lemma RaiseBalanced(p: Paper, symbols: seq<Symbol>, start: real, s: Symbol, observed: real, level: real, p': Paper)
    requires NoDuplicates(symbols) && s in symbols && Balanced(p, symbols, start)
    requires Knows(p, s) && Raised(p, s, observed, level) == Some(p')
    ensures Balanced(p', symbols, start)
  {
    hide Raised, Realized, Invested, PnlSum, OpenCost;
    assert SoundSymbol(p, s);
    RaisedIs(p, s, observed, level, p');
    OneBookChanges(p, p', symbols, s);
    assert SoundSymbol(p', s);
    assert p'.held == p.held[s := p'.held[s]];
    StillSound(p, p', symbols, s);
  }

  /** A refused operation changes nothing. */
  function PerformAll(p: Paper, cfg: Settings, ops: seq<PaperOp>): (r: Paper)
    requires forall i :: 0 <= i < |ops| ==> Knows(p, ops[i].symbol)
    ensures r.held.Keys == p.held.Keys && r.books.Keys == p.books.Keys
  {
    if ops == [] then p
    else
      var q := PerformAll(p, cfg, ops[..|ops| - 1]);
      var op := ops[|ops| - 1];
      assert Knows(p, op.symbol);
      match Perform(q, cfg, op) { case Some(r) => r case None => q }
  }

  function FreshAccount(symbols: seq<Symbol>, start: real): Paper {
    Paper(start, map s | s in symbols :: 0.0, map s | s in symbols :: EMPTY_BOOK)
  }

  lemma FreshBalanced(symbols: seq<Symbol>, start: real)
    requires start >= 0.0
    ensures Balanced(FreshAccount(symbols, start), symbols, start)
  {
    var p := FreshAccount(symbols, start);
    SumOfNothing(PnlParts(p), symbols);
    SumOfNothing(CostParts(p), symbols);
  }

  /**
    The paper ledger identity. From a fresh paper database, after any run of entries, exits and
    stop updates over all symbols, cash is the starting balance plus all realized P&L less what
    the open positions cost, it is never negative, and every base balance is that symbol's open
    quantity.
  */
  lemma {:induction false} LedgerIdentity(cfg: Settings, symbols: seq<Symbol>, start: real, ops: seq<PaperOp>)
    requires NoDuplicates(symbols) && start >= 0.0
    requires forall i :: 0 <= i < |ops| ==> ops[i].symbol in symbols
    ensures Balanced(PerformAll(FreshAccount(symbols, start), cfg, ops), symbols, start)
    ensures var p := PerformAll(FreshAccount(symbols, start), cfg, ops);
      && p.cash == start + Realized(p, symbols) - Invested(p, symbols) && p.cash >= 0.0
      && forall s :: s in symbols ==>
           s in p.held && s in p.books
           && p.held[s] == if p.books[s].open.Some? then p.books[s].open.value.quantity else 0.0
  {
    hide Perform, Realized, Invested;
    var first := FreshAccount(symbols, start);
    if ops == [] {
      FreshBalanced(symbols, start);
    } else {
      var n := |ops| - 1;
      LedgerIdentity(cfg, symbols, start, ops[..n]);
      var p := PerformAll(first, cfg, ops[..n]);
      OpBalanced(p, cfg, symbols, start, ops[n]);
    }
  }

  lemma OpBalanced(p: Paper, cfg: Settings, symbols: seq<Symbol>, start: real, op: PaperOp)
    requires NoDuplicates(symbols) && op.symbol in symbols && Balanced(p, symbols, start) && Knows(p, op.symbol)
    ensures Perform(p, cfg, op).Some? ==> Balanced(Perform(p, cfg, op).value, symbols, start)
  {
    hide Balanced, Bought, SoldOff, Raised;
    if Perform(p, cfg, op).Some? {
      var p' := Perform(p, cfg, op).value;
      match op {
        case PaperBuy(s, price, qty) => BuyBalanced(p, cfg, symbols, start, s, price, qty, p');
        case PaperSell(s, price) => SellBalanced(p, cfg, symbols, start, s, price, p');
        case PaperRaise(s, observed, level) => RaiseBalanced(p, symbols, start, s, observed, level, p');
      }
    }
  }

  // ---------------------------------------------------------------- what an entry and an exit do

  /**
    An entry is possible exactly for a positive price and quantity, without a position, and when
    the cash covers the quantity at the price slipped up with its fee. The position it opens has
    that price, fee, stop and target.
  */
  lemma PaperEntryIs(p: Paper, cfg: Settings, s: Symbol, price: real, qty: real, fill: real, gross: real)
    requires Knows(p, s) && fill == price * (1.0 + cfg.slipRate) && gross == fill * qty
    ensures Bought(p, cfg, s, price, qty).Some? <==>
      price > 0.0 && qty > 0.0 && p.books[s].open.None? && gross + gross * cfg.feeRate <= p.cash
    ensures Bought(p, cfg, s, price, qty).Some? ==>
      var p' := Bought(p, cfg, s, price, qty).value;
      && p'.cash == p.cash - gross - gross * cfg.feeRate
      && p'.held == p.held[s := p.held[s] + qty] && p'.books == p.books[s := p'.books[s]]
      && p'.books[s].open.Some? && p'.books[s].closed == p.books[s].closed
      && var t := p'.books[s].open.value;
         && t.quantity == qty && t.entryPrice == fill && t.highest == fill && t.entryFee == gross * cfg.feeRate
         && t.stop == Below(fill, cfg.stopLossPct) && t.takeProfit == Above(fill, cfg.takeProfitPct)
  {
    hide Below, Above;
    assert BuyPrice(cfg, price) == fill;
    hide BuyPrice;
    assert Gross(fill, qty) == gross;
    hide Gross;
  }

  /**
    An exit sells the whole position at the price slipped down and takes the fee from the
    proceeds; the row is closed at that price.
  */
  lemma PaperExitIs(p: Paper, cfg: Settings, s: Symbol, price: real, out: real, gross: real)
    requires Knows(p, s) && p.books[s].open.Some? && p.books[s].open.value.quantity > 0.0
    requires out == price * (1.0 - cfg.slipRate) && gross == out * p.books[s].open.value.quantity
    ensures SoldOff(p, cfg, s, price).Some? <==> price > 0.0
    ensures SoldOff(p, cfg, s, price).Some? ==>
      var p' := SoldOff(p, cfg, s, price).value; var t := p.books[s].open.value;
      && p'.cash == p.cash + gross - gross * cfg.feeRate
      && p'.held == p.held[s := Max(0.0, p.held[s] - t.quantity)] && p'.books == p.books[s := p'.books[s]]
      && p'.books[s].open.None? && |p'.books[s].closed| == |p.books[s].closed| + 1
      && var row := p'.books[s].closed[|p.books[s].closed|];
         row.quantity == t.quantity && row.exitPrice == out && row.exitFee == gross * cfg.feeRate
  {
    hide Pnl, AllocatedEntryFee;
    assert SellPrice(cfg, price) == out;
    hide SellPrice;
    assert Gross(out, p.books[s].open.value.quantity) == gross;
    hide Gross;
  }

  // ---------------------------------------------------------------- exposure

  function ValueParts(p: Paper, prices: map<Symbol, real>): map<nat, real> {
    map s | s in p.held && s in prices :: p.held[s] * prices[s]
  }

  /** The value of all holdings at the given prices. */
  function Exposure(p: Paper, prices: map<Symbol, real>, symbols: seq<Symbol>): real {
    Sum(ValueParts(p, prices), symbols)
  }

  function Equity(p: Paper, prices: map<Symbol, real>, symbols: seq<Symbol>): real {
    p.cash + Exposure(p, prices, symbols)
  }

  /** Exposure plus a reserve is within the limit of the equity. */
  predicate Headroom(p: Paper, cfg: Settings, prices: map<Symbol, real>, symbols: seq<Symbol>, reserve: real) {
    Exposure(p, prices, symbols) + reserve <= cfg.maxExposure * Equity(p, prices, symbols)
  }

  lemma WithinLimit(p: Paper, cfg: Settings, prices: map<Symbol, real>, symbols: seq<Symbol>)
    requires Headroom(p, cfg, prices, symbols, 0.0)
    ensures Exposure(p, prices, symbols) <= cfg.maxExposure * Equity(p, prices, symbols)
  {
  }

  predicate Priced(prices: map<Symbol, real>) {
    forall s :: s in prices ==> prices[s] > 0.0
  }

  lemma ExposureChange(p: Paper, p': Paper, prices: map<Symbol, real>, symbols: seq<Symbol>, s: Symbol)
    requires NoDuplicates(symbols) && s in symbols && Knows(p, s) && Knows(p', s)
    requires p'.held == p.held[s := p'.held[s]]
    ensures Exposure(p', prices, symbols) == Exposure(p, prices, symbols)
      + (if s in prices then p'.held[s] * prices[s] - p.held[s] * prices[s] else 0.0)
  {
    var m, m' := ValueParts(p, prices), ValueParts(p', prices);
    assert forall k :: k != s ==> Part(m, k) == Part(m', k);
    SumChange(m, m', symbols, s);
  }

  /** An exit at any price keeps the headroom, although it may lower the equity. */
  lemma SellKeepsHeadroom(p: Paper, cfg: Settings, symbols: seq<Symbol>, start: real, s: Symbol, price: real, p': Paper,
                          prices: map<Symbol, real>, reserve: real)
    requires NoDuplicates(symbols) && s in symbols && Balanced(p, symbols, start) && Priced(prices)
    requires Knows(p, s) && SoldOff(p, cfg, s, price) == Some(p') && Headroom(p, cfg, prices, symbols, reserve)
    ensures Headroom(p', cfg, prices, symbols, reserve)
  {
    hide SoldOff, Exposure, SellPrice, Realized, Invested, PnlSum, Commission;
    assert SoundSymbol(p, s);
    SoldIs(p, cfg, s, price, p');
    var qty := p.books[s].open.value.quantity;
    ExposureChange(p, p', prices, symbols, s);
    var value := if s in prices then qty * prices[s] else 0.0;
    assert value >= 0.0;
    var proceeds := p'.cash - p.cash;
    assert proceeds >= 0.0;
    hide Balanced, SoundSymbol, OpenCost;
    LessOfBoth(cfg.maxExposure, value, proceeds);
  }

  lemma LessOfBoth(f: real, value: real, proceeds: real)
    requires 0.0 < f <= 1.0 && value >= 0.0 && proceeds >= 0.0
    ensures f * (proceeds - value) >= -value
  {
    OrderTimes(f, 1.0, value);
    assert f * proceeds >= 0.0;
    assert f * (proceeds - value) == f * proceeds - f * value;
  }

  /** What the position adds to exposure is within the reserve, costs included. */
  lemma BuyWithinLimit(p: Paper, cfg: Settings, symbols: seq<Symbol>, start: real, s: Symbol, price: real, qty: real,
                       p': Paper, prices: map<Symbol, real>, reserve: real)
    requires NoDuplicates(symbols) && s in symbols && Balanced(p, symbols, start)
    requires Knows(p, s) && Bought(p, cfg, s, price, qty) == Some(p')
    requires s in prices && prices[s] == price && Cost(cfg, price, qty) <= reserve
    requires Headroom(p, cfg, prices, symbols, reserve)
    ensures Headroom(p', cfg, prices, symbols, 0.0)
  {
    hide Bought, Exposure, Cost, Realized, Invested, PnlSum, BuyPrice;
    assert SoundSymbol(p, s);
    BoughtIs(p, cfg, s, price, qty, p');
    ExposureChange(p, p', prices, symbols, s);
    var notional := qty * price;
    CostIsMore(cfg, price, qty);
    hide Balanced, SoundSymbol, OpenCost;
    CostsShrinkLess(cfg.maxExposure, notional, Cost(cfg, price, qty));
  }

  lemma CostIsMore(cfg: Settings, price: real, qty: real)
    requires price > 0.0 && qty > 0.0
    ensures Cost(cfg, price, qty) >= qty * price > 0.0
  {
    CostIsLinear(cfg, price, qty);
    hide Cost;
    CostsAboveOne(cfg);
    assert qty * price > 0.0;
    OrderTimes(1.0, Costs(cfg), qty * price);
  }

  lemma CostsAboveOne(cfg: Settings)
    ensures Costs(cfg) >= 1.0
  {
    OrderTimes(1.0, 1.0 + cfg.feeRate, 1.0 + cfg.slipRate);
    assert 1.0 * (1.0 + cfg.slipRate) >= 1.0;
  }

  lemma CostsShrinkLess(f: real, notional: real, cost: real)
    requires 0.0 < f <= 1.0 && cost >= notional
    ensures f * (cost - notional) <= cost - notional
  {
    OrderTimes(f, 1.0, cost - notional);
  }

  function Costs(cfg: Settings): real { (1.0 + cfg.feeRate) * (1.0 + cfg.slipRate) }

  lemma CostIsLinear(cfg: Settings, price: real, qty: real)
    ensures Cost(cfg, price, qty) == qty * price * Costs(cfg)
  {
    var fill := BuyPrice(cfg, price);
    var gross := Gross(fill, qty);
    Regroup(price, qty, 1.0 + cfg.slipRate, cfg.feeRate, fill, gross, Commission(cfg, gross));
    hide BuyPrice, Gross, Commission;
  }

  lemma Regroup(price: real, qty: real, s: real, f: real, fill: real, gross: real, fee: real)
    requires fill == price * s && gross == fill * qty && fee == gross * f
    ensures gross + fee == qty * price * ((1.0 + f) * s)
  {
    var n := qty * price;
    assert gross == n * s;
    assert fee == n * (f * s);
    assert n * s + n * (f * s) == n * (s + f * s);
  }

  lemma CostIsMonotone(cfg: Settings, price: real, qty: real, most: real)
    requires price > 0.0 && qty <= most
    ensures Cost(cfg, price, qty) <= most * price * Costs(cfg)
  {
    CostIsLinear(cfg, price, qty);
    CostsAboveOne(cfg);
    hide Cost, Costs;
    OrderTimes(qty, most, price);
    OrderTimes(qty * price, most * price, Costs(cfg));
  }

  /** The price of a symbol that is not held does not matter. */
  lemma UnheldPrice(p: Paper, prices: map<Symbol, real>, symbols: seq<Symbol>, s: Symbol, price: real)
    requires s in p.held && p.held[s] == 0.0
    ensures Exposure(p, prices[s := price], symbols) == Exposure(p, prices, symbols)
  {
    SumSame(ValueParts(p, prices), ValueParts(p, prices[s := price]), symbols);
  }

  lemma SoldElsewhere(p: Paper, cfg: Settings, k: Symbol, price: real, p': Paper)
    requires Knows(p, k) && SoldOff(p, cfg, k, price) == Some(p')
    ensures p'.held.Keys == p.held.Keys && p'.books.Keys == p.books.Keys
    ensures forall s :: s != k && s in p.books ==> p'.books[s] == p.books[s]
  {
    hide CloseTradeTx, Gross, Commission, SellPrice;
  }

  // ---------------------------------------------------------------- the account as an object

  class PaperAccount {
    const symbols: seq<Symbol>
    const cfg: Settings
    const start: real
    var cash: real
    var held: map<Symbol, real>
    var books: map<Symbol, Book>

    function State(): Paper
      reads this
    {
      Paper(cash, held, books)
    }

    predicate Valid()
      reads this
    {
      NoDuplicates(symbols) && Balanced(State(), symbols, start)
    }

    constructor (symbols: seq<Symbol>, cfg: Settings, start: real)
      requires NoDuplicates(symbols) && start >= 0.0
      ensures Valid() && State() == FreshAccount(symbols, start)
      ensures this.symbols == symbols && this.cfg == cfg && this.start == start
    {
      this.symbols, this.cfg, this.start := symbols, cfg, start;
      cash, held, books := start, map s | s in symbols :: 0.0, map s | s in symbols :: EMPTY_BOOK;
      FreshBalanced(symbols, start);
    }

    /** Broker.enter in paper mode; `qty` is what the lot filters left of the risk quantity. */
    method Enter(s: Symbol, riskQuantity: real, price: real) returns (ok: bool, qty: real)
      requires Valid() && s in symbols
      modifies this
      ensures Valid()
      ensures ok ==> qty <= riskQuantity && Knows(old(State()), s) && Bought(old(State()), cfg, s, price, qty) == Some(State())
      ensures !ok ==> State() == old(State())
      ensures !ok ==>
        || price <= 0.0 || riskQuantity <= 0.0 || qty <= 0.0 || qty > riskQuantity
        || (Knows(old(State()), s) && Bought(old(State()), cfg, s, price, qty) == None)
    {
      assert SoundSymbol(State(), s);
      qty := *;
      if price <= 0.0 || riskQuantity <= 0.0 || books[s].open.Some? || qty <= 0.0 || qty > riskQuantity {
        return false, qty;
      }
      var fill := BuyPrice(cfg, price);
      var fee := Commission(cfg, Gross(fill, qty));
      var cost := Gross(fill, qty) + fee;
      var stop, take := RiskStop(cfg, fill), RiskTake(cfg, fill);
      if cost > cash {
        return false, qty;
      }
      ghost var before := State();
      var booked := OpenTradeTx(books[s], None, qty, fill, fee, stop, take);
      books := books[s := booked.value];
      cash := cash - cost;
      held := held[s := held[s] + qty];
      BuyBalanced(before, cfg, symbols, start, s, price, qty, State());
      return true, qty;
    }

    /** Broker.maybe_exit in paper mode; tells whether the position was closed. */
    method MaybeExit(s: Symbol, price: real, sellSignal: bool) returns (sold: bool)
      requires Valid() && s in symbols
      modifies this
      ensures Valid()
      ensures sold ==> Knows(old(State()), s) && SoldOff(old(State()), cfg, s, price) == Some(State())
      ensures !sold ==> cash == old(cash) && held == old(held)
      ensures !sold && s in old(books) && old(books)[s].open.Some? ==>
        s in books && books[s].open.Some? && books[s].open.value.stop >= old(books)[s].open.value.stop
      ensures sold <==>
        && price > 0.0 && s in old(books) && old(books)[s].open.Some?
        && (price <= old(books)[s].open.value.stop || price >= old(books)[s].open.value.takeProfit || sellSignal)
    {
      assert SoundSymbol(State(), s);
      if price <= 0.0 || books[s].open.None? {
        return false;
      }
      var trade := books[s].open.value;
      if !ReasonToExit(trade, price, sellSignal) {
        if cfg.enableTrailing {
          Ratchet(s, trade, price);
        }
        return false;
      }
      Liquidate(s, price);
      return true;
    }

    method Ratchet(s: Symbol, trade: OpenTrade, price: real)
      requires Valid() && s in symbols && Knows(State(), s) && books[s].open == Some(trade)
      modifies this`books
      ensures Valid() && trade.quantity > 0.0
      ensures books == old(books)[s := old(books)[s].(open :=
        Some(trade.(highest := Max(trade.highest, price), stop := RaisedStop(cfg, trade, price))))]
    {
      assert SoundSymbol(State(), s);
      var high := Max(trade.highest, price);
      var stop := RaisedStop(cfg, trade, price);
      if high > trade.highest || stop > trade.stop {
        ghost var before := State();
        books := books[s := RaiseStopTx(books[s], trade.id, high, stop).value];
        RaiseBalanced(before, symbols, start, s, high, stop, State());
      }
    }

    method Liquidate(s: Symbol, price: real)
      requires Valid() && s in symbols && price > 0.0 && Knows(State(), s) && books[s].open.Some?
      modifies this
      ensures Valid() && SoldOff(old(State()), cfg, s, price) == Some(State())
    {
      assert SoundSymbol(State(), s);
      var t := books[s].open.value;
      var fill := SellPrice(cfg, price);
      var gross := Gross(fill, t.quantity);
      var fee := Commission(cfg, gross);
      ghost var before := State();
      var settled := CloseTradeTx(books[s], t.id, fill, fee, Some(t.quantity), None);
      books := books[s := settled.value];
      cash := cash + (gross - fee);
      held := held[s := Max(0.0, held[s] - t.quantity)];
      SellBalanced(before, cfg, symbols, start, s, price, State());
    }

    /** PortfolioCoordinator.snapshot: cash, then every holding at its fresh price. */
    method Snapshot(prices: map<Symbol, real>) returns (r: Option<(real, real)>)
      requires Valid()
      ensures r.Some? ==> r.value == (Equity(State(), prices, symbols), Exposure(State(), prices, symbols))
      ensures r.Some? <==>
        && (forall i :: 0 <= i < |symbols| && held[symbols[i]] > 0.0 ==> symbols[i] in prices && prices[symbols[i]] > 0.0)
        && Equity(State(), prices, symbols) > 0.0
    {
      var equity, exposure := cash, 0.0;
      for i := 0 to |symbols|
        invariant exposure == Sum(ValueParts(State(), prices), symbols[..i])
        invariant forall j :: 0 <= j < i && held[symbols[j]] > 0.0 ==> symbols[j] in prices && prices[symbols[j]] > 0.0
      {
        assert symbols[..i + 1][..i] == symbols[..i];
        var s := symbols[i];
        assert SoundSymbol(State(), s);
        var quantity := held[s];
        if quantity <= 0.0 {
          assert quantity == 0.0;
          continue;
        }
        if s !in prices || prices[s] <= 0.0 {
          return None;
        }
        exposure := exposure + quantity * prices[s];
      }
      assert symbols[..|symbols|] == symbols;
      equity := equity + exposure;
      if equity <= 0.0 {
        return None;
      }
      return Some((equity, exposure));
    }

    /**
      PortfolioCoordinator.execute_entry in paper mode. The lock serializes entries, but other
      symbols may still exit at any price while the entry waits for its last reply. An accepted
      entry leaves the exposure, valued at the prices it was sized with, within the limit of the
      equity that is left.
    */
    method ExecuteEntry(s: Symbol, quantity: real, price: real, prices: map<Symbol, real>) returns (ok: bool)
      requires Valid() && Priced(prices)
      modifies this
      ensures Valid()
      ensures ok ==>
        && s in symbols && Priced(prices[s := price])
        && Exposure(State(), prices[s := price], symbols) <= cfg.maxExposure * Equity(State(), prices[s := price], symbols)
    {
      hide Balanced, Headroom;
      var blocked := *;  // loss pause, position limit, daily loss limit, or a price that moved
      if s !in symbols || blocked {
        return false;
      }
      var approved := CheckExposure(s, quantity, price, prices);
      if !approved {
        return false;
      }
      ghost var sized := prices[s := price];
      ghost var reserve := quantity * price * Costs(cfg);
      var flat := books[s].open.None?;
      var exits: int := *;
      for i := 0 to if exits > 0 then exits else 0
        invariant Valid() && Knows(State(), s) && (flat <==> books[s].open.None?)
        invariant flat ==> Headroom(State(), cfg, sized, symbols, reserve)
      {
        OtherExit(s, sized, reserve);
      }
      var entered, qty := EnterSized(s, quantity, price, sized, reserve, flat);
      if entered {
        WithinLimit(State(), cfg, sized, symbols);
      }
      return entered;
    }

    /** A notional bought at the slipped price, with its fee. */
    function WithCosts(notional: real): (r: real)
      ensures r == notional * (1.0 + cfg.feeRate) * (1.0 + cfg.slipRate)
    {
      var c := 1.0 + cfg.feeRate;
      assert notional * (c * (1.0 + cfg.slipRate)) == notional * c * (1.0 + cfg.slipRate);
      notional * Costs(cfg)
    }

    /** The cash and exposure checks on the snapshot. */
    method CheckExposure(s: Symbol, quantity: real, price: real, prices: map<Symbol, real>) returns (ok: bool)
      requires Valid() && s in symbols && Priced(prices)
      ensures Knows(State(), s)
      ensures ok <==>
        && quantity > 0.0 && price > 0.0 && Equity(State(), prices, symbols) > 0.0
        && (forall i :: 0 <= i < |symbols| && held[symbols[i]] > 0.0 ==> symbols[i] in prices && prices[symbols[i]] > 0.0)
        && WithCosts(quantity * price) <= cash
        && Exposure(State(), prices, symbols) + WithCosts(quantity * price)
           <= Equity(State(), prices, symbols) * cfg.maxExposure
      ensures ok && books[s].open.None? ==>
        Headroom(State(), cfg, prices[s := price], symbols, quantity * price * Costs(cfg))
    {
      assert SoundSymbol(State(), s);
      hide Balanced;
      var snapshot := Snapshot(prices);
      if snapshot.None? || quantity <= 0.0 || price <= 0.0 {
        return false;
      }
      var (equity, exposure) := snapshot.value;
      var notional := quantity * price;
      if WithCosts(notional) > cash || exposure + WithCosts(notional) > equity * cfg.maxExposure {
        return false;
      }
      if books[s].open.None? {
        UnheldPrice(State(), prices, symbols, s, price);
      }
      return true;
    }

    /** Some other symbol may leave its position, at any price. */
    method OtherExit(s: Symbol, ghost sized: map<Symbol, real>, ghost reserve: real)
      requires Valid() && Knows(State(), s) && Priced(sized)
      modifies this
      ensures Valid() && Knows(State(), s) && books[s] == old(books)[s]
      ensures old(Headroom(State(), cfg, sized, symbols, reserve)) ==> Headroom(State(), cfg, sized, symbols, reserve)
    {
      hide Balanced, Headroom, SoldOff;
      var k: Symbol := *;
      var price: real := *;
      if k != s && k in symbols && price > 0.0 {
        ghost var before := State();
        if k in books && k in held && books[k].open.Some? {
          Liquidate(k, price);
          SoldElsewhere(before, cfg, k, price, State());
          if Headroom(before, cfg, sized, symbols, reserve) {
            SellKeepsHeadroom(before, cfg, symbols, start, k, price, State(), sized, reserve);
          }
        }
      }
    }

    method EnterSized(s: Symbol, quantity: real, price: real, ghost sized: map<Symbol, real>,
                      ghost reserve: real, ghost flat: bool)
      returns (ok: bool, qty: real)
      requires Valid() && s in symbols && Knows(State(), s) && (flat <==> books[s].open.None?) && price > 0.0
      requires s in sized && sized[s] == price && reserve == quantity * price * Costs(cfg)
      requires flat ==> Headroom(State(), cfg, sized, symbols, reserve)
      modifies this
      ensures Valid()
      ensures ok ==> Headroom(State(), cfg, sized, symbols, 0.0)
    {
      hide Balanced, Headroom, Bought, Costs;
      ghost var before := State();
      ok, qty := Enter(s, quantity, price);
      if ok {
        BoughtIs(before, cfg, s, price, qty, State());
        CostIsMonotone(cfg, price, qty, quantity);
        BuyWithinLimit(before, cfg, symbols, start, s, price, qty, State(), sized, reserve);
      }
    }
  }
}
