/**
  The validated settings of app/config.py that the arithmetic depends on, and the pricing rules
  that the bot, the paper account and the backtest share.
*/
module TradingRules {
  import opened Wrappers
  import opened Ledger
  import opened RealFacts

  /** Rates and percentages are fractions; `cooldown` is in milliseconds. */
  datatype Config = Config(
    stopLossPct: real, takeProfitPct: real,
    enableTrailing: bool, breakevenActivation: real, trailingActivation: real, trailingDistance: real,
    feeRate: real, slipRate: real, entrySlipRate: real, paper: bool,
    riskPerTrade: real, maxPositionFraction: real, maxDailyLoss: real, maxExposure: real,
    useAtrStops: bool, atrMultiplier: real, atrMin: real, atrMax: real,
    minConfidence: real, cooldown: int)

  predicate Within(low: real, x: real, high: real) {
    low <= x <= high
  }

  /** The bounds that Settings enforces. */
  predicate Validated(c: Config) {
    && 0.0 < c.stopLossPct <= 0.10 && 0.0 < c.takeProfitPct <= 0.30
    && 0.0 < c.breakevenActivation <= 0.20 && 0.0 < c.trailingActivation <= 0.20
    && 0.0 < c.trailingDistance <= 0.10 && c.trailingDistance < c.takeProfitPct
    && 0.0 <= c.feeRate <= 0.01 && 0.0 <= c.slipRate <= 0.01 && 0.0 < c.entrySlipRate <= 0.01
    && 0.0 < c.riskPerTrade <= 0.02 && 0.0 < c.maxPositionFraction <= 0.50
    && 0.0 < c.maxDailyLoss <= 0.10 && 0.0 < c.maxExposure <= 1.0
    && 0.5 <= c.atrMultiplier <= 6.0 && 0.0 < c.atrMin <= 0.10 && 0.0 < c.atrMax <= 0.20
    && (c.useAtrStops ==> c.atrMin < c.atrMax)
    && 0.5 <= c.minConfidence <= 0.95 && c.cooldown >= 0
  }

  const DEFAULTS := Config(0.012, 0.024, true, 0.006, 0.01, 0.008, 0.001, 0.0002, 0.0025, true,
                           0.0025, 0.05, 0.01, 0.15, false, 2.0, 0.006, 0.05, 0.70, 60000)

  type Settings = c: Config | Validated(c) witness DEFAULTS

  function Below(fill: real, fraction: real): real { fill * (1.0 - fraction) }

  function Above(fill: real, fraction: real): real { fill * (1.0 + fraction) }

  /** _risk_prices_from_fill, before rounding to the tick size. */
  function RiskStop(cfg: Settings, fill: real): real { Below(fill, cfg.stopLossPct) }

  function RiskTake(cfg: Settings, fill: real): real { Above(fill, cfg.takeProfitPct) }

  /** _paper_execution_price */
  function BuyPrice(cfg: Settings, price: real): real { price * (1.0 + cfg.slipRate) }

  function SellPrice(cfg: Settings, price: real): real { price * (1.0 - cfg.slipRate) }

  /** Stop loss, take profit or the strategy's own signal. */
  predicate ReasonToExit(t: OpenTrade, price: real, sellSignal: bool) {
    price <= t.stop || price >= t.takeProfit || sellSignal
  }

  /** What is left of a sale after slippage and fee. */
  function NetFactor(cfg: Settings): (r: real)
    ensures 0.0 < r <= 1.0
  {
    var kept, sold := 1.0 - cfg.feeRate, 1.0 - cfg.slipRate;
    assert 0.0 < kept <= 1.0 && 0.0 < sold <= 1.0;
    assert kept * sold <= 1.0 * sold;
    kept * sold
  }

  /**
    The stop the trailing rules ask for: the highest of the present stop, of break-even once the
    high-water mark passed the activation level and the price is above it, and of a fixed
    distance below the high-water mark from the second activation level on.
  */
  function CandidateStop(cfg: Settings, entry: real, unitCost: real, stop: real, price: real, high: real): (s: real)
    ensures s >= stop
    ensures high >= entry * (1.0 + cfg.breakevenActivation) && unitCost / NetFactor(cfg) < price ==>
      s >= unitCost / NetFactor(cfg)
    ensures high >= entry * (1.0 + cfg.trailingActivation) ==> s >= high * (1.0 - cfg.trailingDistance)
    ensures s == stop
      || (s == unitCost / NetFactor(cfg)
          && high >= entry * (1.0 + cfg.breakevenActivation) && unitCost / NetFactor(cfg) < price)
      || (s == high * (1.0 - cfg.trailingDistance) && high >= entry * (1.0 + cfg.trailingActivation))
  {
    var breakeven := unitCost / NetFactor(cfg);
    var first := if high >= entry * (1.0 + cfg.breakevenActivation) && breakeven < price
                 then Max(stop, breakeven) else stop;
    if high >= entry * (1.0 + cfg.trailingActivation)
    then Max(first, high * (1.0 - cfg.trailingDistance)) else first
  }

  /**
    The stop of position t after price was seen: break-even counts the entry fee of a unit, and
    the high-water mark includes the price itself.
  */
  function RaisedStop(cfg: Settings, t: OpenTrade, price: real): (s: real)
    requires t.quantity > 0.0
  {
    CandidateStop(cfg, t.entryPrice, t.entryPrice + t.entryFee / t.quantity, t.stop, price, Max(t.highest, price))
  }

  /**
    Whenever the stop rises, it rises to the trailing distance below the highest price seen, or
    to a level at which a sale of the whole position, after slippage and fee, brings back exactly
    what it cost with its entry fee; and to the higher of both if both are due.
  */
  lemma RaisedStopIs(cfg: Settings, t: OpenTrade, price: real)
    requires t.quantity > 0.0
    ensures var s, high := RaisedStop(cfg, t, price), if price > t.highest then price else t.highest;
      && s >= t.stop
      && (s > t.stop ==>
            || (s == high * (1.0 - cfg.trailingDistance) && high >= t.entryPrice * (1.0 + cfg.trailingActivation))
            || (Net(cfg, s, t.quantity) == t.entryPrice * t.quantity + t.entryFee
                && high >= t.entryPrice * (1.0 + cfg.breakevenActivation) && s < price))
      && (high >= t.entryPrice * (1.0 + cfg.trailingActivation) ==> s >= high * (1.0 - cfg.trailingDistance))
      && (high >= t.entryPrice * (1.0 + cfg.breakevenActivation)
          && Net(cfg, price, t.quantity) > t.entryPrice * t.quantity + t.entryFee ==>
            Net(cfg, s, t.quantity) >= t.entryPrice * t.quantity + t.entryFee)
  {
    hide CandidateStop, Net, NetFactor;
    var s, level := RaisedStop(cfg, t, price), BreakEvenLevel(cfg, t);
    BreakEvenIs(cfg, t);
    NetOrder(cfg, level, s, t.quantity);
    NetOrder(cfg, price, level, t.quantity);
  }

  function BreakEvenLevel(cfg: Settings, t: OpenTrade): real
    requires t.quantity > 0.0
  {
    (t.entryPrice + t.entryFee / t.quantity) / NetFactor(cfg)
  }

  lemma BreakEvenIs(cfg: Settings, t: OpenTrade)
    requires t.quantity > 0.0
    ensures Net(cfg, BreakEvenLevel(cfg, t), t.quantity) == t.entryPrice * t.quantity + t.entryFee
  {
    hide Net, NetFactor;
    var cost, f := t.entryPrice + t.entryFee / t.quantity, NetFactor(cfg);
    DivTimes(cost, f);
    CostOfAll(t.entryPrice, t.entryFee, t.quantity);
    NetIs(cfg, cost / f, t.quantity);
  }

  lemma CostOfAll(price: real, fee: real, qty: real)
    requires qty > 0.0
    ensures (price + fee / qty) * qty == price * qty + fee
  {
    DivTimes(fee, qty);
    var x := fee / qty;
    assert (price + x) * qty == price * qty + x * qty;
  }

  /** What a sale brings after slippage and fee. */
  function Net(cfg: Settings, price: real, qty: real): real {
    qty * (price * (1.0 - cfg.slipRate)) * (1.0 - cfg.feeRate)
  }

  lemma NetIs(cfg: Settings, price: real, qty: real)
    ensures Net(cfg, price, qty) == price * NetFactor(cfg) * qty
  {
    var kept, sold := 1.0 - cfg.feeRate, 1.0 - cfg.slipRate;
    assert qty * (price * sold) * kept == price * (kept * sold) * qty;
  }

  lemma NetOrder(cfg: Settings, low: real, high: real, qty: real)
    requires qty > 0.0
    ensures low <= high ==> Net(cfg, low, qty) <= Net(cfg, high, qty)
  {
    hide Net, NetFactor;
    NetIs(cfg, low, qty);
    NetIs(cfg, high, qty);
    if low <= high {
      var f := NetFactor(cfg);
      OrderTimes(low, high, f);
      OrderTimes(low * f, high * f, qty);
    }
  }

  /** Once raised to break-even, a sale at the stop brings back what a unit cost, fee and slippage included. */
  lemma BreakEvenRecovers(cfg: Settings, entry: real, unitCost: real, stop: real, price: real, high: real)
    requires high >= entry * (1.0 + cfg.breakevenActivation) && unitCost / NetFactor(cfg) < price
    ensures SellPrice(cfg, CandidateStop(cfg, entry, unitCost, stop, price, high)) * (1.0 - cfg.feeRate) >= unitCost
  {
    hide NetFactor, SellPrice;
    var s := CandidateStop(cfg, entry, unitCost, stop, price, high);
    DivTimes(unitCost, NetFactor(cfg));
    OrderTimes(unitCost / NetFactor(cfg), s, NetFactor(cfg));
    NetOfSale(cfg, s);
  }

  lemma NetOfSale(cfg: Settings, price: real)
    ensures SellPrice(cfg, price) * (1.0 - cfg.feeRate) == price * NetFactor(cfg)
  {
    var kept, sold := 1.0 - cfg.feeRate, 1.0 - cfg.slipRate;
    assert price * sold * kept == price * (kept * sold);
  }

  /** A stop below the take-profit stays below it while the price and its high-water mark do. */
  lemma CandidateBelowTake(cfg: Settings, entry: real, unitCost: real, stop: real, price: real, high: real, take: real)
    requires stop < take && price <= high < take && 0.0 < high
    ensures CandidateStop(cfg, entry, unitCost, stop, price, high) < take
  {
    assert high * (1.0 - cfg.trailingDistance) <= high by {
      assert high * cfg.trailingDistance >= 0.0;
    }
  }
}
