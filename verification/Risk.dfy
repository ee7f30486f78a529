/**
  app/risk/manager.py: position sizing against a loss budget. The sizing is proved against the
  paper account: a position of the approved size that enters at the sizing price and leaves at
  its stop loses at most the budget, fees and slippage included.
*/
module RiskManager {
  import opened Wrappers
  import opened Ledger
  import opened RealFacts
  import opened TradingRules
  import opened PaperLedger

  datatype Distances = Distances(stop: real, take: real)

  /** atr_scaled_stop_distances: None means the fixed distances. */
  function AtrScaledDistances(cfg: Settings, atr: Option<real>): (d: Option<Distances>)
    ensures d.Some? ==> Within(cfg.stopLossPct / 2.0, d.value.stop, cfg.stopLossPct * 2.0) || d.value.stop == cfg.atrMax
    ensures d.Some? ==> 0.0 < d.value.stop <= cfg.atrMax && 0.0 < d.value.take <= 0.30
  {
    if !cfg.useAtrStops || atr.None? || atr.value <= 0.0 then None
    else
      var fixed := cfg.stopLossPct;
      var scaled := Max(cfg.atrMultiplier * atr.value, Max(fixed / 2.0, cfg.atrMin));
      var stop := Min(scaled, Min(fixed * 2.0, cfg.atrMax));
      PositiveRatio(cfg.takeProfitPct, fixed);
      PositiveProduct(stop, cfg.takeProfitPct / fixed);
      Some(Distances(stop, Min(stop * (cfg.takeProfitPct / fixed), 0.30)))
  }

  /** The configured reward-to-risk ratio is kept unless the cap of 30 % cuts the target. */
  lemma RewardRatioKept(cfg: Settings, atr: Option<real>)
    ensures var d := AtrScaledDistances(cfg, atr);
      d.Some? ==> d.value.take * cfg.stopLossPct <= d.value.stop * cfg.takeProfitPct
                  && (d.value.take < 0.30 ==> d.value.take * cfg.stopLossPct == d.value.stop * cfg.takeProfitPct)
  {
    hide AtrScaledDistances;
    var d := AtrScaledDistances(cfg, atr);
    if d.Some? {
      AtrTake(cfg, atr);
      CappedRatio(d.value.stop, cfg.takeProfitPct, cfg.stopLossPct, d.value.take, 0.30);
    }
  }

  lemma CappedRatio(stop: real, t: real, k: real, take: real, cap: real)
    requires k > 0.0 && take == Min(stop * (t / k), cap)
    ensures take * k <= stop * t && (take < cap ==> take * k == stop * t)
  {
    var full := stop * (t / k);
    ScaleBack(stop, t, k);
    OrderTimes(take, full, k);
  }

  lemma AtrTake(cfg: Settings, atr: Option<real>)
    requires AtrScaledDistances(cfg, atr).Some?
    ensures var d := AtrScaledDistances(cfg, atr).value; d.take == Min(d.stop * (cfg.takeProfitPct / cfg.stopLossPct), 0.30)
  {
  }

  lemma ScaleBack(x: real, t: real, k: real)
    requires k != 0.0
    ensures x * (t / k) * k == x * t
  {
    DivTimes(t, k);
    var r := t / k;
    assert x * r * k == x * (r * k);
  }

  /**
    When the ATR is used, and for what: the stop is the ATR times its multiplier, raised to half
    the fixed distance and the lower bound, but never above twice the fixed distance and the
    upper bound.
  */
  lemma AtrDistanceIs(cfg: Settings, atr: Option<real>)
    ensures AtrScaledDistances(cfg, atr).Some? <==> cfg.useAtrStops && atr.Some? && atr.value > 0.0
    ensures AtrScaledDistances(cfg, atr).Some? ==>
      var scaled := atr.value * cfg.atrMultiplier;
      var low := if cfg.stopLossPct < 2.0 * cfg.atrMin then cfg.atrMin else cfg.stopLossPct / 2.0;
      var high := if cfg.atrMax < 2.0 * cfg.stopLossPct then cfg.atrMax else 2.0 * cfg.stopLossPct;
      AtrScaledDistances(cfg, atr).value.stop ==
        if low >= high || scaled >= high then high else if scaled <= low then low else scaled
  {
    if cfg.useAtrStops && atr.Some? {
      assert cfg.atrMultiplier * atr.value == atr.value * cfg.atrMultiplier;
    }
  }

  datatype Decision = Declined | Approved(quantity: real, stop: real, take: real)

  function SlippageBudget(cfg: Settings): (r: real)
    ensures 0.0 <= r <= 0.01
  {
    if cfg.paper then cfg.slipRate else cfg.entrySlipRate
  }

  function ClampMultiplier(m: real): (r: real)
    ensures 0.5 <= r <= 1.0
  {
    Max(0.5, Min(m, 1.0))
  }

  /** What may be lost on one trade. */
  function Budget(cfg: Settings, equity: real, multiplier: real): real {
    equity * cfg.riskPerTrade * ClampMultiplier(multiplier)
  }

  /** The loss per unit that the sizing reckons with, for a stop at the given distance. */
  function BudgetedLoss(cfg: Settings, price: real, stop: real): real {
    price * (stop + 2.0 * cfg.feeRate + 2.0 * SlippageBudget(cfg))
  }

  function QtyByRisk(cfg: Settings, price: real, equity: real, multiplier: real, stop: real): real
    requires BudgetedLoss(cfg, price, stop) > 0.0
  {
    Budget(cfg, equity, multiplier) / BudgetedLoss(cfg, price, stop)
  }

  function PositionBudget(cfg: Settings, equity: real, multiplier: real): real {
    equity * cfg.maxPositionFraction * ClampMultiplier(multiplier)
  }

  /** One unit at the slipped price with its fee. */
  function UnitCost(cfg: Settings, price: real): real {
    price * (1.0 + SlippageBudget(cfg)) * (1.0 + cfg.feeRate)
  }

  function QtyByExposure(cfg: Settings, price: real, equity: real, multiplier: real): real
    requires UnitCost(cfg, price) > 0.0
  {
    PositionBudget(cfg, equity, multiplier) / UnitCost(cfg, price)
  }

  function StopPct(cfg: Settings, atr: Option<real>): (s: real)
    ensures 0.0 < s < 1.0
  {
    var d := AtrScaledDistances(cfg, atr);
    if d.Some? then d.value.stop else cfg.stopLossPct
  }

  function TakePct(cfg: Settings, atr: Option<real>): (s: real)
    ensures s > 0.0
  {
    var d := AtrScaledDistances(cfg, atr);
    if d.Some? then d.value.take else cfg.takeProfitPct
  }

  lemma BudgetedLossPositive(cfg: Settings, price: real, stop: real)
    requires price > 0.0 && stop > 0.0
    ensures BudgetedLoss(cfg, price, stop) > 0.0
  {
    hide SlippageBudget;
    var x := stop + 2.0 * cfg.feeRate + 2.0 * SlippageBudget(cfg);
    assert BudgetedLoss(cfg, price, stop) == price * x;
    hide BudgetedLoss;
    PositiveProduct(price, x);
  }

  lemma UnitCostPositive(cfg: Settings, price: real)
    requires price > 0.0
    ensures UnitCost(cfg, price) > 0.0
  {
    hide SlippageBudget;
    var s, f := 1.0 + SlippageBudget(cfg), 1.0 + cfg.feeRate;
    assert UnitCost(cfg, price) == price * s * f;
    hide UnitCost;
    PositiveProduct(price, s);
    PositiveProduct(price * s, f);
  }

  function EvaluateEntry(cfg: Settings, buy: bool, confidence: real, price: real, equity: real, dailyPnl: real,
                         threshold: real, multiplier: real, atr: Option<real>): Decision
  {
    if !buy || confidence < threshold || equity <= 0.0 || price <= 0.0 || dailyPnl <= -(equity * cfg.maxDailyLoss)
    then Declined
    else
      var stop := StopPct(cfg, atr);
      BudgetedLossPositive(cfg, price, stop);
      UnitCostPositive(cfg, price);
      var quantity := Min(QtyByRisk(cfg, price, equity, multiplier, stop), QtyByExposure(cfg, price, equity, multiplier));
      Approved(Max(quantity, 0.0), Below(price, stop), Above(price, TakePct(cfg, atr)))
  }

  /**
    When an entry is approved, and with which levels: a BUY with enough confidence, positive
    equity and price, and less than the daily loss limit lost. The stop and the target lie around
    the price at the distances that the sizing uses, those of the ATR or the fixed ones.
  */
  lemma EntryApprovedIff(cfg: Settings, buy: bool, confidence: real, price: real, equity: real, dailyPnl: real,
                         threshold: real, multiplier: real, atr: Option<real>)
    ensures var d := EvaluateEntry(cfg, buy, confidence, price, equity, dailyPnl, threshold, multiplier, atr);
      d.Approved? <==>
        buy && confidence >= threshold && equity > 0.0 && price > 0.0 && dailyPnl + equity * cfg.maxDailyLoss > 0.0
    ensures var d := EvaluateEntry(cfg, buy, confidence, price, equity, dailyPnl, threshold, multiplier, atr);
      var scaled := AtrScaledDistances(cfg, atr);
      d.Approved? ==>
        && 0.0 < d.stop < price < d.take
        && price - d.stop == price * (if scaled.Some? then scaled.value.stop else cfg.stopLossPct)
        && d.take - price == price * (if scaled.Some? then scaled.value.take else cfg.takeProfitPct)
  {
    hide AtrScaledDistances, QtyByRisk, QtyByExposure, BudgetedLoss, UnitCost, Below, Above;
    var d := EvaluateEntry(cfg, buy, confidence, price, equity, dailyPnl, threshold, multiplier, atr);
    if d.Approved? {
      LevelsAround(price, StopPct(cfg, atr), TakePct(cfg, atr));
    }
  }

  lemma LevelsAround(price: real, stop: real, take: real)
    requires price > 0.0 && 0.0 < stop < 1.0 && take > 0.0
    ensures price - Below(price, stop) == price * stop && Above(price, take) - price == price * take
    ensures 0.0 < Below(price, stop) < price < Above(price, take)
  {
    PositiveProduct(price, stop);
    PositiveProduct(price, take);
    PositiveProduct(price, 1.0 - stop);
  }

  /** Loss per unit and cost per unit, and the budgets for both, that the sizing is about. */
  datatype Limits = Limits(loss: real, cost: real, riskBudget: real, positionBudget: real)

  /** The loss at the stop with fees and slippage both ways; the multiplier shrinks both budgets by at most a half. */
  predicate AreLimits(cfg: Settings, price: real, stop: real, equity: real, multiplier: real, x: Limits) {
    LimitsWith(cfg, price, stop, equity, x, if cfg.paper then cfg.slipRate else cfg.entrySlipRate,
               if multiplier < 0.5 then 0.5 else if multiplier > 1.0 then 1.0 else multiplier)
  }

  predicate LimitsWith(cfg: Settings, price: real, stop: real, equity: real, x: Limits, slip: real, m: real) {
    && x.loss == price - stop + price * (2.0 * (cfg.feeRate + slip))
    && x.cost == price * (1.0 + slip) * (1.0 + cfg.feeRate)
    && x.riskBudget == equity * cfg.riskPerTrade * m
    && x.positionBudget == equity * cfg.maxPositionFraction * m
  }

  /**
    The approved quantity is the greatest whose loss at the stop is within the risk budget and
    whose cost is within the position budget.
  */
  lemma QuantityIsGreatest(cfg: Settings, buy: bool, confidence: real, price: real, equity: real, dailyPnl: real,
                           threshold: real, multiplier: real, atr: Option<real>, x: Limits, q: real)
    requires EvaluateEntry(cfg, buy, confidence, price, equity, dailyPnl, threshold, multiplier, atr).Approved?
    requires AreLimits(cfg, price,
      EvaluateEntry(cfg, buy, confidence, price, equity, dailyPnl, threshold, multiplier, atr).stop, equity, multiplier, x)
    ensures var d := EvaluateEntry(cfg, buy, confidence, price, equity, dailyPnl, threshold, multiplier, atr);
      d.quantity > 0.0 && (q <= d.quantity <==> q * x.loss <= x.riskBudget && q * x.cost <= x.positionBudget)
  {
    hide AtrScaledDistances, EvaluateEntry, StopPct, Budget, PositionBudget, BudgetedLoss, UnitCost, AreLimits;
    var d := EvaluateEntry(cfg, buy, confidence, price, equity, dailyPnl, threshold, multiplier, atr);
    QuantityIs(cfg, buy, confidence, price, equity, dailyPnl, threshold, multiplier, atr);
    LimitsAre(cfg, price, StopPct(cfg, atr), d.stop, equity, multiplier, x);
    MinOfQuotients(q, d.quantity, x.riskBudget, x.loss, x.positionBudget, x.cost);
  }

  lemma LimitsAre(cfg: Settings, price: real, distance: real, stop: real, equity: real, multiplier: real, x: Limits)
    requires AreLimits(cfg, price, stop, equity, multiplier, x) && equity > 0.0 && price - stop == price * distance
    ensures x.loss == BudgetedLoss(cfg, price, distance) && x.cost == UnitCost(cfg, price)
    ensures x.riskBudget == Budget(cfg, equity, multiplier) > 0.0
    ensures x.positionBudget == PositionBudget(cfg, equity, multiplier) > 0.0
  {
    hide LimitsWith, BudgetedLoss, UnitCost, Budget, PositionBudget;
    var slip, m := SlippageBudget(cfg), ClampMultiplier(multiplier);
    assert LimitsWith(cfg, price, stop, equity, x, slip, m);
    hide SlippageBudget, ClampMultiplier, AreLimits;
    LossAndCostAre(cfg, price, distance, stop, equity, x, slip, m);
    BudgetsAre(cfg, price, stop, equity, multiplier, x, slip);
  }

  lemma MinOfQuotients(q: real, x: real, a: real, b: real, c: real, d: real)
    requires a > 0.0 && b > 0.0 && c > 0.0 && d > 0.0 && x == Max(0.0, Min(a / b, c / d))
    ensures x > 0.0 && (q <= x <==> q * b <= a && q * d <= c)
  {
    PositiveRatio(a, b);
    PositiveRatio(c, d);
    AtMostQuotient(q, a, b);
    AtMostQuotient(q, c, d);
  }

  lemma QuantityIs(cfg: Settings, buy: bool, confidence: real, price: real, equity: real, dailyPnl: real,
                   threshold: real, multiplier: real, atr: Option<real>)
    requires EvaluateEntry(cfg, buy, confidence, price, equity, dailyPnl, threshold, multiplier, atr).Approved?
    ensures var d := EvaluateEntry(cfg, buy, confidence, price, equity, dailyPnl, threshold, multiplier, atr);
      && BudgetedLoss(cfg, price, StopPct(cfg, atr)) > 0.0 && UnitCost(cfg, price) > 0.0
      && d.quantity == Max(0.0, Min(Budget(cfg, equity, multiplier) / BudgetedLoss(cfg, price, StopPct(cfg, atr)),
                                    PositionBudget(cfg, equity, multiplier) / UnitCost(cfg, price)))
      && price - d.stop == price * StopPct(cfg, atr) && equity > 0.0
  {
    hide AtrScaledDistances, BudgetedLoss, UnitCost, Budget, PositionBudget, StopPct, Below, Above;
    LevelsAround(price, StopPct(cfg, atr), TakePct(cfg, atr));
    BudgetedLossPositive(cfg, price, StopPct(cfg, atr));
    UnitCostPositive(cfg, price);
  }

  lemma BudgetsAre(cfg: Settings, price: real, stop: real, equity: real, multiplier: real, x: Limits, slip: real)
    requires equity > 0.0 && LimitsWith(cfg, price, stop, equity, x, slip, ClampMultiplier(multiplier))
    ensures x.riskBudget == Budget(cfg, equity, multiplier) > 0.0
    ensures x.positionBudget == PositionBudget(cfg, equity, multiplier) > 0.0
  {
    hide ClampMultiplier;
    var m := ClampMultiplier(multiplier);
    PositiveProduct(equity, cfg.riskPerTrade);
    PositiveProduct(equity * cfg.riskPerTrade, m);
    PositiveProduct(equity, cfg.maxPositionFraction);
    PositiveProduct(equity * cfg.maxPositionFraction, m);
  }

  lemma LossAndCostAre(cfg: Settings, price: real, distance: real, stop: real, equity: real, x: Limits, slip: real, m: real)
    requires LimitsWith(cfg, price, stop, equity, x, slip, m) && slip == SlippageBudget(cfg)
    requires price - stop == price * distance
    ensures x.loss == BudgetedLoss(cfg, price, distance) && x.cost == UnitCost(cfg, price)
  {
    hide SlippageBudget;
    SameLoss(price, distance, stop, cfg.feeRate, slip, x.loss, BudgetedLoss(cfg, price, distance));
    SameCost(price, slip, SlippageBudget(cfg), cfg.feeRate, x.cost, UnitCost(cfg, price));
  }

  lemma SameLoss(price: real, distance: real, stop: real, f: real, s: real, loss: real, budgeted: real)
    requires loss == price - stop + price * (2.0 * (f + s)) && budgeted == price * (distance + 2.0 * f + 2.0 * s)
    requires price - stop == price * distance
    ensures loss == budgeted
  {
    var y := 2.0 * (f + s);
    assert price * (distance + y) == price * distance + price * y;
  }

  lemma SameCost(price: real, s: real, s': real, f: real, cost: real, unit: real)
    requires s == s' && cost == price * (1.0 + s) * (1.0 + f) && unit == price * (1.0 + s') * (1.0 + f)
    ensures cost == unit
  {
  }

  lemma AtMostQuotient(q: real, budget: real, unit: real)
    requires unit > 0.0
    ensures q <= budget / unit <==> q * unit <= budget
  {
    var full := budget / unit;
    DivTimes(budget, unit);
    if q <= full {
      OrderTimes(q, full, unit);
    } else {
      PositiveProduct(q - full, unit);
    }
  }

  /** The approved quantity costs at most the position limit, at the slipped price with its fee, in every mode. */
  lemma PositionLimit(cfg: Settings, buy: bool, confidence: real, price: real, equity: real, dailyPnl: real,
                      threshold: real, multiplier: real, atr: Option<real>)
    requires EvaluateEntry(cfg, buy, confidence, price, equity, dailyPnl, threshold, multiplier, atr).Approved?
    ensures var d := EvaluateEntry(cfg, buy, confidence, price, equity, dailyPnl, threshold, multiplier, atr);
      && d.quantity * UnitCost(cfg, price) <= equity * cfg.maxPositionFraction
      && (cfg.paper ==> Cost(cfg, price, d.quantity) <= equity * cfg.maxPositionFraction)
  {
    hide StopPct, TakePct, PositionBudget, UnitCost, QtyByRisk, Cost;
    var d := EvaluateEntry(cfg, buy, confidence, price, equity, dailyPnl, threshold, multiplier, atr);
    var budget, unit := PositionBudget(cfg, equity, multiplier), UnitCost(cfg, price);
    UnitCostPositive(cfg, price);
    PositionBudgetBounds(cfg, equity, multiplier);
    if cfg.paper {
      CostByUnit(cfg, price, d.quantity);
    }
    NonNegativeRatio(budget, unit);
    assert d.quantity <= budget / unit;
    hide EvaluateEntry, QtyByExposure;
    DivTimes(budget, unit);
    OrderTimes(d.quantity, budget / unit, unit);
  }

  lemma PositionBudgetBounds(cfg: Settings, equity: real, multiplier: real)
    requires equity > 0.0
    ensures 0.0 <= PositionBudget(cfg, equity, multiplier) <= equity * cfg.maxPositionFraction
  {
    hide ClampMultiplier;
    var m, most := ClampMultiplier(multiplier), equity * cfg.maxPositionFraction;
    PositiveProduct(equity, cfg.maxPositionFraction);
    PositiveOrZero(most, m);
    OrderTimes(m, 1.0, most);
  }

  lemma CostByUnit(cfg: Settings, price: real, qty: real)
    requires cfg.paper
    ensures Cost(cfg, price, qty) == qty * UnitCost(cfg, price)
  {
    CostIsLinear(cfg, price, qty);
    hide Cost;
    var f, s := 1.0 + cfg.feeRate, 1.0 + cfg.slipRate;
    assert qty * price * (f * s) == qty * (price * s * f);
  }

  // ---------------------------------------------------------------- the loss at the stop

  /** What one unit loses when it is bought at `price` and sold at its stop, k below the fill. */
  function LossPerUnit(cfg: Settings, price: real): real {
    var k := cfg.stopLossPct;
    price * (1.0 + cfg.slipRate) * ((1.0 + cfg.feeRate) - (1.0 - k) * (1.0 - cfg.slipRate) * (1.0 - cfg.feeRate))
  }

  /** The stop of a paper position always uses the fixed percentage, whatever sized it. */
  predicate CoversStop(cfg: Settings, sized: real) {
    cfg.stopLossPct * (1.0 - cfg.slipRate * cfg.slipRate) * (1.0 - cfg.feeRate)
      <= sized + cfg.slipRate * (1.0 - cfg.slipRate) * (1.0 - cfg.feeRate)
  }

  /** Loss per unit of price is 2f + s + sf + s*s*(1-f) + k*(1-s*s)*(1-f). */
  lemma Expand(k: real, s: real, f: real)
    ensures (1.0 + s) * ((1.0 + f) - (1.0 - k) * (1.0 - s) * (1.0 - f))
            == 2.0 * f + 2.0 * s - s * (1.0 - s) * (1.0 - f) + k * (1.0 - s * s) * (1.0 - f)
  {
    var g, u := 1.0 - f, 1.0 - s * s;
    assert (1.0 + s) * (1.0 - s) == u;
    assert (1.0 + s) * ((1.0 - k) * (1.0 - s) * g) == (1.0 - k) * u * g;
    assert (1.0 + s) * (1.0 + f) == 1.0 + s + f + s * f;
    assert (1.0 - k) * u * g == u * g - k * u * g;
    assert u * g == g - s * s * g;
    assert s * (1.0 - s) * g == s * g - s * s * g;
  }

  /** The loss per unit is within what the sizing reckoned with iff the sizing stop covers it. */
  lemma UnitLossWithinBudgetIff(cfg: Settings, price: real, sized: real)
    requires price > 0.0 && cfg.paper
    ensures LossPerUnit(cfg, price) <= BudgetedLoss(cfg, price, sized) <==> CoversStop(cfg, sized)
  {
    var k, s, f := cfg.stopLossPct, cfg.slipRate, cfg.feeRate;
    Expand(k, s, f);
    var x := (1.0 + s) * ((1.0 + f) - (1.0 - k) * (1.0 - s) * (1.0 - f));
    var y := sized + 2.0 * f + 2.0 * s;
    assert LossPerUnit(cfg, price) == price * x by {
      var z := (1.0 + f) - (1.0 - k) * (1.0 - s) * (1.0 - f);
      assert price * (1.0 + s) * z == price * ((1.0 + s) * z);
    }
    assert BudgetedLoss(cfg, price, sized) == price * y;
    assert CoversStop(cfg, sized) <==> x <= y;
    hide LossPerUnit, BudgetedLoss, CoversStop;
    if x <= y {
      OrderTimes(x, y, price);
    } else {
      PositiveProduct(x - y, price);
      assert (x - y) * price == price * x - price * y;
    }
  }

  /** With fixed stops the condition always holds. */
  lemma FixedStopsCover(cfg: Settings)
    ensures CoversStop(cfg, cfg.stopLossPct)
  {
    StopCovers(cfg.stopLossPct, cfg.slipRate, cfg.feeRate);
  }

  lemma StopCovers(k: real, s: real, f: real)
    requires k >= 0.0 && 0.0 <= s <= 1.0 && 0.0 <= f <= 1.0
    ensures k * (1.0 - s * s) * (1.0 - f) <= k + s * (1.0 - s) * (1.0 - f)
  {
    var u, g := 1.0 - s * s, 1.0 - f;
    assert 0.0 <= u <= 1.0 by {
      Shrinks(s, s);
    }
    var x := k * u * g;
    assert x <= k by {
      ShrinksTwice(k, u, g);
    }
    var v := s * (1.0 - s);
    assert v >= 0.0 by {
      PositiveOrZero(s, 1.0 - s);
    }
    var y := v * g;
    assert y >= 0.0 by {
      PositiveOrZero(v, g);
    }
  }

  lemma ShrinksTwice(k: real, u: real, g: real)
    requires k >= 0.0 && 0.0 <= u <= 1.0 && 0.0 <= g <= 1.0
    ensures k * u * g <= k
  {
    Shrinks(k, u);
    Shrinks(k * u, g);
  }

  /** What the trade books when it leaves at its stop. */
  lemma StopExitBooks(p: Paper, cfg: Settings, s: Symbol, price: real, qty: real, p1: Paper, p2: Paper)
    requires Knows(p, s) && p.held[s] == OpenQty(p.books[s])
    requires Bought(p, cfg, s, price, qty) == Some(p1) && Knows(p1, s)
    requires p1.books[s].open.Some? && SoldOff(p1, cfg, s, p1.books[s].open.value.stop) == Some(p2)
    ensures Knows(p2, s) && |p2.books[s].closed| == |p1.books[s].closed| + 1
    ensures p2.books[s].closed[|p1.books[s].closed|].pnl == -(qty * LossPerUnit(cfg, price))
  {
    hide Bought, SoldOff, OpenCost, Cost, Costs, LossPerUnit, BuyPrice, SellPrice, RiskStop, Gross, Commission;
    BoughtIs(p, cfg, s, price, qty, p1);
    SoldIs(p1, cfg, s, p1.books[s].open.value.stop, p2);
    StopArithmetic(cfg, price, qty);
  }

  lemma StopArithmetic(cfg: Settings, price: real, qty: real)
    ensures var gross := Gross(SellPrice(cfg, RiskStop(cfg, BuyPrice(cfg, price))), qty);
      gross - Commission(cfg, gross) - Cost(cfg, price, qty) == -(qty * LossPerUnit(cfg, price))
  {
    var k, s, f := cfg.stopLossPct, cfg.slipRate, cfg.feeRate;
    var fill := BuyPrice(cfg, price);
    var gross := Gross(SellPrice(cfg, RiskStop(cfg, fill)), qty);
    SaleAtStop(fill, qty, 1.0 - k, 1.0 - s, f, gross);
    Purchase(fill, qty, f);
    LossParts(fill, qty, 1.0 + f, (1.0 - k) * (1.0 - s) * (1.0 - f));
  }

  lemma SaleAtStop(fill: real, qty: real, kept: real, sold: real, f: real, gross: real)
    requires gross == fill * kept * sold * qty
    ensures gross - gross * f == qty * (fill * (kept * sold * (1.0 - f)))
  {
    var unit := kept * sold;
    assert fill * kept * sold == fill * unit;
    assert gross == (qty * fill) * unit;
    assert gross - gross * f == gross * (1.0 - f);
    assert (qty * fill) * unit * (1.0 - f) == (qty * fill) * (unit * (1.0 - f));
  }

  lemma Purchase(fill: real, qty: real, f: real)
    ensures fill * qty + fill * qty * f == qty * (fill * (1.0 + f))
  {
    var n := fill * qty;
    assert n + n * f == n * (1.0 + f);
  }

  lemma LossParts(fill: real, qty: real, paid: real, got: real)
    ensures qty * (fill * got) - qty * (fill * paid) == -(qty * (fill * (paid - got)))
  {
    var a, b := fill * paid, fill * got;
    assert fill * (paid - got) == a - b;
    assert qty * (a - b) == qty * a - qty * b;
  }

  // ---------------------------------------------------------------- the budget of the approved quantity

  /** The position limit alone keeps the loss within the budget. */
  predicate LimitCovers(cfg: Settings) {
    cfg.maxPositionFraction * LossPerUnit(cfg, 1.0) <= cfg.riskPerTrade * UnitCost(cfg, 1.0)
  }

  lemma LossIsPositive(cfg: Settings)
    ensures LossPerUnit(cfg, 1.0) > 0.0
  {
    var k, s, f := cfg.stopLossPct, cfg.slipRate, cfg.feeRate;
    var z := (1.0 + f) - (1.0 - k) * (1.0 - s) * (1.0 - f);
    LossFactor(1.0 - k, 1.0 - s, 1.0 - f, f);
    PositiveProduct(1.0 + s, z);
    assert LossPerUnit(cfg, 1.0) == (1.0 + s) * z;
  }

  lemma LossFactor(a: real, b: real, v: real, f: real)
    requires 0.0 <= a < 1.0 && 0.0 <= b <= 1.0 && 0.0 <= v <= 1.0 && f >= 0.0
    ensures (1.0 + f) - a * b * v > 0.0
  {
    Shrinks(a, b);
    Shrinks(a * b, v);
  }

  /** Loss and cost per unit are proportional to the price. */
  lemma PerUnitScales(cfg: Settings, price: real)
    ensures LossPerUnit(cfg, price) == price * LossPerUnit(cfg, 1.0)
    ensures UnitCost(cfg, price) == price * UnitCost(cfg, 1.0)
  {
    hide SlippageBudget;
    var k, s, f := cfg.stopLossPct, cfg.slipRate, cfg.feeRate;
    Scales(price, 1.0 + s, (1.0 + f) - (1.0 - k) * (1.0 - s) * (1.0 - f));
    Scales(price, 1.0 + SlippageBudget(cfg), 1.0 + f);
  }

  lemma Scales(price: real, x: real, y: real)
    ensures price * x * y == price * (1.0 * x * y)
  {
  }

  lemma MinTimes(x: real, y: real, l: real, b: real)
    requires l >= 0.0
    ensures Min(x, y) * l <= b <==> x * l <= b || y * l <= b
  {
    if x <= y {
      OrderTimes(x, y, l);
    } else {
      OrderTimes(y, x, l);
    }
  }

  lemma ProductOrderIff(w: real, x: real, y: real)
    requires w > 0.0
    ensures w * x <= w * y <==> x <= y
  {
    if x <= y {
      OrderTimes(x, y, w);
    } else {
      PositiveProduct(x - y, w);
      assert (x - y) * w == w * x - w * y;
    }
  }

  /** A quotient times l is at most b iff that holds after multiplying out. */
  lemma RatioTimesIff(n: real, u: real, l: real, b: real)
    requires u > 0.0
    ensures n / u * l <= b <==> n * l <= b * u
  {
    var q := n / u;
    DivTimes(n, u);
    ProductOrderIff(u, q * l, b);
    assert u * (q * l) == (q * u) * l;
  }

  lemma RiskSideIff(budget: real, unit: real, loss: real)
    requires budget > 0.0 && unit > 0.0
    ensures budget / unit * loss <= budget <==> loss <= unit
  {
    RatioTimesIff(budget, unit, loss, budget);
    ProductOrderIff(budget, loss, unit);
  }

  lemma LimitSideIff(cfg: Settings, price: real, equity: real, multiplier: real)
    requires price > 0.0 && equity > 0.0
    ensures UnitCost(cfg, price) > 0.0
    ensures QtyByExposure(cfg, price, equity, multiplier) * LossPerUnit(cfg, price) <= Budget(cfg, equity, multiplier)
            <==> LimitCovers(cfg)
  {
    hide LossPerUnit, UnitCost, ClampMultiplier;
    UnitCostPositive(cfg, price);
    PerUnitScales(cfg, price);
    var m := ClampMultiplier(multiplier);
    LimitArithmetic(equity, price, m, cfg.maxPositionFraction, cfg.riskPerTrade,
                    LossPerUnit(cfg, 1.0), UnitCost(cfg, 1.0), LossPerUnit(cfg, price), UnitCost(cfg, price));
  }

  lemma LimitArithmetic(equity: real, price: real, m: real, limit: real, risk: real, l: real, c: real,
                        loss: real, cost: real)
    requires equity > 0.0 && price > 0.0 && m > 0.0 && cost > 0.0 && loss == price * l && cost == price * c
    ensures equity * limit * m / cost * loss <= equity * risk * m <==> limit * l <= risk * c
  {
    RatioTimesIff(equity * limit * m, cost, loss, equity * risk * m);
    PositiveProduct(equity, m);
    PositiveProduct(equity * m, price);
    Regroup4(equity, limit, m, price, l);
    Regroup4(equity, risk, m, price, c);
    ProductOrderIff(equity * m * price, limit * l, risk * c);
  }

  lemma Regroup4(equity: real, fraction: real, m: real, price: real, x: real)
    ensures equity * fraction * m * (price * x) == equity * m * price * (fraction * x)
  {
    var e := equity * m;
    assert equity * fraction * m == e * fraction;
    assert e * fraction * (price * x) == (e * price) * (fraction * x);
  }

  lemma ApprovedIs(cfg: Settings, buy: bool, confidence: real, price: real, equity: real, dailyPnl: real,
                   threshold: real, multiplier: real, atr: Option<real>)
    requires EvaluateEntry(cfg, buy, confidence, price, equity, dailyPnl, threshold, multiplier, atr).Approved?
    ensures price > 0.0 && equity > 0.0 && Budget(cfg, equity, multiplier) > 0.0
    ensures BudgetedLoss(cfg, price, StopPct(cfg, atr)) > 0.0 && UnitCost(cfg, price) > 0.0
    ensures EvaluateEntry(cfg, buy, confidence, price, equity, dailyPnl, threshold, multiplier, atr).quantity ==
              Min(QtyByRisk(cfg, price, equity, multiplier, StopPct(cfg, atr)), QtyByExposure(cfg, price, equity, multiplier))
  {
    hide StopPct, TakePct, BudgetedLoss, UnitCost, ClampMultiplier;
    var m := ClampMultiplier(multiplier);
    BudgetedLossPositive(cfg, price, StopPct(cfg, atr));
    UnitCostPositive(cfg, price);
    PositiveProduct(equity, cfg.riskPerTrade);
    PositiveProduct(equity * cfg.riskPerTrade, m);
    PositiveProduct(equity, cfg.maxPositionFraction);
    PositiveProduct(equity * cfg.maxPositionFraction, m);
    PositiveRatio(Budget(cfg, equity, multiplier), BudgetedLoss(cfg, price, StopPct(cfg, atr)));
    PositiveRatio(PositionBudget(cfg, equity, multiplier), UnitCost(cfg, price));
  }

  /**
    The loss of the approved quantity at its stop is within the budget iff the stop it was sized
    with covers the fixed stop, or the position limit alone is tight enough. Both can be read off
    the settings and the ATR before the call.
  */
  lemma ApprovedLossIff(cfg: Settings, buy: bool, confidence: real, price: real, equity: real, dailyPnl: real,
                        threshold: real, multiplier: real, atr: Option<real>)
    requires cfg.paper
    requires EvaluateEntry(cfg, buy, confidence, price, equity, dailyPnl, threshold, multiplier, atr).Approved?
    ensures var d := EvaluateEntry(cfg, buy, confidence, price, equity, dailyPnl, threshold, multiplier, atr);
      d.quantity * LossPerUnit(cfg, price) <= Budget(cfg, equity, multiplier)
      <==> CoversStop(cfg, StopPct(cfg, atr)) || LimitCovers(cfg)
  {
    hide EvaluateEntry, StopPct, Budget, BudgetedLoss, LossPerUnit, UnitCost, CoversStop, LimitCovers, PositionBudget;
    ApprovedIs(cfg, buy, confidence, price, equity, dailyPnl, threshold, multiplier, atr);
    var stop, loss, budget := StopPct(cfg, atr), LossPerUnit(cfg, price), Budget(cfg, equity, multiplier);
    LossIsPositive(cfg);
    PerUnitScales(cfg, price);
    PositiveProduct(price, LossPerUnit(cfg, 1.0));
    MinTimes(QtyByRisk(cfg, price, equity, multiplier, stop), QtyByExposure(cfg, price, equity, multiplier), loss, budget);
    RiskSideIff(budget, BudgetedLoss(cfg, price, stop), loss);
    UnitLossWithinBudgetIff(cfg, price, stop);
    LimitSideIff(cfg, price, equity, multiplier);
  }

  /**
    Loss budget. A paper position of at most the approved size that enters at the sizing price
    and exits at its stop books a loss of at most equity times risk per trade times the clamped
    multiplier, under the condition of ApprovedLossIff.
  */
  lemma LossBudget(cfg: Settings, buy: bool, confidence: real, price: real, equity: real, dailyPnl: real,
                   threshold: real, multiplier: real, atr: Option<real>,
                   p: Paper, s: Symbol, qty: real, p1: Paper, p2: Paper)
    requires var d := EvaluateEntry(cfg, buy, confidence, price, equity, dailyPnl, threshold, multiplier, atr);
      cfg.paper && d.Approved? && qty <= d.quantity
    requires CoversStop(cfg, StopPct(cfg, atr)) || LimitCovers(cfg)
    requires Knows(p, s) && p.held[s] == OpenQty(p.books[s])
    requires Bought(p, cfg, s, price, qty) == Some(p1) && Knows(p1, s)
    requires p1.books[s].open.Some? && SoldOff(p1, cfg, s, p1.books[s].open.value.stop) == Some(p2)
    ensures Knows(p2, s) && |p2.books[s].closed| == |p1.books[s].closed| + 1
    ensures p2.books[s].closed[|p1.books[s].closed|].pnl >= -Budget(cfg, equity, multiplier)
  {
    hide EvaluateEntry, Budget, LossPerUnit, CoversStop, LimitCovers, Bought, SoldOff, StopPct, OpenCost, Cost;
    BoughtIs(p, cfg, s, price, qty, p1);
    StopExitBooks(p, cfg, s, price, qty, p1, p2);
    ApprovedLossIff(cfg, buy, confidence, price, equity, dailyPnl, threshold, multiplier, atr);
    var d := EvaluateEntry(cfg, buy, confidence, price, equity, dailyPnl, threshold, multiplier, atr);
    LossIsPositive(cfg);
    PerUnitScales(cfg, price);
    PositiveProduct(price, LossPerUnit(cfg, 1.0));
    OrderTimes(qty, d.quantity, LossPerUnit(cfg, price));
  }

  /** For the approved size itself the condition is also necessary: what is booked then exceeds the budget. */
  lemma BookedLossIff(cfg: Settings, buy: bool, confidence: real, price: real, equity: real, dailyPnl: real,
                      threshold: real, multiplier: real, atr: Option<real>,
                      p: Paper, s: Symbol, p1: Paper, p2: Paper)
    requires var d := EvaluateEntry(cfg, buy, confidence, price, equity, dailyPnl, threshold, multiplier, atr);
      && cfg.paper && d.Approved? && Knows(p, s) && p.held[s] == OpenQty(p.books[s])
      && Bought(p, cfg, s, price, d.quantity) == Some(p1)
    requires Knows(p1, s) && p1.books[s].open.Some? && SoldOff(p1, cfg, s, p1.books[s].open.value.stop) == Some(p2)
    ensures Knows(p2, s) && |p2.books[s].closed| == |p1.books[s].closed| + 1
    ensures p2.books[s].closed[|p1.books[s].closed|].pnl >= -Budget(cfg, equity, multiplier)
            <==> CoversStop(cfg, StopPct(cfg, atr)) || LimitCovers(cfg)
  {
    hide EvaluateEntry, Budget, LossPerUnit, CoversStop, LimitCovers, Bought, SoldOff, StopPct, OpenCost, Cost;
    var d := EvaluateEntry(cfg, buy, confidence, price, equity, dailyPnl, threshold, multiplier, atr);
    StopExitBooks(p, cfg, s, price, d.quantity, p1, p2);
    ApprovedLossIff(cfg, buy, confidence, price, equity, dailyPnl, threshold, multiplier, atr);
  }

  /** The budget for fixed stops, without any condition. */
  lemma FixedStopLossBudget(cfg: Settings, buy: bool, confidence: real, price: real, equity: real, dailyPnl: real,
                            threshold: real, multiplier: real, atr: Option<real>,
                            p: Paper, s: Symbol, qty: real, p1: Paper, p2: Paper)
    requires var d := EvaluateEntry(cfg, buy, confidence, price, equity, dailyPnl, threshold, multiplier, atr);
      cfg.paper && !cfg.useAtrStops && d.Approved? && qty <= d.quantity
    requires Knows(p, s) && p.held[s] == OpenQty(p.books[s])
    requires Bought(p, cfg, s, price, qty) == Some(p1) && Knows(p1, s)
    requires p1.books[s].open.Some? && SoldOff(p1, cfg, s, p1.books[s].open.value.stop) == Some(p2)
    ensures Knows(p2, s) && |p2.books[s].closed| == |p1.books[s].closed| + 1
    ensures p2.books[s].closed[|p1.books[s].closed|].pnl >= -Budget(cfg, equity, multiplier)
  {
    assert StopPct(cfg, atr) == cfg.stopLossPct;
    FixedStopsCover(cfg);
    hide CoversStop, Bought, SoldOff, EvaluateEntry, StopPct;
    LossBudget(cfg, buy, confidence, price, equity, dailyPnl, threshold, multiplier, atr, p, s, qty, p1, p2);
  }

  /**
    A quiet market halves the sizing stop but not the stop of the position. With a position limit
    of one half, an approved entry at price 100 that exits at its stop books a loss of 50 against
    a budget of 25.
  */
  lemma AtrStopMayExceedBudget() returns (cfg: Settings, atr: Option<real>, d: Decision, p: Paper, p1: Paper, p2: Paper)
    ensures cfg.paper && cfg.useAtrStops && Budget(cfg, 10000.0, 1.0) == 25.0
    ensures d == EvaluateEntry(cfg, true, 1.0, 100.0, 10000.0, 0.0, 0.7, 1.0, atr) && d.Approved?
    ensures Knows(p, 0) && p.cash == 10000.0 && Bought(p, cfg, 0, 100.0, d.quantity) == Some(p1) && Knows(p1, 0)
    ensures p1.books[0].open.Some? && SoldOff(p1, cfg, 0, p1.books[0].open.value.stop) == Some(p2)
    ensures Knows(p2, 0) && |p2.books[0].closed| == 1 && p2.books[0].closed[0].pnl == -50.0
  {
    cfg := DEFAULTS.(useAtrStops := true, feeRate := 0.0, slipRate := 0.0, maxPositionFraction := 0.5);
    atr := Some(0.001);
    d := EvaluateEntry(cfg, true, 1.0, 100.0, 10000.0, 0.0, 0.7, 1.0, atr);
    QuietSizing(cfg);
    p := Paper(10000.0, map[0 := 0.0], map[0 := EMPTY_BOOK]);
    p1, p2 := QuietRun(cfg, d.quantity, p);
  }

  lemma QuietSizing(cfg: Settings)
    requires cfg == DEFAULTS.(useAtrStops := true, feeRate := 0.0, slipRate := 0.0, maxPositionFraction := 0.5)
    ensures var d := EvaluateEntry(cfg, true, 1.0, 100.0, 10000.0, 0.0, 0.7, 1.0, Some(0.001));
      d.Approved? && d.quantity == 125.0 / 3.0
    ensures Budget(cfg, 10000.0, 1.0) == 25.0 && LossPerUnit(cfg, 100.0) == 1.2
  {
    hide StopPct, TakePct, Budget, BudgetedLoss, UnitCost, PositionBudget, LossPerUnit;
    QuietStop(cfg);
    QuietFigures(cfg);
    BudgetedLossPositive(cfg, 100.0, 0.006);
    UnitCostPositive(cfg, 100.0);
  }

  lemma QuietStop(cfg: Settings)
    requires cfg == DEFAULTS.(useAtrStops := true, feeRate := 0.0, slipRate := 0.0, maxPositionFraction := 0.5)
    ensures StopPct(cfg, Some(0.001)) == 0.006
  {
  }

  lemma QuietFigures(cfg: Settings)
    requires cfg == DEFAULTS.(useAtrStops := true, feeRate := 0.0, slipRate := 0.0, maxPositionFraction := 0.5)
    ensures Budget(cfg, 10000.0, 1.0) == 25.0 && BudgetedLoss(cfg, 100.0, 0.006) == 0.6
    ensures PositionBudget(cfg, 10000.0, 1.0) == 5000.0 && UnitCost(cfg, 100.0) == 100.0
    ensures LossPerUnit(cfg, 100.0) == 1.2
  {
  }

  lemma QuietRun(cfg: Settings, qty: real, p: Paper) returns (p1: Paper, p2: Paper)
    requires cfg.feeRate == 0.0 && cfg.slipRate == 0.0 && qty == 125.0 / 3.0 && LossPerUnit(cfg, 100.0) == 1.2
    requires p == Paper(10000.0, map[0 := 0.0], map[0 := EMPTY_BOOK])
    ensures Knows(p, 0) && Bought(p, cfg, 0, 100.0, qty) == Some(p1) && Knows(p1, 0) && p1.books[0].open.Some?
    ensures SoldOff(p1, cfg, 0, p1.books[0].open.value.stop) == Some(p2) && Knows(p2, 0)
    ensures |p2.books[0].closed| == 1 && p2.books[0].closed[0].pnl == -50.0
  {
    hide LossPerUnit;
    assert BuyPrice(cfg, 100.0) == 100.0 && Cost(cfg, 100.0, qty) == 12500.0 / 3.0;
    p1 := Bought(p, cfg, 0, 100.0, qty).value;
    BoughtIs(p, cfg, 0, 100.0, qty, p1);
    PositiveProduct(100.0, 1.0 - cfg.stopLossPct);
    p2 := SoldOff(p1, cfg, 0, p1.books[0].open.value.stop).value;
    StopExitBooks(p, cfg, 0, 100.0, qty, p1, p2);
  }
}
