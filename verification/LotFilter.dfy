/**
  app/exchange/binance.py, normalize_quantity_decimal: the largest quantity that fits every lot
  step and meets every rule. Steps are decimals, brought to a common scale; the grid of all
  steps together is that of their least common multiple.
*/
module LotFilter {
  import opened Wrappers

  /** units * 10^exponent */
  datatype Decimal = Decimal(units: nat, exponent: int)

  datatype Lot = Lot(step: Decimal, min: real, max: real)

  datatype NotionalRule = NotionalRule(applyMin: bool, applyMax: bool, min: real, max: real)

  datatype Filters = Filters(lots: seq<Lot>, rules: seq<NotionalRule>)

  datatype FilterError = MissingFilters

  // ---------------------------------------------------------------- decimals

  function Pow10(n: nat): (r: nat)
    ensures r > 0
  {
    if n == 0 then 1 else 10 * Pow10(n - 1)
  }

  lemma {:induction false} Pow10Adds(m: nat, n: nat)
    ensures Pow10(m + n) == Pow10(m) * Pow10(n)
  {
    if m > 0 {
      Pow10Adds(m - 1, n);
      assert Pow10(m + n) == 10 * Pow10(m - 1 + n);
    }
  }

  function Value(d: Decimal): real {
    if d.exponent >= 0 then d.units as real * Pow10(d.exponent) as real
    else d.units as real / Pow10(-d.exponent) as real
  }

  /** The step as an integer number of 10^-places. */
  function Scaled(d: Decimal, places: nat): nat
    requires d.exponent + places >= 0
  {
    d.units * Pow10(d.exponent + places)
  }

  lemma Cast(a: int, b: int)
    ensures (a * b) as real == a as real * b as real
  {
  }

  lemma Regroup(a: real, b: real, c: real)
    ensures a * (b * c) == (a * b) * c
  {
  }

  lemma CancelRatio(u: real, small: real, rest: real)
    requires small > 0.0
    ensures (u / small) * (small * rest) == u * rest
  {
    Regroup(u / small, small, rest);
    assert (u / small) * small == u;
  }

  lemma ScaledIsValue(d: Decimal, places: nat)
    requires d.exponent + places >= 0
    ensures Scaled(d, places) as real == Value(d) * Pow10(places) as real
  {
    hide Pow10;
    Cast(d.units, Pow10(d.exponent + places));
    if d.exponent >= 0 {
      Pow10Adds(d.exponent, places);
      Cast(Pow10(d.exponent), Pow10(places));
      Regroup(d.units as real, Pow10(d.exponent) as real, Pow10(places) as real);
    } else {
      var n := -d.exponent;
      Pow10Adds(n, places - n);
      Cast(Pow10(n), Pow10(places - n));
      CancelRatio(d.units as real, Pow10(n) as real, Pow10(places - n) as real);
    }
  }

  // ---------------------------------------------------------------- least common multiple

  predicate Divides(n: nat, m: int)
    requires n > 0
  {
    m % n == 0
  }

  predicate AllPositive(ns: seq<nat>) {
    forall i :: 0 <= i < |ns| ==> ns[i] > 0
  }

  predicate CommonMultiple(ns: seq<nat>, m: int)
    requires AllPositive(ns)
  {
    forall i :: 0 <= i < |ns| ==> Divides(ns[i], m)
  }

  function Product(ns: seq<nat>): (p: nat)
    requires AllPositive(ns)
    ensures p > 0
  {
    if ns == [] then 1 else Product(ns[..|ns| - 1]) * ns[|ns| - 1]
  }

  lemma AtLeastOne(d: int, n: nat)
    ensures d >= 1 ==> d * n >= n
  {
    assert d >= 1 ==> (d - 1) * n >= 0;
  }

  lemma ModOfMultiple(n: nat, c: int)
    requires n > 0
    ensures (c * n) % n == 0
  {
    var q, r := (c * n) / n, (c * n) % n;
    assert r == (c - q) * n;
    AtLeastOne(c - q, n);
    AtLeastOne(q - c, n);
    assert (q - c) * n == -r;
  }

  lemma QuotientOfMultiple(n: nat, m: int)
    requires n > 0 && Divides(n, m)
    ensures m == (m / n) * n
  {
  }

  lemma {:induction false} ProductIsCommon(ns: seq<nat>)
    requires AllPositive(ns)
    ensures CommonMultiple(ns, Product(ns))
  {
    if ns != [] {
      var init, last := ns[..|ns| - 1], ns[|ns| - 1];
      ProductIsCommon(init);
      ModOfMultiple(last, Product(init));
      forall i | 0 <= i < |ns| - 1 ensures Divides(ns[i], Product(ns)) {
        assert Divides(init[i], Product(init));
        QuotientOfMultiple(ns[i], Product(init));
        var c := Product(init) / ns[i];
        assert Product(ns) == (c * last) * ns[i];
        ModOfMultiple(ns[i], c * last);
      }
    }
  }

  /** Search from k upwards. */
  function LeastFrom(ns: seq<nat>, k: nat): (l: nat)
    requires AllPositive(ns) && 0 < k <= Product(ns)
    ensures k <= l && CommonMultiple(ns, l)
    ensures forall m :: k <= m < l ==> !CommonMultiple(ns, m)
    decreases Product(ns) - k
  {
    ProductIsCommon(ns);
    if CommonMultiple(ns, k) then k else LeastFrom(ns, k + 1)
  }

  /** math.lcm */
  function Lcm(ns: seq<nat>): (l: nat)
    requires AllPositive(ns)
    ensures l > 0 && CommonMultiple(ns, l)
    ensures forall m :: 0 < m < l ==> !CommonMultiple(ns, m)
  {
    LeastFrom(ns, 1)
  }

  /** Every common multiple is a multiple of the least one. */
  lemma LcmDivides(ns: seq<nat>, m: nat)
    requires AllPositive(ns) && CommonMultiple(ns, m)
    ensures Divides(Lcm(ns), m)
  {
    var l := Lcm(ns);
    var q, r := m / l, m % l;
    forall i | 0 <= i < |ns| ensures Divides(ns[i], r) {
      assert Divides(ns[i], m) && Divides(ns[i], l);
      RemainderDivides(ns[i], m, l, q, r);
    }
    assert CommonMultiple(ns, r);
  }

  lemma RemainderDivides(n: nat, m: int, l: int, q: int, r: int)
    requires n > 0 && Divides(n, m) && Divides(n, l) && m == q * l + r
    ensures Divides(n, r)
  {
    QuotientOfMultiple(n, m);
    QuotientOfMultiple(n, l);
    var a, b := m / n, l / n;
    assert r == a * n - q * (b * n) == (a - q * b) * n;
    ModOfMultiple(n, a - q * b);
  }

  // ---------------------------------------------------------------- the grid

  function Times(k: int, step: real): real {
    k as real * step
  }

  ghost predicate IsMultiple(x: real, step: real) {
    exists k: int :: x == Times(k, step)
  }

  function PositiveSteps(lots: seq<Lot>): (steps: seq<Decimal>)
    ensures forall i :: 0 <= i < |steps| ==> steps[i].units > 0
  {
    if lots == [] then []
    else
      var rest := PositiveSteps(lots[..|lots| - 1]);
      if lots[|lots| - 1].step.units > 0 then rest + [lots[|lots| - 1].step] else rest
  }

  /** x is a multiple of every lot step that is not disabled. */
  ghost predicate OnGrid(x: real, lots: seq<Lot>) {
    forall i :: 0 <= i < |lots| && lots[i].step.units > 0 ==> IsMultiple(x, Value(lots[i].step))
  }

  ghost predicate AllMultiples(x: real, steps: seq<Decimal>) {
    forall i :: 0 <= i < |steps| ==> IsMultiple(x, Value(steps[i]))
  }

  lemma {:induction false} GridOfSteps(x: real, lots: seq<Lot>)
    ensures OnGrid(x, lots) <==> AllMultiples(x, PositiveSteps(lots))
  {
    hide IsMultiple, Value;
    if lots != [] {
      var n := |lots| - 1;
      var init := lots[..n];
      GridOfSteps(x, init);
      var steps, before := PositiveSteps(lots), PositiveSteps(init);
      assert steps == if lots[n].step.units > 0 then before + [lots[n].step] else before;
      if OnGrid(x, lots) {
        forall i | 0 <= i < n && init[i].step.units > 0 ensures IsMultiple(x, Value(init[i].step)) {
          assert lots[i] == init[i];
        }
        assert OnGrid(x, init);
        forall i | 0 <= i < |steps| ensures IsMultiple(x, Value(steps[i])) {
          if i < |before| {
            assert steps[i] == before[i];
            assert IsMultiple(x, Value(before[i]));
          } else {
            assert steps[i] == lots[n].step;
            assert IsMultiple(x, Value(lots[n].step));
          }
        }
      }
      if AllMultiples(x, steps) {
        forall i | 0 <= i < |before| ensures IsMultiple(x, Value(before[i])) {
          assert steps[i] == before[i];
        }
        forall i | 0 <= i <= n && lots[i].step.units > 0 ensures IsMultiple(x, Value(lots[i].step)) {
          assert if i < n then lots[i] == init[i] else steps[|before|] == lots[n].step;
        }
      }
    }
  }

  /** Decimal places of the finest step, at least zero. */
  function Places(steps: seq<Decimal>): (p: nat)
    ensures forall i :: 0 <= i < |steps| ==> steps[i].exponent + p >= 0
  {
    if steps == [] then 0
    else
      var p := Places(steps[..|steps| - 1]);
      var e := -steps[|steps| - 1].exponent;
      assert forall i :: 0 <= i < |steps| - 1 ==> steps[..|steps| - 1][i] == steps[i];
      if e > p then e else p
  }

  function ScaledSteps(steps: seq<Decimal>, places: nat): (ns: seq<nat>)
    requires forall i :: 0 <= i < |steps| ==> steps[i].exponent + places >= 0 && steps[i].units > 0
    ensures |ns| == |steps| && AllPositive(ns)
    ensures forall i :: 0 <= i < |steps| ==> ns[i] == Scaled(steps[i], places)
  {
    seq(|steps|, i requires 0 <= i < |steps| =>
      (assert Scaled(steps[i], places) > 0 by { assert steps[i].units * Pow10(steps[i].exponent + places) > 0; }
       Scaled(steps[i], places)))
  }

  /** The combined step: the least common multiple at the common scale, over the scale. */
  function CombinedStep(steps: seq<Decimal>): (step: real)
    requires forall i :: 0 <= i < |steps| ==> steps[i].units > 0
    ensures step > 0.0
  {
    var places := Places(steps);
    Lcm(ScaledSteps(steps, places)) as real / Pow10(places) as real
  }

  lemma MultipleOfCombined(steps: seq<Decimal>, x: real, i: nat)
    requires forall i :: 0 <= i < |steps| ==> steps[i].units > 0
    requires IsMultiple(x, CombinedStep(steps)) && i < |steps|
    ensures IsMultiple(x, Value(steps[i]))
  {
    hide Times, Scaled, Pow10, Value, Lcm;
    var places := Places(steps);
    var ns := ScaledSteps(steps, places);
    var l, scale := Lcm(ns), Pow10(places) as real;
    var k: int :| x == Times(k, CombinedStep(steps));
    assert Divides(ns[i], l);
    QuotientOfMultiple(ns[i], l);
    var c := l / ns[i];
    ScaledIsValue(steps[i], places);
    ViaScale(k, c, ns[i], l, scale, Value(steps[i]));
    assert x == Times(k * c, Value(steps[i]));
  }

  lemma ViaScale(k: int, c: int, n: nat, l: nat, scale: real, step: real)
    requires scale > 0.0 && l == c * n && n as real == step * scale
    ensures Times(k, l as real / scale) == Times(k * c, step)
  {
    var cr := c as real;
    Cast(c, n);
    Regroup(cr, step, scale);
    Unscale(cr * step, scale);
    Regroup(k as real, cr, step);
    Cast(k, c);
  }

  lemma Unscale(x: real, scale: real)
    requires scale > 0.0
    ensures (x * scale) / scale == x
  {
  }

  /** A positive common multiple of all steps is a multiple of the combined step. */
  lemma CommonIsCombined(steps: seq<Decimal>, x: real)
    requires steps != [] && x > 0.0 && AllMultiples(x, steps)
    requires forall i :: 0 <= i < |steps| ==> steps[i].units > 0
    ensures IsMultiple(x, CombinedStep(steps))
  {
    hide Times, Scaled, Pow10, Value, Lcm, IsMultiple;
    var places := Places(steps);
    var ns := ScaledSteps(steps, places);
    var l, scale := Lcm(ns), Pow10(places) as real;
    var m := WholeMultiple(x, steps, places, 0);
    forall i | 0 <= i < |ns| ensures Divides(ns[i], m) {
      var m' := WholeMultiple(x, steps, places, i);
    }
    PositiveWhole(x, scale, m);
    LcmDivides(ns, m);
    QuotientOfMultiple(l, m);
    InSteps(x, m / l, l, scale, m);
  }

  lemma PositiveWhole(x: real, scale: real, m: int)
    requires x > 0.0 && scale > 0.0 && m as real == x * scale
    ensures m > 0
  {
  }

  lemma InSteps(x: real, k: int, l: nat, scale: real, m: int)
    requires scale > 0.0 && m as real == x * scale && m == k * l
    ensures IsMultiple(x, l as real / scale)
  {
    Cast(k, l);
    Unscale(x, scale);
    var lr, kr := l as real, k as real;
    assert (kr * lr) / scale == kr * (lr / scale);
    assert x == Times(k, l as real / scale);
  }

  /** Scaled up, x is an integer that the i-th scaled step divides. */
  lemma WholeMultiple(x: real, steps: seq<Decimal>, places: nat, i: nat) returns (m: int)
    requires forall i :: 0 <= i < |steps| ==> steps[i].units > 0 && steps[i].exponent + places >= 0
    requires i < |steps| && IsMultiple(x, Value(steps[i]))
    ensures m as real == x * Pow10(places) as real && Divides(ScaledSteps(steps, places)[i], m)
  {
    hide Scaled, Pow10, Value;
    var n := ScaledSteps(steps, places)[i];
    var k: int :| x == Times(k, Value(steps[i]));
    m := k * n;
    ScaledIsValue(steps[i], places);
    ModOfMultiple(n, k);
    Cast(k, n);
    Regroup(k as real, Value(steps[i]), Pow10(places) as real);
  }

  // ---------------------------------------------------------------- rounding down

  function RoundDown(quantity: real, step: real): real
    requires step > 0.0
  {
    Times((quantity / step).Floor, step)
  }

  lemma RoundDownGreatest(quantity: real, step: real)
    requires step > 0.0
    ensures IsMultiple(RoundDown(quantity, step), step) && RoundDown(quantity, step) <= quantity
    ensures forall x :: IsMultiple(x, step) && x <= quantity ==> x <= RoundDown(quantity, step)
  {
    var f := (quantity / step).Floor;
    ScaleOrder(f as real, quantity, step);
    assert RoundDown(quantity, step) == Times(f, step);
    forall x | IsMultiple(x, step) && x <= quantity ensures x <= RoundDown(quantity, step) {
      var k: int :| x == Times(k, step);
      ScaleOrder(k as real, quantity, step);
      assert k <= f;
      StepsOrdered(k, f, step);
    }
  }

  lemma StepsOrdered(k: int, f: int, step: real)
    requires k <= f && step > 0.0
    ensures Times(k, step) <= Times(f, step)
  {
    assert (f - k) as real * step >= 0.0;
  }

  /** k steps fit into the quantity iff k is at most the quotient. */
  lemma ScaleOrder(k: real, quantity: real, step: real)
    requires step > 0.0
    ensures k * step <= quantity <==> k <= quantity / step
  {
    var q := quantity / step;
    assert q * step == quantity;
    assert (q - k) * step == quantity - k * step;
    if k <= q {
      assert (q - k) * step >= 0.0;
    } else {
      assert (k - q) * step > 0.0;
    }
  }

  function Rounded(lots: seq<Lot>, quantity: real): real {
    var steps := PositiveSteps(lots);
    if steps == [] then quantity else RoundDown(quantity, CombinedStep(steps))
  }

  /** The rounded quantity is the greatest point of the grid that is not above the request. */
  lemma RoundedGreatest(lots: seq<Lot>, quantity: real)
    requires quantity > 0.0
    ensures var r := Rounded(lots, quantity);
      && 0.0 <= r <= quantity && OnGrid(r, lots)
      && forall x :: OnGrid(x, lots) && x <= quantity ==> x <= r
  {
    hide Value, CombinedStep, RoundDown;
    var steps := PositiveSteps(lots);
    var r := Rounded(lots, quantity);
    GridOfSteps(r, lots);
    if steps != [] {
      var step := CombinedStep(steps);
      RoundDownGreatest(quantity, step);
      assert IsMultiple(0.0, step) by {
        assert 0.0 == Times(0, step);
      }
      forall i | 0 <= i < |steps| ensures IsMultiple(r, Value(steps[i])) {
        MultipleOfCombined(steps, r, i);
      }
      forall x | OnGrid(x, lots) && x <= quantity ensures x <= r {
        if x > 0.0 {
          GridOfSteps(x, lots);
          CommonIsCombined(steps, x);
        }
      }
    }
  }

  // ---------------------------------------------------------------- the rules

  predicate LotAllows(l: Lot, q: real) {
    q >= l.min && !(l.max > 0.0 && q > l.max)
  }

  predicate RuleAllows(r: NotionalRule, notional: real) {
    && !(r.applyMin && r.min > 0.0 && notional < r.min)
    && !(r.applyMax && r.max > 0.0 && notional > r.max)
  }

  lemma LotRefuses(l: Lot, q: real, refused: bool)
    requires refused == (q < l.min || (l.max > 0.0 && q > l.max))
    ensures LotAllows(l, q) == !refused
  {
  }

  lemma RuleRefuses(r: NotionalRule, notional: real, tooSmall: bool, tooLarge: bool)
    requires tooSmall == (r.applyMin && r.min > 0.0 && notional < r.min)
    requires tooLarge == (r.applyMax && r.max > 0.0 && notional > r.max)
    ensures RuleAllows(r, notional) == (!tooSmall && !tooLarge)
  {
  }

  predicate MeetsRules(f: Filters, q: real, price: real) {
    && (forall i :: 0 <= i < |f.lots| ==> LotAllows(f.lots[i], q))
    && (forall i :: 0 <= i < |f.rules| ==> RuleAllows(f.rules[i], Notional(q, price)))
  }

  function Notional(q: real, price: real): real { q * price }

  function Normalize(f: Filters, quantity: real, price: real): real {
    if quantity <= 0.0 || price <= 0.0 then 0.0
    else
      var r := Rounded(f.lots, quantity);
      if MeetsRules(f, r, price) then r else 0.0
  }

  /** The filters LOT_SIZE and MARKET_LOT_SIZE, then the rules MIN_NOTIONAL and NOTIONAL. */
  method NormalizeQuantityDecimal(f: Filters, quantity: real, price: real) returns (r: Result<real, FilterError>)
    ensures quantity > 0.0 && price > 0.0 && f.lots == [] ==> r == Failure(MissingFilters)
    ensures !(quantity > 0.0 && price > 0.0 && f.lots == []) ==> r == Success(Normalize(f, quantity, price))
  {
    hide CombinedStep, RoundDown, PositiveSteps, LotAllows, RuleAllows, Notional;
    if quantity <= 0.0 || price <= 0.0 {
      return Success(0.0);
    }
    if f.lots == [] {
      return Failure(MissingFilters);
    }
    var steps := PositiveSteps(f.lots);
    var normalized := quantity;
    if steps != [] {
      normalized := RoundDown(quantity, CombinedStep(steps));
    }
    assert normalized == Rounded(f.lots, quantity);
    for i := 0 to |f.lots|
      invariant forall j :: 0 <= j < i ==> LotAllows(f.lots[j], normalized)
    {
      var lot := f.lots[i];
      var refused := normalized < lot.min || (lot.max > 0.0 && normalized > lot.max);
      LotRefuses(lot, normalized, refused);
      if refused {
        return Success(0.0);
      }
    }
    var notional := Notional(normalized, price);
    for i := 0 to |f.rules|
      invariant forall j :: 0 <= j < i ==> RuleAllows(f.rules[j], notional)
    {
      var rule := f.rules[i];
      var tooSmall := rule.applyMin && rule.min > 0.0 && notional < rule.min;
      var tooLarge := rule.applyMax && rule.max > 0.0 && notional > rule.max;
      RuleRefuses(rule, notional, tooSmall, tooLarge);
      assert tooSmall || tooLarge ==> !RuleAllows(f.rules[i], Notional(normalized, price));
      if tooSmall {
        return Success(0.0);
      }
      if tooLarge {
        return Success(0.0);
      }
    }
    return Success(normalized);
  }

  /**
    A nonzero result is the greatest quantity not above the request that is a multiple of every
    lot step; it meets every rule, and normalizing it again at the same price changes nothing.
    The result is zero exactly when the request or the price is not positive, or that greatest
    quantity is zero or breaks a rule.
  */
  lemma NormalizeIsGreatest(f: Filters, quantity: real, price: real)
    ensures var r := Normalize(f, quantity, price);
      if r != 0.0 then
        && 0.0 < r <= quantity && OnGrid(r, f.lots) && MeetsRules(f, r, price)
        && (forall x :: OnGrid(x, f.lots) && x <= quantity ==> x <= r)
        && Normalize(f, r, price) == r
      else
        quantity <= 0.0 || price <= 0.0 || Rounded(f.lots, quantity) == 0.0
        || !MeetsRules(f, Rounded(f.lots, quantity), price)
  {
    hide Rounded, OnGrid, MeetsRules;
    var r := Normalize(f, quantity, price);
    if r != 0.0 {
      RoundedGreatest(f.lots, quantity);
      RoundedGreatest(f.lots, r);
      assert r <= Rounded(f.lots, r) <= r;
    }
  }
}
