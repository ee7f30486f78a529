/**
  compare_strategy_intervals.py: the four cost scenarios of one simulated trade, their totals
  over trades and symbols, and the summary statistics.
*/
module TradeCosts {
  import opened Wrappers
  import opened Ledger
  import opened RealFacts

  datatype Costs = Costs(raw: real, feeAdjusted: real, costAdjusted: real, stressAdjusted: real)

  /** Slippages and the fee are fractions. */
  datatype CostModel = CostModel(notional: real, fee: real, slip: real, stress: real)

  predicate Sane(m: CostModel) {
    m.notional >= 0.0 && 0.0 <= m.fee <= 1.0 && m.slip >= 0.0 && m.stress >= 0.0
  }

  /** What the quantity bought at `fill` brings when it is sold at `exit`. */
  function Proceeds(notional: real, fill: real, exit: real): real
    requires fill > 0.0
  {
    notional / fill * exit
  }

  function NetPnl(m: CostModel, proceeds: real): real {
    proceeds - m.notional - (m.notional + proceeds) * m.fee
  }

  /** Buying and selling at prices slipped by the given rate. */
  function AtSlip(m: CostModel, entry: real, exit: real, slip: real): real
    requires entry > 0.0 && slip >= 0.0
  {
    SlippedPositive(entry, slip);
    NetPnl(m, Proceeds(m.notional, entry * (1.0 + slip), exit * (1.0 - slip)))
  }

  function TradePnls(m: CostModel, entry: real, exit: real): Costs
    requires Sane(m) && entry > 0.0
  {
    var rawQty := m.notional / entry;
    var raw := rawQty * (exit - entry);
    Costs(raw, raw - (m.notional + rawQty * exit) * m.fee,
          AtSlip(m, entry, exit, m.slip), AtSlip(m, entry, exit, m.slip + m.stress))
  }

  lemma SlippedPositive(entry: real, slip: real)
    requires entry > 0.0 && slip >= 0.0
    ensures entry * (1.0 + slip) > 0.0
  {
    OrderTimes(1.0, 1.0 + slip, entry);
  }

  /** More slippage never brings more. */
  lemma ProceedsFall(notional: real, entry: real, exit: real, s: real, s': real)
    requires notional >= 0.0 && entry > 0.0 && exit >= 0.0 && 0.0 <= s <= s'
    ensures entry * (1.0 + s) > 0.0 && entry * (1.0 + s') > 0.0
    ensures Proceeds(notional, entry * (1.0 + s'), exit * (1.0 - s')) <= Proceeds(notional, entry * (1.0 + s), exit * (1.0 - s))
  {
    SlippedPositive(entry, s);
    SlippedPositive(entry, s');
    var f, f' := entry * (1.0 + s), entry * (1.0 + s');
    OrderTimes(1.0 + s, 1.0 + s', entry);
    var q, q' := notional / f, notional / f';
    RatioFalls(notional, f, f');
    OrderTimes(1.0 - s', 1.0 - s, exit);
    var x, x' := exit * (1.0 - s), exit * (1.0 - s');
    OrderTimes(x', x, q);
    if x' >= 0.0 {
      OrderTimes(q', q, x');
    } else {
      Opposed(exit, entry, notional, s, s');
    }
  }

  /** When the slipped exit price would be negative, both sides are compared at the entry price. */
  lemma Opposed(exit: real, entry: real, notional: real, s: real, s': real)
    requires notional >= 0.0 && entry > 0.0 && exit >= 0.0 && 0.0 <= s <= s'
    requires entry * (1.0 + s) > 0.0 && entry * (1.0 + s') > 0.0
    ensures Proceeds(notional, entry * (1.0 + s'), exit * (1.0 - s')) <= Proceeds(notional, entry * (1.0 + s), exit * (1.0 - s))
  {
    var a := notional / entry * exit;
    AtEntry(notional, entry, exit, s);
    AtEntry(notional, entry, exit, s');
    NonNegative(notional, entry, exit);
    var k, k' := (1.0 - s) / (1.0 + s), (1.0 - s') / (1.0 + s');
    FactorFalls(s, s');
    OrderTimes(k', k, a);
  }

  lemma NonNegative(notional: real, entry: real, exit: real)
    requires notional >= 0.0 && entry > 0.0 && exit >= 0.0
    ensures notional / entry * exit >= 0.0
  {
    assert notional / entry >= 0.0;
    OrderTimes(0.0, notional / entry, exit);
  }

  lemma AtEntry(notional: real, entry: real, exit: real, s: real)
    requires entry > 0.0 && s >= 0.0 && entry * (1.0 + s) > 0.0
    ensures Proceeds(notional, entry * (1.0 + s), exit * (1.0 - s)) == (notional / entry * exit) * ((1.0 - s) / (1.0 + s))
  {
    var u := 1.0 + s;
    var q := notional / entry;
    var k := (1.0 - s) / u;
    assert q * entry == notional;
    assert notional / (entry * u) == q / u by {
      assert (q / u) * u == q;
      assert (q / u) * (entry * u) == ((q / u) * u) * entry;
    }
    assert k * u == 1.0 - s;
    assert (q / u) * (exit * (k * u)) == (q * exit) * k by {
      assert (q / u) * u == q;
      assert (q / u) * (exit * (k * u)) == ((q / u) * u) * exit * k;
    }
  }

  lemma FactorFalls(s: real, s': real)
    requires 0.0 <= s <= s'
    ensures (1.0 - s') / (1.0 + s') <= (1.0 - s) / (1.0 + s)
  {
    var k, k' := (1.0 - s) / (1.0 + s), (1.0 - s') / (1.0 + s');
    assert k == 2.0 / (1.0 + s) - 1.0;
    assert k' == 2.0 / (1.0 + s') - 1.0;
    RatioFalls(2.0, 1.0 + s, 1.0 + s');
  }

  lemma NetPnlMonotone(m: CostModel, x: real, y: real)
    requires Sane(m) && x <= y
    ensures NetPnl(m, x) <= NetPnl(m, y)
  {
    OrderTimes(x, y, 1.0 - m.fee);
    assert NetPnl(m, x) == x * (1.0 - m.fee) - m.notional - m.notional * m.fee;
    assert NetPnl(m, y) == y * (1.0 - m.fee) - m.notional - m.notional * m.fee;
  }

  lemma AtSlipFalls(m: CostModel, entry: real, exit: real, s: real, s': real)
    requires Sane(m) && entry > 0.0 && exit >= 0.0 && 0.0 <= s <= s'
    ensures AtSlip(m, entry, exit, s') <= AtSlip(m, entry, exit, s)
  {
    hide NetPnl, Proceeds;
    ProceedsFall(m.notional, entry, exit, s, s');
    NetPnlMonotone(m, Proceeds(m.notional, entry * (1.0 + s'), exit * (1.0 - s')),
                   Proceeds(m.notional, entry * (1.0 + s), exit * (1.0 - s)));
  }

  lemma RawProceeds(notional: real, entry: real, exit: real)
    requires entry > 0.0
    ensures notional / entry * (exit - entry) == Proceeds(notional, entry, exit) - notional
  {
    var q := notional / entry;
    assert q * entry == notional;
    assert q * (exit - entry) == q * exit - q * entry;
  }

  lemma NoSlip(m: CostModel, entry: real, exit: real)
    requires entry > 0.0
    ensures AtSlip(m, entry, exit, 0.0) == NetPnl(m, Proceeds(m.notional, entry, exit))
  {
    hide NetPnl, Proceeds;
    var e, f := entry * (1.0 + 0.0), exit * (1.0 - 0.0);
    assert e == entry && f == exit;
  }

  lemma RawAndFee(m: CostModel, entry: real, exit: real)
    requires Sane(m) && entry > 0.0
    ensures var x := Proceeds(m.notional, entry, exit); var c := TradePnls(m, entry, exit);
      c.raw == x - m.notional && c.feeAdjusted == NetPnl(m, x)
  {
    hide AtSlip;
    RawProceeds(m.notional, entry, exit);
  }

  lemma WithoutSlip(m: CostModel, entry: real, exit: real)
    requires Sane(m) && entry > 0.0 && exit >= 0.0
    ensures TradePnls(m, entry, exit).feeAdjusted == AtSlip(m, entry, exit, 0.0)
    ensures TradePnls(m, entry, exit).raw >= TradePnls(m, entry, exit).feeAdjusted
  {
    hide AtSlip, TradePnls, Proceeds;
    NoSlip(m, entry, exit);
    RawAndFee(m, entry, exit);
    ProceedsNotNegative(m.notional, entry, exit);
    PositiveOrZero(m.notional + Proceeds(m.notional, entry, exit), m.fee);
  }

  lemma ProceedsNotNegative(notional: real, entry: real, exit: real)
    requires notional >= 0.0 && entry > 0.0 && exit >= 0.0
    ensures Proceeds(notional, entry, exit) >= 0.0
  {
    NonNegative(notional, entry, exit);
  }

  /** Cost scenarios of one trade are ordered. */
  lemma ScenariosOrdered(m: CostModel, entry: real, exit: real)
    requires Sane(m) && entry > 0.0 && exit >= 0.0
    ensures Ordered(TradePnls(m, entry, exit))
  {
    hide AtSlip;
    WithoutSlip(m, entry, exit);
    AtSlipFalls(m, entry, exit, 0.0, m.slip);
    AtSlipFalls(m, entry, exit, m.slip, m.slip + m.stress);
  }

  /**
    What a figure means: the notional buys `qty` at the price `fill`, `qty` is sold at `out`, and
    the fee is paid on what was spent and on what was received.
  */
  predicate IsRoundTrip(pnl: real, m: CostModel, fill: real, out: real, qty: real) {
    qty * fill == m.notional && pnl == qty * out - m.notional - m.fee * (m.notional + qty * out)
  }

  /** A round trip that enters at the price slipped up and leaves at the price slipped down. */
  ghost predicate IsTripAt(pnl: real, m: CostModel, entry: real, exit: real, slip: real) {
    exists fill, out, qty :: IsRoundTrip(pnl, m, fill, out, qty) && fill == entry * (1.0 + slip) && out == exit * (1.0 - slip)
  }

  /** Each scenario is the round trip at its own slippage; the raw figure has neither fee nor slippage. */
  lemma ScenariosAre(m: CostModel, entry: real, exit: real)
    requires Sane(m) && entry > 0.0
    ensures var c := TradePnls(m, entry, exit);
      && IsTripAt(c.raw, m.(fee := 0.0), entry, exit, 0.0)
      && IsTripAt(c.feeAdjusted, m, entry, exit, 0.0)
      && IsTripAt(c.costAdjusted, m, entry, exit, m.slip)
      && IsTripAt(c.stressAdjusted, m, entry, exit, m.slip + m.stress)
  {
    hide AtSlip, IsTripAt, TradePnls, NetPnl;
    RawAndFee(m, entry, exit);
    NoFee(m, Proceeds(m.notional, entry, exit));
    TripAt(m, entry, exit, 0.0);
    TripAt(m.(fee := 0.0), entry, exit, 0.0);
    NoSlip(m, entry, exit);
    NoSlip(m.(fee := 0.0), entry, exit);
    TripAt(m, entry, exit, m.slip);
    TripAt(m, entry, exit, m.slip + m.stress);
    ScenarioSlips(m, entry, exit);
  }

  lemma ScenarioSlips(m: CostModel, entry: real, exit: real)
    requires Sane(m) && entry > 0.0
    ensures var c := TradePnls(m, entry, exit);
      c.costAdjusted == AtSlip(m, entry, exit, m.slip) && c.stressAdjusted == AtSlip(m, entry, exit, m.slip + m.stress)
  {
    hide AtSlip;
  }

  lemma NoFee(m: CostModel, proceeds: real)
    ensures NetPnl(m.(fee := 0.0), proceeds) == proceeds - m.notional
  {
  }

  lemma TripAt(m: CostModel, entry: real, exit: real, slip: real)
    requires entry > 0.0 && slip >= 0.0
    ensures IsTripAt(AtSlip(m, entry, exit, slip), m, entry, exit, slip)
  {
    hide NetPnl, Proceeds, IsRoundTrip;
    SlippedPositive(entry, slip);
    var fill, out := entry * (1.0 + slip), exit * (1.0 - slip);
    Trip(m, fill, out);
    assert AtSlip(m, entry, exit, slip) == NetPnl(m, Proceeds(m.notional, fill, out));
    assert IsRoundTrip(AtSlip(m, entry, exit, slip), m, fill, out, m.notional / fill);
  }

  lemma Trip(m: CostModel, fill: real, out: real)
    requires fill > 0.0
    ensures IsRoundTrip(NetPnl(m, Proceeds(m.notional, fill, out)), m, fill, out, m.notional / fill)
  {
    DivTimes(m.notional, fill);
  }

  predicate Ordered(c: Costs) {
    c.raw >= c.feeAdjusted >= c.costAdjusted >= c.stressAdjusted
  }

  // ---------------------------------------------------------------- totals

  function Total(xs: seq<real>): real {
    if xs == [] then 0.0 else Total(xs[..|xs| - 1]) + xs[|xs| - 1]
  }

  /** The sum of one figure over a list of trades. */
  function TotalOf(trades: seq<Costs>, pick: Costs -> real): real {
    if trades == [] then 0.0 else TotalOf(trades[..|trades| - 1], pick) + pick(trades[|trades| - 1])
  }

  /** The list of P&L figures that the summary receives. */
  function Column(trades: seq<Costs>, pick: Costs -> real): (xs: seq<real>)
    ensures |xs| == |trades| && forall i :: 0 <= i < |xs| ==> xs[i] == pick(trades[i])
  {
    seq(|trades|, i requires 0 <= i < |trades| => pick(trades[i]))
  }

  lemma {:induction false} TotalOfColumn(trades: seq<Costs>, pick: Costs -> real)
    ensures Total(Column(trades, pick)) == TotalOf(trades, pick)
  {
    if trades != [] {
      var n := |trades| - 1;
      TotalOfColumn(trades[..n], pick);
      assert Column(trades, pick)[..n] == Column(trades[..n], pick);
    }
  }

  lemma {:induction false} TotalAppend(a: seq<Costs>, b: seq<Costs>, pick: Costs -> real)
    ensures TotalOf(a + b, pick) == TotalOf(a, pick) + TotalOf(b, pick)
  {
    if b == [] {
      assert a + b == a;
    } else {
      var n := |b| - 1;
      assert (a + b)[..|a| + n] == a + b[..n];
      TotalAppend(a, b[..n], pick);
    }
  }

  lemma OneTrade(x: Costs, pick: Costs -> real)
    ensures TotalOf([x], pick) == pick(x)
  {
    assert [x][..0] == [];
  }

  /** Taking one element out of the middle. */
  lemma TotalWithout(a: seq<Costs>, k: nat, pick: Costs -> real)
    requires k < |a|
    ensures TotalOf(a, pick) == TotalOf(a[..k] + a[k + 1..], pick) + pick(a[k])
  {
    hide TotalOf;
    var front, back := a[..k], a[k + 1..];
    assert a == (front + [a[k]]) + back;
    OneTrade(a[k], pick);
    TotalAppend(front + [a[k]], back, pick);
    TotalAppend(front, [a[k]], pick);
    TotalAppend(front, back, pick);
  }

  lemma RestOfPermutation(a: seq<Costs>, b: seq<Costs>, k: nat)
    requires a != [] && multiset(a) == multiset(b) && k < |b| && b[k] == a[|a| - 1]
    ensures multiset(a[..|a| - 1]) == multiset(b[..k] + b[k + 1..])
  {
    var n := |a| - 1;
    assert a == a[..n] + [a[n]];
    assert multiset(a) == multiset(a[..n]) + multiset{a[n]};
    var front, back := b[..k], b[k + 1..];
    assert b == front + [b[k]] + back;
    assert multiset(b) == multiset(front) + multiset{b[k]} + multiset(back);
    assert multiset(front + back) == multiset(front) + multiset(back) == multiset(b) - multiset{b[k]};
    assert multiset(a[..n]) == multiset(a) - multiset{a[n]};
  }

  /** Sorting the trades does not change a total. */
  lemma {:induction false} TotalOfPermutation(a: seq<Costs>, b: seq<Costs>, pick: Costs -> real)
    requires multiset(a) == multiset(b)
    ensures TotalOf(a, pick) == TotalOf(b, pick)
    decreases |a|
  {
    if a == [] {
      assert |b| == |multiset(b)| == 0;
    } else {
      var n := |a| - 1;
      assert a[n] in multiset(a);
      var k :| 0 <= k < |b| && b[k] == a[n];
      RestOfPermutation(a, b, k);
      TotalOfPermutation(a[..n], b[..k] + b[k + 1..], pick);
      TotalWithout(b, k, pick);
    }
  }

  /** One result per symbol: the scenarios of its trades, in order. */
  type SymbolResult = seq<Costs>

  function Concat(results: seq<SymbolResult>): seq<Costs> {
    if results == [] then [] else Concat(results[..|results| - 1]) + results[|results| - 1]
  }

  function SymbolTotals(results: seq<SymbolResult>, pick: Costs -> real): real {
    if results == [] then 0.0
    else SymbolTotals(results[..|results| - 1], pick) + TotalOf(results[|results| - 1], pick)
  }

  lemma {:induction false} ConcatTotal(results: seq<SymbolResult>, pick: Costs -> real)
    ensures TotalOf(Concat(results), pick) == SymbolTotals(results, pick)
  {
    hide TotalOf;
    if results == [] {
      NoTrades(pick);
    } else {
      var n := |results| - 1;
      ConcatTotal(results[..n], pick);
      TotalAppend(Concat(results[..n]), results[n], pick);
    }
  }

  lemma NoTrades(pick: Costs -> real)
    ensures TotalOf([], pick) == 0.0
  {
  }

  /**
    combine_symbol_results: whatever order the merged trades are sorted into, every total that
    the summary reports is the sum of the symbols' totals.
  */
  lemma CombinedTotals(results: seq<SymbolResult>, merged: seq<Costs>, pick: Costs -> real)
    requires multiset(merged) == multiset(Concat(results))
    ensures Total(Column(merged, pick)) == SymbolTotals(results, pick)
  {
    TotalOfColumn(merged, pick);
    TotalOfPermutation(merged, Concat(results), pick);
    ConcatTotal(results, pick);
  }

  lemma {:induction false} TotalOrdered(trades: seq<Costs>, high: Costs -> real, low: Costs -> real)
    requires forall i :: 0 <= i < |trades| ==> high(trades[i]) >= low(trades[i])
    ensures TotalOf(trades, high) >= TotalOf(trades, low)
  {
    if trades != [] {
      TotalOrdered(trades[..|trades| - 1], high, low);
    }
  }

  /** The totals that the summary reports of any list of trades are ordered like the scenarios of each trade. */
  lemma TotalsOrdered(trades: seq<Costs>)
    requires forall i :: 0 <= i < |trades| ==> Ordered(trades[i])
    ensures OrderedTotals(trades)
  {
    hide TotalOf, Total;
    TotalOfColumn(trades, (c: Costs) => c.raw);
    TotalOfColumn(trades, (c: Costs) => c.feeAdjusted);
    TotalOfColumn(trades, (c: Costs) => c.costAdjusted);
    TotalOfColumn(trades, (c: Costs) => c.stressAdjusted);
    TotalOrdered(trades, (c: Costs) => c.raw, (c: Costs) => c.feeAdjusted);
    TotalOrdered(trades, (c: Costs) => c.feeAdjusted, (c: Costs) => c.costAdjusted);
    TotalOrdered(trades, (c: Costs) => c.costAdjusted, (c: Costs) => c.stressAdjusted);
  }

  ghost predicate OrderedTotals(trades: seq<Costs>) {
    && Total(Column(trades, (c: Costs) => c.raw)) >= Total(Column(trades, (c: Costs) => c.feeAdjusted))
    && Total(Column(trades, (c: Costs) => c.feeAdjusted)) >= Total(Column(trades, (c: Costs) => c.costAdjusted))
    && Total(Column(trades, (c: Costs) => c.costAdjusted)) >= Total(Column(trades, (c: Costs) => c.stressAdjusted))
  }

  // ---------------------------------------------------------------- summary

  /** The deepest fall of the cumulative P&L from an earlier level; the curve starts at zero. */
  ghost predicate IsMaxDrawdown(pnls: seq<real>, n: nat, d: real)
    requires n <= |pnls|
  {
    && (forall i, j :: 0 <= i <= j <= n ==> Total(pnls[..i]) - Total(pnls[..j]) <= d)
    && (exists i, j :: 0 <= i <= j <= n && Total(pnls[..i]) - Total(pnls[..j]) == d)
  }

  ghost predicate IsPeak(pnls: seq<real>, n: nat, p: real)
    requires n <= |pnls|
  {
    && (forall i :: 0 <= i <= n ==> Total(pnls[..i]) <= p)
    && (exists i :: 0 <= i <= n && Total(pnls[..i]) == p)
  }

  lemma OneMorePnl(pnls: seq<real>, n: nat)
    requires n < |pnls|
    ensures Total(pnls[..n + 1]) == Total(pnls[..n]) + pnls[n]
  {
    assert pnls[..n + 1][..n] == pnls[..n];
  }

  lemma PeakStep(pnls: seq<real>, n: nat, p: real, d: real)
    requires n < |pnls| && IsPeak(pnls, n, p) && IsMaxDrawdown(pnls, n, d)
    ensures var c := Total(pnls[..n + 1]); var p' := Max(p, c);
      IsPeak(pnls, n + 1, p') && IsMaxDrawdown(pnls, n + 1, Max(d, p' - c))
  {
    hide Total, IsPeak, IsMaxDrawdown;
    PeakGrows(pnls, n, p);
    DrawdownGrows(pnls, n, Max(p, Total(pnls[..n + 1])), d);
  }

  lemma PeakGrows(pnls: seq<real>, n: nat, p: real)
    requires n < |pnls| && IsPeak(pnls, n, p)
    ensures IsPeak(pnls, n + 1, Max(p, Total(pnls[..n + 1])))
  {
    hide Total;
    var c := Total(pnls[..n + 1]);
    if c > p {
      assert Total(pnls[..n + 1]) == Max(p, c);
    }
  }

  lemma DrawdownGrows(pnls: seq<real>, n: nat, p: real, d: real)
    requires n < |pnls| && IsPeak(pnls, n + 1, p) && IsMaxDrawdown(pnls, n, d)
    ensures IsMaxDrawdown(pnls, n + 1, Max(d, p - Total(pnls[..n + 1])))
  {
    hide Total;
    var c := Total(pnls[..n + 1]);
    var k :| 0 <= k <= n + 1 && Total(pnls[..k]) == p;
    if Max(d, p - c) == p - c {
      assert Total(pnls[..k]) - Total(pnls[..n + 1]) == p - c;
    }
  }

  datatype Summary = Summary(
    trades: nat, wins: nat, losses: nat, winRate: Option<real>, totalPnl: real, averagePnl: Option<real>,
    profitFactor: Option<real>, maxDrawdown: real)

  function Winners(pnls: seq<real>): seq<real> {
    if pnls == [] then []
    else Winners(pnls[..|pnls| - 1]) + (if pnls[|pnls| - 1] > 0.0 then [pnls[|pnls| - 1]] else [])
  }

  function Losers(pnls: seq<real>): seq<real> {
    if pnls == [] then []
    else Losers(pnls[..|pnls| - 1]) + (if pnls[|pnls| - 1] < 0.0 then [pnls[|pnls| - 1]] else [])
  }

  /** Winners and losers together make up the total. */
  lemma {:induction false} WinnersAndLosers(pnls: seq<real>)
    ensures Total(Winners(pnls)) + Total(Losers(pnls)) == Total(pnls)
    ensures Total(Winners(pnls)) >= 0.0 && Total(Losers(pnls)) <= 0.0
    ensures |Winners(pnls)| + |Losers(pnls)| <= |pnls|
    ensures Total(Losers(pnls)) < 0.0 <==> Losers(pnls) != []
  {
    if pnls != [] {
      var n := |pnls| - 1;
      var x := pnls[n];
      WinnersAndLosers(pnls[..n]);
      var won, lost := Winners(pnls[..n]), Losers(pnls[..n]);
      assert (won + [x])[..|won|] == won && (lost + [x])[..|lost|] == lost;
      assert won + [] == won && lost + [] == lost;
    }
  }

  /** r is the quotient of part and whole, missing when the whole is zero. */
  predicate IsQuotient(r: Option<real>, part: real, whole: real) {
    if whole == 0.0 then r == None else r.Some? && r.value * whole == part
  }

  function Quotient(part: real, whole: real): (r: Option<real>)
    ensures IsQuotient(r, part, whole)
  {
    if whole == 0.0 then None
    else
      DivTimes(part, whole);
      Some(part / whole)
  }

  /** s is the summary of these P&L figures. */
  ghost predicate Summarizes(pnls: seq<real>, s: Summary) {
    && s.trades == |pnls| && s.wins == |Winners(pnls)| && s.losses == |Losers(pnls)|
    && s.totalPnl == Total(pnls)
    && IsQuotient(s.winRate, s.wins as real, s.trades as real)
    && IsQuotient(s.averagePnl, s.totalPnl, s.trades as real)
    && IsQuotient(s.profitFactor, Total(Winners(pnls)), -Total(Losers(pnls)))
    && IsMaxDrawdown(pnls, |pnls|, s.maxDrawdown)
  }

  /**
    There is a profit factor exactly when a trade lost, and it is above one exactly when the
    trades made money; the drawdown is at least the total loss.
  */
  lemma SummaryAgrees(pnls: seq<real>, s: Summary)
    requires Summarizes(pnls, s)
    ensures s.profitFactor.Some? <==> s.losses > 0
    ensures s.profitFactor.Some? ==> (s.profitFactor.value > 1.0 <==> s.totalPnl > 0.0)
    ensures s.wins + s.losses <= s.trades && (s.losses == 0 ==> s.totalPnl >= 0.0)
    ensures s.maxDrawdown >= Max(0.0, -s.totalPnl)
  {
    hide Total, IsMaxDrawdown, Winners, Losers;
    WinnersAndLosers(pnls);
    FallsAtLeast(pnls, s.maxDrawdown);
    if s.profitFactor.Some? {
      AboveOne(s.profitFactor, Total(Winners(pnls)), -Total(Losers(pnls)));
    }
  }

  lemma AboveOne(r: Option<real>, part: real, whole: real)
    requires whole >= 0.0 && IsQuotient(r, part, whole) && r.Some?
    ensures r.value > 1.0 <==> part > whole
  {
    if r.value > 1.0 {
      PositiveProduct(r.value - 1.0, whole);
    } else {
      OrderTimes(r.value, 1.0, whole);
    }
  }

  lemma FallsAtLeast(pnls: seq<real>, d: real)
    requires IsMaxDrawdown(pnls, |pnls|, d)
    ensures d >= Max(0.0, -Total(pnls))
  {
    assert pnls[..|pnls|] == pnls;
    assert Total(pnls[..0]) == 0.0;
    assert Total(pnls[..0]) - Total(pnls[..0]) <= d;
    assert Total(pnls[..0]) - Total(pnls[..|pnls|]) <= d;
  }

  /** The loop of summarize: cumulative P&L, its peak and the deepest fall from it. */
  method MaxDrawdown(pnls: seq<real>) returns (maxDrawdown: real)
    ensures IsMaxDrawdown(pnls, |pnls|, maxDrawdown)
  {
    hide Total, IsPeak, IsMaxDrawdown;
    var cumulative, peak := 0.0, 0.0;
    maxDrawdown := 0.0;
    CurveStarts(pnls);
    for i := 0 to |pnls|
      invariant cumulative == Total(pnls[..i])
      invariant IsPeak(pnls, i, peak) && IsMaxDrawdown(pnls, i, maxDrawdown)
    {
      PeakStep(pnls, i, peak, maxDrawdown);
      OneMorePnl(pnls, i);
      cumulative := cumulative + pnls[i];
      peak := Max(peak, cumulative);
      maxDrawdown := Max(maxDrawdown, peak - cumulative);
    }
  }

  /** summarize */
  method Summarize(pnls: seq<real>) returns (s: Summary)
    ensures Summarizes(pnls, s)
  {
    hide Total, IsMaxDrawdown, Winners, Losers;
    if pnls == [] {
      CurveStarts(pnls);
      return Summary(0, 0, 0, None, 0.0, None, None, 0.0);
    }
    WinnersAndLosers(pnls);
    var wins, losses := Winners(pnls), Losers(pnls);
    var grossLoss := Abs(Total(losses));
    var maxDrawdown := MaxDrawdown(pnls);
    return Summary(|pnls|, |wins|, |losses|, Quotient(|wins| as real, |pnls| as real), Total(pnls),
                   Quotient(Total(pnls), |pnls| as real), Quotient(Total(wins), grossLoss), maxDrawdown);
  }

  lemma CurveStarts(pnls: seq<real>)
    ensures Total(pnls[..0]) == 0.0 && IsPeak(pnls, 0, 0.0) && IsMaxDrawdown(pnls, 0, 0.0)
    ensures pnls == [] ==> Total(pnls) == Total(Winners(pnls)) == Total(Losers(pnls)) == 0.0
    ensures pnls == [] ==> Winners(pnls) == Losers(pnls) == []
  {
    assert Total(pnls[..0]) == 0.0;
    assert Total(pnls[..0]) - Total(pnls[..0]) == 0.0;
  }

  // ---------------------------------------------------------------- walk-forward slices

  /** Python's floor division for a positive divisor. */
  function FloorDiv(a: int, b: nat): int
    requires b > 0
  {
    a / b
  }

  function WfSlices(total: int, folds: nat, warmup: int): (slices: seq<(int, int)>)
    ensures |slices| == folds
  {
    seq(folds, i requires 0 <= i < folds =>
      var seg := FloorDiv(total - warmup, folds);
      (warmup + i * seg, if i < folds - 1 then warmup + (i + 1) * seg else total))
  }

  /** With enough candles the slices tile the range after the warm-up: each candle is in one. */
  lemma SlicesTile(total: int, folds: nat, warmup: int, x: int)
    requires folds > 0 && total >= warmup && warmup <= x < total
    ensures var slices := WfSlices(total, folds, warmup);
      && (exists i :: 0 <= i < folds && slices[i].0 <= x < slices[i].1)
      && (forall i, j :: 0 <= i < j < folds ==> slices[i].1 <= slices[j].0)
  {
    var slices := WfSlices(total, folds, warmup);
    var seg := FloorDiv(total - warmup, folds);
    forall i, j | 0 <= i < j < folds ensures slices[i].1 <= slices[j].0 {
      ScaleUp(i + 1, j, seg);
    }
    var k := FindSlice(total, folds, warmup, x, folds - 1);
    assert slices[k].0 <= x < slices[k].1;
  }

  lemma ScaleUp(i: int, j: int, seg: int)
    requires i <= j && seg >= 0
    ensures i * seg <= j * seg
  {
    assert (j - i) * seg >= 0;
  }

  /** Go back from slice n until the start is not beyond x. */
  lemma FindSlice(total: int, folds: nat, warmup: int, x: int, n: nat) returns (k: nat)
    requires n < folds && warmup <= x && x < WfSlices(total, folds, warmup)[n].1
    ensures k <= n && WfSlices(total, folds, warmup)[k].0 <= x < WfSlices(total, folds, warmup)[k].1
    decreases n
  {
    k := n;
    if WfSlices(total, folds, warmup)[n].0 > x {
      assert n > 0;
      k := FindSlice(total, folds, warmup, x, n - 1);
    }
  }
}
