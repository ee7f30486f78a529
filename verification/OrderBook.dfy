/**
  app/exchange/binance.py, check_entry_liquidity: a walk through the visible asks that prices an
  entry. The walk is greedy; it is proved to be the cheapest way to take the quantity.
*/
module OrderBook {
  import opened Wrappers
  import opened Ledger
  import opened RealFacts

  datatype Level = Level(price: real, qty: real)

  datatype BookFault = InvalidRequest | SlowBook | InvalidBook | Unsorted | Crossed | WideSpread | ThinBook | PriceMoved

  predicate AllPositive(levels: seq<Level>) {
    forall i :: 0 <= i < |levels| ==> levels[i].price > 0.0 && levels[i].qty > 0.0
  }

  predicate NoCheaperNext(levels: seq<Level>, i: nat)
    requires i + 1 < |levels|
  {
    levels[i].price <= levels[i + 1].price
  }

  predicate NoDearerNext(levels: seq<Level>, i: nat)
    requires i + 1 < |levels|
  {
    levels[i].price >= levels[i + 1].price
  }

  predicate Ascending(levels: seq<Level>) {
    forall i: nat :: i + 1 < |levels| ==> NoCheaperNext(levels, i)
  }

  predicate Descending(levels: seq<Level>) {
    forall i: nat :: i + 1 < |levels| ==> NoDearerNext(levels, i)
  }

  predicate GoodAsks(asks: seq<Level>) {
    asks != [] && AllPositive(asks) && Ascending(asks)
  }

  // ---------------------------------------------------------------- ways to take a quantity

  function SumTo(a: seq<real>, n: nat): real
    requires n <= |a|
  {
    if n == 0 then 0.0 else SumTo(a, n - 1) + a[n - 1]
  }

  function Worth(qty: real, price: real): real { qty * price }

  function CostTo(asks: seq<Level>, a: seq<real>, n: nat): real
    requires n <= |a| == |asks|
  {
    if n == 0 then 0.0 else CostTo(asks, a, n - 1) + Worth(a[n - 1], asks[n - 1].price)
  }

  function Depth(asks: seq<Level>, n: nat): real
    requires n <= |asks|
  {
    if n == 0 then 0.0 else Depth(asks, n - 1) + asks[n - 1].qty
  }

  /** a takes exactly q from the levels, from each at most what it offers. */
  predicate Takes(asks: seq<Level>, a: seq<real>, q: real) {
    && |a| == |asks| && SumTo(a, |a|) == q
    && forall i :: 0 <= i < |a| ==> 0.0 <= a[i] <= asks[i].qty
  }

  /** What the walk has taken after n levels. */
  function Filled(asks: seq<Level>, q: real, n: nat): real
    requires n <= |asks|
  {
    Min(q, Depth(asks, n))
  }

  /** What the walk takes from level i. */
  function Use(asks: seq<Level>, q: real, i: nat): real
    requires i < |asks|
  {
    Filled(asks, q, i + 1) - Filled(asks, q, i)
  }

  function Greedy(asks: seq<Level>, q: real): (a: seq<real>)
    ensures |a| == |asks|
    ensures forall i :: 0 <= i < |a| ==> a[i] == Use(asks, q, i)
  {
    seq(|asks|, i requires 0 <= i < |asks| => Use(asks, q, i))
  }

  function GreedyCost(asks: seq<Level>, q: real): real {
    CostTo(asks, Greedy(asks, q), |asks|)
  }

  lemma {:induction false} DepthGrows(asks: seq<Level>, i: nat, j: nat)
    requires AllPositive(asks) && i <= j <= |asks|
    ensures 0.0 <= Depth(asks, i) <= Depth(asks, j)
  {
    if j > 0 {
      if i < j {
        DepthGrows(asks, i, j - 1);
      } else {
        DepthGrows(asks, i - 1, j - 1);
      }
    }
  }

  lemma UseBounds(asks: seq<Level>, q: real, i: nat)
    requires AllPositive(asks) && i < |asks| && q >= 0.0
    ensures 0.0 <= Use(asks, q, i) <= asks[i].qty
    ensures Use(asks, q, i) == Min(q - Filled(asks, q, i), asks[i].qty)
    ensures q <= Depth(asks, i) ==> Use(asks, q, i) == 0.0
  {
    DepthGrows(asks, i, i + 1);
  }

  lemma {:induction false} GreedySum(asks: seq<Level>, q: real, n: nat)
    requires q >= 0.0 && n <= |asks|
    ensures SumTo(Greedy(asks, q), n) == Filled(asks, q, n)
  {
    hide Greedy;
    if n > 0 {
      hide Filled, Depth;
      GreedySum(asks, q, n - 1);
    }
  }

  lemma AllFilled(asks: seq<Level>, q: real)
    requires q <= Depth(asks, |asks|)
    ensures Filled(asks, q, |asks|) == q
  {
  }

  lemma NoneFilled(asks: seq<Level>, q: real)
    requires q >= 0.0
    ensures Filled(asks, q, 0) == 0.0
  {
  }

  lemma TakesAll(asks: seq<Level>, a: seq<real>, q: real)
    requires Takes(asks, a, q)
    ensures |a| == |asks| && SumTo(a, |a|) == q
  {
  }

  lemma GreedyTakes(asks: seq<Level>, q: real)
    requires AllPositive(asks) && 0.0 <= q <= Depth(asks, |asks|)
    ensures Takes(asks, Greedy(asks, q), q)
  {
    hide Use, Filled, Depth, Greedy, SumTo;
    AllFilled(asks, q);
    var a := Greedy(asks, q);
    GreedySum(asks, q, |asks|);
    forall i | 0 <= i < |a| ensures 0.0 <= a[i] <= asks[i].qty {
      UseBounds(asks, q, i);
    }
  }

  // ---------------------------------------------------------------- the greedy walk is cheapest

  lemma {:induction false} SumBelowFilled(asks: seq<Level>, a: seq<real>, q: real, n: nat)
    requires Takes(asks, a, q) && n <= |a|
    ensures SumTo(a, n) <= Depth(asks, n) && 0.0 <= SumTo(a, n)
  {
    if n > 0 {
      SumBelowFilled(asks, a, q, n - 1);
    }
  }

  lemma {:induction false} SumBelowTotal(asks: seq<Level>, a: seq<real>, q: real, n: nat)
    requires Takes(asks, a, q) && n <= |a|
    ensures SumTo(a, n) <= q
    decreases |a| - n
  {
    if n < |a| {
      SumBelowTotal(asks, a, q, n + 1);
    }
  }

  /** One level further: the lead of the other way shrinks by at most the dearer price. */
  lemma LeadStep(lead: real, behind: real, behind': real, p: real, p': real, extra: real)
    requires lead >= behind * p && behind <= 0.0 && p <= p' && extra == (behind' - behind) * p'
    ensures lead + extra >= behind' * p'
  {
    OrderTimes(p, p', -behind);
    assert behind * p >= behind * p';
    assert (behind' - behind) * p' == behind' * p' - behind * p';
  }

  /** Any way that is behind the walk by d after n levels has saved at most d at the last price. */
  lemma {:induction false} WalkLeads(asks: seq<Level>, a: seq<real>, q: real, n: nat)
    requires GoodAsks(asks) && 0.0 <= q <= Depth(asks, |asks|) && Takes(asks, a, q) && 0 < n <= |asks|
    ensures CostTo(asks, a, n) - CostTo(asks, Greedy(asks, q), n)
            >= (SumTo(a, n) - Filled(asks, q, n)) * asks[n - 1].price
  {
    hide CostTo, SumTo, Filled, Takes, Greedy, Depth, Use, AllPositive, Ascending;
    TakesAll(asks, a, q);
    var g := Greedy(asks, q);
    var p := asks[n - 1].price;
    var behind, behind' := SumTo(a, n - 1) - Filled(asks, q, n - 1), SumTo(a, n) - Filled(asks, q, n);
    var lead := CostTo(asks, a, n - 1) - CostTo(asks, g, n - 1);
    var extra := (behind' - behind) * p;
    BehindIsNegative(asks, a, q, n - 1);
    OneLevelMore(asks, a, q, n);
    if n > 1 {
      WalkLeads(asks, a, q, n - 1);
      NextNotCheaper(asks, n - 2);
      LeadStep(lead, behind, behind', asks[n - 2].price, p, extra);
    } else {
      FirstLevel(asks, a, q);
      LeadStep(lead, behind, behind', p, p, extra);
    }
  }

  lemma BehindIsNegative(asks: seq<Level>, a: seq<real>, q: real, n: nat)
    requires Takes(asks, a, q) && n <= |asks|
    ensures SumTo(a, n) - Filled(asks, q, n) <= 0.0
  {
    hide SumTo, Depth, Takes;
    TakesAll(asks, a, q);
    SumBelowFilled(asks, a, q, n);
    SumBelowTotal(asks, a, q, n);
  }

  lemma OneLevelMore(asks: seq<Level>, a: seq<real>, q: real, n: nat)
    requires |a| == |asks| && 0 < n <= |asks|
    ensures var g := Greedy(asks, q);
      CostTo(asks, a, n) - CostTo(asks, g, n) == CostTo(asks, a, n - 1) - CostTo(asks, g, n - 1)
        + ((SumTo(a, n) - Filled(asks, q, n)) - (SumTo(a, n - 1) - Filled(asks, q, n - 1))) * asks[n - 1].price
  {
    hide Filled, Depth, Greedy;
    var g := Greedy(asks, q);
    var x, y, p := a[n - 1], g[n - 1], asks[n - 1].price;
    assert SumTo(a, n) - SumTo(a, n - 1) == x && Filled(asks, q, n) - Filled(asks, q, n - 1) == y;
    assert (x - y) * p == x * p - y * p;
    assert CostTo(asks, a, n) - CostTo(asks, a, n - 1) == x * p;
    assert CostTo(asks, g, n) - CostTo(asks, g, n - 1) == y * p;
    hide CostTo, SumTo, Use;
    assert ((SumTo(a, n) - Filled(asks, q, n)) - (SumTo(a, n - 1) - Filled(asks, q, n - 1))) == x - y;
  }

  lemma NextNotCheaper(levels: seq<Level>, i: nat)
    requires Ascending(levels) && i + 1 < |levels|
    ensures levels[i].price <= levels[i + 1].price
  {
    assert NoCheaperNext(levels, i);
  }

  lemma FirstLevel(asks: seq<Level>, a: seq<real>, q: real)
    requires |a| == |asks| && q >= 0.0
    ensures CostTo(asks, a, 0) == CostTo(asks, Greedy(asks, q), 0) && SumTo(a, 0) == Filled(asks, q, 0) == 0.0
  {
  }

  /** The cost of the walk is the minimum over all ways to take the quantity from the book. */
  lemma WalkIsCheapest(asks: seq<Level>, a: seq<real>, q: real)
    requires GoodAsks(asks) && 0.0 <= q <= Depth(asks, |asks|) && Takes(asks, a, q)
    ensures Takes(asks, Greedy(asks, q), q) && GreedyCost(asks, q) <= CostTo(asks, a, |asks|)
  {
    hide Filled, Depth, Greedy, Use, SumTo, CostTo, AllPositive, Ascending, Takes;
    GreedyTakes(asks, q);
    WalkLeads(asks, a, q, |asks|);
    AllFilled(asks, q);
    TakesAll(asks, a, q);
  }

  // ---------------------------------------------------------------- the average price

  lemma {:induction false} PricesOrdered(asks: seq<Level>, i: nat, j: nat)
    requires Ascending(asks) && i <= j < |asks|
    ensures asks[i].price <= asks[j].price
  {
    if i < j {
      PricesOrdered(asks, i, j - 1);
      assert NoCheaperNext(asks, j - 1);
    }
  }

  /** A way that touches only levels up to t costs between the best and the last touched price. */
  lemma {:induction false} CostBetween(asks: seq<Level>, a: seq<real>, n: nat, t: nat)
    requires GoodAsks(asks) && |a| == |asks| && n <= |asks| && t < |asks|
    requires forall i :: 0 <= i < |a| ==> a[i] >= 0.0 && (i > t ==> a[i] == 0.0)
    ensures Worth(SumTo(a, n), asks[0].price) <= CostTo(asks, a, n) <= Worth(SumTo(a, n), asks[t].price)
  {
    hide GoodAsks, Worth;
    WorthOfNothing(asks[0].price);
    WorthOfNothing(asks[t].price);
    if n > 0 {
      CostBetween(asks, a, n - 1, t);
      LevelBetween(asks, a[n - 1], n - 1, t);
      WorthAdds(SumTo(a, n - 1), a[n - 1], asks[0].price);
      WorthAdds(SumTo(a, n - 1), a[n - 1], asks[t].price);
    }
  }

  lemma WorthOfNothing(price: real)
    ensures Worth(0.0, price) == 0.0
  {
  }

  lemma WorthAdds(x: real, y: real, price: real)
    ensures Worth(x + y, price) == Worth(x, price) + Worth(y, price)
  {
  }

  lemma LevelBetween(asks: seq<Level>, x: real, i: nat, t: nat)
    requires GoodAsks(asks) && i < |asks| && t < |asks| && x >= 0.0 && (i > t ==> x == 0.0)
    ensures Worth(x, asks[0].price) <= Worth(x, asks[i].price) <= Worth(x, asks[t].price)
  {
    PricesOrdered(asks, 0, i);
    OrderTimes(asks[0].price, asks[i].price, x);
    if i <= t {
      PricesOrdered(asks, i, t);
      OrderTimes(asks[i].price, asks[t].price, x);
    }
  }

  /** The last level the walk takes anything from. */
  function LastTouched(asks: seq<Level>, q: real): (t: nat)
    requires GoodAsks(asks) && 0.0 < q <= Depth(asks, |asks|)
    ensures t < |asks| && Depth(asks, t) < q <= Depth(asks, t + 1)
  {
    FirstReaching(asks, q, 0)
  }

  function FirstReaching(asks: seq<Level>, q: real, n: nat): (t: nat)
    requires n < |asks| && Depth(asks, n) < q <= Depth(asks, |asks|)
    ensures n <= t < |asks| && Depth(asks, t) < q <= Depth(asks, t + 1)
    decreases |asks| - n
  {
    if q <= Depth(asks, n + 1) then n else FirstReaching(asks, q, n + 1)
  }

  /** The average lies between the best ask and the last touched one. */
  lemma AverageBetween(asks: seq<Level>, q: real)
    requires GoodAsks(asks) && 0.0 < q <= Depth(asks, |asks|)
    ensures asks[0].price <= GreedyCost(asks, q) / q <= asks[LastTouched(asks, q)].price
    ensures Greedy(asks, q)[LastTouched(asks, q)] > 0.0
    ensures forall i :: LastTouched(asks, q) < i < |asks| ==> Greedy(asks, q)[i] == 0.0
  {
    hide Use, Filled, Depth, Greedy, SumTo, CostTo, LastTouched, Ascending;
    var t := LastTouched(asks, q);
    TouchedUse(asks, q, t);
    var a := Greedy(asks, q);
    GreedyTakes(asks, q);
    CostBetween(asks, a, |asks|, t);
    RatioBetween(GreedyCost(asks, q), q, asks[0].price, asks[t].price);
  }

  lemma TouchedUse(asks: seq<Level>, q: real, t: nat)
    requires AllPositive(asks) && t < |asks| && 0.0 < q && Depth(asks, t) < q <= Depth(asks, t + 1)
    ensures Use(asks, q, t) > 0.0
    ensures forall i :: t < i < |asks| ==> Use(asks, q, i) == 0.0
  {
    forall i | t < i < |asks| ensures Use(asks, q, i) == 0.0 {
      DepthGrows(asks, t + 1, i);
      UseBounds(asks, q, i);
    }
  }

  lemma {:induction false} ScaledWay(asks: seq<Level>, a: seq<real>, b: seq<real>, r: real, n: nat)
    requires |a| == |b| == |asks| && n <= |asks| && forall i :: 0 <= i < |a| ==> b[i] == a[i] * r
    ensures SumTo(b, n) == SumTo(a, n) * r && CostTo(asks, b, n) == CostTo(asks, a, n) * r
  {
    if n > 0 {
      ScaledWay(asks, a, b, r, n - 1);
      var x, p := a[n - 1], asks[n - 1].price;
      assert (x * r) * p == (x * p) * r;
      WorthAdds(SumTo(a, n - 1), x, r);
      WorthAdds(CostTo(asks, a, n - 1), Worth(x, p), r);
    }
  }

  /** The average price never falls as the quantity grows. */
  lemma AverageGrows(asks: seq<Level>, q: real, q': real)
    requires GoodAsks(asks) && 0.0 < q <= q' <= Depth(asks, |asks|)
    ensures GreedyCost(asks, q) / q <= GreedyCost(asks, q') / q'
  {
    hide Use, Filled, Depth, Greedy, SumTo, CostTo;
    var a := Greedy(asks, q');
    var r := q / q';
    RatioAtMostOne(q, q');
    var b := seq(|a|, i requires 0 <= i < |a| => a[i] * r);
    GreedyTakes(asks, q');
    ScaledWay(asks, a, b, r, |asks|);
    forall i | 0 <= i < |b| ensures 0.0 <= b[i] <= asks[i].qty {
      OrderTimes(r, 1.0, a[i]);
      OrderTimes(0.0, r, a[i]);
    }
    WalkIsCheapest(asks, b, q);
    hide Takes, AllPositive;
    SameAverage(GreedyCost(asks, q), GreedyCost(asks, q'), q, q');
  }

  lemma RatioAtMostOne(q: real, q': real)
    requires 0.0 < q <= q'
    ensures 0.0 < q / q' <= 1.0 && q' * (q / q') == q
  {
  }

  lemma SameAverage(cost: real, cost': real, q: real, q': real)
    requires 0.0 < q <= q' && cost <= cost' * (q / q')
    ensures cost / q <= cost' / q'
  {
    var x := cost' / q';
    assert cost' * (q / q') == x * q by {
      assert x * q' == cost' && (q / q') * q' == q;
      assert cost' * (q / q') == x * q' * (q / q');
    }
    RatioBetween(cost, q, cost / q, x);
  }

  // ---------------------------------------------------------------- the liquidity check

  /** The walk stops as soon as nothing remains; later levels would contribute nothing. */
  lemma {:induction false} TailCostsNothing(asks: seq<Level>, q: real, i: nat, n: nat)
    requires AllPositive(asks) && i <= n <= |asks| && 0.0 <= q <= Depth(asks, i)
    ensures CostTo(asks, Greedy(asks, q), n) == CostTo(asks, Greedy(asks, q), i)
  {
    hide Greedy, Use, Filled, Depth;
    if i < n {
      TailCostsNothing(asks, q, i, n - 1);
      DepthGrows(asks, i, n - 1);
      UseBounds(asks, q, n - 1);
    }
  }

  /** The loop over the asks: what remains unfilled and what the filled part costs. */
  method Walk(asks: seq<Level>, quantity: real) returns (remaining: real, cost: real)
    requires GoodAsks(asks) && quantity > 0.0
    ensures remaining == quantity - Filled(asks, quantity, |asks|)
    ensures cost == GreedyCost(asks, quantity)
  {
    hide Greedy, Use, Filled, Depth, AllPositive, Ascending;
    remaining, cost := quantity, 0.0;
    NoneFilled(asks, quantity);
    ghost var g := Greedy(asks, quantity);
    for i := 0 to |asks|
      invariant remaining == quantity - Filled(asks, quantity, i)
      invariant cost == CostTo(asks, g, i)
    {
      var used := Min(remaining, asks[i].qty);
      UseBounds(asks, quantity, i);
      UseIsStep(asks, quantity, i);
      cost := cost + Worth(used, asks[i].price);
      remaining := remaining - used;
      if remaining == 0.0 {
        FilledStays(asks, quantity, i + 1);
        TailCostsNothing(asks, quantity, i + 1, |asks|);
        return;
      }
    }
  }

  lemma UseIsStep(asks: seq<Level>, q: real, i: nat)
    requires i < |asks|
    ensures Use(asks, q, i) == Filled(asks, q, i + 1) - Filled(asks, q, i)
  {
  }

  lemma FilledStays(asks: seq<Level>, q: real, i: nat)
    requires AllPositive(asks) && i <= |asks| && Filled(asks, q, i) == q
    ensures q <= Depth(asks, i) && Filled(asks, q, |asks|) == q
  {
    DepthGrows(asks, i, |asks|);
  }

  function SpreadBps(bid: real, ask: real): real
    requires ask + bid > 0.0
  {
    (ask - bid) / ((ask + bid) / 2.0) * 10000.0
  }

  function SlippageBps(estimate: real, reference: real): real
    requires reference > 0.0
  {
    (estimate / reference - 1.0) * 10000.0
  }

  /** The spread over the mid price, in hundredths of a percent. */
  lemma SpreadIff(bid: real, ask: real, most: real)
    requires 0.0 < bid < ask
    ensures SpreadBps(bid, ask) <= most <==> (ask - bid) * 20000.0 <= most * (ask + bid)
  {
    var mid := (ask + bid) / 2.0;
    var ratio := (ask - bid) / mid;
    DivTimes(ask - bid, mid);
    if ratio * 10000.0 <= most {
      OrderTimes(ratio * 10000.0, most, mid);
    } else {
      PositiveProduct(ratio * 10000.0 - most, mid);
    }
  }

  /** The distance of the estimate from the reference, in hundredths of a percent of the reference. */
  lemma SlippageIff(estimate: real, reference: real, most: real)
    requires reference > 0.0
    ensures SlippageBps(estimate, reference) <= most <==> (estimate - reference) * 10000.0 <= most * reference
    ensures -most <= SlippageBps(estimate, reference) <==> -(most * reference) <= (estimate - reference) * 10000.0
  {
    var ratio := estimate / reference;
    DivTimes(estimate, reference);
    var s := (ratio - 1.0) * 10000.0;
    assert s * reference == (estimate - reference) * 10000.0;
    CompareTimes(s, most, reference);
    CompareTimes(-most, s, reference);
  }

  lemma CompareTimes(x: real, y: real, c: real)
    requires c > 0.0
    ensures x <= y <==> x * c <= y * c
  {
    if x <= y {
      OrderTimes(x, y, c);
    } else {
      PositiveProduct(x - y, c);
    }
  }

  /** Comparing neighbours is comparing all pairs. */
  lemma SortedIff(levels: seq<Level>)
    ensures Ascending(levels) <==> forall i, j :: 0 <= i < j < |levels| ==> levels[i].price <= levels[j].price
  {
    if Ascending(levels) {
      forall i, j | 0 <= i < j < |levels| ensures levels[i].price <= levels[j].price {
        Rises(levels, i, j);
      }
    }
  }

  lemma {:induction false} Rises(levels: seq<Level>, i: nat, j: nat)
    requires Ascending(levels) && i < j < |levels|
    ensures levels[i].price <= levels[j].price
  {
    assert NoCheaperNext(levels, j - 1);
    if i < j - 1 {
      Rises(levels, i, j - 1);
    }
  }

  lemma SortedDownIff(levels: seq<Level>)
    ensures Descending(levels) <==> forall i, j :: 0 <= i < j < |levels| ==> levels[i].price >= levels[j].price
  {
    if Descending(levels) {
      forall i, j | 0 <= i < j < |levels| ensures levels[i].price >= levels[j].price {
        FallsTo(levels, i, j);
      }
    }
  }

  lemma {:induction false} FallsTo(levels: seq<Level>, i: nat, j: nat)
    requires Descending(levels) && i < j < |levels|
    ensures levels[i].price >= levels[j].price
  {
    assert NoDearerNext(levels, j - 1);
    if i < j - 1 {
      FallsTo(levels, i, j - 1);
    }
  }

  /**
    check_entry_liquidity: it succeeds exactly on a prompt, valid, uncrossed book with a narrow
    spread, enough depth, and an average price near the reference, and then returns that average.
  */
  method CheckEntryLiquidity(bids: seq<Level>, asks: seq<Level>, quantity: real, reference: real,
                             waited: real, staleSeconds: real,
                             maxSpreadBps: real, maxSlippageBps: real) returns (r: Result<real, BookFault>)
    ensures r.Success? <==>
      && waited <= staleSeconds && quantity > 0.0 && reference > 0.0
      && bids != [] && asks != []
      && (forall x :: x in bids + asks ==> x.price > 0.0 && x.qty > 0.0)
      && (forall i, j :: 0 <= i < j < |asks| ==> asks[i].price <= asks[j].price)
      && (forall i, j :: 0 <= i < j < |bids| ==> bids[i].price >= bids[j].price)
      && bids[0].price < asks[0].price
      && (asks[0].price - bids[0].price) * 20000.0 <= maxSpreadBps * (asks[0].price + bids[0].price)
      && quantity <= Depth(asks, |asks|)
      && -(maxSlippageBps * reference) <= (GreedyCost(asks, quantity) / quantity - reference) * 10000.0
                                       <= maxSlippageBps * reference
    ensures r.Success? ==> r.value == GreedyCost(asks, quantity) / quantity
  {
    hide SpreadBps, SlippageBps, GreedyCost, Depth, Ascending, Descending;
    SortedIff(asks);
    SortedDownIff(bids);
    if quantity <= 0.0 || reference <= 0.0 {
      return Failure(InvalidRequest);
    }
    if waited > staleSeconds {
      return Failure(SlowBook);
    }
    if bids == [] || asks == [] || !AllPositive(bids) || !AllPositive(asks) {
      return Failure(InvalidBook);
    }
    if !Ascending(asks) || !Descending(bids) {
      return Failure(Unsorted);
    }
    var bid, ask := bids[0].price, asks[0].price;
    if bid >= ask {
      return Failure(Crossed);
    }
    SpreadIff(bid, ask, maxSpreadBps);
    if SpreadBps(bid, ask) > maxSpreadBps {
      return Failure(WideSpread);
    }
    var remaining, cost := Walk(asks, quantity);
    if remaining > 0.0 {
      return Failure(ThinBook);
    }
    var estimate := cost / quantity;
    var slippage := SlippageBps(estimate, reference);
    SlippageIff(estimate, reference, maxSlippageBps);
    if slippage > maxSlippageBps || slippage < -maxSlippageBps {
      return Failure(PriceMoved);
    }
    return Success(estimate);
  }
}
