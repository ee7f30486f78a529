/**
  app/strategy/indicators.py: exponentially weighted means as pandas computes them with
  adjust=False, and the indicators built from them. NaN is None. Positions in a series are given
  by the prefix that ends there.
*/
module Indicators {
  import opened Wrappers
  import opened Ledger
  import opened RealFacts
  import opened Candles

  type Series = seq<Option<real>>

  /** The running mean and the weight of the past; gaps let the weight decay further. */
  datatype Mean = Mean(value: Option<real>, weight: real)

  predicate Rate(alpha: real) {
    0.0 < alpha <= 1.0
  }

  /** (w * m + alpha * x) / (w + alpha) */
  function Mix(w: real, m: real, alpha: real, x: real): real
    requires w + alpha > 0.0
  {
    (w * m + alpha * x) / (w + alpha)
  }

  function Decayed(alpha: real, weight: real): (w: real)
    requires Rate(alpha) && 0.0 <= weight <= 1.0
    ensures 0.0 <= w <= 1.0
  {
    Shrinks(weight, 1.0 - alpha);
    weight * (1.0 - alpha)
  }

  /** One more value of the series. */
  function MeanNext(alpha: real, past: Mean, x: Option<real>): (r: Mean)
    requires Rate(alpha) && 0.0 <= past.weight <= 1.0
    ensures 0.0 <= r.weight <= 1.0
  {
    if past.value.None? then Mean(x, 1.0)
    else
      var w := Decayed(alpha, past.weight);
      if x.None? then Mean(past.value, w) else Mean(Some(Mix(w, past.value.value, alpha, x.value)), 1.0)
  }

  function Ewm(alpha: real, xs: Series): (r: Mean)
    requires Rate(alpha)
    ensures 0.0 <= r.weight <= 1.0
  {
    if xs == [] then Mean(None, 1.0) else MeanNext(alpha, Ewm(alpha, xs[..|xs| - 1]), xs[|xs| - 1])
  }

  // ---------------------------------------------------------------- convex, linear, monotone

  lemma MixBetween(w: real, m: real, alpha: real, x: real, lo: real, hi: real)
    requires w >= 0.0 && alpha > 0.0 && lo <= m <= hi && lo <= x <= hi
    ensures lo <= Mix(w, m, alpha, x) <= hi
  {
    OrderTimes(lo, m, w);
    OrderTimes(m, hi, w);
    OrderTimes(lo, x, alpha);
    OrderTimes(x, hi, alpha);
    Bracket(w * m, alpha * x, w, alpha, lo, hi);
  }

  lemma Bracket(a: real, b: real, w: real, alpha: real, lo: real, hi: real)
    requires w >= 0.0 && alpha > 0.0 && lo * w <= a <= hi * w && lo * alpha <= b <= hi * alpha
    ensures lo <= (a + b) / (w + alpha) <= hi
  {
    var total := w + alpha;
    assert total * lo == lo * w + lo * alpha && total * hi == hi * w + hi * alpha;
    RatioBetween(a + b, total, lo, hi);
  }

  predicate Observed(xs: Series, lo: real, hi: real) {
    forall i :: 0 <= i < |xs| && xs[i].Some? ==> lo <= xs[i].value <= hi
  }

  lemma NextWithin(alpha: real, past: Mean, x: Option<real>, lo: real, hi: real)
    requires Rate(alpha) && 0.0 <= past.weight <= 1.0
    requires past.value.Some? ==> lo <= past.value.value <= hi
    requires x.Some? ==> lo <= x.value <= hi
    ensures MeanNext(alpha, past, x).value.Some? ==> lo <= MeanNext(alpha, past, x).value.value <= hi
  {
    hide Mix, Decayed;
    if past.value.Some? && x.Some? {
      MixBetween(Decayed(alpha, past.weight), past.value.value, alpha, x.value, lo, hi);
    }
  }

  /** A weighted mean lies between the bounds of what was observed, with or without gaps. */
  lemma {:induction false} MeanWithin(alpha: real, xs: Series, lo: real, hi: real)
    requires Rate(alpha) && Observed(xs, lo, hi)
    ensures Ewm(alpha, xs).value.Some? ==> lo <= Ewm(alpha, xs).value.value <= hi
  {
    hide MeanNext;
    if xs != [] {
      var n := |xs| - 1;
      MeanWithin(alpha, xs[..n], lo, hi);
      NextWithin(alpha, Ewm(alpha, xs[..n]), xs[n], lo, hi);
    }
  }

  /** A series without gaps. */
  function Full(xs: seq<real>): (s: Series)
    ensures |s| == |xs| && forall i :: 0 <= i < |s| ==> s[i] == Some(xs[i])
  {
    seq(|xs|, i requires 0 <= i < |xs| => Some(xs[i]))
  }

  function Blend(alpha: real, m: real, x: real): real {
    (1.0 - alpha) * m + alpha * x
  }

  /** The textbook recursion. */
  function Smooth(alpha: real, xs: seq<real>): real
    requires xs != []
  {
    if |xs| == 1 then xs[0] else Blend(alpha, Smooth(alpha, xs[..|xs| - 1]), xs[|xs| - 1])
  }

  /** Without gaps the running mean is the textbook recursion. */
  lemma {:induction false} MeanIsSmooth(alpha: real, xs: seq<real>)
    requires Rate(alpha) && xs != []
    ensures Ewm(alpha, Full(xs)) == Mean(Some(Smooth(alpha, xs)), 1.0)
  {
    hide MeanNext, Blend, Rate;
    var n := |xs| - 1;
    assert Full(xs)[..n] == Full(xs[..n]);
    if n == 0 {
      assert Ewm(alpha, Full(xs)[..0]) == Mean(None, 1.0);
      NextOfNothing(alpha, xs[0]);
    } else {
      MeanIsSmooth(alpha, xs[..n]);
      NextOfFull(alpha, Smooth(alpha, xs[..n]), xs[n]);
    }
  }

  lemma NextOfNothing(alpha: real, x: real)
    requires Rate(alpha)
    ensures MeanNext(alpha, Mean(None, 1.0), Some(x)) == Mean(Some(x), 1.0)
  {
  }

  lemma NextOfFull(alpha: real, m: real, x: real)
    requires Rate(alpha)
    ensures MeanNext(alpha, Mean(Some(m), 1.0), Some(x)) == Mean(Some(Blend(alpha, m, x)), 1.0)
  {
    var w := Decayed(alpha, 1.0);
    assert w == 1.0 - alpha && w + alpha == 1.0;
    assert Mix(w, m, alpha, x) == Blend(alpha, m, x);
  }

  lemma BlendIsMonotone(alpha: real, m: real, x: real, m': real, x': real)
    requires Rate(alpha) && m <= m' && x <= x'
    ensures Blend(alpha, m, x) <= Blend(alpha, m', x')
  {
    OrderTimes(m, m', 1.0 - alpha);
    OrderTimes(x, x', alpha);
    var a, a', b, b' := (1.0 - alpha) * m, (1.0 - alpha) * m', alpha * x, alpha * x';
    assert a <= a' && b <= b';
  }

  lemma BlendIsLinear(alpha: real, m: real, x: real, m': real, x': real)
    ensures Blend(alpha, m + m', x + x') == Blend(alpha, m, x) + Blend(alpha, m', x')
  {
    var u := 1.0 - alpha;
    assert u * (m + m') == u * m + u * m';
    assert alpha * (x + x') == alpha * x + alpha * x';
  }

  lemma {:induction false} SmoothIsMonotone(alpha: real, xs: seq<real>, ys: seq<real>)
    requires Rate(alpha) && |xs| == |ys| > 0 && forall i :: 0 <= i < |xs| ==> xs[i] <= ys[i]
    ensures Smooth(alpha, xs) <= Smooth(alpha, ys)
  {
    hide Blend, Rate;
    var n := |xs| - 1;
    if n > 0 {
      SmoothIsMonotone(alpha, xs[..n], ys[..n]);
      BlendIsMonotone(alpha, Smooth(alpha, xs[..n]), xs[n], Smooth(alpha, ys[..n]), ys[n]);
    }
  }

  function Add(xs: seq<real>, ys: seq<real>): (zs: seq<real>)
    requires |xs| == |ys|
    ensures |zs| == |xs| && forall i :: 0 <= i < |zs| ==> zs[i] == xs[i] + ys[i]
  {
    seq(|xs|, i requires 0 <= i < |xs| => xs[i] + ys[i])
  }

  lemma {:induction false} SmoothIsLinear(alpha: real, xs: seq<real>, ys: seq<real>)
    requires |xs| == |ys| > 0
    ensures Smooth(alpha, Add(xs, ys)) == Smooth(alpha, xs) + Smooth(alpha, ys)
  {
    hide Blend;
    var n := |xs| - 1;
    if n > 0 {
      SmoothIsLinear(alpha, xs[..n], ys[..n]);
      assert Add(xs, ys)[..n] == Add(xs[..n], ys[..n]);
      BlendIsLinear(alpha, Smooth(alpha, xs[..n]), xs[n], Smooth(alpha, ys[..n]), ys[n]);
    }
  }

  lemma {:induction false} SmoothNotNegative(alpha: real, xs: seq<real>)
    requires Rate(alpha) && xs != [] && forall i :: 0 <= i < |xs| ==> xs[i] >= 0.0
    ensures Smooth(alpha, xs) >= 0.0
  {
    hide Blend, Rate;
    var n := |xs| - 1;
    if n > 0 {
      SmoothNotNegative(alpha, xs[..n]);
      BlendIsMonotone(alpha, 0.0, 0.0, Smooth(alpha, xs[..n]), xs[n]);
      BlendOfZero(alpha);
    }
  }

  lemma BlendOfZero(alpha: real)
    ensures Blend(alpha, 0.0, 0.0) == 0.0
  {
  }

  // ---------------------------------------------------------------- true range and movement

  /** The first candle has no previous close; pandas takes the maximum of what is there. */
  function TrueRangeAt(f: seq<Candle>, i: nat): real
    requires i < |f|
  {
    var range := f[i].high - f[i].low;
    if i == 0 then range
    else Max(range, Max(Abs(f[i].high - f[i - 1].close), Abs(f[i].low - f[i - 1].close)))
  }

  function UpMove(f: seq<Candle>, i: nat): real
    requires 0 < i < |f|
  {
    f[i].high - f[i - 1].high
  }

  function DownMove(f: seq<Candle>, i: nat): real
    requires 0 < i < |f|
  {
    -(f[i].low - f[i - 1].low)
  }

  /** Where the comparison fails, also for the missing first difference, the value is 0. */
  function PlusDmAt(f: seq<Candle>, i: nat): real
    requires i < |f|
  {
    if i > 0 && UpMove(f, i) > DownMove(f, i) && UpMove(f, i) > 0.0 then UpMove(f, i) else 0.0
  }

  function MinusDmAt(f: seq<Candle>, i: nat): real
    requires i < |f|
  {
    if i > 0 && DownMove(f, i) > UpMove(f, i) && DownMove(f, i) > 0.0 then DownMove(f, i) else 0.0
  }

  function TrueRange(f: seq<Candle>): (xs: seq<real>)
    ensures |xs| == |f| && forall i :: 0 <= i < |xs| ==> xs[i] == TrueRangeAt(f, i)
  {
    seq(|f|, i requires 0 <= i < |f| => TrueRangeAt(f, i))
  }

  function PlusDm(f: seq<Candle>): (xs: seq<real>)
    ensures |xs| == |f| && forall i :: 0 <= i < |xs| ==> xs[i] == PlusDmAt(f, i)
  {
    seq(|f|, i requires 0 <= i < |f| => PlusDmAt(f, i))
  }

  function MinusDm(f: seq<Candle>): (xs: seq<real>)
    ensures |xs| == |f| && forall i :: 0 <= i < |xs| ==> xs[i] == MinusDmAt(f, i)
  {
    seq(|f|, i requires 0 <= i < |f| => MinusDmAt(f, i))
  }

  /** The true range is how far the candle reaches, counting the close before it. */
  lemma TrueRangeIs(f: seq<Candle>, i: nat)
    requires AllValid(f) && i < |f|
    ensures TrueRangeAt(f, 0) == f[0].high - f[0].low
    ensures i > 0 ==> TrueRangeAt(f, i) == Max(f[i].high, f[i - 1].close) - Min(f[i].low, f[i - 1].close)
  {
    assert ValidOhlc(f[i]);
  }

  /** Directional movement is at most the true range, candle by candle. */
  lemma MovementWithinRange(f: seq<Candle>, i: nat)
    requires AllValid(f) && i < |f|
    ensures PlusDmAt(f, i) >= 0.0 && MinusDmAt(f, i) >= 0.0
    ensures PlusDmAt(f, i) + MinusDmAt(f, i) <= TrueRangeAt(f, i)
  {
    assert ValidOhlc(f[i]);
    if i > 0 {
      assert ValidOhlc(f[i - 1]);
    }
  }

  // ---------------------------------------------------------------- directional index

  /** 100 * mean(dm) / mean(tr); a zero mean range is replaced by NaN. */
  function Di(alpha: real, dm: seq<real>, tr: seq<real>): Option<real>
    requires Rate(alpha) && |dm| == |tr| > 0
  {
    MeanIsSmooth(alpha, tr);
    MeanIsSmooth(alpha, dm);
    var range := Ewm(alpha, Full(tr)).value.value;
    if range == 0.0 then None else Some(100.0 * Ewm(alpha, Full(dm)).value.value / range)
  }

  function PlusDi(alpha: real, f: seq<Candle>): Option<real>
    requires Rate(alpha) && f != []
  {
    Di(alpha, PlusDm(f), TrueRange(f))
  }

  function MinusDi(alpha: real, f: seq<Candle>): Option<real>
    requires Rate(alpha) && f != []
  {
    Di(alpha, MinusDm(f), TrueRange(f))
  }

  function FillNa(x: Option<real>, default: real): real {
    match x { case Some(v) => v case None => default }
  }

  lemma DiBounds(alpha: real, f: seq<Candle>)
    requires Rate(alpha) && f != [] && AllValid(f)
    ensures PlusDi(alpha, f).Some? == MinusDi(alpha, f).Some?
    ensures PlusDi(alpha, f).Some? ==>
      && PlusDi(alpha, f).value >= 0.0 && MinusDi(alpha, f).value >= 0.0
      && PlusDi(alpha, f).value + MinusDi(alpha, f).value <= 100.0
  {
    hide Smooth, Ewm, TrueRangeAt, PlusDmAt, MinusDmAt, AllValid;
    var up, down, range := PlusDm(f), MinusDm(f), TrueRange(f);
    forall i | 0 <= i < |f| ensures up[i] >= 0.0 && down[i] >= 0.0 && Add(up, down)[i] <= range[i] {
      MovementWithinRange(f, i);
    }
    SmoothNotNegative(alpha, up);
    SmoothNotNegative(alpha, down);
    SmoothIsLinear(alpha, up, down);
    SmoothIsMonotone(alpha, Add(up, down), range);
    MeanIsSmooth(alpha, up);
    MeanIsSmooth(alpha, down);
    MeanIsSmooth(alpha, range);
    if Smooth(alpha, range) != 0.0 {
      Shares(Smooth(alpha, up), Smooth(alpha, down), Smooth(alpha, range));
    }
  }

  lemma Shares(a: real, b: real, range: real)
    requires a >= 0.0 && b >= 0.0 && a + b <= range && range != 0.0
    ensures 100.0 * a / range >= 0.0 && 100.0 * b / range >= 0.0
    ensures 100.0 * a / range + 100.0 * b / range <= 100.0
  {
    NonNegativeRatio(100.0 * a, range);
    NonNegativeRatio(100.0 * b, range);
    QuotientsAdd(100.0 * a, 100.0 * b, range);
    RatioBetween(100.0 * a + 100.0 * b, range, 0.0, 100.0);
  }

  /** |p - m| / (p + m), with a zero denominator replaced by NaN. */
  function Dx(p: Option<real>, m: Option<real>): Option<real> {
    if p.None? || m.None? || p.value + m.value == 0.0 then None
    else Some(100.0 * Abs(p.value - m.value) / (p.value + m.value))
  }

  lemma DxBounds(p: Option<real>, m: Option<real>)
    requires p.Some? && m.Some? ==> p.value >= 0.0 && m.value >= 0.0
    ensures Dx(p, m).Some? ==> 0.0 <= Dx(p, m).value <= 100.0
  {
    if Dx(p, m).Some? {
      var total, diff := p.value + m.value, Abs(p.value - m.value);
      RatioBetween(100.0 * diff, total, 0.0, 100.0);
    }
  }

  function DxSeries(alpha: real, f: seq<Candle>): (xs: Series)
    requires Rate(alpha)
    ensures |xs| == |f|
    ensures forall i :: 0 <= i < |xs| ==> xs[i] == Dx(PlusDi(alpha, f[..i + 1]), MinusDi(alpha, f[..i + 1]))
  {
    seq(|f|, i requires 0 <= i < |f| => Dx(PlusDi(alpha, f[..i + 1]), MinusDi(alpha, f[..i + 1])))
  }

  datatype Directional = Directional(adx: real, plus: real, minus: real)

  /** directional_index at the last candle of f. */
  function DirectionalIndex(alpha: real, f: seq<Candle>): Directional
    requires Rate(alpha) && f != []
  {
    Directional(FillNa(Ewm(alpha, DxSeries(alpha, f)).value, 0.0),
                FillNa(PlusDi(alpha, f), 0.0), FillNa(MinusDi(alpha, f), 0.0))
  }

  /** On every valid OHLC sequence +DI and -DI are nonnegative, add up to at most 100, and ADX lies in [0, 100]. */
  lemma DirectionalBounds(alpha: real, f: seq<Candle>)
    requires Rate(alpha) && f != [] && AllValid(f)
    ensures var d := DirectionalIndex(alpha, f);
      && d.plus >= 0.0 && d.minus >= 0.0 && d.plus + d.minus <= 100.0
      && 0.0 <= d.adx <= 100.0
  {
    hide PlusDi, MinusDi, Dx, Ewm;
    DiBounds(alpha, f);
    var xs := DxSeries(alpha, f);
    forall i | 0 <= i < |xs| && xs[i].Some? ensures 0.0 <= xs[i].value <= 100.0 {
      DiBounds(alpha, f[..i + 1]);
      DxBounds(PlusDi(alpha, f[..i + 1]), MinusDi(alpha, f[..i + 1]));
    }
    MeanWithin(alpha, xs, 0.0, 100.0);
  }

  /** Highs rise from candle to candle and lows never fall. */
  predicate Uptrend(f: seq<Candle>) {
    forall i :: 1 <= i < |f| ==> f[i - 1].high < f[i].high && f[i - 1].low <= f[i].low
  }

  /** Lows fall from candle to candle and highs never rise. */
  predicate Downtrend(f: seq<Candle>) {
    forall i :: 1 <= i < |f| ==> f[i].low < f[i - 1].low && f[i].high <= f[i - 1].high
  }

  lemma {:induction false} SmoothOfZeros(alpha: real, xs: seq<real>)
    requires xs != [] && forall i :: 0 <= i < |xs| ==> xs[i] == 0.0
    ensures Smooth(alpha, xs) == 0.0
  {
    hide Blend;
    var n := |xs| - 1;
    if n > 0 {
      SmoothOfZeros(alpha, xs[..n]);
      BlendOfZero(alpha);
    }
  }

  lemma SmoothPositive(alpha: real, xs: seq<real>)
    requires Rate(alpha) && |xs| >= 2 && forall i :: 0 <= i < |xs| ==> xs[i] >= 0.0
    requires xs[|xs| - 1] > 0.0
    ensures Smooth(alpha, xs) > 0.0
  {
    var n := |xs| - 1;
    SmoothNotNegative(alpha, xs[..n]);
    BlendPositive(alpha, Smooth(alpha, xs[..n]), xs[n]);
    hide Blend;
  }

  lemma BlendPositive(alpha: real, m: real, x: real)
    requires Rate(alpha) && m >= 0.0 && x > 0.0
    ensures Blend(alpha, m, x) > 0.0
  {
    PositiveOrZero(1.0 - alpha, m);
    PositiveProduct(alpha, x);
  }

  lemma DiIs(alpha: real, dm: seq<real>, tr: seq<real>)
    requires Rate(alpha) && |dm| == |tr| > 0
    ensures Di(alpha, dm, tr) ==
      if Smooth(alpha, tr) == 0.0 then None else Some(100.0 * Smooth(alpha, dm) / Smooth(alpha, tr))
  {
    hide Ewm, Smooth;
    MeanIsSmooth(alpha, dm);
    MeanIsSmooth(alpha, tr);
  }

  /** In an uptrend only +DI is positive, in a downtrend only -DI. */
  lemma TrendTellsDi(alpha: real, f: seq<Candle>)
    requires Rate(alpha) && AllValid(f) && |f| >= 2
    ensures Uptrend(f) ==> PlusDi(alpha, f).Some? && PlusDi(alpha, f).value > 0.0 && MinusDi(alpha, f) == Some(0.0)
    ensures Downtrend(f) ==> MinusDi(alpha, f).Some? && MinusDi(alpha, f).value > 0.0 && PlusDi(alpha, f) == Some(0.0)
  {
    hide Smooth, Di, TrueRangeAt, AllValid;
    var up, down, range := PlusDm(f), MinusDm(f), TrueRange(f);
    DiIs(alpha, up, range);
    DiIs(alpha, down, range);
    if Uptrend(f) {
      assert forall i :: 0 <= i < |f| ==> MinusDmAt(f, i) == 0.0;
      assert PlusDmAt(f, |f| - 1) > 0.0;
      OneSided(alpha, f, up, down);
    }
    if Downtrend(f) {
      assert forall i :: 0 <= i < |f| ==> PlusDmAt(f, i) == 0.0;
      assert MinusDmAt(f, |f| - 1) > 0.0;
      OneSided(alpha, f, down, up);
    }
  }

  lemma OneSided(alpha: real, f: seq<Candle>, moves: seq<real>, others: seq<real>)
    requires Rate(alpha) && AllValid(f) && |f| >= 2 && |moves| == |others| == |f|
    requires forall i :: 0 <= i < |f| ==> moves[i] + others[i] == PlusDmAt(f, i) + MinusDmAt(f, i)
    requires (forall i :: 0 <= i < |f| ==> others[i] == 0.0) && moves[|f| - 1] > 0.0
    ensures Smooth(alpha, TrueRange(f)) > 0.0 && Smooth(alpha, others) == 0.0
    ensures 100.0 * Smooth(alpha, others) / Smooth(alpha, TrueRange(f)) == 0.0
    ensures 100.0 * Smooth(alpha, moves) / Smooth(alpha, TrueRange(f)) > 0.0
  {
    hide Smooth, TrueRangeAt, PlusDmAt, MinusDmAt, AllValid;
    forall i | 0 <= i < |f| ensures 0.0 <= moves[i] <= TrueRange(f)[i] {
      MovementWithinRange(f, i);
    }
    SmoothPositive(alpha, moves);
    SmoothPositive(alpha, TrueRange(f));
    SmoothOfZeros(alpha, others);
    PositiveRatio(100.0 * Smooth(alpha, moves), Smooth(alpha, TrueRange(f)));
  }

  /** In a pure trend of either direction ADX is 100, and the index names the direction. */
  lemma PureTrend(alpha: real, f: seq<Candle>)
    requires Rate(alpha) && AllValid(f) && |f| >= 2
    ensures Uptrend(f) ==> var d := DirectionalIndex(alpha, f); d.plus > 0.0 && d.minus == 0.0 && d.adx == 100.0
    ensures Downtrend(f) ==> var d := DirectionalIndex(alpha, f); d.minus > 0.0 && d.plus == 0.0 && d.adx == 100.0
  {
    hide PlusDi, MinusDi, Ewm, Uptrend, Downtrend, AllValid, Dx;
    TrendTellsDi(alpha, f);
    if Uptrend(f) || Downtrend(f) {
      var xs := DxSeries(alpha, f);
      forall i | 0 <= i < |xs| ensures xs[i].Some? ==> xs[i].value == 100.0 {
        DxInTrend(alpha, f, i);
      }
      MeanWithin(alpha, xs, 100.0, 100.0);
      DxInTrend(alpha, f, |f| - 1);
      MeanIsThere(alpha, xs);
    }
  }

  lemma MeanIsThere(alpha: real, xs: Series)
    requires Rate(alpha) && xs != [] && xs[|xs| - 1].Some?
    ensures Ewm(alpha, xs).value.Some?
  {
  }

  lemma NoMoveYet(alpha: real, f: seq<Candle>)
    requires Rate(alpha) && |f| == 1
    ensures Dx(PlusDi(alpha, f), MinusDi(alpha, f)) == None
  {
    hide Ewm, Smooth;
    DiIs(alpha, PlusDm(f), TrueRange(f));
    DiIs(alpha, MinusDm(f), TrueRange(f));
    SmoothOfZeros(alpha, PlusDm(f));
    SmoothOfZeros(alpha, MinusDm(f));
    if Smooth(alpha, TrueRange(f)) != 0.0 {
      QuotientIs(100.0 * 0.0, Smooth(alpha, TrueRange(f)), 0.0);
    }
  }

  lemma DxInTrend(alpha: real, f: seq<Candle>, i: nat)
    requires Rate(alpha) && AllValid(f) && i < |f| && (Uptrend(f) || Downtrend(f))
    ensures var x := Dx(PlusDi(alpha, f[..i + 1]), MinusDi(alpha, f[..i + 1]));
      if i == 0 then x == None else x == Some(100.0)
  {
    hide Ewm, Smooth, PlusDi, MinusDi, PlusDmAt, MinusDmAt;
    var g := f[..i + 1];
    if i == 0 {
      NoMoveYet(alpha, g);
    } else {
      TrendTellsDi(alpha, g);
      DxOneSided(PlusDi(alpha, g).value, MinusDi(alpha, g).value);
    }
  }

  lemma DxOneSided(p: real, m: real)
    requires (p > 0.0 && m == 0.0) || (p == 0.0 && m > 0.0)
    ensures Dx(Some(p), Some(m)) == Some(100.0)
  {
    QuotientIs(100.0 * Abs(p - m), p + m, 100.0);
  }

  // ---------------------------------------------------------------- relative strength

  /** The first difference is missing. */
  function GainAt(closes: seq<real>, i: nat): Option<real>
    requires i < |closes|
  {
    if i == 0 then None else Some(Max(0.0, closes[i] - closes[i - 1]))
  }

  function LossAt(closes: seq<real>, i: nat): Option<real>
    requires i < |closes|
  {
    if i == 0 then None else Some(-Min(0.0, closes[i] - closes[i - 1]))
  }

  function Gains(closes: seq<real>): (xs: Series)
    ensures |xs| == |closes| && forall i :: 0 <= i < |xs| ==> xs[i] == GainAt(closes, i)
  {
    seq(|closes|, i requires 0 <= i < |closes| => GainAt(closes, i))
  }

  function Losses(closes: seq<real>): (xs: Series)
    ensures |xs| == |closes| && forall i :: 0 <= i < |xs| ==> xs[i] == LossAt(closes, i)
  {
    seq(|closes|, i requires 0 <= i < |closes| => LossAt(closes, i))
  }

  /** The value before the special cases; a zero mean loss is replaced by NaN. */
  function RawRsi(gain: real, loss: real): Option<real> {
    if loss == 0.0 then None
    else
      var rs := gain / loss;
      if 1.0 + rs == 0.0 then None else Some(100.0 - 100.0 / (1.0 + rs))
  }

  function RsiOf(gain: Option<real>, loss: Option<real>): real {
    if gain.None? || loss.None? then 50.0
    else if gain.value == 0.0 && loss.value == 0.0 then 50.0
    else if loss.value > 0.0 && gain.value == 0.0 then 0.0
    else if gain.value > 0.0 && loss.value == 0.0 then 100.0
    else FillNa(RawRsi(gain.value, loss.value), 50.0)
  }

  /** rsi at the last close. */
  function Rsi(alpha: real, closes: seq<real>): real
    requires Rate(alpha)
  {
    RsiOf(Ewm(alpha, Gains(closes)).value, Ewm(alpha, Losses(closes)).value)
  }

  lemma {:induction false} MeanNotNegative(alpha: real, xs: Series)
    requires Rate(alpha) && forall i :: 0 <= i < |xs| && xs[i].Some? ==> xs[i].value >= 0.0
    ensures Ewm(alpha, xs).value.Some? ==> Ewm(alpha, xs).value.value >= 0.0
  {
    hide Ewm;
    MeanWithin(alpha, xs, 0.0, Highest(xs));
  }

  function Highest(xs: Series): (h: real)
    ensures h >= 0.0 && forall i :: 0 <= i < |xs| && xs[i].Some? ==> xs[i].value <= h
  {
    if xs == [] then 0.0
    else
      var h := Highest(xs[..|xs| - 1]);
      var x := xs[|xs| - 1];
      assert forall i :: 0 <= i < |xs| - 1 ==> xs[..|xs| - 1][i] == xs[i];
      if x.Some? && x.value > h then x.value else h
  }

  /** The special cases and the formula with rs are one ratio. */
  lemma RsiIsShare(gain: real, loss: real)
    requires gain >= 0.0 && loss >= 0.0
    ensures RsiOf(Some(gain), Some(loss)) == if gain + loss > 0.0 then 100.0 * gain / (gain + loss) else 50.0
  {
    if gain > 0.0 && loss > 0.0 {
      var rs := gain / loss;
      PositiveRatio(gain, loss);
      assert rs * loss == gain;
      assert (1.0 + rs) * loss == gain + loss;
      var q := 100.0 / (1.0 + rs);
      assert q * (1.0 + rs) == 100.0;
      ShareOf(gain, loss, rs, q);
    } else if gain > 0.0 {
      assert 100.0 * gain / (gain + loss) == 100.0;
    }
  }

  lemma ShareOf(gain: real, loss: real, rs: real, q: real)
    requires gain > 0.0 && loss > 0.0 && (1.0 + rs) * loss == gain + loss && q * (1.0 + rs) == 100.0
    ensures 100.0 - q == 100.0 * gain / (gain + loss)
  {
    var total := gain + loss;
    assert q * total == 100.0 * loss by {
      assert q * ((1.0 + rs) * loss) == (q * (1.0 + rs)) * loss;
    }
    assert (100.0 - q) * total == 100.0 * gain;
    QuotientIs(100.0 * gain, total, 100.0 - q);
  }

  /** RSI lies in [0, 100] for every sequence of closes. */
  lemma RsiBounds(alpha: real, closes: seq<real>)
    requires Rate(alpha)
    ensures 0.0 <= Rsi(alpha, closes) <= 100.0
  {
    hide Ewm, RawRsi;
    MeanNotNegative(alpha, Gains(closes));
    MeanNotNegative(alpha, Losses(closes));
    var g, l := Ewm(alpha, Gains(closes)).value, Ewm(alpha, Losses(closes)).value;
    if g.Some? && l.Some? {
      RsiIsShare(g.value, l.value);
      if g.value + l.value > 0.0 {
        RatioBetween(100.0 * g.value, g.value + l.value, 0.0, 100.0);
      }
    }
  }

  /** The price changes from candle to candle, and their two sides. */
  function Changes(closes: seq<real>): (xs: seq<real>)
    requires closes != []
    ensures |xs| == |closes| - 1 && forall i :: 0 <= i < |xs| ==> xs[i] == closes[i + 1] - closes[i]
  {
    seq(|closes| - 1, i requires 0 <= i < |closes| - 1 => closes[i + 1] - closes[i])
  }

  function Rises(closes: seq<real>): (xs: seq<real>)
    requires closes != []
    ensures |xs| == |closes| - 1
    ensures forall i :: 0 <= i < |xs| ==> xs[i] == if closes[i + 1] > closes[i] then closes[i + 1] - closes[i] else 0.0
  {
    seq(|closes| - 1, i requires 0 <= i < |closes| - 1 => Max(0.0, closes[i + 1] - closes[i]))
  }

  function Falls(closes: seq<real>): (xs: seq<real>)
    requires closes != []
    ensures |xs| == |closes| - 1
    ensures forall i :: 0 <= i < |xs| ==> xs[i] == if closes[i + 1] < closes[i] then closes[i] - closes[i + 1] else 0.0
  {
    seq(|closes| - 1, i requires 0 <= i < |closes| - 1 => Max(0.0, closes[i] - closes[i + 1]))
  }

  /** A gap in front of a series does not change its mean. */
  lemma {:induction false} GapInFront(alpha: real, xs: seq<real>)
    requires Rate(alpha) && xs != []
    ensures Ewm(alpha, [None] + Full(xs)) == Mean(Some(Smooth(alpha, xs)), 1.0)
  {
    var n := |xs| - 1;
    var ys := [None] + Full(xs);
    assert ys[..n + 1] == [None] + Full(xs[..n]);
    if n == 0 {
      AllGaps(alpha, ys[..1]);
      NextOfNothing(alpha, xs[0]);
    } else {
      hide Ewm, MeanNext, Blend, Rate;
      GapInFront(alpha, xs[..n]);
      NextOfFull(alpha, Smooth(alpha, xs[..n]), xs[n]);
      EwmStep(alpha, ys);
    }
  }

  lemma AllGaps(alpha: real, ys: Series)
    requires Rate(alpha) && ys == [None]
    ensures Ewm(alpha, ys) == Mean(None, 1.0)
  {
    assert ys[..0] == [];
  }

  lemma EwmStep(alpha: real, ys: Series)
    requires Rate(alpha) && ys != []
    ensures Ewm(alpha, ys) == MeanNext(alpha, Ewm(alpha, ys[..|ys| - 1]), ys[|ys| - 1])
  {
    hide MeanNext;
  }

  /** RSI is the share of the smoothed rises in the smoothed moves, and 50 where nothing moved. */
  lemma RsiIs(alpha: real, closes: seq<real>)
    requires Rate(alpha) && |closes| >= 2
    ensures var up, down := Smooth(alpha, Rises(closes)), Smooth(alpha, Falls(closes));
      && up >= 0.0 && down >= 0.0
      && Rsi(alpha, closes) == if up + down > 0.0 then 100.0 * up / (up + down) else 50.0
  {
    hide Ewm, Smooth, RsiOf, Gains, Losses, Rises, Falls, GainAt, LossAt, Full;
    var rises, falls := Rises(closes), Falls(closes);
    SidesAre(closes);
    GapInFront(alpha, rises);
    GapInFront(alpha, falls);
    SmoothNotNegative(alpha, rises);
    SmoothNotNegative(alpha, falls);
    RsiIsShare(Smooth(alpha, rises), Smooth(alpha, falls));
  }

  lemma SidesAre(closes: seq<real>)
    requires closes != []
    ensures Gains(closes) == [None] + Full(Rises(closes)) && Losses(closes) == [None] + Full(Falls(closes))
    ensures |Rises(closes)| == |Falls(closes)| == |closes| - 1
    ensures forall i :: 0 <= i < |closes| - 1 ==> Rises(closes)[i] >= 0.0
    ensures forall i :: 0 <= i < |closes| - 1 ==> Falls(closes)[i] >= 0.0
  {
  }

  /** RSI is above the middle exactly when the smoothed price change is positive, and below when it is negative. */
  lemma RsiSidesWithChange(alpha: real, closes: seq<real>)
    requires Rate(alpha) && |closes| >= 2
    ensures Rsi(alpha, closes) > 50.0 <==> Smooth(alpha, Changes(closes)) > 0.0
    ensures Rsi(alpha, closes) < 50.0 <==> Smooth(alpha, Changes(closes)) < 0.0
  {
    hide Rsi, Smooth;
    RsiIs(alpha, closes);
    var up, down, change := Rises(closes), Falls(closes), Changes(closes);
    assert Add(change, down) == up;
    SmoothIsLinear(alpha, change, down);
    HalfOf(Smooth(alpha, up), Smooth(alpha, down));
  }

  lemma HalfOf(a: real, b: real)
    requires a >= 0.0 && b >= 0.0
    ensures a + b > 0.0 ==> (100.0 * a / (a + b) > 50.0 <==> a > b) && (100.0 * a / (a + b) < 50.0 <==> a < b)
  {
    if a + b > 0.0 {
      var share := 100.0 * a / (a + b);
      DivTimes(100.0 * a, a + b);
      if share > 50.0 {
        PositiveProduct(share - 50.0, a + b);
      } else {
        OrderTimes(share, 50.0, a + b);
      }
      if share < 50.0 {
        PositiveProduct(50.0 - share, a + b);
      } else {
        OrderTimes(50.0, share, a + b);
      }
    }
  }

  /** ema: the smoothed price stays between the lowest and the highest price seen. */
  lemma EmaWithin(span: nat, prices: seq<real>, lo: real, hi: real)
    requires span >= 1 && prices != [] && forall i :: 0 <= i < |prices| ==> lo <= prices[i] <= hi
    ensures Rate(2.0 / (span as real + 1.0))
    ensures var e := Ewm(2.0 / (span as real + 1.0), Full(prices)).value; e.Some? && lo <= e.value <= hi
  {
    hide Ewm, Smooth;
    RatioFalls(2.0, 2.0, span as real + 1.0);
    var alpha := 2.0 / (span as real + 1.0);
    PositiveRatio(2.0, span as real + 1.0);
    MeanIsSmooth(alpha, prices);
    MeanWithin(alpha, Full(prices), lo, hi);
  }
}
