/**
  compare_strategy_intervals.py, backtest_frame: a loop over candles with one position, a pending
  entry, a pending exit, a ratcheting stop and a cooldown. The loop is proved against `StateAt`,
  the state after a number of candles, about which causality and the trade invariants are proved.
*/
module Backtest {
  import opened Wrappers
  import opened Ledger
  import opened RealFacts
  import opened TradingRules
  import opened RiskManager
  import opened TradeCosts
  import opened Candles

  datatype Side3 = BuySignal | SellSignal | HoldSignal

  datatype Signal = Signal(side: Side3, confidence: real, atr: Option<real>)

  /** The strategy is any function of the candles so far and of whether a position is open. */
  datatype Setup = Setup(cfg: Settings, costs: CostModel, strategy: (seq<Candle>, bool) -> Signal)

  datatype Position = Position(
    entryMarket: real, entryFill: real, entryTime: int, stop: real, takeProfit: real, highWater: real)

  datatype Reason = StrategyExit | Ambiguous | StopLoss | TakeProfit | EndOfSample

  datatype Trade = Trade(entryTime: int, exitTime: int, entryPrice: real, exitPrice: real, reason: Reason)

  datatype State = State(
    position: Option<Position>, pendingEntry: bool, pendingStops: Option<Distances>,
    pendingExit: bool, lastExit: Option<int>, trades: seq<Trade>)

  const IDLE := State(None, false, None, false, None, [])
  const WARMUP := 60

  // ---------------------------------------------------------------- one candle

  /** close_position */
  function Closed(s: State, exitMarket: real, time: int, reason: Reason): State
    requires s.position.Some?
  {
    var p := s.position.value;
    s.(position := None, pendingExit := false, lastExit := Some(time),
       trades := s.trades + [Trade(p.entryTime, time, p.entryMarket, exitMarket, reason)])
  }

  predicate CooledDown(cfg: Settings, lastExit: Option<int>, time: int) {
    lastExit.None? || time - lastExit.value >= cfg.cooldown
  }

  function PositionAt(cfg: Settings, d: Distances, c: Candle): Position {
    var fill := BuyPrice(cfg, c.open);
    Position(c.open, fill, c.openTime, Below(fill, d.stop), Above(fill, d.take), fill)
  }

  function Opened(cfg: Settings, stops: Option<Distances>, c: Candle): Position {
    PositionAt(cfg, if stops.Some? then stops.value else Distances(cfg.stopLossPct, cfg.takeProfitPct), c)
  }

  /** A pending entry is taken at the open, or dropped while the cooldown lasts. */
  function Entered(cfg: Settings, s: State, c: Candle): State {
    if s.pendingEntry && s.position.None? then
      s.(position := if CooledDown(cfg, s.lastExit, c.openTime) then Some(Opened(cfg, s.pendingStops, c)) else None,
         pendingEntry := false, pendingStops := None)
    else s
  }

  predicate StopHit(s: State, c: Candle) { s.position.Some? && c.low <= s.position.value.stop }

  predicate TakeHit(s: State, c: Candle) { s.position.Some? && c.high >= s.position.value.takeProfit }

  function Ratcheted(cfg: Settings, p: Position, c: Candle): Position {
    var high := Max(p.highWater, c.high);
    p.(highWater := high, stop := CandidateStop(cfg, p.entryFill, p.entryFill, p.stop, c.close, high))
  }

  /** The signal on the completed candle; `last` tells that no further candle will come. */
  function Decided(e: Setup, s: State, history: seq<Candle>, last: bool): State
    requires history != []
  {
    var signal := e.strategy(history, s.position.Some?);
    if s.position.Some? then
      if signal.side.SellSignal? then s.(pendingExit := true)
      else if e.cfg.enableTrailing then
        s.(position := Some(Ratcheted(e.cfg, s.position.value, history[|history| - 1])))
      else s
    else if signal.side.BuySignal? && signal.confidence >= e.cfg.minConfidence && !last then
      s.(pendingEntry := true, pendingStops := AtrScaledDistances(e.cfg, signal.atr))
    else s
  }

  function Processed(e: Setup, s: State, history: seq<Candle>, last: bool): State
    requires history != []
  {
    var c := history[|history| - 1];
    if s.pendingExit && s.position.Some? then Closed(s, c.open, c.openTime, StrategyExit)
    else
      var s1 := Entered(e.cfg, s, c);
      if StopHit(s1, c) then
        Closed(s1, s1.position.value.stop, c.closeTime, if TakeHit(s1, c) then Ambiguous else StopLoss)
      else if TakeHit(s1, c) then Closed(s1, s1.position.value.takeProfit, c.closeTime, TakeProfit)
      else Decided(e, s1, history, last)
  }

  /** The state after the candles before n, in a frame of the given candles. */
  function StateAt(e: Setup, frame: seq<Candle>, n: nat): State
    requires n <= |frame|
  {
    if n <= WARMUP then IDLE
    else Processed(e, StateAt(e, frame, n - 1), frame[..n], n == |frame|)
  }

  function EndOfSampleClose(s: State, c: Candle): State {
    if s.position.Some? then Closed(s, c.close, c.closeTime, EndOfSample) else s
  }

  function AllTrades(e: Setup, frame: seq<Candle>): seq<Trade> {
    if |frame| < 62 then []
    else EndOfSampleClose(StateAt(e, frame, |frame|), frame[|frame| - 1]).trades
  }

  // ---------------------------------------------------------------- the loop

  method BacktestFrame(e: Setup, frame: seq<Candle>) returns (trades: seq<Trade>)
    ensures trades == AllTrades(e, frame)
  {
    hide Opened, Ratcheted, AtrScaledDistances;
    trades := [];
    if |frame| < 62 {
      return;
    }
    var position: Option<Position> := None;
    var pendingEntry, pendingStops := false, None;
    var pendingExit := false;
    var lastExit: Option<int> := None;
    for i := WARMUP to |frame|
      invariant State(position, pendingEntry, pendingStops, pendingExit, lastExit, trades) == StateAt(e, frame, i)
    {
      var candle := frame[i];
      var history := frame[..i + 1];
      assert history[|history| - 1] == candle;
      if pendingExit && position.Some? {
        trades := trades + [ClosingTrade(position.value, candle.open, candle.openTime, StrategyExit)];
        position, pendingExit, lastExit := None, false, Some(candle.openTime);
        continue;
      }
      if pendingEntry && position.None? {
        if CooledDown(e.cfg, lastExit, candle.openTime) {
          position := Some(Opened(e.cfg, pendingStops, candle));
        }
        pendingEntry, pendingStops := false, None;
      }
      if position.Some? {
        var stopHit, takeHit := candle.low <= position.value.stop, candle.high >= position.value.takeProfit;
        if stopHit || takeHit {
          var exit := if stopHit then position.value.stop else position.value.takeProfit;
          var reason := if stopHit && takeHit then Ambiguous else if stopHit then StopLoss else TakeProfit;
          trades := trades + [ClosingTrade(position.value, exit, candle.closeTime, reason)];
          position, pendingExit, lastExit := None, false, Some(candle.closeTime);
          continue;
        }
      }
      var signal := e.strategy(history, position.Some?);
      if position.Some? {
        if signal.side.SellSignal? {
          pendingExit := true;
        } else if e.cfg.enableTrailing {
          position := Some(Ratcheted(e.cfg, position.value, candle));
        }
      } else if signal.side.BuySignal? && signal.confidence >= e.cfg.minConfidence && i + 1 < |frame| {
        pendingEntry, pendingStops := true, AtrScaledDistances(e.cfg, signal.atr);
      }
    }
    if position.Some? {
      var last := frame[|frame| - 1];
      trades := trades + [ClosingTrade(position.value, last.close, last.closeTime, EndOfSample)];
    }
  }

  function ClosingTrade(p: Position, exitMarket: real, time: int, reason: Reason): Trade {
    Trade(p.entryTime, time, p.entryMarket, exitMarket, reason)
  }

  // ---------------------------------------------------------------- no look-ahead

  /** Everything but the plan to enter on the next candle. */
  predicate SameButPlan(s: State, s': State) {
    s'.(pendingEntry := s.pendingEntry, pendingStops := s.pendingStops) == s
  }

  lemma LastOnlyPlans(e: Setup, s: State, history: seq<Candle>, last: bool, last': bool)
    requires history != []
    ensures SameButPlan(Processed(e, s, history, last), Processed(e, s, history, last'))
  {
    hide Opened, Ratcheted, AtrScaledDistances, CooledDown;
  }

  /**
    Causality. Two frames that agree on their first n candles have the same position, flags and
    trades after n candles, except that the frame that ends there makes no plan to enter.
  */
  lemma {:induction false} Causal(e: Setup, f: seq<Candle>, g: seq<Candle>, n: nat)
    requires n <= |f| && n <= |g| && f[..n] == g[..n]
    ensures SameButPlan(StateAt(e, f, n), StateAt(e, g, n))
    ensures n < |f| && n < |g| ==> StateAt(e, f, n) == StateAt(e, g, n)
  {
    hide Processed;
    if n > WARMUP {
      assert f[..n - 1] == f[..n][..n - 1] && g[..n - 1] == g[..n][..n - 1];
      Causal(e, f, g, n - 1);
      LastOnlyPlans(e, StateAt(e, f, n - 1), f[..n], n == |f|, n == |g|);
    }
  }

  lemma ProcessedKeepsTrades(e: Setup, s: State, history: seq<Candle>, last: bool)
    requires history != []
    ensures s.trades <= Processed(e, s, history, last).trades
  {
    hide Opened, Ratcheted, AtrScaledDistances, CooledDown;
  }

  lemma {:induction false} TradesOnlyGrow(e: Setup, frame: seq<Candle>, m: nat, n: nat)
    requires m <= n <= |frame|
    ensures StateAt(e, frame, m).trades <= StateAt(e, frame, n).trades
  {
    hide Processed;
    if m < n {
      TradesOnlyGrow(e, frame, m, n - 1);
      if n > WARMUP {
        ProcessedKeepsTrades(e, StateAt(e, frame, n - 1), frame[..n], n == |frame|);
      }
    }
  }

  /** The trades of a run without the one that closes a position left open at the end. */
  function RealTrades(e: Setup, frame: seq<Candle>): (trades: seq<Trade>) {
    if |frame| < 62 then [] else StateAt(e, frame, |frame|).trades
  }

  /**
    No look-ahead. For every frame, every prefix of it and every strategy, the trades of the run
    on the prefix, without its end-of-sample trade, are the first trades of the whole run.
  */
  lemma NoLookAhead(e: Setup, frame: seq<Candle>, m: nat)
    requires m <= |frame|
    ensures RealTrades(e, frame[..m]) <= AllTrades(e, frame)
    ensures RealTrades(e, frame[..m]) <= AllTrades(e, frame[..m])
  {
    hide Processed;
    if m >= 62 {
      Causal(e, frame[..m], frame, m);
      TradesOnlyGrow(e, frame, m, |frame|);
    }
  }

  // ---------------------------------------------------------------- well-formed trades

  predicate GoodCandle(c: Candle) {
    ValidOhlc(c) && c.openTime < c.closeTime
  }

  predicate Follows(a: Candle, b: Candle) {
    a.closeTime <= b.openTime
  }

  predicate GoodFrame(frame: seq<Candle>) {
    && (forall i :: 0 <= i < |frame| ==> GoodCandle(frame[i]))
    && (forall i :: 1 <= i < |frame| ==> Follows(frame[i - 1], frame[i]))
  }

  predicate GoodPosition(p: Position) {
    && 0.0 < p.highWater < p.takeProfit && 0.0 < p.stop < p.takeProfit
    && p.entryFill > 0.0 && p.entryMarket > 0.0
  }

  predicate GoodTrade(t: Trade) {
    t.entryTime < t.exitTime && t.entryPrice > 0.0 && t.exitPrice > 0.0
  }

  predicate GoodTrades(cfg: Settings, trades: seq<Trade>) {
    && (forall i :: 0 <= i < |trades| ==> GoodTrade(trades[i]))
    && (forall i, j :: 0 <= i < j < |trades| ==> trades[j].entryTime - trades[i].exitTime >= cfg.cooldown)
  }

  function LastExitOf(trades: seq<Trade>): Option<int> {
    if trades == [] then None else Some(trades[|trades| - 1].exitTime)
  }

  /** What holds after the candle that closed at `now`. */
  predicate GoodState(cfg: Settings, s: State, now: int) {
    && (s.pendingEntry ==> s.position.None?)
    && (s.pendingExit ==> s.position.Some?)
    && (s.pendingStops.Some? ==> 0.0 < s.pendingStops.value.stop < 1.0 && 0.0 < s.pendingStops.value.take)
    && s.lastExit == LastExitOf(s.trades) && GoodTrades(cfg, s.trades)
    && (s.position.Some? ==>
          && GoodPosition(s.position.value)
          && s.position.value.entryTime < now
          && CooledDown(cfg, s.lastExit, s.position.value.entryTime))
  }

  lemma AppendTrade(cfg: Settings, trades: seq<Trade>, t: Trade)
    requires GoodTrades(cfg, trades) && GoodTrade(t) && CooledDown(cfg, LastExitOf(trades), t.entryTime)
    ensures GoodTrades(cfg, trades + [t]) && LastExitOf(trades + [t]) == Some(t.exitTime)
  {
    forall i | 0 <= i < |trades| ensures t.entryTime - trades[i].exitTime >= cfg.cooldown {
      var last := trades[|trades| - 1];
      assert i < |trades| - 1 ==> last.entryTime - trades[i].exitTime >= cfg.cooldown;
    }
  }

  lemma ClosedIsGood(cfg: Settings, s: State, exitMarket: real, time: int, reason: Reason, now: int)
    requires GoodState(cfg, s, now) && s.position.Some? && s.position.value.entryTime < time && exitMarket > 0.0
    ensures GoodState(cfg, Closed(s, exitMarket, time, reason), now)
  {
    var p := s.position.value;
    AppendTrade(cfg, s.trades, Trade(p.entryTime, time, p.entryMarket, exitMarket, reason));
    hide GoodTrades;
  }

  lemma OpenedIsGood(cfg: Settings, stops: Option<Distances>, c: Candle)
    requires GoodCandle(c) && (stops.Some? ==> 0.0 < stops.value.stop < 1.0 && 0.0 < stops.value.take)
    ensures GoodPosition(Opened(cfg, stops, c))
  {
    hide PositionAt;
    PositionIsGood(cfg, if stops.Some? then stops.value else Distances(cfg.stopLossPct, cfg.takeProfitPct), c);
  }

  lemma PositionIsGood(cfg: Settings, d: Distances, c: Candle)
    requires GoodCandle(c) && 0.0 < d.stop < 1.0 && 0.0 < d.take
    ensures GoodPosition(PositionAt(cfg, d, c))
  {
    hide BuyPrice, Below, Above;
    BuyPricePositive(cfg, c.open);
    Around(BuyPrice(cfg, c.open), d.stop, d.take);
  }

  lemma BuyPricePositive(cfg: Settings, price: real)
    requires price > 0.0
    ensures BuyPrice(cfg, price) > 0.0
  {
    PositiveProduct(price, 1.0 + cfg.slipRate);
  }

  lemma Around(fill: real, stop: real, take: real)
    requires fill > 0.0 && 0.0 < stop < 1.0 && take > 0.0
    ensures 0.0 < Below(fill, stop) < fill < Above(fill, take)
  {
    PositiveProduct(fill, 1.0 - stop);
    PositiveProduct(fill, stop);
    PositiveProduct(fill, take);
  }

  lemma EnteredIsGood(cfg: Settings, s: State, c: Candle, before: int)
    requires GoodState(cfg, s, before) && GoodCandle(c) && before <= c.openTime
    ensures GoodState(cfg, Entered(cfg, s, c), c.closeTime) && !Entered(cfg, s, c).pendingEntry
    ensures Entered(cfg, s, c).pendingExit == s.pendingExit || s.pendingEntry
  {
    hide Opened, GoodPosition, GoodTrades, LastExitOf;
    if s.pendingEntry && s.position.None? && CooledDown(cfg, s.lastExit, c.openTime) {
      OpenedIsGood(cfg, s.pendingStops, c);
      OpenedTime(cfg, s.pendingStops, c);
    }
  }

  lemma OpenedTime(cfg: Settings, stops: Option<Distances>, c: Candle)
    ensures Opened(cfg, stops, c).entryTime == c.openTime
  {
  }

  /** On a candle that neither hits the stop nor the target, the ratchet stays below the target. */
  lemma RatchetedIsGood(cfg: Settings, p: Position, c: Candle)
    requires GoodPosition(p) && GoodCandle(c) && c.high < p.takeProfit
    ensures var p' := Ratcheted(cfg, p, c);
      && GoodPosition(p') && p'.stop >= p.stop && p'.takeProfit == p.takeProfit
      && p'.entryTime == p.entryTime && p'.highWater >= p.highWater
  {
    hide CandidateStop;
    var high := Max(p.highWater, c.high);
    CandidateBelowTake(cfg, p.entryFill, p.entryFill, p.stop, c.close, high, p.takeProfit);
  }

  lemma DecidedIsGood(e: Setup, s: State, history: seq<Candle>, last: bool, now: int)
    requires history != [] && GoodState(e.cfg, s, now) && GoodCandle(history[|history| - 1])
    requires !s.pendingEntry && (s.position.Some? ==> !TakeHit(s, history[|history| - 1]))
    ensures GoodState(e.cfg, Decided(e, s, history, last), now)
  {
    hide Ratcheted, GoodPosition, GoodTrades, LastExitOf, AtrScaledDistances;
    if s.position.Some? {
      RatchetedIsGood(e.cfg, s.position.value, history[|history| - 1]);
    }
  }

  lemma ProcessedIsGood(e: Setup, s: State, history: seq<Candle>, last: bool, before: int)
    requires history != [] && GoodState(e.cfg, s, before) && GoodCandle(history[|history| - 1])
    requires before <= history[|history| - 1].openTime
    ensures GoodState(e.cfg, Processed(e, s, history, last), history[|history| - 1].closeTime)
  {
    hide Opened, GoodTrades, LastExitOf, Decided, Entered, CooledDown;
    var c := history[|history| - 1];
    if s.pendingExit && s.position.Some? {
      ClosedIsGood(e.cfg, s, c.open, c.openTime, StrategyExit, c.closeTime);
    } else {
      EnteredIsGood(e.cfg, s, c, before);
      var s1 := Entered(e.cfg, s, c);
      if StopHit(s1, c) {
        var reason := if TakeHit(s1, c) then Ambiguous else StopLoss;
        ClosedIsGood(e.cfg, s1, s1.position.value.stop, c.closeTime, reason, c.closeTime);
      } else if TakeHit(s1, c) {
        ClosedIsGood(e.cfg, s1, s1.position.value.takeProfit, c.closeTime, TakeProfit, c.closeTime);
      } else {
        DecidedIsGood(e, s1, history, last, c.closeTime);
      }
    }
  }

  /** Closing time of the last processed candle. */
  function Now(frame: seq<Candle>, n: nat): int
    requires 0 < n <= |frame|
  {
    frame[n - 1].closeTime
  }

  /**
    Position invariants. On well-formed candles in time order, after every candle: at most one
    position is open, a pending entry means flat and a pending exit means open, the stop and the
    high-water mark are strictly below the target, trades are in time order, and every entry is
    at least the cooldown after the exit before it.
  */
  lemma {:induction false} StatesAreGood(e: Setup, frame: seq<Candle>, n: nat)
    requires GoodFrame(frame) && WARMUP <= n <= |frame|
    ensures GoodState(e.cfg, StateAt(e, frame, n), Now(frame, n))
  {
    hide GoodState, Processed;
    if n == WARMUP {
      IdleIsGood(e.cfg, Now(frame, n));
    } else {
      StatesAreGood(e, frame, n - 1);
      var history := frame[..n];
      assert Follows(frame[n - 2], frame[n - 1]);
      assert history[|history| - 1] == frame[n - 1];
      ProcessedIsGood(e, StateAt(e, frame, n - 1), history, n == |frame|, Now(frame, n - 1));
    }
  }

  lemma IdleIsGood(cfg: Settings, now: int)
    ensures GoodState(cfg, IDLE, now)
  {
  }

  lemma NoTrades(cfg: Settings)
    ensures GoodTrades(cfg, [])
  {
  }

  /** The trades of every run are in time order and respect the cooldown. */
  lemma TradesAreGood(e: Setup, frame: seq<Candle>)
    requires GoodFrame(frame)
    ensures GoodTrades(e.cfg, AllTrades(e, frame))
  {
    hide StateAt, GoodTrades;
    NoTrades(e.cfg);
    if |frame| >= 62 {
      var n := |frame|;
      StatesAreGood(e, frame, n);
      var s := StateAt(e, frame, n);
      if s.position.Some? {
        ClosedIsGood(e.cfg, s, frame[n - 1].close, frame[n - 1].closeTime, EndOfSample, Now(frame, n));
      }
    }
  }

  /**
    What the signal of candle c left of an open position that had this high-water mark and stop:
    a planned exit leaves both alone, as does a bot without trailing stops; otherwise the mark
    rises to the candle's high and the stop to what the trailing rules ask for.
  */
  predicate IsAfterSignal(cfg: Settings, high: real, stop: real, entry: real, c: Candle, after: State)
    requires after.position.Some?
  {
    var p := after.position.value;
    if after.pendingExit || !cfg.enableTrailing then p.highWater == high && p.stop == stop
    else
      && p.highWater == (if c.high > high then c.high else high)
      && p.stop == CandidateStop(cfg, entry, entry, stop, c.close, p.highWater)
  }

  /**
    How a position fares on one candle. It stays, with a stop that never falls and the same
    target, only if there was no pending exit and neither level was touched. Otherwise one trade
    is added: at the open if an exit was pending, else at the stop whenever the stop was touched,
    also when the target was touched too, else at the target.
  */
  predicate Fares(cfg: Settings, s: State, c: Candle, after: State)
    requires s.position.Some?
  {
    var p := s.position.value;
    if s.pendingExit || c.low <= p.stop || c.high >= p.takeProfit then
      && after.position.None? && |after.trades| == |s.trades| + 1 && after.trades[..|s.trades|] == s.trades
      && var t := after.trades[|s.trades|];
         && t.entryTime == p.entryTime && t.entryPrice == p.entryMarket
         && t.exitPrice == (if s.pendingExit then c.open else if c.low <= p.stop then p.stop else p.takeProfit)
         && t.exitTime == (if s.pendingExit then c.openTime else c.closeTime)
         && t.reason == (if s.pendingExit then StrategyExit
                         else if c.low <= p.stop && c.high >= p.takeProfit then Ambiguous
                         else if c.low <= p.stop then StopLoss else TakeProfit)
         && after.lastExit == Some(t.exitTime)
    else
      && after.position.Some? && after.trades == s.trades
      && after.position.value.entryTime == p.entryTime && after.position.value.stop >= p.stop
      && after.position.value.takeProfit == p.takeProfit
      && after.position.value.entryFill == p.entryFill && after.position.value.entryMarket == p.entryMarket
      && IsAfterSignal(cfg, p.highWater, p.stop, p.entryFill, c, after)
  }

  /** Every open position of every run fares like that on the next candle. */
  lemma PositionFares(e: Setup, frame: seq<Candle>, n: nat)
    requires GoodFrame(frame) && WARMUP <= n < |frame| && StateAt(e, frame, n).position.Some?
    ensures Fares(e.cfg, StateAt(e, frame, n), frame[n], StateAt(e, frame, n + 1))
  {
    hide StateAt, AtrScaledDistances, Opened, Fares, Processed;
    StatesAreGood(e, frame, n);
    assert GoodCandle(frame[n]);
    NextState(e, frame, n);
    FaresOn(e, StateAt(e, frame, n), frame[..n + 1], n + 1 == |frame|);
  }

  /**
    A flat state enters, at the open, exactly when an entry was planned and the cooldown is over,
    with the stop and target that were planned, or the configured ones. The candle of the entry
    may already touch one of them.
  */
  ghost predicate EntersAsPlanned(cfg: Settings, s: State, c: Candle, after: State) {
    if s.pendingEntry && (s.lastExit.None? || c.openTime >= s.lastExit.value + cfg.cooldown) then
      var d := if s.pendingStops.Some? then s.pendingStops.value else Distances(cfg.stopLossPct, cfg.takeProfitPct);
      forall fill, stop, take ::
        fill == c.open * (1.0 + cfg.slipRate) && stop == fill * (1.0 - d.stop) && take == fill * (1.0 + d.take) ==>
          EntersAt(cfg, s, c, after, fill, stop, take)
    else after.position.None? && after.trades == s.trades
  }

  predicate EntersAt(cfg: Settings, s: State, c: Candle, after: State, fill: real, stop: real, take: real) {
    if c.low <= stop || c.high >= take then
      && after.position.None? && |after.trades| == |s.trades| + 1 && after.trades[..|s.trades|] == s.trades
      && var t := after.trades[|s.trades|];
         && t.entryPrice == c.open && t.entryTime == c.openTime && t.exitTime == c.closeTime
         && t.exitPrice == (if c.low <= stop then stop else take)
    else
      && after.trades == s.trades && after.position.Some?
      && var p := after.position.value;
         && p.entryMarket == c.open && p.entryTime == c.openTime && p.entryFill == fill && p.takeProfit == take
         && IsAfterSignal(cfg, fill, stop, fill, c, after)
  }

  lemma FlatEnters(e: Setup, frame: seq<Candle>, n: nat)
    requires WARMUP <= n < |frame| && StateAt(e, frame, n).position.None?
    ensures EntersAsPlanned(e.cfg, StateAt(e, frame, n), frame[n], StateAt(e, frame, n + 1))
  {
    hide StateAt, Processed, EntersAsPlanned;
    FlagsAlwaysFit(e, frame, n);
    NextState(e, frame, n);
    FlatEntersOn(e, StateAt(e, frame, n), frame[..n + 1], n + 1 == |frame|);
  }

  lemma FlatEntersOn(e: Setup, s: State, history: seq<Candle>, last: bool)
    requires history != [] && s.position.None? && FlagsFit(s)
    ensures EntersAsPlanned(e.cfg, s, history[|history| - 1], Processed(e, s, history, last))
  {
    hide AtrScaledDistances, Ratcheted, Opened, EntersAt;
    var c := history[|history| - 1];
    if s.pendingEntry && CooledDown(e.cfg, s.lastExit, c.openTime) {
      EntersAtOpen(e, s, history, last);
      var d := if s.pendingStops.Some? then s.pendingStops.value else Distances(e.cfg.stopLossPct, e.cfg.takeProfitPct);
      forall fill, stop, take |
        fill == c.open * (1.0 + e.cfg.slipRate) && stop == fill * (1.0 - d.stop) && take == fill * (1.0 + d.take)
        ensures EntersAt(e.cfg, s, c, Processed(e, s, history, last), fill, stop, take)
      {
        OpenedAt(e.cfg, s.pendingStops, c, fill, stop, take);
      }
    }
  }

  /** The position that a planned entry opens. */
  lemma OpenedAt(cfg: Settings, stops: Option<Distances>, c: Candle, fill: real, stop: real, take: real)
    requires fill == c.open * (1.0 + cfg.slipRate)
    requires var d := if stops.Some? then stops.value else Distances(cfg.stopLossPct, cfg.takeProfitPct);
      stop == fill * (1.0 - d.stop) && take == fill * (1.0 + d.take)
    ensures Opened(cfg, stops, c) == Position(c.open, fill, c.openTime, stop, take, fill)
  {
    hide Below, Above;
    var d := if stops.Some? then stops.value else Distances(cfg.stopLossPct, cfg.takeProfitPct);
    Levels(fill, d.stop, d.take);
  }

  lemma Levels(fill: real, stop: real, take: real)
    ensures Below(fill, stop) == fill * (1.0 - stop) && Above(fill, take) == fill * (1.0 + take)
  {
  }

  lemma EntersAtOpen(e: Setup, s: State, history: seq<Candle>, last: bool)
    requires history != [] && s.position.None? && FlagsFit(s) && s.pendingEntry
    requires CooledDown(e.cfg, s.lastExit, history[|history| - 1].openTime)
    ensures var c := history[|history| - 1]; var p := Opened(e.cfg, s.pendingStops, c);
      p.entryMarket == c.open && p.entryTime == c.openTime && p.highWater == p.entryFill ==>
        EntersAt(e.cfg, s, c, Processed(e, s, history, last), p.entryFill, p.stop, p.takeProfit)
  {
    hide AtrScaledDistances, Opened, Ratcheted, CandidateStop, CooledDown;
    var c := history[|history| - 1];
    RatchetedIs(e.cfg, Opened(e.cfg, s.pendingStops, c), c);
  }

  lemma RatchetedIs(cfg: Settings, p: Position, c: Candle)
    ensures var p' := Ratcheted(cfg, p, c); var high := if c.high > p.highWater then c.high else p.highWater;
      p' == p.(highWater := high, stop := CandidateStop(cfg, p.entryFill, p.entryFill, p.stop, c.close, high))
  {
    hide CandidateStop;
  }

  lemma NextState(e: Setup, frame: seq<Candle>, n: nat)
    requires WARMUP <= n < |frame|
    ensures StateAt(e, frame, n + 1) == Processed(e, StateAt(e, frame, n), frame[..n + 1], n + 1 == |frame|)
  {
  }

  lemma FaresOn(e: Setup, s: State, history: seq<Candle>, last: bool)
    requires history != [] && s.position.Some? && GoodPosition(s.position.value) && GoodCandle(history[|history| - 1])
    ensures Fares(e.cfg, s, history[|history| - 1], Processed(e, s, history, last))
  {
    hide Ratcheted, Opened, AtrScaledDistances, CooledDown, GoodPosition, CandidateStop;
    var c := history[|history| - 1];
    if !TakeHit(s, c) {
      RatchetedIsGood(e.cfg, s.position.value, c);
    }
    RatchetedIs(e.cfg, s.position.value, c);
  }

  // ---------------------------------------------------------------- what the signal does

  /** A pending entry means flat, a pending exit means open, and stops are only kept for an entry. */
  predicate FlagsFit(s: State) {
    && (s.pendingEntry ==> s.position.None?)
    && (s.pendingExit ==> s.position.Some?)
    && (s.pendingStops.Some? ==> s.pendingEntry)
  }

  lemma {:induction false} FlagsAlwaysFit(e: Setup, frame: seq<Candle>, n: nat)
    requires n <= |frame|
    ensures FlagsFit(StateAt(e, frame, n))
  {
    hide Processed, FlagsFit;
    if n <= WARMUP {
      IdleFits();
    } else {
      FlagsAlwaysFit(e, frame, n - 1);
      ProcessedFits(e, StateAt(e, frame, n - 1), frame[..n], n == |frame|);
    }
  }

  lemma IdleFits()
    ensures FlagsFit(IDLE)
  {
  }

  lemma ProcessedFits(e: Setup, s: State, history: seq<Candle>, last: bool)
    requires history != [] && FlagsFit(s)
    ensures FlagsFit(Processed(e, s, history, last))
  {
    hide Opened, Ratcheted, AtrScaledDistances, CooledDown;
  }

  /**
    What the strategy's answer on a completed candle does. If a position is open afterwards, an
    exit is pending exactly when it said SELL. If nothing was sold on the candle and no position
    is open afterwards, an entry is pending exactly when it said BUY with enough confidence and
    a further candle comes, and then with the distances for that signal. On a candle that sold
    the position nothing is planned.
  */
  lemma SignalObeyed(e: Setup, frame: seq<Candle>, n: nat)
    requires WARMUP <= n < |frame|
    ensures var s, after, history := StateAt(e, frame, n), StateAt(e, frame, n + 1), frame[..n + 1];
      if |after.trades| > |s.trades| then
        after.position.None? && !after.pendingEntry && !after.pendingExit
      else if after.position.Some? then
        !after.pendingEntry && (after.pendingExit <==> e.strategy(history, true).side == SellSignal)
      else
        var signal := e.strategy(history, false);
        && !after.pendingExit
        && (after.pendingEntry <==>
              signal.side == BuySignal && signal.confidence >= e.cfg.minConfidence && n + 1 < |frame|)
        && after.pendingStops == if after.pendingEntry then AtrScaledDistances(e.cfg, signal.atr) else None
  {
    hide StateAt, Processed;
    FlagsAlwaysFit(e, frame, n);
    NextState(e, frame, n);
    SignalObeyedOn(e, StateAt(e, frame, n), frame[..n + 1], n + 1 == |frame|);
  }

  lemma SignalObeyedOn(e: Setup, s: State, history: seq<Candle>, last: bool)
    requires history != [] && FlagsFit(s)
    ensures var after := Processed(e, s, history, last);
      if |after.trades| > |s.trades| then
        after.position.None? && !after.pendingEntry && !after.pendingExit
      else if after.position.Some? then
        !after.pendingEntry && (after.pendingExit <==> e.strategy(history, true).side == SellSignal)
      else
        var signal := e.strategy(history, false);
        && !after.pendingExit
        && (after.pendingEntry <==> signal.side == BuySignal && signal.confidence >= e.cfg.minConfidence && !last)
        && after.pendingStops == if after.pendingEntry then AtrScaledDistances(e.cfg, signal.atr) else None
  {
    hide Opened, Ratcheted, AtrScaledDistances, CooledDown;
  }

  /** The first sixty candles only warm up; frames below 62 candles have no trades. */
  lemma WarmsUp(e: Setup, frame: seq<Candle>, n: nat)
    requires n <= |frame|
    ensures n <= 60 ==> StateAt(e, frame, n) == IDLE
    ensures |frame| < 62 ==> AllTrades(e, frame) == []
  {
  }

  /** A position still open at the end is closed at the last close; nothing else is added. */
  lemma EndsFlat(e: Setup, frame: seq<Candle>)
    requires |frame| >= 62
    ensures var s, c := StateAt(e, frame, |frame|), frame[|frame| - 1];
      AllTrades(e, frame) == s.trades +
        (if s.position.None? then []
         else [Trade(s.position.value.entryTime, c.closeTime, s.position.value.entryMarket, c.close, EndOfSample)])
  {
    hide StateAt;
  }

  // ---------------------------------------------------------------- costs of the trades

  function CostOfTrade(m: CostModel, t: Trade): Costs
    requires Sane(m) && GoodTrade(t)
  {
    TradePnls(m, t.entryPrice, t.exitPrice)
  }

  function CostsOf(m: CostModel, trades: seq<Trade>): (costs: seq<Costs>)
    requires Sane(m) && forall i :: 0 <= i < |trades| ==> GoodTrade(trades[i])
    ensures |costs| == |trades| && forall i :: 0 <= i < |costs| ==> costs[i] == CostOfTrade(m, trades[i])
  {
    seq(|trades|, i requires 0 <= i < |trades| => CostOfTrade(m, trades[i]))
  }

  /** On every run the totals that the summary reports of the four cost scenarios are ordered. */
  lemma RunTotalsOrdered(e: Setup, frame: seq<Candle>)
    requires GoodFrame(frame) && Sane(e.costs)
    ensures forall i :: 0 <= i < |AllTrades(e, frame)| ==> GoodTrade(AllTrades(e, frame)[i])
    ensures OrderedTotals(CostsOf(e.costs, AllTrades(e, frame)))
  {
    TradesAreGood(e, frame);
    hide AllTrades, OrderedTotals, TradePnls;
    var trades := AllTrades(e, frame);
    var costs := CostsOf(e.costs, trades);
    forall i | 0 <= i < |costs| ensures Ordered(costs[i]) {
      assert GoodTrade(trades[i]);
      ScenariosOrdered(e.costs, trades[i].entryPrice, trades[i].exitPrice);
    }
    TotalsOrdered(costs);
  }
}
