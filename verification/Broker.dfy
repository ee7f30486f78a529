/**
  app/execution/broker.py and app/execution/protection.py: the bot for one symbol in testnet or
  live mode. The ghost fields record every durable state the bot and the exchange pass through
  and the step that led to it. Each method extends that record by steps of the protocol only, so
  all results about runs apply to every point at which the process may die inside a method.
  A new Broker over the same database and exchange is the restarted process.
*/
module BrokerAgent {
  import opened Wrappers
  import opened Ledger
  import opened Venue
  import opened Protocol
  import opened Preservation
  import opened Safety
  import opened OcoReply
  import opened ExchangeClient
  import opened Observation
  import opened TradingDatabase
  import opened TradingRules
  import opened RealFacts

  datatype Cycle =
    | InvalidPrice | NoPosition | Blocked | StillProtected | FillBooked | Reprotected | StopRaised
    | Installed | Retained | SoldOut

  /** How the recovery of one record ended; everything but Resolved leaves it unresolved. */
  datatype Recovery =
    | Resolved | Unanswered | Mismatched | NotTerminal | IncompleteFills | NoFillPrice
    | Occupied | NothingHeld | NoPositionLeft | Unbooked(fault: Fault)

  /** What one look at the current list brought. */
  datatype FillReport = NoFill | FillSeen(applied: bool, partialPending: bool)

  /** The report agrees with the CLOSED rows before and after, and with what is still open. */
  predicate TellsBooked(report: FillReport, before: seq<ClosedTrade>, after: seq<ClosedTrade>, open: bool) {
    match report
    case NoFill => after == before && open
    case FillSeen(applied, partialPending) =>
      && (if applied then |after| == |before| + 1 && before <= after else after == before && partialPending)
      && (partialPending ==> open)
  }

  function AfterFill(report: FillReport): Cycle {
    if report.FillSeen? && report.partialPending && !report.applied then StillProtected else FillBooked
  }

  lemma FillCycle(report: FillReport, before: seq<ClosedTrade>, after: seq<ClosedTrade>, open: bool)
    requires TellsBooked(report, before, after, open)
    ensures report.NoFill? ==> after == before
    ensures AfterFill(report) in {FillBooked, StillProtected}
    ensures report.FillSeen? && AfterFill(report) == FillBooked ==> |after| > |before|
    ensures report.FillSeen? && AfterFill(report) == StillProtected ==> after == before && report.partialPending
  {
  }

  /** Whether a call ended with an executing list stored on the open row. */
  datatype Placement = Placement(protected: bool)

  lemma AdvanceKeepsLog(v: Venue, v': Venue)
    requires Advance(v, v')
    ensures v'.listLog == v.listLog && v'.orderLog == v.orderLog && v'.grain == v.grain
    ensures v'.lists.Keys == v.lists.Keys && v'.orders.Keys == v.orders.Keys && DeadStay(v, v')
  {
    forall l | l in v.lists ensures v.lists[l].phase.Dead? ==> v'.lists[l] == v.lists[l] {
      assert OcoAdvance(v.lists[l], v'.lists[l], v.grain);
    }
  }

  lemma RunExtends(ws: seq<World>, ss: seq<Step>, s: Step, w: World)
    requires IsRun(ws, ss) && Next(ws[|ss|], s, w)
    ensures IsRun(ws + [w], ss + [s]) && (ws + [w])[|ss + [s]|] == w
  {
    hide Next;
    var ws', ss' := ws + [w], ss + [s];
    forall i | 0 <= i < |ss'| ensures Next(ws'[i], ss'[i], ws'[i + 1]) {
      if i < |ss| {
        assert Next(ws[i], ss[i], ws[i + 1]);
      }
    }
  }

  lemma NoPriceMeans(fills: seq<TradeFill>, price: real)
    requires IsFillPrice(price, fills) && price <= 0.0
    ensures TotalQty(fills) > 0.0 && TotalQuote(fills) <= 0.0
  {
    OrderTimes(price, 0.0, TotalQty(fills));
  }

  lemma StaysDead(v: Venue)
    ensures DeadStay(v, v)
  {
  }

  /** The account fills of a leg are invalid, or do not account for what it executed. */
  predicate FillsFall(fills: seq<TradeFill>, symbol: string, orderId: int, executed: real) {
    var mine := OfOrder(fills, orderId);
    || !AllValid(fills, symbol, orderId)
    || TotalQty(mine) <= 0.0 || !IsClose(TotalQty(mine), executed, CLOSE_DUST) || TotalQuote(mine) <= 0.0
  }

  /** The average of the summed fills is their price. */
  lemma SummedPrice(fills: seq<TradeFill>, price: real)
    requires price == AveragePrice(FillSum(fills)) && price > 0.0
    ensures IsFillPrice(price, fills) && BaseCommission(fills) == TotalBase(fills)
  {
    BaseCommissionIs(fills);
    FillSumIs(fills);
    AveragePriceIs(fills, FillSum(fills));
  }

  class Broker {
    const db: TradingDB
    const exchange: Exchange
    const symbol: string
    const cfg: Settings
    ghost var worlds: seq<World>
    ghost var steps: seq<Step>

    ghost function W(): World
      reads db, exchange`venue
    {
      World(db.Tables(), exchange.venue)
    }

    /** The record is a run of the protocol that ends in the present state. */
    ghost predicate Valid()
      reads this, db, exchange`venue
    {
      IsRun(worlds, steps) && worlds[|steps|] == W() && Inv(W())
    }

    twostate predicate Continues()
      reads this
    {
      old(worlds) <= worlds
    }

    constructor (db: TradingDB, exchange: Exchange, symbol: string, cfg: Settings)
      requires Inv(World(db.Tables(), exchange.venue))
      ensures this.db == db && this.exchange == exchange && this.symbol == symbol && this.cfg == cfg
      ensures Valid() && worlds == [W()]
    {
      this.db, this.exchange, this.symbol, this.cfg := db, exchange, symbol, cfg;
      worlds := [World(db.Tables(), exchange.venue)];
      steps := [];
    }

    /**
      The restarted process: when an earlier history ended in the state in which this record
      begins, no position opened before or after the restart is oversold.
    */
    lemma RestartedNeverOversells(ws: seq<World>, ss: seq<Step>, i: nat)
      requires Valid() && IsHistory(ws, ss) && worlds[0] == ws[|ss|]
      requires i < |ss + steps| && (ss + steps)[i].Tx? && (ss + steps)[i].op.OpOpen?
      ensures Sold(exchange.venue, |(ws + worlds[1..])[i].book.origins|) <= (ss + steps)[i].op.quantity
    {
      hide Inv, Next, Sold;
      HistoryContinues(ws, ss, worlds, steps);
      NoOversell(ws + worlds[1..], ss + steps, i, |ss + steps|);
    }

    ghost method Note(s: Step)
      requires IsRun(worlds, steps) && Inv(worlds[|steps|]) && Next(worlds[|steps|], s, W())
      modifies this`worlds, this`steps
      ensures Valid() && Continues()
    {
      ghost var w := worlds[|steps|];
      hide IsRun, Inv, Next;
      StepKeepsInv(w, s, W());
      RunExtends(worlds, steps, s, W());
      worlds := worlds + [W()];
      steps := steps + [s];
    }

    /** A committed transaction is a step. */
    ghost method NoteTx(op: Op)
      requires IsRun(worlds, steps) && Inv(worlds[|steps|])
      requires worlds[|steps|].venue == exchange.venue && Guard(worlds[|steps|], op)
      requires Attempt(worlds[|steps|].book, op) == Success(db.Tables())
      modifies this`worlds, this`steps
      ensures Valid() && Continues()
    {
      hide IsRun, Inv, Guard, Attempt;
      Note(Tx(op));
    }

    // -------------------------------------------------------------- one step at a time

    method Elapse()
      requires Valid()
      modifies this`worlds, this`steps, exchange`venue
      ensures Valid() && Continues() && Advance(old(exchange.venue), exchange.venue)
    {
      hide Inv, IsRun, Advance, GoodVenue;
      VenueIsGood(W());
      exchange.Drift();
      Note(Environment);
    }

    method SetProtection(id: TradeId, l: ListId, status: Protection) returns (r: Result<(), DbError>)
      requires Valid() && Guard(W(), OpSetProtection(id, Some(l), status))
      modifies this`worlds, this`steps, db
      ensures Valid() && Continues()
      ensures r.Success? ==> SetProtectionTx(old(db.Tables()), id, Some(l), status) == Success(db.Tables())
      ensures r.Failure? ==> db.Tables() == old(db.Tables())
    {
      hide Inv, IsRun, Guard, SetProtectionTx;
      r := db.SetTradeProtection(id, Some(l), status);
      if r.Success? {
        NoteTx(OpSetProtection(id, Some(l), status));
      }
    }

    /** The except branches: remember that the list could not be verified, keep its identity. */
    method MarkUnknown(id: TradeId, l: ListId)
      requires Valid() && Holds(W(), l)
      modifies this`worlds, this`steps, db
      ensures Valid() && Continues() && db.orders == old(db.orders) && db.closed == old(db.closed)
      ensures db.open.Some? && db.open.value.list == Some(l) && KeepsTerms(old(db.open).value, db.open)
      ensures db.open.value.protection in {ProtectionUnknown, old(db.open).value.protection}
    {
      hide Inv, IsRun;
      var _ := SetProtection(id, l, ProtectionUnknown);
    }

    method ClearProtection(id: TradeId, status: Protection) returns (r: Result<(), DbError>)
      requires Valid() && Retirable(W())
      modifies this`worlds, this`steps, db
      ensures Valid() && Continues()
      ensures r.Success? ==> ClearProtectionTx(old(db.Tables()), id, status) == Success(db.Tables())
      ensures r.Failure? ==> db.Tables() == old(db.Tables())
    {
      hide Inv, IsRun, ClearProtectionTx;
      r := db.ClearTradeProtection(id, status);
      if r.Success? {
        NoteTx(OpClearProtection(id, status));
      }
    }

    /** apply_protective_execution, for a total the current list really had. */
    method ApplyExecution(id: TradeId, cumulative: Totals) returns (r: Result<Outcome, DbError>)
      requires Valid() && Guard(W(), OpProtective(id, cumulative))
      modifies this`worlds, this`steps, db
      ensures Valid() && Continues()
      ensures r.Success? ==> ApplyProtectiveTx(old(db.Tables()), id, cumulative) == Success((db.Tables(), r.value))
      ensures r.Failure? ==> db.Tables() == old(db.Tables())
    {
      Parts(W());
      hide Inv, IsRun, Guard, ApplyProtectiveTx;
      r := db.ApplyProtectiveExecution(id, cumulative);
      if r.Success? {
        NoteTx(OpProtective(id, cumulative));
      }
    }

    method QueryList(l: ListId) returns (reply: Option<ListDoc>)
      requires Valid()
      modifies this`worlds, this`steps, exchange`venue, exchange`listAnswers, exchange`listQueries
      ensures Valid() && Continues() && Advance(old(exchange.venue), exchange.venue)
      ensures reply.Some? ==> TruthfulList(exchange.venue, symbol, l, reply.value)
      ensures exchange.listQueries == old(exchange.listQueries) + 1
      ensures reply.Some? ==> l in exchange.listAnswers && exchange.listAnswers[l] == reply.value
    {
      hide Inv, IsRun, Advance, TruthfulList;
      Elapse();
      reply := exchange.GetOrderList(symbol, l);
    }

    // -------------------------------------------------------------- observing the current list

    /** One leg of the list: ask, validate, and learn a fact about the list. */
    method QueryLeg(l: ListId, child: Child, ghost o: Oco) returns (r: Result<LegState, Fault>)
      requires Valid() && child.clientId.LegId? && child.clientId.list == l
      requires child.orderId.Some? && Tracks(exchange.venue, l, o)
      modifies this`worlds, this`steps, exchange`venue, exchange`legAnswers
      ensures r.Failure? ==> r.error in {Uncertain, Unverified}
      ensures Valid() && Continues() && Advance(old(exchange.venue), exchange.venue) && Tracks(exchange.venue, l, o)
      ensures r.Success? ==> r.value.leg == child.clientId.leg && LegFact(exchange.venue, r.value, l, o)
      ensures r.Success? ==> LegAnswered(exchange.legAnswers, l, r.value)
      ensures r.Success? ==> OnlyLeg(old(exchange.legAnswers), exchange.legAnswers, l, r.value.leg)
    {
      hide Inv, IsRun, Advance, GoodOco, LegFact, LegAnswered, OnlyLeg, BelievableLeg, TruthfulLeg, Tracks, GoodVenue;
      Parts(W());
      Elapse();
      TrackOn(old(exchange.venue), exchange.venue, l, o);
      VenueIsGood(W());
      var reply := exchange.GetLeg(l, child.clientId.leg);
      if reply.None? {
        return Failure(Uncertain);
      }
      var checked := ValidateLeg(reply.value, child, symbol);
      if checked.Failure? {
        return Failure(Unverified);
      }
      var (executed, status) := checked.value;
      var state := LegState(child.clientId.leg, child.orderId.value, executed, status);
      AnsweredNow(old(exchange.legAnswers), l, reply.value, state);
      ReplyIsLegFact(exchange.venue, symbol, l, o, child, reply.value, state);
      return Success(state);
    }

    /** Query and validate both legs (the loop filling child_states). */
    method QueryLegs(l: ListId, children: seq<Child>, ghost o: Oco) returns (r: Result<seq<LegState>, Fault>)
      requires Valid() && BothLegs(children, symbol, l) && Tracks(exchange.venue, l, o)
      modifies this`worlds, this`steps, exchange`venue, exchange`legAnswers
      ensures r.Failure? ==> r.error in {Uncertain, Unverified}
      ensures Valid() && Continues() && Advance(old(exchange.venue), exchange.venue) && Tracks(exchange.venue, l, o)
      ensures r.Success? ==> |r.value| == 2 && r.value[0].leg != r.value[1].leg
      ensures r.Success? ==> forall i :: 0 <= i < 2 ==> LegFact(exchange.venue, r.value[i], l, o)
      ensures r.Success? ==> AllAnswered(exchange.legAnswers, l, r.value)
    {
      hide Inv, IsRun, Advance, GoodOco, GoodVenue, BothLegs;
      hide Tracks, Observed, AllAnswered, OnlyLeg, LegAnswered, LegFact;
      VenueIsGood(W());
      AdvanceReflexive(exchange.venue);
      ChildrenAreLegs(children, symbol, l);
      var states: seq<LegState> := [];
      NothingObserved(exchange.venue, children, l, o, exchange.legAnswers);
      for i := 0 to |children|
        invariant Valid() && Continues() && Advance(old(exchange.venue), exchange.venue) && Tracks(exchange.venue, l, o)
        invariant |states| == i && Observed(exchange.venue, states, children, l, o)
        invariant AllAnswered(exchange.legAnswers, l, states)
      {
        label before:
        var asked := QueryLeg(l, children[i], o);
        AdvanceTransitive(old(exchange.venue), old@before(exchange.venue), exchange.venue);
        if asked.Failure? {
          return Failure(asked.error);
        }
        OneMoreAnswered(old@before(exchange.venue), states, children, symbol, l, o, asked.value,
                        old@before(exchange.legAnswers), exchange.legAnswers);
        OneMoreObserved(old@before(exchange.venue), exchange.venue, states, children, l, o, asked.value);
        states := states + [asked.value];
      }
      BothObserved(exchange.venue, states, children, symbol, l, o);
      return Success(states);
    }

    /** my_trades and the summation: the cumulative execution of the leg that was hit. */
    method CollectFills(trade: OpenTrade, hit: LegState, ghost o: Oco) returns (r: Result<Totals, Fault>)
      requires Valid() && db.open == Some(trade) && trade.list.Some? && hit.executed > 0.0
      requires Tracks(exchange.venue, trade.list.value, o) && LegFact(exchange.venue, hit, trade.list.value, o)
      modifies this`worlds, this`steps, exchange`venue, exchange`legFills
      ensures r.Failure? ==> r.error in {Uncertain, Incomplete}
      ensures Valid() && Continues() && Advance(old(exchange.venue), exchange.venue)
      ensures Tracks(exchange.venue, trade.list.value, o)
      ensures r == Failure(Incomplete) ==>
        && hit.orderId in exchange.legFills
        && FillsFall(exchange.legFills[hit.orderId], symbol, hit.orderId, hit.executed)
      ensures r.Success? ==>
        var f := Fill(r.value.qty, r.value.quote);
        && f in exchange.venue.lists[trade.list.value].cum && f.qty == hit.executed
        && f.qty > 0.0 && (o.phase.Dead? ==> f.qty == Executed(o))
    {
      hide Inv, IsRun, Advance, GoodOco, LegFact;
      var l := trade.list.value;
      Elapse();
      TrackOn(old(exchange.venue), exchange.venue, l, o);
      LegFactOn(old(exchange.venue), exchange.venue, l, o, hit);
      var reply := exchange.MyTrades(symbol, l, hit.orderId);
      if reply.None? {
        return Failure(Uncertain);
      }
      var sums := SumFills(reply.value, symbol, hit.orderId);
      if sums.Failure? {
        return Failure(Incomplete);
      }
      var total := sums.value;
      if total.qty <= 0.0 || !IsClose(total.qty, hit.executed, CLOSE_DUST) || total.quote <= 0.0 {
        return Failure(Incomplete);
      }
      HitIsFill(W(), hit, l, o, Fill(total.qty, total.quote));
      return Success(total);
    }

    /** apply_protective_execution for the fills of the current list. */
    method BookFills(trade: OpenTrade, total: Totals, ghost o: Oco) returns (r: Result<Outcome, Fault>)
      requires Valid() && db.open == Some(trade) && trade.list.Some? && Tracks(exchange.venue, trade.list.value, o)
      requires Fill(total.qty, total.quote) in exchange.venue.lists[trade.list.value].cum
      requires o.phase.Dead? ==> total.qty == Executed(o)
      modifies this`worlds, this`steps, db
      ensures Valid() && Continues() && db.orders == old(db.orders)
      ensures KeepsTerms(trade, db.open)
      ensures db.open.Some? ==> db.open.value.list == trade.list && db.open.value.protection == trade.protection
      ensures r.Failure? || r.value.NothingNew? ==> db.open.Some? && db.closed == old(db.closed)
      ensures r.Failure? ==> r.error.Database?
      ensures r.Success? ==> !r.value.Absent?
      ensures r.Success? && r.value.Applied? ==>
        |db.closed| == |old(db.closed)| + 1 && old(db.closed) <= db.closed && r.value.partial == db.open.Some?
      ensures r.Success? && db.open.Some? && o.phase.Dead? ==> Retirable(W())
    {
      hide Inv, IsRun, GoodOco, Guard, Retirable, ApplyProtectiveTx;
      CurrentList(W());
      ReportedGuard(W(), trade, total);
      var base := trade.base.value;
      ghost var w := W();
      var cumulative := Totals(base.qty + total.qty, base.quote + total.quote, base.fee + total.fee);
      var applied := ApplyExecution(trade.id, cumulative);
      if applied.Failure? {
        return Failure(Database(applied.error));
      }
      AppliedColumns(w.book, trade, cumulative, db.Tables(), applied.value);
      if db.open.Some? && o.phase.Dead? {
        HitRetires(w, W(), trade, trade.list.value, o, Fill(total.qty, total.quote), cumulative, applied.value);
      }
      return Success(applied.value);
    }

    /** The second half of _protective_fill: apply the fills of the executed leg. */
    method ApplyHit(trade: OpenTrade, hit: LegState, status: ListStatus, executingPair: bool, ghost o: Oco)
      returns (r: Result<FillReport, Fault>)
      requires Valid() && db.open == Some(trade) && trade.list.Some? && hit.executed > 0.0
      requires Tracks(exchange.venue, trade.list.value, o) && LegFact(exchange.venue, hit, trade.list.value, o)
      modifies this`worlds, this`steps, db, exchange`venue, exchange`legFills
      ensures r.Failure? ==> ObservationFault(r.error)
      ensures Valid() && Continues() && db.orders == old(db.orders)
      ensures Advance(old(exchange.venue), exchange.venue)
      ensures KeepsTerms(trade, db.open) && (db.open.Some? ==> db.open.value.list == trade.list)
      ensures db.open.Some? && r.Success? ==> db.open.value.protection == trade.protection
      ensures r.Success? && db.open.Some? && status == ListExecuting ==>
        && executingPair
        && (hit.status == LegPartiallyFilled <==> r.value.FillSeen? && r.value.partialPending)
      ensures r.Success? && r.value.FillSeen? && r.value.partialPending ==> status == ListExecuting
      ensures r == Failure(LegsDisagree) ==> status == ListExecuting && !executingPair
      ensures (r.Success? && r.value.NoFill?) || r.Failure? ==> db.open.Some?
      ensures r.Success? ==> TellsBooked(r.value, old(db.closed), db.closed, db.open.Some?)
      ensures old(db.closed) <= db.closed && (db.open.None? ==> |db.closed| > |old(db.closed)|)
      ensures r.Success? && db.open.Some? && o.phase.Dead? ==> Retirable(W())
    {
      hide Inv, IsRun, Advance, GoodOco, LegFact, Retirable, Tracks;
      var l := trade.list.value;
      var fills := CollectFills(trade, hit, o);
      if fills.Failure? {
        MarkUnknown(trade.id, l);
        return Failure(fills.error);
      }
      var applied := BookFills(trade, fills.value.(qty := hit.executed), o);
      if applied.Failure? {
        MarkUnknown(trade.id, l);
        return Failure(applied.error);
      }
      var activelyPartial := hit.status == LegPartiallyFilled && status == ListExecuting && executingPair;
      if status == ListExecuting && !executingPair && db.open.Some? {
        MarkUnknown(trade.id, l);
        return Failure(LegsDisagree);
      }
      match applied.value {
        case Absent => r := Success(FillSeen(false, activelyPartial));
        case NothingNew => r := Success(if activelyPartial then FillSeen(false, true) else NoFill);
        case Applied(_, partial) => r := Success(FillSeen(true, partial && activelyPartial));
      }
    }

    /**
      _protective_fill: verify the current list, both its legs and every fill, and apply what is
      new. Whatever happens the list's identity stays on the open row. When it returns normally
      and the list is known to be dead, everything it executed is in the ledger.
    */
    method ProtectiveFill(trade: OpenTrade) returns (r: Result<FillReport, Fault>)
      requires Valid() && db.open == Some(trade) && trade.list.Some?
      modifies this`worlds, this`steps, db
      modifies exchange`venue, exchange`listAnswers, exchange`listQueries, exchange`legAnswers, exchange`legFills
      ensures r.Failure? ==> ObservationFault(r.error)
      ensures Valid() && Continues() && db.orders == old(db.orders)
      ensures Advance(old(exchange.venue), exchange.venue)
      ensures KeepsTerms(trade, db.open) && (db.open.Some? ==> db.open.value.list == trade.list)
      ensures (r.Success? && r.value.NoFill?) || r.Failure? ==> db.open.Some?
      ensures r.Success? ==> TellsBooked(r.value, old(db.closed), db.closed, db.open.Some?)
      ensures old(db.closed) <= db.closed && (db.open.None? ==> |db.closed| > |old(db.closed)|)
      ensures r.Success? && db.open.Some? ==> StatusAnswered(db.open, exchange.listAnswers, symbol)
      ensures r.Success? ==>
        && trade.list.value in exchange.listAnswers
        && LegAnswersFit(exchange.legAnswers, trade.list.value, exchange.listAnswers[trade.list.value].status, db.open.Some?)
      ensures r.Success? && r.value.FillSeen? && r.value.partialPending ==> AnsweredExecuting(db.open, exchange.listAnswers)
      ensures r.Success? && db.open.Some?
        && (TerminalProtection(db.open.value.protection)
            || (trade.list.value in old(exchange.venue).lists && old(exchange.venue).lists[trade.list.value].phase.Dead?))
        ==> Retirable(W())
    {
      hide Inv, IsRun, Advance, GoodOco, BothLegs, Retirable;
      var l := trade.list.value;
      var reply := QueryList(l);
      if reply.None? {
        return Failure(Uncertain);
      }
      var stored: Option<int> := *;  // the numeric list id column, if it is set
      var checked := ValidateQueried(reply.value, symbol, l, Tagged(l), stored);
      if checked.Failure? {
        MarkUnknown(trade.id, l);
        return Failure(Unverified);
      }
      var (status, children) := checked.value;
      var saved := SetProtection(trade.id, l, AsProtection(status));
      if saved.Failure? {
        return Failure(Database(saved.error));
      }
      ghost var o := exchange.venue.lists[l];
      TrackStart(old(exchange.venue), exchange.venue, l);
      label queried:
      r := ObserveLegs(db.open.value, status, children, o);
      AdvanceTransitive(old(exchange.venue), old@queried(exchange.venue), exchange.venue);
    }

    /** The part of _protective_fill after the list itself was verified. */
    method ObserveLegs(trade: OpenTrade, status: ListStatus, children: seq<Child>, ghost o: Oco)
      returns (r: Result<FillReport, Fault>)
      requires Valid() && db.open == Some(trade) && trade.list.Some?
      requires BothLegs(children, symbol, trade.list.value) && Tracks(exchange.venue, trade.list.value, o)
      modifies this`worlds, this`steps, db, exchange`venue, exchange`legAnswers, exchange`legFills
      ensures r.Failure? ==> ObservationFault(r.error)
      ensures Valid() && Continues() && db.orders == old(db.orders)
      ensures Advance(old(exchange.venue), exchange.venue)
      ensures KeepsTerms(trade, db.open) && (db.open.Some? ==> db.open.value.list == trade.list)
      ensures db.open.Some? && r.Success? ==> db.open.value.protection == trade.protection
      ensures r.Success? ==> LegAnswersFit(exchange.legAnswers, trade.list.value, status, db.open.Some?)
      ensures r == Failure(LegsDisagree) ==> !LegAnswersFit(exchange.legAnswers, trade.list.value, status, true)
      ensures r.Success? && r.value.FillSeen? && r.value.partialPending ==> status == ListExecuting
      ensures (r.Success? && r.value.NoFill?) || r.Failure? ==> db.open.Some?
      ensures r.Success? ==> TellsBooked(r.value, old(db.closed), db.closed, db.open.Some?)
      ensures old(db.closed) <= db.closed && (db.open.None? ==> |db.closed| > |old(db.closed)|)
      ensures r.Success? && db.open.Some? && o.phase.Dead? ==> Retirable(W())
    {
      hide Inv, IsRun, Advance, GoodOco, BothLegs, Retirable, Tracks, LegFact;
      hide AllAnswered, LegAnswersFit, TerminalLeg, ActiveLeg;
      var l := trade.list.value;
      var legs := QueryLegs(l, children, o);
      if legs.Failure? {
        MarkUnknown(trade.id, l);
        return Failure(legs.error);
      }
      var states := legs.value;
      FitIs(exchange.legAnswers, l, states, status, true);
      FitIs(exchange.legAnswers, l, states, status, false);
      var executingPair := status == ListExecuting && ActiveLeg(states[0].status) && ActiveLeg(states[1].status);
      if (TerminalList(status) && !(TerminalLeg(states[0].status) && TerminalLeg(states[1].status)))
         || (states[0].executed > 0.0 && states[1].executed > 0.0) {
        MarkUnknown(trade.id, l);
        return Failure(LegsDisagree);
      }
      if states[0].executed <= 0.0 && states[1].executed <= 0.0 {
        if status == ListExecuting && !executingPair {
          MarkUnknown(trade.id, l);
          return Failure(LegsDisagree);
        }
        if o.phase.Dead? {
          NothingExecutedYet(W(), states, l, o);
        }
        return Success(NoFill);
      }
      var hit := if states[0].executed > 0.0 then states[0] else states[1];
      label legsSeen:
      r := ApplyHit(trade, hit, status, executingPair, o);
      AdvanceTransitive(old(exchange.venue), old@legsSeen(exchange.venue), exchange.venue);
    }

    // -------------------------------------------------------------- placing and retiring lists

    /** place_protective_oco and, if no answer came, the query by the stored id. */
    method SendList(l: ListId) returns (reply: Option<ListDoc>)
      requires Valid() && Holds(W(), l) && l !in exchange.venue.lists
      modifies this`worlds, this`steps, exchange`venue, exchange`listAnswers, exchange`listQueries
      ensures Valid() && Continues() && DeadStay(old(exchange.venue), exchange.venue)
      ensures reply.None? ==> exchange.listQueries == old(exchange.listQueries) + 2
      ensures exchange.listQueries <= old(exchange.listQueries) + 2
      ensures reply.Some? ==> l in exchange.listAnswers && exchange.listAnswers[l] == reply.value
      ensures exchange.venue.orderLog == old(exchange.venue).orderLog
      ensures |exchange.venue.listLog| <= |old(exchange.venue).listLog| + 1
    {
      hide Inv, IsRun, Advance, TruthfulList;
      var sent := *;  // the request may be lost on its way
      if sent {
        var winner := exchange.AcceptList(l, db.open.value.id, db.open.value.quantity);
        Note(SubmitList(l, winner));
      }
      label posted:
      reply := QueryList(l);
      AdvanceKeepsLog(old@posted(exchange.venue), exchange.venue);
      if reply.None? {
        label silent:
        reply := QueryList(l);
        AdvanceKeepsLog(old@silent(exchange.venue), exchange.venue);
      }
    }

    /** The write-ahead of a list: from here on the open row names it. */
    method StoreListIntent(trade: OpenTrade) returns (r: Result<ListId, Fault>)
      requires Valid() && db.open == Some(trade) && trade.list == None && !HasUnresolved(db.Tables())
      modifies this`worlds, this`steps, db
      ensures r.Failure? ==> r.error.Database?
      ensures Valid() && Continues() && db.orders == old(db.orders) && db.closed == old(db.closed)
      ensures KeepsTerms(trade, db.open)
      ensures r.Failure? ==> db.Tables() == old(db.Tables())
      ensures r.Success? ==> r.value !in exchange.venue.lists && Holds(W(), r.value)
      ensures r.Success? ==> db.open.value.protection == Submitting
    {
      hide Inv, IsRun, GoodVenue, HasUnresolved;
      VenueIsGood(W());
      var l := exchange.FreshListId();
      var intent := SetProtection(trade.id, l, Submitting);
      r := if intent.Success? then Success(l) else Failure(Database(intent.error));
    }

    /** Store a fresh list id, submit the list under it and store the verified answer. */
    method PostList(trade: OpenTrade) returns (r: Result<ListStatus, Fault>)
      requires Valid() && db.open == Some(trade) && trade.list == None && !HasUnresolved(db.Tables())
      modifies this`worlds, this`steps, db
      modifies exchange`venue, exchange`listAnswers, exchange`listQueries, exchange`legAnswers, exchange`legFills
      ensures r.Failure? ==> ObservationFault(r.error)
      ensures Valid() && Continues() && db.orders == old(db.orders) && db.closed == old(db.closed)
      ensures KeepsTerms(trade, db.open) && StoresLiving(old(exchange.venue), db.open)
      ensures DeadStay(old(exchange.venue), exchange.venue)
      ensures exchange.venue.orderLog == old(exchange.venue).orderLog
      ensures |exchange.venue.listLog| <= |old(exchange.venue).listLog| + 1
      ensures r.Success? ==> db.open.Some? && db.open.value.list.Some? && db.open.value.protection == AsProtection(r.value)
      ensures r.Success? ==> (AnsweredExecuting(db.open, exchange.listAnswers) <==> r.value == ListExecuting)
      ensures r.Failure? ==>
        db.open.Some? && (db.open.value.list == None || db.open.value.protection in {Submitting, ProtectionUnknown})
    {
      hide Inv, IsRun, Believable, HasUnresolved;
      var intent := StoreListIntent(trade);
      if intent.Failure? {
        return Failure(intent.error);
      }
      var l := intent.value;
      var reply := SendList(l);
      if reply.None? {
        MarkUnknown(trade.id, l);
        return Failure(Uncertain);
      }
      var checked := ValidatePlaced(reply.value, symbol, l);
      if checked.Failure? {
        MarkUnknown(trade.id, l);
        return Failure(Unverified);
      }
      var stored := SetProtection(trade.id, l, AsProtection(checked.value));
      if stored.Failure? {
        return Failure(Database(stored.error));
      }
      return Success(checked.value);
    }

    /**
      _place_exchange_protection. The id is stored before the request is sent. At most two lists
      are submitted, one if this already is a replacement, and when the call returns normally for
      a position without a list the position is closed or a list is stored as executing.
    */
    method PlaceExchangeProtection(trade: OpenTrade, retries: nat) returns (r: Result<Placement, Fault>)
      requires Valid() && db.open == Some(trade) && retries <= 1
      requires trade.list == None ==> !HasUnresolved(db.Tables())
      modifies this`worlds, this`steps, db
      modifies exchange`venue, exchange`listAnswers, exchange`listQueries, exchange`legAnswers, exchange`legFills
      ensures r.Failure? ==> db.open.Some? && (ObservationFault(r.error) || r.error == NotProtected)
      ensures Valid() && Continues() && db.orders == old(db.orders)
      ensures KeepsTerms(trade, db.open)
      ensures trade.list == None ==> StoresLiving(old(exchange.venue), db.open)
      ensures DeadStay(old(exchange.venue), exchange.venue)
      ensures exchange.venue.orderLog == old(exchange.venue).orderLog
      ensures old(db.closed) <= db.closed && (db.open.None? ==> |db.closed| > |old(db.closed)|)
      ensures |exchange.venue.listLog| <= |old(exchange.venue).listLog| + 2 - retries
      ensures r.Success? && trade.list == None ==> r.value.protected == db.open.Some?
      ensures r.Success? && r.value.protected ==>
        db.open.Some? && db.open.value.list.Some? && db.open.value.protection == Executing
      ensures r.Success? && r.value.protected && trade.list == None ==>
        var l := db.open.value.list.value;
        l in exchange.listAnswers && exchange.listAnswers[l].list == l && exchange.listAnswers[l].status == ListExecuting
      decreases 2 * (1 - retries)
    {
      hide Inv, IsRun, Advance, HasUnresolved;
      if trade.list.Some? {
        var known := *;  // whether the numeric list id is stored
        return Success(Placement(trade.protection == Executing && known));
      }
      var posted := PostList(trade);
      if posted.Failure? {
        return Failure(posted.error);
      }
      if posted.value == ListExecuting {
        return Success(Placement(true));
      }
      r := ReplaceTerminal(db.open.value, retries);
    }

    /** The end of _place_exchange_protection: the new list was terminal at once. */
    method ReplaceTerminal(trade: OpenTrade, retries: nat) returns (r: Result<Placement, Fault>)
      requires Valid() && db.open == Some(trade) && trade.list.Some? && retries <= 1
      modifies this`worlds, this`steps, db
      modifies exchange`venue, exchange`listAnswers, exchange`listQueries, exchange`legAnswers, exchange`legFills
      ensures r.Failure? ==> db.open.Some? && (ObservationFault(r.error) || r.error == NotProtected)
      ensures Valid() && Continues() && db.orders == old(db.orders)
      ensures KeepsTerms(trade, db.open)
      ensures db.open.Some? && db.open.value.list != trade.list ==> StoresLiving(old(exchange.venue), db.open)
      ensures DeadStay(old(exchange.venue), exchange.venue)
      ensures retries == 0 && r == Failure(NotProtected) && db.open.Some? && db.open.value.list == trade.list ==>
        db.open.value.protection == Executing
      ensures exchange.venue.orderLog == old(exchange.venue).orderLog
      ensures old(db.closed) <= db.closed && (db.open.None? ==> |db.closed| > |old(db.closed)|)
      ensures |exchange.venue.listLog| <= |old(exchange.venue).listLog| + 1 - retries
      ensures r.Success? ==> r.value.protected == db.open.Some?
      ensures r.Success? && r.value.protected ==>
        && db.open.Some? && db.open.value.list.Some? && db.open.value.protection == Executing
        && AnsweredExecuting(db.open, exchange.listAnswers)
      decreases 2 * (1 - retries), 0
    {
      hide Inv, IsRun, Advance, Retirable;
      var fill := ProtectiveFill(trade);
      AdvanceKeepsLog(old(exchange.venue), exchange.venue);
      if fill.Failure? {
        MarkUnknown(trade.id, trade.list.value);
        return Failure(fill.error);
      }
      if db.open.None? {
        return Success(Placement(false));
      }
      if retries >= 1 {
        MarkUnknown(trade.id, trade.list.value);
        return Failure(NotProtected);
      }
      r := RearmTerminalProtection(db.open.value, retries + 1);
    }

    /**
      _rearm_terminal_protection. Called only after the list was observed, so that a list whose
      status is terminal is retirable. Its last check, that a position still open is protected,
      is what PlaceExchangeProtection promises.
    */
    method RearmTerminalProtection(trade: OpenTrade, retries: nat) returns (r: Result<Placement, Fault>)
      requires Valid() && db.open == Some(trade) && trade.list.Some? && retries == 1
      requires TerminalProtection(trade.protection) ==> Retirable(W())
      modifies this`worlds, this`steps, db
      modifies exchange`venue, exchange`listAnswers, exchange`listQueries, exchange`legAnswers, exchange`legFills
      ensures r.Failure? ==> db.open.Some? && (ObservationFault(r.error) || r.error == NotProtected)
      ensures Valid() && Continues() && db.orders == old(db.orders)
      ensures !TerminalProtection(trade.protection) ==>
        r == Failure(NotProtected) && db.Tables() == old(db.Tables()) && exchange.venue == old(exchange.venue)
      ensures KeepsTerms(trade, db.open)
      ensures db.open.Some? && db.open.value.list != trade.list ==> StoresLiving(old(exchange.venue), db.open)
      ensures r == Failure(NotProtected) && TerminalProtection(trade.protection) ==> db.open.value.list != trade.list
      ensures DeadStay(old(exchange.venue), exchange.venue)
      ensures exchange.venue.orderLog == old(exchange.venue).orderLog
      ensures old(db.closed) <= db.closed && (db.open.None? ==> |db.closed| > |old(db.closed)|)
      ensures |exchange.venue.listLog| <= |old(exchange.venue).listLog| + 1
      ensures r.Success? ==> r.value.protected == db.open.Some?
      ensures r.Success? && r.value.protected ==>
        && db.open.Some? && db.open.value.list.Some? && db.open.value.protection == Executing
        && AnsweredExecuting(db.open, exchange.listAnswers)
      decreases 2 * (1 - retries) + 1
    {
      hide Inv, IsRun, Retirable, HasUnresolved, GoodOco;
      CurrentList(W());
      if !TerminalProtection(trade.protection) {
        return Failure(NotProtected);
      }
      RetirableIsDead(W());
      var cleared := ClearProtection(trade.id, Reconciled);
      if cleared.Failure? {
        return Failure(Database(cleared.error));
      }
      SameOrders(old(db.Tables()), db.Tables());
      r := PlaceExchangeProtection(db.open.value, retries);
    }

    method CancelList(l: ListId) returns (done: bool)
      requires Valid()
      modifies this`worlds, this`steps, exchange`venue
      ensures Valid() && Continues() && Advance(old(exchange.venue), exchange.venue)
      ensures done ==> l in exchange.venue.lists && exchange.venue.lists[l].phase.Dead?
    {
      hide Inv, IsRun, Advance, GoodVenue;
      VenueIsGood(W());
      done := exchange.CancelOrderList(l);
      Note(Environment);
    }

    /**
      _cancel_exchange_protection: make sure that no list can sell any more. NoFill means that
      the open row names no list and the last one is dead with all its fills in the ledger.
    */
    method CancelExchangeProtection(trade: OpenTrade) returns (r: Result<FillReport, Fault>)
      requires Valid() && db.open == Some(trade)
      modifies this`worlds, this`steps, db
      modifies exchange`venue, exchange`listAnswers, exchange`listQueries, exchange`legAnswers, exchange`legFills
      ensures Valid() && Continues() && db.orders == old(db.orders)
      ensures KeepsTerms(trade, db.open)
      ensures exchange.venue.orderLog == old(exchange.venue).orderLog
      ensures exchange.venue.listLog == old(exchange.venue).listLog
      ensures r.Success? ==> TellsBooked(r.value, old(db.closed), db.closed, db.open.Some?)
      ensures r.Success? && r.value.FillSeen? && r.value.partialPending ==> AnsweredExecuting(db.open, exchange.listAnswers)
      ensures r == Success(NoFill) ==> db.open.Some? && db.open.value.list == None
      ensures r == Success(NoFill) && trade.list.Some? ==> Retired(exchange.venue, db.open.value, trade.list.value)
    {
      hide Inv, IsRun, Advance, Retirable, Retired;
      if trade.list.None? {
        return Success(NoFill);
      }
      var done := CancelList(trade.list.value);
      AdvanceKeepsLog(old(exchange.venue), exchange.venue);
      label asked:
      // A leg can fill while the cancellation is under way: look at the list in any case.
      r := ProtectiveFill(trade);
      AdvanceKeepsLog(old@asked(exchange.venue), exchange.venue);
      if r.Failure? || !r.value.NoFill? {
        return;
      }
      if !done && !TerminalProtection(db.open.value.protection) {
        return Failure(Uncertain);
      }
      ghost var w := W();
      var cleared := ClearProtection(trade.id, CanceledForExit);
      if cleared.Failure? {
        return Failure(Database(cleared.error));
      }
      ForgottenIsRetired(w, trade.id, CanceledForExit, db.Tables());
    }

    // -------------------------------------------------------------- market orders

    /** record_order_intent under a fresh client id. */
    method StoreOrderIntent(side: Side, qty: real) returns (r: Result<OrderId, Fault>)
      requires Valid() && qty > 0.0
      requires side.Buy? ==> Tolerance(qty) < exchange.venue.grain
      requires side.Sell? && db.open.Some? ==> db.open.value.list == None && qty <= db.open.value.quantity
      modifies this`worlds, this`steps, db
      ensures r.Failure? ==> r.error.Database?
      ensures Valid() && Continues()
      ensures r.Failure? ==> db.Tables() == old(db.Tables())
      ensures r.Success? ==>
        && r.value !in old(db.orders) && r.value !in exchange.venue.orders && side.Sell? == db.open.Some?
        && db.Tables() == old(db.Tables()).(orders := old(db.orders)[r.value := OrderRow(side, qty, 0.0, PendingSubmit, false)])
    {
      hide Inv, IsRun, GoodVenue, HasUnresolved;
      VenueIsGood(W());
      var c := exchange.FreshOrderId();
      var stored := db.RecordOrderIntent(c, side, qty);
      if stored.Failure? {
        return Failure(Database(stored.error));
      }
      NoteTx(OpIntent(c, side, qty));
      return Success(c);
    }

    /** market_order and, if no answer came, the query by client id: never a second submission. */
    method SendOrder(c: OrderId) returns (reply: Option<OrderDoc>)
      requires Valid() && IsUnresolved(db.Tables(), c) && c !in exchange.venue.orders
      requires db.orders[c].side.Sell? ==> db.open.Some?
      modifies this`worlds, this`steps, exchange`venue, exchange`orderAnswers, exchange`orderQueries
      ensures Valid() && Continues()
      ensures reply.Some? ==> TruthfulOrder(exchange.venue, symbol, c, reply.value)
      ensures reply.None? ==> exchange.orderQueries == old(exchange.orderQueries) + 2
      ensures reply.Some? ==> c in exchange.orderAnswers && exchange.orderAnswers[c] == reply.value
      ensures |exchange.venue.orderLog| <= |old(exchange.venue).orderLog| + 1
      ensures exchange.venue.listLog == old(exchange.venue).listLog && DeadStay(old(exchange.venue), exchange.venue)
    {
      hide Inv, IsRun, Advance, TruthfulOrder;
      var row := db.orders[c];
      var sent := *;
      if sent {
        exchange.AcceptOrder(c, if row.side.Sell? then db.open.value.id else 0, row.side, row.requested);
        Note(SubmitOrder(c));
      }
      label posted:
      reply := QueryOrder(c);
      AdvanceKeepsLog(old@posted(exchange.venue), exchange.venue);
      if reply.None? {
        label silent:
        reply := QueryOrder(c);
        AdvanceKeepsLog(old@silent(exchange.venue), exchange.venue);
      }
    }

    method QueryOrder(c: OrderId) returns (reply: Option<OrderDoc>)
      requires Valid()
      modifies this`worlds, this`steps, exchange`venue, exchange`orderAnswers, exchange`orderQueries
      ensures Valid() && Continues() && Advance(old(exchange.venue), exchange.venue)
      ensures reply.Some? ==> TruthfulOrder(exchange.venue, symbol, c, reply.value)
      ensures reply.None? ==> exchange.orderAnswers == old(exchange.orderAnswers)
      ensures exchange.orderQueries == old(exchange.orderQueries) + 1
      ensures reply.Some? ==> c in exchange.orderAnswers && exchange.orderAnswers[c] == reply.value
    {
      hide Inv, IsRun, Advance, TruthfulOrder;
      Elapse();
      reply := exchange.GetOrder(symbol, c);
    }

    /** update_order_record of an unresolved order. */
    method UpdateRecord(c: OrderId, executed: real, status: OrderStatus) returns (r: Result<(), Fault>)
      requires Valid() && IsUnresolved(db.Tables(), c)
      requires OrderFact(exchange.venue, c, executed, status) || (executed == 0.0 && !TerminalStatus(status))
      modifies this`worlds, this`steps, db
      ensures r.Failure? ==> r.error.Database?
      ensures Valid() && Continues()
      ensures SameRequests(old(db.orders), db.orders)
      ensures db.open == old(db.open) && db.closed == old(db.closed) && db.origins == old(db.origins)
      ensures r.Failure? ==> db.Tables() == old(db.Tables())
      ensures r.Success? ==> UpdateOrder(old(db.Tables()), c, executed, status) == Success(db.Tables())
    {
      hide Inv, IsRun, Guard, OrderFact;
      UpdateGuard(W(), c, executed, status);
      var updated := db.UpdateOrderRecord(c, executed, status);
      if updated.Failure? {
        return Failure(Database(updated.error));
      }
      NoteTx(OpUpdate(c, executed, status));
      return Success(());
    }

    /** The answer is not about this order, or its executed quantity is impossible. */
    predicate Unbelievable(d: OrderDoc, c: OrderId, side: Side, qty: real) {
      d.symbol != symbol || d.side != side || d.client != c
      || d.executed < 0.0 || d.executed > qty * (1.0 + 0.0000000001)
    }

    /** The order is not settled, or its fills do not account for what it executed, at a positive price. */
    predicate Unsettled(d: OrderDoc) {
      d.status !in {Filled, Canceled, Expired, ExpiredInMatch} || d.fills == []
      || !IsClose(FillSum(d.fills).qty, d.executed, 0.0) || AveragePrice(FillSum(d.fills)) <= 0.0
    }

    /**
      _submit_market_order. The intent is stored first and one request at most is sent. On normal
      return the record holds what the exchange reported; if anything executed the order is
      terminal, unapplied, and its fills are complete.
    */
    method SubmitMarketOrder(side: Side, qty: real) returns (c: OrderId, r: Result<OrderDoc, Fault>)
      requires Valid() && qty > 0.0
      requires side.Buy? ==> Tolerance(qty) < exchange.venue.grain
      requires side.Sell? && db.open.Some? ==> db.open.value.list == None && qty <= db.open.value.quantity
      modifies this`worlds, this`steps, db, exchange`venue, exchange`orderAnswers, exchange`orderQueries
      ensures Valid() && Continues()
      ensures |exchange.venue.orderLog| <= |old(exchange.venue).orderLog| + 1
      ensures exchange.venue.listLog == old(exchange.venue).listLog && DeadStay(old(exchange.venue), exchange.venue)
      ensures db.orders.Keys <= old(db.orders).Keys + {c}
      ensures db.open == old(db.open) && db.closed == old(db.closed) && db.origins == old(db.origins)
      ensures c in db.orders && c !in old(db.orders) ==> db.orders[c].side == side && db.orders[c].requested == qty
      ensures r.Failure? ==> r.error !in {Refused, Filtered, NotExecuted}
      ensures r == Failure(Uncertain) ==> exchange.orderQueries == old(exchange.orderQueries) + 2
      ensures r == Failure(Unverified) ==>
        c in exchange.orderAnswers && Unbelievable(exchange.orderAnswers[c], c, side, qty)
      ensures r == Failure(Incomplete) ==>
        && c in exchange.orderAnswers && exchange.orderAnswers[c].executed > 0.0 && Unsettled(exchange.orderAnswers[c])
      ensures r.Success? ==> c !in old(db.orders) && c in exchange.orderAnswers && exchange.orderAnswers[c] == r.value
      ensures r.Success? ==>
        && c in db.orders && db.orders[c].side == side && !db.orders[c].applied
        && db.orders[c].executed == r.value.executed && db.orders[c].status == r.value.status
        && !Unbelievable(r.value, c, side, qty) && (r.value.executed > 0.0 ==> !Unsettled(r.value))
    {
      hide Inv, IsRun, Advance, TruthfulOrder, GoodVenue, Unbelievable, Unsettled, UpdateOrder;
      c := 0;
      var intent := StoreOrderIntent(side, qty);
      if intent.Failure? {
        return c, Failure(intent.error);
      }
      c := intent.value;
      var reply := SendOrder(c);
      if reply.None? {
        var _ := UpdateRecord(c, 0.0, Unknown);
        return c, Failure(Uncertain);
      }
      label answered:
      r := RecordAnswer(c, side, qty, reply.value);
    }

    /** The rest of _submit_market_order: believe the answer, record it, and demand complete fills. */
    method RecordAnswer(c: OrderId, side: Side, qty: real, order: OrderDoc) returns (r: Result<OrderDoc, Fault>)
      requires Valid() && IsUnresolved(db.Tables(), c) && db.orders[c].side == side && db.orders[c].requested == qty
      requires TruthfulOrder(exchange.venue, symbol, c, order)
      modifies this`worlds, this`steps, db, exchange`venue
      ensures Valid() && Continues() && SameRequests(old(db.orders), db.orders)
      ensures exchange.venue.orderLog == old(exchange.venue).orderLog
      ensures exchange.venue.listLog == old(exchange.venue).listLog && DeadStay(old(exchange.venue), exchange.venue)
      ensures db.open == old(db.open) && db.closed == old(db.closed) && db.origins == old(db.origins)
      ensures r.Failure? ==> r.error.Database? || r.error in {Unverified, Incomplete}
      ensures r == Failure(Unverified) ==> Unbelievable(order, c, side, qty)
      ensures r == Failure(Incomplete) ==> order.executed > 0.0 && Unsettled(order)
      ensures r.Success? ==> r.value == order
      ensures r.Success? ==>
        && !db.orders[c].applied && db.orders[c].executed == order.executed && db.orders[c].status == order.status
        && !Unbelievable(order, c, side, qty) && (order.executed > 0.0 ==> !Unsettled(order))
    {
      hide Inv, IsRun, Advance, TruthfulOrder, OrderFact, GoodVenue, FillSum, AveragePrice, IsClose;
      OnlyAppliedResolved(W(), c);
      if order.symbol != symbol || order.side != side || order.client != c {
        return Failure(Unverified);
      }
      if order.executed < 0.0 || order.executed > qty * (1.0 + 0.0000000001) {
        return Failure(Unverified);
      }
      VenueIsGood(W());
      ReplyIsOrderFact(exchange.venue, symbol, c, order);
      Elapse();  // the fee is valued while the exchange moves on
      OrderFactOn(old(exchange.venue), exchange.venue, c, order.executed, order.status);
      AdvanceKeepsLog(old(exchange.venue), exchange.venue);
      var price := AveragePrice(FillSum(order.fills));
      var updated := UpdateRecord(c, order.executed, order.status);
      if updated.Failure? {
        return Failure(updated.error);
      }
      if order.executed > 0.0
         && (!AppliableStatus(order.status) || order.fills == []
             || !IsClose(FillSum(order.fills).qty, order.executed, 0.0) || price <= 0.0) {
        return Failure(Incomplete);
      }
      return Success(order);
    }

    /** open_trade for an executed BUY. */
    method OpenPosition(c: OrderId, quantity: real, price: real, fee: real, stop: real, take: real)
      returns (r: Result<TradeId, Fault>)
      requires Valid() && c in db.orders && 0.0 < quantity <= db.orders[c].executed && fee >= 0.0
      modifies this`worlds, this`steps, db
      ensures r.Failure? ==> r.error.Database?
      ensures Valid() && Continues()
      ensures SameRequests(old(db.orders), db.orders)
      ensures r.Failure? ==> db.Tables() == old(db.Tables())
      ensures r.Success? ==>
        && OpenTradeTx(old(db.Tables()), Some(c), quantity, price, fee, stop, take) == Success(db.Tables())
        && db.open.Some? && db.open.value.id == r.value && db.open.value.list == None && !HasUnresolved(db.Tables())
        && db.open.value.quantity == quantity && db.open.value.entryPrice == price
        && db.open.value.stop == stop && db.open.value.takeProfit == take
    {
      hide Inv, IsRun, OpenTradeTx, HasUnresolved;
      ghost var w := W();
      var booked := db.OpenTrade(Some(c), quantity, price, fee, stop, take);
      if booked.Failure? {
        return Failure(Database(booked.error));
      }
      NoteTx(OpOpen(Some(c), quantity, price, fee, stop, take));
      OpenedLeavesNone(w, c, quantity, price, fee, stop, take, db.Tables());
      return Success(booked.value);
    }

    /** close_trade for an executed SELL. */
    method ClosePosition(id: TradeId, price: real, fee: real, c: OrderId) returns (r: Result<(), Fault>)
      requires Valid() && c in db.orders
      modifies this`worlds, this`steps, db
      ensures r.Failure? ==> r.error.Database?
      ensures Valid() && Continues() && SameRequests(old(db.orders), db.orders)
      ensures r.Failure? ==> db.Tables() == old(db.Tables())
      ensures r.Success? ==>
        && CloseTradeTx(old(db.Tables()), id, price, fee, Some(old(db.orders)[c].executed), Some(c)) == Success(db.Tables())
        && !HasUnresolved(db.Tables()) && db.closed != []
        && LastClosed(db.Tables()).exitPrice == price && LastClosed(db.Tables()).cause == ByOrder(c)
        && (db.open.None? || (old(db.open).Some? && db.open.value.quantity < old(db.open).value.quantity))
    {
      hide Inv, IsRun, CloseTradeTx, HasUnresolved;
      ghost var w := W();
      var executed := db.orders[c].executed;
      if db.open.Some? {
        OpenIsPositive(W());
      }
      var closed := db.CloseTrade(id, price, fee, Some(executed), Some(c));
      if closed.Failure? {
        return Failure(Database(closed.error));
      }
      NoteTx(OpClose(id, price, fee, Some(executed), Some(c)));
      ClosedLeavesNone(w, c, id, price, fee, Some(executed), db.Tables());
      return Success(());
    }

    // -------------------------------------------------------------- entry

    /**
      enter, in testnet or live mode. Nothing happens while a position is open or an order is
      unresolved. At most one order is sent, for at most the risk quantity; success means the
      position was opened at the price of the fills answered for it, with stop and target from
      that price, and is protected, or was closed again by its own protection.
    */
    method Enter(riskQuantity: real, price: real) returns (r: Result<TradeId, Fault>, ghost c: OrderId)
      requires Valid() && Tolerance(riskQuantity) < exchange.venue.grain
      modifies this`worlds, this`steps, db, exchange
      ensures Valid() && Continues()
      ensures forall d :: d in db.orders && d !in old(db.orders) ==>
        d == c && db.orders[d].side.Buy? && db.orders[d].requested <= riskQuantity && price > 0.0
      ensures |exchange.venue.orderLog| <= |old(exchange.venue).orderLog| + 1
      ensures |exchange.venue.listLog| <= |old(exchange.venue).listLog| + 2
      ensures old(HasUnresolved(db.Tables()) || db.open.Some?) ==>
        r.Failure? && db.Tables() == old(db.Tables()) && exchange.venue == old(exchange.venue)
      ensures r == Failure(Filtered) ==> exchange.lotAnswer <= 0.0 || !exchange.liquidAnswer
      ensures r == Failure(Refused) <==>
        price <= 0.0 || riskQuantity <= 0.0 || old(HasUnresolved(db.Tables()) || db.open.Some?)
      ensures r.Success? ==> c in db.orders && c !in old(db.orders) && c in exchange.orderAnswers
      ensures r.Success? && db.open.Some? ==>
        && db.open.value.id == r.value && IsFillPrice(db.open.value.entryPrice, exchange.orderAnswers[c].fills)
        && db.open.value.quantity
           <= Max(0.0, exchange.orderAnswers[c].executed - Max(0.0, TotalBase(exchange.orderAnswers[c].fills)))
        && db.open.value.stop == db.open.value.entryPrice * (1.0 - cfg.stopLossPct)
        && db.open.value.takeProfit == db.open.value.entryPrice * (1.0 + cfg.takeProfitPct)
      ensures r.Success? && db.open.Some? ==>
        && db.open.value.list.Some? && db.open.value.protection == Executing
        && var l := db.open.value.list.value;
           l in exchange.listAnswers && exchange.listAnswers[l].list == l && exchange.listAnswers[l].status == ListExecuting
    {
      hide Inv, IsRun, HasUnresolved, IsFillPrice;
      c := 0;
      if price <= 0.0 || riskQuantity <= 0.0 {
        return Failure(Refused), c;
      }
      var pending := db.HasUnresolvedOrder();
      if pending || db.open.Some? {
        return Failure(Refused), c;
      }
      var qty := exchange.NormalizeQuantity(riskQuantity);
      var liquid := exchange.CheckLiquidity();
      if qty <= 0.0 || qty > riskQuantity || !liquid {
        return Failure(Filtered), c;
      }
      r, c := BuyAndHold(qty);
    }

    /** Send the BUY of an entry that passed every check, and hold what it brought. */
    method BuyAndHold(qty: real) returns (r: Result<TradeId, Fault>, ghost c: OrderId)
      requires Valid() && Tolerance(qty) < exchange.venue.grain && qty > 0.0
      modifies this`worlds, this`steps, db, exchange
      ensures Valid() && Continues()
      ensures forall d :: d in db.orders && d !in old(db.orders) ==>
        d == c && db.orders[d].side.Buy? && db.orders[d].requested == qty
      ensures |exchange.venue.orderLog| <= |old(exchange.venue).orderLog| + 1
      ensures |exchange.venue.listLog| <= |old(exchange.venue).listLog| + 2
      ensures r == Failure(NotExecuted) ==> c in db.orders && (db.orders[c].executed <= 0.0 || exchange.lotAnswer <= 0.0)
      ensures r.Failure? ==> r.error !in {Refused, Filtered}
      ensures r.Success? ==> c in db.orders && c !in old(db.orders) && c in exchange.orderAnswers
      ensures r.Success? && db.open.Some? ==> db.open.value.id == r.value && HeldAtFills(exchange.orderAnswers[c])
    {
      hide Inv, IsRun, HasUnresolved, HeldAtFills, Unbelievable, Unsettled;
      c := 0;
      var id, sent := SubmitMarketOrder(Buy, qty);
      c := id;
      if sent.Failure? {
        return Failure(sent.error), c;
      }
      var order := sent.value;
      if order.executed <= 0.0 {
        return Failure(NotExecuted), c;
      }
      SettledPrice(order);
      r := HoldFilled(id, order);
    }

    lemma SettledPrice(d: OrderDoc)
      requires !Unsettled(d)
      ensures AveragePrice(FillSum(d.fills)) > 0.0
    {
    }

    /** The open position is what the fills of this answer left, at their price, and its list is executing. */
    ghost predicate HeldAtFills(d: OrderDoc)
      requires db.open.Some?
      reads db, exchange`listAnswers
    {
      && IsFillPrice(db.open.value.entryPrice, d.fills)
      && db.open.value.quantity <= Max(0.0, d.executed - Max(0.0, TotalBase(d.fills)))
      && db.open.value.stop == Below(db.open.value.entryPrice, cfg.stopLossPct)
      && db.open.value.takeProfit == Above(db.open.value.entryPrice, cfg.takeProfitPct)
      && db.open.value.protection == Executing && AnsweredExecuting(db.open, exchange.listAnswers)
    }

    /** The second half of enter: record what the executed BUY left and protect it. */
    method HoldFilled(c: OrderId, order: OrderDoc) returns (r: Result<TradeId, Fault>)
      requires Valid() && c in db.orders && db.orders[c].executed == order.executed
      requires AveragePrice(FillSum(order.fills)) > 0.0
      modifies this`worlds, this`steps, db, exchange`lotAnswer
      modifies exchange`venue, exchange`listAnswers, exchange`listQueries, exchange`legAnswers, exchange`legFills
      ensures r.Failure? ==> ObservationFault(r.error) || r.error in {NotProtected, NotExecuted}
      ensures Valid() && Continues() && SameRequests(old(db.orders), db.orders)
      ensures exchange.venue.orderLog == old(exchange.venue).orderLog
      ensures |exchange.venue.listLog| <= |old(exchange.venue).listLog| + 2
      ensures r == Failure(NotExecuted) ==> exchange.lotAnswer <= 0.0
      ensures r.Success? && db.open.Some? ==> db.open.value.id == r.value && HeldAtFills(order)
    {
      hide Inv, IsRun, HasUnresolved, FillSum, OpenTradeTx, IsFillPrice, AveragePrice, Below, Above;
      var fill := AveragePrice(FillSum(order.fills));
      SummedPrice(order.fills, fill);
      var held := exchange.NormalizeQuantity(Max(0.0, order.executed - Max(0.0, BaseCommission(order.fills))));
      if held <= 0.0 {
        return Failure(NotExecuted);
      }
      var fee := exchange.OrderFeeQuote();
      r := OpenPosition(c, held, fill, fee, RiskStop(cfg, fill), RiskTake(cfg, fill));
      if r.Failure? {
        return;
      }
      var placed := PlaceExchangeProtection(db.open.value, 0);
      if placed.Failure? {
        return Failure(placed.error);
      }
    }

    // -------------------------------------------------------------- exit

    /** The ratchet of maybe_exit; tells whether the stop was raised. */
    method RatchetStop(trade: OpenTrade, price: real) returns (r: Result<bool, Fault>)
      requires Valid() && db.open == Some(trade)
      modifies this`worlds, this`steps, db
      ensures Valid() && Continues()
      ensures trade.quantity > 0.0 && RaisedStop(cfg, trade, price) >= trade.stop
      ensures r.Failure? ==> db.Tables() == old(db.Tables())
      ensures r.Success? ==>
        && db.Tables() == old(db.Tables()).(open :=
             Some(trade.(highest := Max(trade.highest, price), stop := RaisedStop(cfg, trade, price))))
        && r.value == (RaisedStop(cfg, trade, price) > trade.stop)
    {
      hide Inv, IsRun;
      OpenIsPositive(W());
      var high := Max(trade.highest, price);
      var stop := RaisedStop(cfg, trade, price);
      if high <= trade.highest && stop <= trade.stop {
        return Success(false);
      }
      var raised := db.RaisePositionStop(trade.id, high, stop);
      if raised.Failure? {
        return Failure(Database(raised.error));
      }
      NoteTx(OpRaiseStop(trade.id, high, stop));
      return Success(db.open.value.stop > trade.stop);
    }

    /** The CLOSED row written last. */
    ghost function LastSale(): Option<ClosedTrade>
      reads db
    {
      if db.closed == [] then None else Some(db.closed[|db.closed| - 1])
    }

    /** The row is a sale by an order not known before, at the price of the fills answered for it. */
    ghost predicate SoldAtFills(row: Option<ClosedTrade>, known: set<OrderId>)
      reads exchange`orderAnswers, exchange`orderQueries
    {
      && row.Some? && row.value.cause.ByOrder? && row.value.cause.order !in known
      && row.value.cause.order in exchange.orderAnswers
      && IsFillPrice(row.value.exitPrice, exchange.orderAnswers[row.value.cause.order].fills)
    }

    /** The list that protected t, if there was one, can sell nothing any more. */
    predicate ListIsDead(v: Venue, t: OpenTrade) {
      t.list.Some? ==> t.list.value in v.lists && v.lists[t.list.value].phase.Dead?
    }

    /**
      maybe_exit. Nothing happens while an order is unresolved, at most one order is sent, and
      the stop of the position never falls.
    */
    method MaybeExit(price: real, sellSignal: bool) returns (r: Result<Cycle, Fault>)
      requires Valid()
      modifies this`worlds, this`steps, db, exchange
      ensures Valid() && Continues()
      ensures |exchange.venue.orderLog| <= |old(exchange.venue).orderLog| + 1
      ensures old(HasUnresolved(db.Tables())) ==> db.Tables() == old(db.Tables()) && exchange.venue == old(exchange.venue)
      ensures r == Success(InvalidPrice) <==> price <= 0.0
      ensures r == Success(NoPosition) <==> price > 0.0 && old(db.open).None?
      ensures r == Success(Blocked) <==> price > 0.0 && old(db.open).Some? && old(HasUnresolved(db.Tables()))
      ensures r == Success(FillBooked) ==> |db.closed| > |old(db.closed)|
      ensures r == Success(StillProtected) ==> db.closed == old(db.closed) && AnsweredExecuting(db.open, exchange.listAnswers)
      ensures exchange.venue.orderLog != old(exchange.venue).orderLog || r == Success(SoldOut) ==>
        && old(db.open).Some? && ListIsDead(exchange.venue, old(db.open).value)
        && (price <= old(db.open).value.stop || old(db.open).value.takeProfit <= price || sellSignal)
      ensures r.Success? && r.value in {Retained, StopRaised, Reprotected, Installed} ==>
        old(db.open).Some? && old(db.open).value.stop < price < old(db.open).value.takeProfit && !sellSignal
      ensures r.Success? && r.value in {Retained, StopRaised, Reprotected, Installed} && db.open.Some? ==>
        if r.value == StopRaised && db.open.value.list == None then old(db.open).value.list == None
        else AnsweredExecuting(db.open, exchange.listAnswers)
      ensures r == Success(SoldOut) ==> db.open.None? || db.open.value.quantity < old(db.open).value.quantity
      ensures r == Success(SoldOut) ==> SoldAtFills(LastSale(), old(db.orders).Keys)
      ensures forall c :: c in db.orders && c !in old(db.orders) ==>
        && old(db.open).Some? && db.orders[c].side.Sell?
        && db.orders[c].requested <= Min(old(db.open).value.quantity, exchange.freeAnswer)
      ensures old(db.open).Some? ==>
        StopAtLeast(db.Tables(), old(db.open).value.id, old(db.open).value.stop, old(db.open).value.takeProfit)
    {
      hide HasUnresolved, SoldAtFills, LastSale, AnsweredExecuting, ListIsDead, Inv, Next;
      ghost var i := |steps|;
      ghost var w := W();
      if db.open.Some? {
        OpenIsPositive(W());
      }
      r := ExitCycle(price, sellSignal);
      if w.book.open.Some? {
        KeptStop(w, i);
      }
    }

    ghost method KeptStop(w: World, i: nat)
      requires Valid() && i < |worlds| && worlds[i] == w && Inv(w) && w.book.open.Some?
      ensures StopAtLeast(db.Tables(), w.book.open.value.id, w.book.open.value.stop, w.book.open.value.takeProfit)
    {
      var t := w.book.open.value;
      StopNeverFalls(worlds, steps, i, |steps|, t.id, t.stop, t.takeProfit);
    }

    method ExitCycle(price: real, sellSignal: bool) returns (r: Result<Cycle, Fault>)
      requires Valid()
      modifies this`worlds, this`steps, db, exchange
      ensures Valid() && Continues()
      ensures |exchange.venue.orderLog| <= |old(exchange.venue).orderLog| + 1
      ensures old(HasUnresolved(db.Tables())) ==> db.Tables() == old(db.Tables()) && exchange.venue == old(exchange.venue)
      ensures r == Success(InvalidPrice) <==> price <= 0.0
      ensures r == Success(NoPosition) <==> price > 0.0 && old(db.open).None?
      ensures r == Success(Blocked) <==> price > 0.0 && old(db.open).Some? && old(HasUnresolved(db.Tables()))
      ensures r == Success(FillBooked) ==> |db.closed| > |old(db.closed)|
      ensures r == Success(StillProtected) ==> db.closed == old(db.closed) && AnsweredExecuting(db.open, exchange.listAnswers)
      ensures exchange.venue.orderLog != old(exchange.venue).orderLog || r == Success(SoldOut) ==>
        && old(db.open).Some? && ListIsDead(exchange.venue, old(db.open).value)
        && (price <= old(db.open).value.stop || old(db.open).value.takeProfit <= price || sellSignal)
      ensures r.Success? && r.value in {Retained, StopRaised, Reprotected, Installed} ==>
        old(db.open).Some? && old(db.open).value.stop < price < old(db.open).value.takeProfit && !sellSignal
      ensures r.Success? && r.value in {Retained, StopRaised, Reprotected, Installed} && db.open.Some? ==>
        if r.value == StopRaised && db.open.value.list == None then old(db.open).value.list == None
        else AnsweredExecuting(db.open, exchange.listAnswers)
      ensures r == Success(SoldOut) ==> db.open.None? || db.open.value.quantity < old(db.open).value.quantity
      ensures r == Success(SoldOut) ==> SoldAtFills(LastSale(), old(db.orders).Keys)
      ensures forall c :: c in db.orders && c !in old(db.orders) ==>
        && old(db.open).Some? && db.orders[c].side.Sell?
        && db.orders[c].requested <= Min(old(db.open).value.quantity, exchange.freeAnswer)
    {
      hide Inv, IsRun, HasUnresolved, Advance, Retirable, TellsBooked, AfterFill, LegAnswersFit;
      hide SoldAtFills, LastSale, StatusAnswered, AnsweredExecuting;
      if price <= 0.0 {
        return Success(InvalidPrice);
      }
      if db.open.None? {
        return Success(NoPosition);
      }
      var pending := db.HasUnresolvedOrder();
      if pending {
        return Success(Blocked);
      }
      if db.open.value.list.Some? {
        var seen := ProtectiveFill(db.open.value);
        SameOrders(old(db.Tables()), db.Tables());
        AdvanceKeepsLog(old(exchange.venue), exchange.venue);
        if seen.Failure? {
          return Failure(seen.error);
        }
        FillCycle(seen.value, old(db.closed), db.closed, db.open.Some?);
        if !seen.value.NoFill? {
          return Success(AfterFill(seen.value));
        }
      }
      var trade := db.open.value;
      if ReasonToExit(trade, price, sellSignal) {
        r := SoftwareExit(trade, price);
      } else {
        r := Retain(trade, price);
      }
    }

    /** No reason to leave: replace a terminal list, ratchet the stop, or install a missing list. */
    method Retain(trade: OpenTrade, price: real) returns (r: Result<Cycle, Fault>)
      requires Valid() && db.open == Some(trade) && !HasUnresolved(db.Tables())
      requires trade.list.Some? && TerminalProtection(trade.protection) ==> Retirable(W())
      requires trade.list.Some? ==> StatusAnswered(Some(trade), exchange.listAnswers, symbol)
      modifies this`worlds, this`steps, db
      modifies exchange`venue, exchange`listAnswers, exchange`listQueries, exchange`legAnswers, exchange`legFills
      ensures Valid() && Continues() && db.orders == old(db.orders)
      ensures r.Success? ==> r.value in {FillBooked, Reprotected, StopRaised, Installed, Retained}
      ensures r == Success(FillBooked) ==> |db.closed| > |old(db.closed)|
      ensures exchange.venue.orderLog == old(exchange.venue).orderLog
      ensures old(db.closed) <= db.closed && (db.open.None? ==> |db.closed| > |old(db.closed)|)
      ensures r.Success? && r.value != FillBooked && db.open.Some? ==>
        if r.value == StopRaised && db.open.value.list == None then trade.list == None
        else AnsweredExecuting(db.open, exchange.listAnswers)
    {
      hide Inv, IsRun, HasUnresolved, Retirable;
      if trade.list.Some? && TerminalProtection(trade.protection) {
        var rearmed := RearmTerminalProtection(trade, 1);
        if rearmed.Failure? {
          return Failure(rearmed.error);
        }
        return Success(if rearmed.value.protected then Reprotected else FillBooked);
      }
      if cfg.enableTrailing {
        var ratchet := RatchetStop(trade, price);
        SameOrders(old(db.Tables()), db.Tables());
        if ratchet.Failure? {
          return Failure(ratchet.error);
        }
        if ratchet.value {
          return Success(StopRaised);
        }
      }
      if trade.list.None? {
        var placed := PlaceExchangeProtection(db.open.value, 0);
        if placed.Failure? {
          return Failure(placed.error);
        }
        return Success(Installed);
      }
      return Success(Retained);
    }

    /** Retire the list, then sell what is left with one market order. */
    method SoftwareExit(trade: OpenTrade, price: real) returns (r: Result<Cycle, Fault>)
      requires Valid() && db.open == Some(trade)
      modifies this`worlds, this`steps, db, exchange
      ensures Valid() && Continues()
      ensures r.Success? ==> r.value in {StillProtected, FillBooked, SoldOut}
      ensures r == Success(FillBooked) ==> |db.closed| > |old(db.closed)|
      ensures r == Success(StillProtected) ==> db.closed == old(db.closed) && AnsweredExecuting(db.open, exchange.listAnswers)
      ensures r == Success(SoldOut) ==> db.open.None? || db.open.value.quantity < trade.quantity
      ensures r == Success(SoldOut) ==> SoldAtFills(LastSale(), old(db.orders).Keys) && ListIsDead(exchange.venue, trade)
      ensures forall c :: c in db.orders && c !in old(db.orders) ==>
        db.orders[c].side.Sell? && db.orders[c].requested <= Min(trade.quantity, exchange.freeAnswer)
      ensures exchange.venue.orderLog != old(exchange.venue).orderLog ==> ListIsDead(exchange.venue, trade)
      ensures |exchange.venue.orderLog| <= |old(exchange.venue).orderLog| + 1
    {
      hide Inv, IsRun, HasUnresolved, TellsBooked, AfterFill, AnsweredExecuting, SoldAtFills, LastSale;
      var drift := *;  // _position_inventory_issue: the account does not hold the recorded position
      if drift {
        return Failure(Refused);
      }
      var canceled := CancelExchangeProtection(trade);
      if canceled.Failure? {
        return Failure(canceled.error);
      }
      FillCycle(canceled.value, old(db.closed), db.closed, db.open.Some?);
      if !canceled.value.NoFill? {
        return Success(AfterFill(canceled.value));
      }
      r := SellRest(db.open.value);
    }

    /** Sell a position that no list protects any more. */
    method SellRest(trade: OpenTrade) returns (r: Result<Cycle, Fault>)
      requires Valid() && db.open == Some(trade) && trade.list == None
      modifies this`worlds, this`steps, db, exchange
      ensures Valid() && Continues() && DeadStay(old(exchange.venue), exchange.venue)
      ensures r.Success? ==> r == Success(SoldOut)
      ensures r == Failure(NotExecuted) ==> exists c :: c in db.orders && c !in old(db.orders) && db.orders[c].executed <= 0.0
      ensures r == Failure(Refused) ==> exchange.lotAnswer <= 0.0
      ensures r == Success(SoldOut) ==> db.open.None? || db.open.value.quantity < trade.quantity
      ensures r == Success(SoldOut) ==> SoldAtFills(LastSale(), old(db.orders).Keys)
      ensures forall c :: c in db.orders && c !in old(db.orders) ==>
        db.orders[c].side.Sell? && db.orders[c].requested <= Min(trade.quantity, exchange.freeAnswer)
      ensures |exchange.venue.orderLog| <= |old(exchange.venue).orderLog| + 1
    {
      hide Inv, IsRun, HasUnresolved, FillSum, CloseTradeTx, IsFillPrice, AveragePrice, DeadStay;
      var available := exchange.AssetBalance();
      StaysDead(exchange.venue);
      var qty := exchange.NormalizeQuantity(Min(trade.quantity, available));
      if qty <= 0.0 {
        return Failure(Refused);
      }
      OpenIsPositive(W());
      var c, sent := SubmitMarketOrder(Sell, qty);
      if sent.Failure? {
        return Failure(sent.error);
      }
      if sent.value.executed <= 0.0 {
        return Failure(NotExecuted);
      }
      var fee := exchange.OrderFeeQuote();
      var price := AveragePrice(FillSum(sent.value.fills));
      SummedPrice(sent.value.fills, price);
      var closed := ClosePosition(trade.id, price, fee, c);
      if closed.Failure? {
        return Failure(closed.error);
      }
      return Success(SoldOut);
    }

    // -------------------------------------------------------------- recovery

    /** One unresolved record of reconcile_unresolved_orders. */
    method ResolveOrder(c: OrderId) returns (resolved: bool)
      requires Valid() && IsUnresolved(db.Tables(), c)
      modifies this`worlds, this`steps, db, exchange
      ensures Valid() && Continues()
      ensures exchange.venue.orderLog == old(exchange.venue).orderLog
      ensures resolved ==> !HasUnresolved(db.Tables()) && Settled(W(), c)
      ensures resolved && db.orders[c].executed > 0.0 ==>
        c in exchange.orderAnswers && BookedAtFills(old(db.orders)[c].side, exchange.orderAnswers[c])
    {
      var outcome := RecoverOrder(c);
      resolved := outcome == Resolved;
      if resolved {
        ResolvedIsSettled(W(), c);
      }
    }

    /** The account fills last answered for the order of this document. */
    ghost function FillsAnswered(d: OrderDoc): seq<TradeFill>
      reads exchange`fillAnswers
    {
      if d.orderId.Some? && d.orderId.value in exchange.fillAnswers
      then OfOrder(exchange.fillAnswers[d.orderId.value], d.orderId.value) else []
    }

    /** What was booked last was booked for complete account fills of this order, at their price. */
    ghost predicate BookedAtFills(side: Side, d: OrderDoc)
      reads db, exchange`fillAnswers
    {
      var fills := FillsAnswered(d);
      && IsClose(TotalQty(fills), d.executed, CLOSE_DUST)
      && match side
         case Buy => db.open.Some? ==>
           && IsFillPrice(db.open.value.entryPrice, fills)
           && db.open.value.quantity <= Max(0.0, d.executed - Max(0.0, TotalBase(fills)))
           && db.open.value.stop == Below(db.open.value.entryPrice, cfg.stopLossPct)
           && db.open.value.takeProfit == Above(db.open.value.entryPrice, cfg.takeProfitPct)
         case Sell => LastSale().Some? && IsFillPrice(LastSale().value.exitPrice, fills)
    }

    /** The answer is about this order and not behind its record. */
    predicate Matches(d: OrderDoc, c: OrderId, row: OrderRow) {
      d.symbol == symbol && d.side == row.side && d.client == c && row.executed <= d.executed
    }

    /** Why the answer d, a matching one with an execution, could not be booked. */
    ghost predicate Excuse(outcome: Recovery, d: OrderDoc, open: Option<OpenTrade>)
      reads exchange`fillAnswers
    {
      var fills := FillsAnswered(d);
      match outcome
      case IncompleteFills => TotalQty(fills) <= 0.0 || !IsClose(TotalQty(fills), d.executed, CLOSE_DUST)
      case NoFillPrice => TotalQty(fills) > 0.0 && TotalQuote(fills) <= 0.0
      case Occupied => d.side.Buy? && open.Some?
      case NothingHeld => d.side.Buy? && d.executed <= Max(0.0, TotalBase(fills))
      case NoPositionLeft => d.side.Sell? && open.None?
      case _ => outcome.Resolved? || outcome.Unbooked?
    }

    method RecoverOrder(c: OrderId) returns (outcome: Recovery)
      requires Valid() && IsUnresolved(db.Tables(), c)
      modifies this`worlds, this`steps, db, exchange
      ensures Valid() && Continues() && c in db.orders
      ensures exchange.venue.orderLog == old(exchange.venue).orderLog
      ensures outcome.Unanswered? ==> exchange.orderAnswers == old(exchange.orderAnswers)
      ensures !outcome.Unanswered? ==> c in exchange.orderAnswers
      ensures outcome.Resolved? ==> !HasUnresolved(db.Tables())
      ensures outcome.Resolved? && db.orders[c].executed > 0.0 ==>
        BookedAtFills(old(db.orders)[c].side, exchange.orderAnswers[c])
      ensures !outcome.Unanswered? ==>
        var d := exchange.orderAnswers[c];
        && (outcome.Mismatched? <==> !Matches(d, c, old(db.orders)[c]))
        && (outcome.NotTerminal? ==>
              if d.executed <= 0.0 then d.status !in {Filled, Canceled, Rejected, Expired, ExpiredInMatch}
              else d.status !in {Filled, Canceled, Expired, ExpiredInMatch} || d.orderId.None?)
        && (d.executed > 0.0 && !outcome.NotTerminal? && !outcome.Mismatched? ==> Excuse(outcome, d, old(db.open)))
    {
      hide Inv, IsRun, HasUnresolved, Advance, TruthfulOrder, OrderFact, GoodVenue, BookedAtFills, Excuse;
      var record := db.orders[c];
      var reply := QueryOrder(c);
      AdvanceKeepsLog(old(exchange.venue), exchange.venue);
      if reply.None? {
        return Unanswered;
      }
      var order := reply.value;
      if order.symbol != symbol || order.side != record.side || order.client != c || order.executed < record.executed {
        return Mismatched;
      }
      VenueIsGood(W());
      ReplyIsOrderFact(exchange.venue, symbol, c, order);
      if order.executed <= 0.0 {
        outcome := RecordNothing(c, order);
        return;
      }
      if !AppliableStatus(order.status) || order.orderId.None? {
        MarkRecovery(c, order);
        return NotTerminal;
      }
      outcome := BookRecovered(c, order);
    }

    /** The rest of one recovery: the account fills must account for the whole execution. */
    method BookRecovered(c: OrderId, order: OrderDoc) returns (outcome: Recovery)
      requires Valid() && IsUnresolved(db.Tables(), c) && OrderFact(exchange.venue, c, order.executed, order.status)
      requires order.executed > 0.0 && order.side == db.orders[c].side && order.orderId.Some?
      requires AppliableStatus(order.status)
      modifies this`worlds, this`steps, db, exchange`venue, exchange`fillAnswers
      modifies exchange`listAnswers, exchange`listQueries, exchange`legAnswers, exchange`legFills
      ensures Valid() && Continues() && c in db.orders
      ensures exchange.venue.orderLog == old(exchange.venue).orderLog
      ensures outcome.Resolved? ==> !HasUnresolved(db.Tables()) && BookedAtFills(order.side, order)
      ensures !outcome.Unanswered? && !outcome.Mismatched? && !outcome.NotTerminal? && Excuse(outcome, order, old(db.open))
    {
      hide Inv, IsRun, HasUnresolved, Advance, OrderFact, FillTotals, AnsweredExecuting, IsClose;
      Elapse();  // my_trades is asked while the exchange moves on
      OrderFactOn(old(exchange.venue), exchange.venue, c, order.executed, order.status);
      AdvanceKeepsLog(old(exchange.venue), exchange.venue);
      var trades := exchange.OrderTrades(order.orderId.value);
      var fills := if trades.Some? then trades.value else [];
      var total := FillTotals(fills, order.orderId.value);
      var mine := OfOrder(fills, order.orderId.value);
      FillTotalsAre(fills, order.orderId.value);
      if total.qty <= 0.0 || !IsClose(total.qty, order.executed, CLOSE_DUST) {
        MarkRecovery(c, order);
        return IncompleteFills;
      }
      outcome := ApplyRecovered(c, order, mine, Fill(total.qty, total.quote));
    }

    /** Book complete fills, at their price. */
    method ApplyRecovered(c: OrderId, order: OrderDoc, fills: seq<TradeFill>, total: Fill) returns (outcome: Recovery)
      requires Valid() && IsUnresolved(db.Tables(), c) && OrderFact(exchange.venue, c, order.executed, order.status)
      requires order.executed > 0.0 && order.side == db.orders[c].side && AppliableStatus(order.status)
      requires total == Fill(TotalQty(fills), TotalQuote(fills)) && total.qty > 0.0
      requires fills == FillsAnswered(order) && IsClose(TotalQty(fills), order.executed, CLOSE_DUST)
      modifies this`worlds, this`steps, db, exchange`venue
      modifies exchange`listAnswers, exchange`listQueries, exchange`legAnswers, exchange`legFills
      ensures Valid() && Continues() && c in db.orders
      ensures exchange.venue.orderLog == old(exchange.venue).orderLog
      ensures outcome.Resolved? ==> !HasUnresolved(db.Tables()) && BookedAtFills(order.side, order)
      ensures !outcome.Unanswered? && !outcome.Mismatched? && !outcome.NotTerminal? && Excuse(outcome, order, old(db.open))
    {
      hide Inv, IsRun, HasUnresolved, OrderFact, AnsweredExecuting, IsClose, FillsAnswered, AveragePrice, IsFillPrice;
      hide Below, Above, CloseTradeTx, TerminalStatus, AppliableStatus;
      var price := AveragePrice(total);
      AveragePriceIs(fills, total);
      if price <= 0.0 {
        NoPriceMeans(fills, price);
        return NoFillPrice;
      }
      BaseCommissionIs(fills);
      var updated := UpdateRecord(c, order.executed, order.status);
      if updated.Failure? {
        return Unbooked(updated.error);
      }
      if order.side.Buy? {
        outcome := RecoverBuy(c, order.executed, BaseCommission(fills), price);
      } else {
        outcome := RecoverSell(c, price);
      }
    }

    /** The exchange reports no execution: the record takes its status. */
    method RecordNothing(c: OrderId, order: OrderDoc) returns (outcome: Recovery)
      requires Valid() && IsUnresolved(db.Tables(), c) && order.executed <= 0.0
      requires OrderFact(exchange.venue, c, order.executed, order.status)
      modifies this`worlds, this`steps, db
      ensures Valid() && Continues() && c in db.orders
      ensures outcome.Resolved? || outcome.NotTerminal? || outcome.Unbooked?
      ensures outcome.NotTerminal? ==> order.status !in {Filled, Canceled, Rejected, Expired, ExpiredInMatch}
      ensures outcome.Resolved? ==> TerminalStatus(order.status) && !HasUnresolved(db.Tables())
      ensures outcome.Resolved? ==> db.Tables() == old(db.Tables()).(orders :=
        old(db.orders)[c := old(db.orders)[c].(executed := 0.0, status := order.status)])
    {
      hide Inv, IsRun, HasUnresolved;
      ghost var w := W();
      var updated := UpdateRecord(c, 0.0, order.status);
      if updated.Failure? {
        return Unbooked(updated.error);
      }
      if !TerminalStatus(order.status) {
        return NotTerminal;
      }
      SettledLeavesNone(w, db.Tables(), c);
      return Resolved;
    }

    method MarkRecovery(c: OrderId, order: OrderDoc)
      requires Valid() && IsUnresolved(db.Tables(), c) && OrderFact(exchange.venue, c, order.executed, order.status)
      modifies this`worlds, this`steps, db
      ensures Valid() && Continues() && IsUnresolved(db.Tables(), c)
    {
      hide Inv, IsRun, OrderFact;
      OrderFactWeakens(exchange.venue, c, order.executed, order.status, RecoveryRequired);
      var _ := UpdateRecord(c, order.executed, RecoveryRequired);
    }

    /** A recovered BUY opens its position, which is protected at once. */
    method RecoverBuy(c: OrderId, executed: real, commission: real, price: real) returns (outcome: Recovery)
      requires Valid() && c in db.orders && db.orders[c].executed == executed
      modifies this`worlds, this`steps, db
      modifies exchange`venue, exchange`listAnswers, exchange`listQueries, exchange`legAnswers, exchange`legFills
      ensures Valid() && Continues() && db.orders.Keys == old(db.orders).Keys
      ensures exchange.venue.orderLog == old(exchange.venue).orderLog
      ensures outcome.Resolved? || outcome.Unbooked? || (outcome.Occupied? && old(db.open).Some?)
              || (outcome.NothingHeld? && executed <= Max(0.0, commission))
      ensures outcome.Resolved? && db.open.Some? ==>
        && db.open.value.list.Some? && db.open.value.protection == Executing
        && AnsweredExecuting(db.open, exchange.listAnswers)
        && db.open.value.entryPrice == price
        && db.open.value.quantity <= Max(0.0, executed - Max(0.0, commission))
        && db.open.value.stop == Below(price, cfg.stopLossPct)
        && db.open.value.takeProfit == Above(price, cfg.takeProfitPct)
      ensures outcome.Resolved? ==> !HasUnresolved(db.Tables())
    {
      hide Inv, IsRun, HasUnresolved, OpenTradeTx, Below, Above;
      if db.open.Some? {
        return Occupied;
      }
      var held := Max(0.0, executed - Max(0.0, commission));
      if held <= 0.0 {
        return NothingHeld;
      }
      var fee := exchange.OrderFeeQuote();
      var booked := OpenPosition(c, held, price, fee, RiskStop(cfg, price), RiskTake(cfg, price));
      if booked.Failure? {
        return Unbooked(booked.error);
      }
      label recovered:
      var placed := PlaceExchangeProtection(db.open.value, 0);
      SameOrders(old@recovered(db.Tables()), db.Tables());
      return if placed.Success? then Resolved else Unbooked(placed.error);
    }

    method RecoverSell(c: OrderId, price: real) returns (outcome: Recovery)
      requires Valid() && c in db.orders
      modifies this`worlds, this`steps, db
      ensures Valid() && Continues() && db.orders.Keys == old(db.orders).Keys
      ensures outcome.Resolved? || outcome.Unbooked? || (outcome.NoPositionLeft? && old(db.open).None?)
      ensures outcome.Resolved? ==> !HasUnresolved(db.Tables()) && old(db.open).Some? && exists fee: real ::
        CloseTradeTx(old(db.Tables()), old(db.open).value.id, price, fee, Some(old(db.orders)[c].executed), Some(c))
          == Success(db.Tables())
      ensures outcome.Resolved? ==>
        LastSale().Some? && LastSale().value.exitPrice == price && LastSale().value.cause == ByOrder(c)
      ensures !outcome.Resolved? ==> db.Tables() == old(db.Tables())
    {
      hide Inv, IsRun, HasUnresolved, CloseTradeTx;
      if db.open.None? {
        return NoPositionLeft;
      }
      var fee := exchange.OrderFeeQuote();
      var closed := ClosePosition(db.open.value.id, price, fee, c);
      return if closed.Success? then Resolved else Unbooked(closed.error);
    }

    /**
      reconcile_unresolved_orders. No order is ever submitted here. When every record was
      resolved nothing is unresolved any more, which is what installing protection needs.
    */
    method ReconcileUnresolvedOrders() returns (allResolved: bool)
      requires Valid()
      modifies this`worlds, this`steps, db, exchange
      ensures Valid() && Continues()
      ensures exchange.venue.orderLog == old(exchange.venue).orderLog
      ensures !old(HasUnresolved(db.Tables())) ==> allResolved && db.Tables() == old(db.Tables())
      ensures allResolved ==> !HasUnresolved(db.Tables()) && forall c :: c in db.orders ==> Settled(W(), c)
    {
      hide Inv, IsRun, AllUnresolved, HasUnresolved, Settled;
      var todo := set c: OrderId | c in db.orders && Unresolved(db.orders[c]);
      allResolved := true;
      AllOfThem(db.Tables(), todo);
      while todo != {}
        invariant Valid() && Continues() && exchange.venue.orderLog == old(exchange.venue).orderLog
        invariant AllUnresolved(db.Tables(), todo)
        invariant !old(HasUnresolved(db.Tables())) ==> todo == {} && allResolved && db.Tables() == old(db.Tables())
        invariant todo == {} && allResolved ==> !HasUnresolved(db.Tables())
        decreases |todo|
      {
        var c: OrderId :| c in todo;
        OnlyOne(W(), todo, c);
        allResolved := ResolveOrder(c);
        todo := todo - {c};
        NoneLeft(db.Tables());
      }
      if allResolved {
        forall c | c in db.orders ensures Settled(W(), c) {
          ResolvedIsSettled(W(), c);
        }
      }
    }

    /**
      reconcile_open_position_protection, at startup. The second precondition is not checked by
      the source; module Startup shows that it is exactly what keeps the installation safe. On
      normal return a position that is still open has an executing list stored.
    */
    method ReconcileOpenPositionProtection() returns (r: Result<Cycle, Fault>)
      requires Valid()
      requires db.open.Some? && db.open.value.list == None ==> !HasUnresolved(db.Tables())
      modifies this`worlds, this`steps, db
      modifies exchange`venue, exchange`listAnswers, exchange`listQueries, exchange`legAnswers, exchange`legFills
      ensures Valid() && Continues() && db.orders == old(db.orders)
      ensures exchange.venue.orderLog == old(exchange.venue).orderLog
      ensures |exchange.venue.listLog| <= |old(exchange.venue).listLog| + 2
      ensures r == Failure(NotInstalled) ==> db.open.None?
      ensures r == Failure(NotProtected) && old(db.open).Some? && old(db.open).value.list.Some? ==>
        db.open.Some? && db.open.value.list != old(db.open).value.list
      ensures r.Success? && db.open.Some? ==>
        && db.open.value.list.Some? && db.open.value.protection == Executing
        && var l := db.open.value.list.value;
           l in exchange.listAnswers && exchange.listAnswers[l].list == l && exchange.listAnswers[l].status == ListExecuting
    {
      hide Inv, IsRun, HasUnresolved, Advance, Retirable;
      if db.open.None? {
        return Success(NoPosition);
      }
      if db.open.value.list.None? {
        var placed := PlaceExchangeProtection(db.open.value, 0);
        if placed.Failure? {
          return Failure(placed.error);
        }
        if !placed.value.protected {
          return Failure(NotInstalled);
        }
        return Success(Installed);
      }
      var seen := ProtectiveFill(db.open.value);
      AdvanceKeepsLog(old(exchange.venue), exchange.venue);
      if seen.Failure? {
        return Failure(seen.error);
      }
      if db.open.None? {
        return Success(FillBooked);
      }
      if db.open.value.protection == Executing {
        return Success(if seen.value.NoFill? then Retained else FillBooked);
      }
      if !TerminalProtection(db.open.value.protection) {
        return Failure(NotProtected);
      }
      var rearmed := RearmTerminalProtection(db.open.value, 1);
      if rearmed.Failure? {
        return Failure(rearmed.error);
      }
      return Success(if rearmed.value.protected then Reprotected else FillBooked);
    }
  }
}
