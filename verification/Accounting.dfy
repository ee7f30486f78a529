/**
  Laws of the ledger transactions that hold whatever the exchange does: a lineage is conserved
  by every run, and protective fills are path independent exactly when the fees and quotes stop
  moving together with the quantity.
*/
module Accounting {
  import opened Wrappers
  import opened Ledger
  import opened RealFacts

  // ---------------------------------------------------------------- conservation of a lineage

  /** What the callers of open_trade guarantee: a positive quantity and a nonnegative fee. */
  predicate SaneOp(op: Op) {
    op.OpOpen? ==> op.quantity > 0.0 && op.fee >= 0.0
  }

  /** A failed transaction is rolled back. */
  function Commit(b: Book, op: Op): Book {
    match Attempt(b, op)
    case Success(b') => b'
    case Failure(_) => b
  }

  function CommitAll(b: Book, ops: seq<Op>): Book {
    if ops == [] then b else Commit(CommitAll(b, ops[..|ops| - 1]), ops[|ops| - 1])
  }

  lemma TallyAppend(rows: seq<ClosedTrade>, x: ClosedTrade, p: TradeId)
    ensures TallyOf(rows + [x], p) ==
      (var t := TallyOf(rows, p);
       if x.lineage == p
       then Tally(t.qty + x.quantity, t.entryFee + x.entryFee, t.exitFee + x.exitFee, t.pnl + x.pnl)
       else t)
  {
    assert (rows + [x])[..|rows|] == rows;
  }

  lemma {:induction false} TallyOfUnused(rows: seq<ClosedTrade>, p: TradeId)
    requires forall i :: 0 <= i < |rows| ==> rows[i].lineage != p
    ensures TallyOf(rows, p) == Tally(0.0, 0.0, 0.0, 0.0)
  {
    if rows != [] {
      TallyOfUnused(rows[..|rows| - 1], p);
    }
  }

  lemma ShareBounds(fee: real, q: real, d: real)
    requires fee >= 0.0 && q > 0.0 && 0.0 <= d <= q
    ensures 0.0 <= fee * (d / q) <= fee
  {
    assert 0.0 <= d / q <= 1.0;
  }

  lemma FeeShareInRange(t: OpenTrade, d: real)
    requires t.quantity > 0.0 && t.entryFee >= 0.0 && 0.0 <= d <= t.quantity
    ensures 0.0 <= AllocatedEntryFee(t, d) <= t.entryFee
  {
    ShareBounds(t.entryFee, t.quantity, d);
  }

  lemma SettleKeepsLineage(b: Book, t: OpenTrade, sold: real, price: real, exitFee: real,
                           cause: Cause, applied: Totals, dust: real, p: TradeId)
    requires WellFormed(b) && b.open == Some(t)
    requires 0.0 < sold <= t.quantity && dust >= 0.0
    ensures var b' := Settle(b, t, sold, price, exitFee, cause, applied, dust);
      && WellFormed(b') && b'.origins == b.origins
      && LineageQty(b', p) == LineageQty(b, p)
      && LineageEntryFee(b', p) == LineageEntryFee(b, p)
  {
    hide AllocatedEntryFee, Pnl;
    var b' := Settle(b, t, sold, price, exitFee, cause, applied, dust);
    FeeShareInRange(t, sold);
    TallyAppend(b.closed, b'.closed[|b.closed|], p);
  }

  lemma AttemptKeepsLineage(b: Book, op: Op, p: TradeId)
    requires WellFormed(b) && SaneOp(op) && Attempt(b, op).Success?
    ensures WellFormed(Attempt(b, op).value)
    ensures p < |b.origins| ==>
      && p < |Attempt(b, op).value.origins|
      && LineageQty(Attempt(b, op).value, p) == LineageQty(b, p)
      && LineageEntryFee(Attempt(b, op).value, p) == LineageEntryFee(b, p)
  {
    hide Settle, Ratio;
    match op
    case OpClose(id, price, fee, amount, c) =>
      var t := b.open.value;
      var b1 := ApplyIfAny(b, c, Sell).value;
      var sold := if amount.None? then t.quantity else Min(t.quantity, Max(0.0, amount.value));
      SettleKeepsLineage(b1, t, sold, price, fee, CauseOf(c), t.applied, CLOSE_DUST, p);
    case OpProtective(id, cumulative) =>
      if b.open.Some? && b.open.value.id == id {
        var t := b.open.value;
        var total := Clamp(cumulative);
        var tol := Tolerance(t.quantity + t.applied.qty);
        var delta := Max(0.0, total.qty - t.applied.qty);
        if delta > tol {
          SettleKeepsLineage(b, t, Min(t.quantity, delta),
                             Ratio(Max(0.0, total.quote - t.applied.quote), delta),
                             Max(0.0, total.fee - t.applied.fee), ByProtection, total, tol, p);
        }
      }
    case _ =>
  }

  lemma {:induction false} RunKeepsLineage(b: Book, ops: seq<Op>, p: TradeId)
    requires WellFormed(b) && p < |b.origins|
    requires forall i :: 0 <= i < |ops| ==> SaneOp(ops[i])
    ensures WellFormed(CommitAll(b, ops)) && p < |CommitAll(b, ops).origins|
    ensures LineageQty(CommitAll(b, ops), p) == LineageQty(b, p)
    ensures LineageEntryFee(CommitAll(b, ops), p) == LineageEntryFee(b, p)
  {
    if ops != [] {
      var n := |ops| - 1;
      RunKeepsLineage(b, ops[..n], p);
      if Attempt(CommitAll(b, ops[..n]), ops[n]).Success? {
        AttemptKeepsLineage(CommitAll(b, ops[..n]), ops[n], p);
      }
    }
  }

  /**
    Whatever interleaving of transactions follows an opening, successful or rolled back, the
    CLOSED rows of the new lineage plus its OPEN row add up to the opened quantity and to the
    entry fee that was paid.
  */
  lemma LineageConserved(b: Book, opening: Op, ops: seq<Op>)
    requires WellFormed(b) && opening.OpOpen? && SaneOp(opening) && Attempt(b, opening).Success?
    requires forall i :: 0 <= i < |ops| ==> SaneOp(ops[i])
    ensures var p := |b.origins|; var final := CommitAll(Attempt(b, opening).value, ops);
      LineageQty(final, p) == opening.quantity && LineageEntryFee(final, p) == opening.fee
  {
    var p := |b.origins|;
    var b1 := Attempt(b, opening).value;
    AttemptKeepsLineage(b, opening, p);
    TallyOfUnused(b.closed, p);
    RunKeepsLineage(b1, ops, p);
  }

  // ---------------------------------------------------------------- path independence

  /** Everything a later protective fill of lineage p, or a report about it, can depend on. */
  datatype View = View(open: Option<OpenTrade>, tally: Tally)

  function ViewOf(b: Book, p: TradeId): View {
    View(b.open, TallyOf(b.closed, p))
  }

  function Observe(b: Book, id: TradeId, total: Totals): Book {
    match ApplyProtectiveTx(b, id, total)
    case Success((b', _)) => b'
    case Failure(_) => b
  }

  function ObserveAll(b: Book, id: TradeId, obs: seq<Totals>): Book {
    if obs == [] then b
    else Observe(ObserveAll(b, id, obs[..|obs| - 1]), id, obs[|obs| - 1])
  }

  predicate NotAbove(a: Totals, c: Totals) {
    a.qty <= c.qty && a.quote <= c.quote && a.fee <= c.fee
  }

  function LastReport(t: OpenTrade, obs: seq<Totals>): Totals {
    if obs == [] then t.applied else obs[|obs| - 1]
  }

  /** A later report at positive prices that exceeds the position by at most the tolerance. */
  predicate ReportFits(t: OpenTrade, prev: Totals, r: Totals) {
    && NotAbove(prev, r) && (r.qty > prev.qty ==> r.quote > prev.quote)
    && r.qty <= t.applied.qty + t.quantity + Tolerance(t.quantity + t.applied.qty)
  }

  /** A nondecreasing series of cumulative reports, in steps of any size. */
  predicate Series(t: OpenTrade, obs: seq<Totals>) {
    obs != [] ==> Series(t, obs[..|obs| - 1]) && ReportFits(t, LastReport(t, obs[..|obs| - 1]), obs[|obs| - 1])
  }

  /** The cumulative quantity of the report fits what was open at the start. */
  predicate Within(t: OpenTrade, r: Totals) {
    r.qty <= t.applied.qty + t.quantity
  }

  /** Applying the report s leaves at most the tolerance of the position, which closes it. */
  predicate Closes(t: OpenTrade, s: Totals) {
    t.quantity - (s.qty - t.applied.qty) <= Tolerance(t.quantity + t.applied.qty)
  }

  /** After s was the last report applied, r is applied too. */
  predicate Raises(t: OpenTrade, s: Totals, r: Totals) {
    (s == t.applied || !Closes(t, s)) && r.qty > s.qty + Tolerance(t.quantity + t.applied.qty)
  }

  /** The last report that is applied: it raises what was applied by more than the tolerance. */
  function LastApplied(t: OpenTrade, obs: seq<Totals>): Totals {
    if obs == [] then t.applied
    else
      var s := LastApplied(t, obs[..|obs| - 1]);
      if Raises(t, s, obs[|obs| - 1]) then obs[|obs| - 1] else s
  }

  /** The report applied before that one. */
  function AppliedBefore(t: OpenTrade, obs: seq<Totals>): Totals {
    if obs == [] then t.applied
    else
      var s := LastApplied(t, obs[..|obs| - 1]);
      if Raises(t, s, obs[|obs| - 1]) then s else AppliedBefore(t, obs[..|obs| - 1])
  }

  /** The entry fee splits between two successive sales as it does for one combined sale. */
  lemma ShareSplits(fee: real, q: real, d1: real, d2: real)
    requires fee >= 0.0 && 0.0 < d1 < q && 0.0 < d2 && d1 + d2 <= q
    ensures fee * (d1 / q) + (fee - fee * (d1 / q)) * (d2 / (q - d1)) == fee * ((d1 + d2) / q)
  {
    var r, x, y := d1 / q, d2 / (q - d1), d2 / q;
    DivTimes(d1, q);
    DivTimes(d2, q - d1);
    DivTimes(d2, q);
    calc {
      ((1.0 - r) * x) * q;
      x * (q - r * q);
      d2;
      y * q;
    }
    Cancel((1.0 - r) * x, y, q);
    assert ((d1 + d2) / q) * q == (r + y) * q by {
      DivTimes(d1 + d2, q);
    }
    Cancel((d1 + d2) / q, r + y, q);
    calc {
      fee * r + (fee - fee * r) * x;
      fee * r + fee * ((1.0 - r) * x);
      fee * (r + y);
    }
  }

  lemma Cancel(x: real, y: real, q: real)
    requires q != 0.0 && x * q == y * q
    ensures x == y
  {
    assert (x - y) * q == 0.0;
  }

  function Share(t: OpenTrade, d: real): real
    requires t.quantity > 0.0
  {
    t.entryFee * (d / t.quantity)
  }

  /** The report c raises what is applied to t by more than the tolerance and fits the position. */
  predicate Moves(t: OpenTrade, c: Totals) {
    && t.quantity > 0.0 && t.entryFee >= 0.0
    && t.applied.qty >= 0.0 && t.applied.quote >= 0.0
    && t.applied.fee >= 0.0
    && NotAbove(t.applied, c) && t.applied.quote < c.quote
    && t.applied.qty + Tolerance(t.quantity + t.applied.qty) < c.qty <= t.applied.qty + t.quantity
  }

  /** The P&L of a fill is linear in the cumulative totals. */
  function Earned(t: OpenTrade, c: Totals): real
    requires t.quantity > 0.0
  {
    (c.quote - t.applied.quote) - t.entryPrice * (c.qty - t.applied.qty)
    - Share(t, c.qty - t.applied.qty) - (c.fee - t.applied.fee)
  }

  /** The view after a moving report, without the division by the delta. */
  function Effect(t: OpenTrade, y: Tally, c: Totals): View
    requires t.quantity > 0.0
  {
    var d := c.qty - t.applied.qty;
    var dFee := c.fee - t.applied.fee;
    if t.quantity - d > Tolerance(t.quantity + t.applied.qty) then
      View(Some(t.(quantity := t.quantity - d, entryFee := t.entryFee - Share(t, d), applied := c)),
           Tally(y.qty + d, y.entryFee + Share(t, d), y.exitFee + dFee, y.pnl + Earned(t, c)))
    else
      View(None, Tally(y.qty + t.quantity, y.entryFee + t.entryFee, y.exitFee + dFee, y.pnl + Earned(t, c)))
  }

  lemma ShareInRange(t: OpenTrade, d: real)
    requires t.quantity > 0.0 && t.entryFee >= 0.0 && 0.0 <= d <= t.quantity
    ensures 0.0 <= Share(t, d) <= t.entryFee
  {
    ShareBounds(t.entryFee, t.quantity, d);
  }

  lemma PnlIsEarned(t: OpenTrade, c: Totals)
    requires Moves(t, c)
    ensures var d := c.qty - t.applied.qty;
      Pnl(t, d, Ratio(c.quote - t.applied.quote, d), c.fee - t.applied.fee) == Earned(t, c)
  {
    var d, q := c.qty - t.applied.qty, c.quote - t.applied.quote;
    var price := Ratio(q, d);
    DivTimes(q, d);
    assert (price - t.entryPrice) * d == price * d - t.entryPrice * d;
    assert AllocatedEntryFee(t, d) == Share(t, d);
    hide AllocatedEntryFee, Share;
  }

  lemma SettleEffect(b: Book, t: OpenTrade, d: real, price: real, c: Totals, tol: real)
    requires t.quantity > 0.0 && 0.0 <= Share(t, d) <= t.entryFee && tol >= 0.0 && 0.0 <= d <= t.quantity
    requires AllocatedEntryFee(t, d) == Share(t, d)
    ensures
      var b' := Settle(b, t, d, price, c.fee - t.applied.fee, ByProtection, c, tol);
      var y := TallyOf(b.closed, t.id);
      var pnl := Pnl(t, d, price, c.fee - t.applied.fee);
      ViewOf(b', t.id) ==
        if t.quantity - d > tol then
          View(Some(t.(quantity := t.quantity - d, entryFee := t.entryFee - Share(t, d), applied := c)),
               Tally(y.qty + d, y.entryFee + Share(t, d), y.exitFee + (c.fee - t.applied.fee), y.pnl + pnl))
        else
          View(None, Tally(y.qty + t.quantity, y.entryFee + t.entryFee, y.exitFee + (c.fee - t.applied.fee), y.pnl + pnl))
  {
    hide Pnl, AllocatedEntryFee, Share;
    var b' := Settle(b, t, d, price, c.fee - t.applied.fee, ByProtection, c, tol);
    TallyAppend(b.closed, b'.closed[|b.closed|], t.id);
  }

  lemma ObserveIsSale(b: Book, t: OpenTrade, c: Totals)
    requires b.open == Some(t) && Moves(t, c)
    ensures var d, tol := c.qty - t.applied.qty, Tolerance(t.quantity + t.applied.qty);
      && 0.0 < d <= t.quantity && tol > 0.0
      && Observe(b, t.id, c)
         == Settle(b, t, d, Ratio(c.quote - t.applied.quote, d), c.fee - t.applied.fee, ByProtection, c, tol)
  {
    hide Settle, Ratio, Tolerance;
    TolerancePositive(t.quantity + t.applied.qty);
    assert Clamp(c) == c;
  }

  lemma ObserveEffect(b: Book, t: OpenTrade, c: Totals)
    requires b.open == Some(t) && Moves(t, c)
    ensures ViewOf(Observe(b, t.id, c), t.id) == Effect(t, TallyOf(b.closed, t.id), c)
  {
    hide Pnl, Earned, Share, Settle, TallyOf, Ratio, Observe, Tolerance;
    var d, q := c.qty - t.applied.qty, c.quote - t.applied.quote;
    ObserveIsSale(b, t, c);
    PnlIsEarned(t, c);
    ShareInRange(t, d);
    FeeIsShare(t, d);
    SettleEffect(b, t, d, Ratio(q, d), c, Tolerance(t.quantity + t.applied.qty));
  }

  lemma FeeIsShare(t: OpenTrade, d: real)
    requires t.quantity > 0.0
    ensures AllocatedEntryFee(t, d) == Share(t, d)
  {
  }

  /** Shares and earnings of two successive reports add up to those of the second one alone. */
  lemma PartsAdd(t: OpenTrade, t1: OpenTrade, c: Totals, c': Totals)
    requires Moves(t, c) && NotAbove(c, c') && c.qty < c'.qty <= t.applied.qty + t.quantity
    requires t1.quantity == t.quantity - (c.qty - t.applied.qty) && t1.applied == c
    requires t1.entryFee == t.entryFee - Share(t, c.qty - t.applied.qty) && t1.entryPrice == t.entryPrice
    ensures Share(t, c.qty - t.applied.qty) + Share(t1, c'.qty - c.qty) == Share(t, c'.qty - t.applied.qty)
    ensures Earned(t, c) + Earned(t1, c') == Earned(t, c')
  {
    var d1, d2 := c.qty - t.applied.qty, c'.qty - c.qty;
    ShareSplits(t.entryFee, t.quantity, d1, d2);
    assert Share(t, d1) + Share(t1, d2) == Share(t, d1 + d2);
    assert t.entryPrice * d1 + t.entryPrice * d2 == t.entryPrice * (d1 + d2);
    hide Share;
  }

  lemma ObserveNothing(b: Book, t: OpenTrade, c: Totals)
    requires b.open == Some(t) && NotAbove(t.applied, c) && c.qty <= t.applied.qty + Tolerance(t.quantity + t.applied.qty)
    requires t.applied.qty >= 0.0 && t.applied.quote >= 0.0 && t.applied.fee >= 0.0
    ensures ApplyProtectiveTx(b, t.id, c) == Success((b, NothingNew)) && Observe(b, t.id, c) == b
  {
    hide Settle, Ratio;
  }

  /** Observing c and then c' leaves the same view as observing c' at once. */
  lemma ObserveTwice(b: Book, t: OpenTrade, c: Totals, c': Totals)
    requires b.open == Some(t) && Moves(t, c) && Moves(t, c')
    requires NotAbove(c, c') && c.quote < c'.quote && c'.qty > c.qty + Tolerance(t.quantity + t.applied.qty)
    ensures ViewOf(Observe(Observe(b, t.id, c), t.id, c'), t.id) == ViewOf(Observe(b, t.id, c'), t.id)
  {
    var y := TallyOf(b.closed, t.id);
    EffectTwice(t, y, c, c');
    hide Observe, Effect, TallyOf, Moves;
    ObserveEffect(b, t, c);
    ObserveEffect(b, t, c');
    ObserveEffect(Observe(b, t.id, c), Effect(t, y, c).open.value, c');
  }

  lemma EffectTwice(t: OpenTrade, y: Tally, c: Totals, c': Totals)
    requires Moves(t, c) && Moves(t, c')
    requires NotAbove(c, c') && c.quote < c'.quote && c'.qty > c.qty + Tolerance(t.quantity + t.applied.qty)
    ensures Effect(t, y, c).open.Some? && Effect(t, y, c).open.value.id == t.id
    ensures Moves(Effect(t, y, c).open.value, c')
    ensures Effect(Effect(t, y, c).open.value, Effect(t, y, c).tally, c') == Effect(t, y, c')
  {
    ShareInRange(t, c.qty - t.applied.qty);
    hide Share, Earned;
    var t1 := Effect(t, y, c).open.value;
    PartsAdd(t, t1, c, c');
    assert t1.quantity + t1.applied.qty == t.quantity + t.applied.qty;
  }

  lemma SettleDetermines(b: Book, other: Book, t: OpenTrade, sold: real, price: real, exitFee: real,
                         cause: Cause, applied: Totals, dust: real)
    requires TallyOf(b.closed, t.id) == TallyOf(other.closed, t.id)
    ensures ViewOf(Settle(b, t, sold, price, exitFee, cause, applied, dust), t.id) ==
            ViewOf(Settle(other, t, sold, price, exitFee, cause, applied, dust), t.id)
  {
    hide Pnl, AllocatedEntryFee;
    var b' := Settle(b, t, sold, price, exitFee, cause, applied, dust);
    var other' := Settle(other, t, sold, price, exitFee, cause, applied, dust);
    TallyAppend(b.closed, b'.closed[|b.closed|], t.id);
    TallyAppend(other.closed, other'.closed[|other.closed|], t.id);
  }

  lemma ViewDetermines(b: Book, other: Book, id: TradeId, c: Totals)
    requires ViewOf(b, id) == ViewOf(other, id)
    ensures ViewOf(Observe(b, id, c), id) == ViewOf(Observe(other, id, c), id)
  {
    hide Settle, Ratio, TallyOf;
    if b.open.Some? && b.open.value.id == id {
      var t := b.open.value;
      var total := Clamp(c);
      var tol := Tolerance(t.quantity + t.applied.qty);
      var delta := Max(0.0, total.qty - t.applied.qty);
      if delta > tol {
        SettleDetermines(b, other, t, Min(t.quantity, delta), Ratio(Max(0.0, total.quote - t.applied.quote), delta),
                         Max(0.0, total.fee - t.applied.fee), ByProtection, total, tol);
      }
    }
  }

  predicate Starts(b: Book, t: OpenTrade) {
    && WellFormed(b) && b.open == Some(t)
    && t.applied.qty >= 0.0 && t.applied.quote >= 0.0 && t.applied.fee >= 0.0
  }

  /** The last applied report s against the last report r of a series. */
  predicate Lags(t: OpenTrade, s: Totals, r: Totals) {
    var tol := Tolerance(t.quantity + t.applied.qty);
    && NotAbove(t.applied, s) && NotAbove(s, r) && (r.qty > s.qty ==> r.quote > s.quote)
    && r.qty <= t.applied.qty + t.quantity + tol
    && (s == t.applied || (s.qty > t.applied.qty + tol && s.quote > t.applied.quote))
    && (s == t.applied || !Closes(t, s) ==> r.qty <= s.qty + tol)
  }

  lemma {:induction false} SeriesLags(t: OpenTrade, obs: seq<Totals>)
    requires t.quantity > 0.0 && Series(t, obs)
    ensures Lags(t, LastApplied(t, obs), LastReport(t, obs))
  {
    TolerancePositive(t.quantity + t.applied.qty);
    hide Tolerance;
    if obs != [] {
      SeriesLags(t, obs[..|obs| - 1]);
    }
  }

  lemma NothingMoved(b: Book, t: OpenTrade)
    requires Starts(b, t)
    ensures Observe(b, t.id, t.applied) == b
  {
    hide Settle, Ratio;
  }

  /** What is left of the row after a report within the position was applied to it. */
  lemma AfterMove(b: Book, t: OpenTrade, s: Totals)
    requires b.open == Some(t) && Moves(t, s)
    ensures var open := Observe(b, t.id, s).open;
      if Closes(t, s) then open.None?
      else open.Some? && open.value.id == t.id && open.value.applied == s && open.value.quantity > 0.0
           && open.value.quantity + s.qty == t.quantity + t.applied.qty
  {
    hide Settle, Observe, Share, Earned;
    ObserveEffect(b, t, s);
    TolerancePositive(t.quantity + t.applied.qty);
  }

  lemma ObserveClosed(b: Book, id: TradeId, r: Totals)
    requires b.open.None?
    ensures Observe(b, id, r) == b
  {
  }

  /** One more report r after s, which stands for all reports before. */
  lemma OneMore(b: Book, t: OpenTrade, s: Totals, r: Totals)
    requires Starts(b, t) && NotAbove(t.applied, s) && NotAbove(s, r) && Within(t, s) && (r.qty > s.qty ==> r.quote > s.quote)
    requires s == t.applied || Moves(t, s)
    ensures !Raises(t, s, r) ==> Observe(Observe(b, t.id, s), t.id, r) == Observe(b, t.id, s)
    ensures Raises(t, s, r) && Within(t, r) ==>
      ViewOf(Observe(Observe(b, t.id, s), t.id, r), t.id) == ViewOf(Observe(b, t.id, r), t.id)
  {
    hide Observe, Settle, Tolerance, ViewOf;
    if s == t.applied {
      NothingMoved(b, t);
      if !Raises(t, s, r) {
        ObserveNothing(b, t, r);
      }
    } else {
      AfterMove(b, t, s);
      if Closes(t, s) {
        ObserveClosed(Observe(b, t.id, s), t.id, r);
      } else if !Raises(t, s, r) {
        ObserveNothing(Observe(b, t.id, s), Observe(b, t.id, s).open.value, r);
      } else if Within(t, r) {
        TolerancePositive(t.quantity + t.applied.qty);
        ObserveTwice(b, t, s, r);
      }
    }
  }

  /** A report beyond the position closes what is left of it. */
  lemma OvershootCloses(b: Book, t: OpenTrade, s: Totals, r: Totals)
    requires Starts(b, t) && (s == t.applied || (Moves(t, s) && !Closes(t, s))) && NotAbove(s, r) && r.quote > s.quote
    requires Raises(t, s, r) && !Within(t, r) && r.qty <= t.applied.qty + t.quantity + Tolerance(t.quantity + t.applied.qty)
    ensures Observe(Observe(b, t.id, s), t.id, r).open.None?
  {
    hide Observe, Tolerance;
    TolerancePositive(t.quantity + t.applied.qty);
    if s == t.applied {
      NothingMoved(b, t);
    } else {
      AfterMove(b, t, s);
    }
    var b1 := Observe(b, t.id, s);
    OvershootEffect(b1, b1.open.value, r);
  }

  /** The row is closed with this exit fee and P&L. */
  function Closed(t: OpenTrade, y: Tally, fee: real, pnl: real): View {
    View(None, Tally(y.qty + t.quantity, y.entryFee + t.entryFee, y.exitFee + fee, y.pnl + pnl))
  }

  /** P&L of selling the whole row at the average price of what report r adds. */
  function RowPnl(t: OpenTrade, r: Totals): real {
    (AveragePrice(t.applied, r) - t.entryPrice) * t.quantity - t.entryFee - (r.fee - t.applied.fee)
  }

  /**
    What a report s beyond the position by x books more after p was applied than on its own: x
    times the difference of two average prices, since the start and since p.
  */
  function Correction(t: OpenTrade, p: Totals, s: Totals): real {
    (s.qty - t.applied.qty - t.quantity) * (AveragePrice(t.applied, s) - AveragePrice(p, s))
  }

  /** A report r beyond the position closes it: the whole row at the average price of the delta. */
  lemma OvershootEffect(b: Book, t: OpenTrade, r: Totals)
    requires b.open == Some(t) && t.quantity > 0.0 && NotAbove(t.applied, r) && r.quote > t.applied.quote
    requires t.applied.qty >= 0.0 && t.applied.quote >= 0.0 && t.applied.fee >= 0.0
    requires t.applied.qty + Tolerance(t.quantity + t.applied.qty) < r.qty
    requires !Within(t, r) && r.qty <= t.applied.qty + t.quantity + Tolerance(t.quantity + t.applied.qty)
    ensures ViewOf(Observe(b, t.id, r), t.id)
            == Closed(t, TallyOf(b.closed, t.id), r.fee - t.applied.fee, RowPnl(t, r))
  {
    hide TallyOf;
    TolerancePositive(t.quantity + t.applied.qty);
    var d, q, tol := r.qty - t.applied.qty, r.quote - t.applied.quote, Tolerance(t.quantity + t.applied.qty);
    var b' := Settle(b, t, t.quantity, Ratio(q, d), r.fee - t.applied.fee, ByProtection, r, tol);
    hide Tolerance;
    assert Clamp(r) == r;
    assert Observe(b, t.id, r) == b';
    QuotientIs(t.quantity, t.quantity, 1.0);
    assert AllocatedEntryFee(t, t.quantity) == t.entryFee;
    TallyAppend(b.closed, b'.closed[|b.closed|], t.id);
  }

  /** The average price of what was executed between two cumulative reports. */
  function AveragePrice(a: Totals, r: Totals): real {
    if r.qty == a.qty then 0.0 else Ratio(r.quote - a.quote, r.qty - a.qty)
  }

  /** The series leaves the view of its last applied report; beyond the position, of the last two. */
  predicate Collapses(b: Book, t: OpenTrade, obs: seq<Totals>) {
    var s, p, after := LastApplied(t, obs), AppliedBefore(t, obs), ObserveAll(b, t.id, obs);
    if Within(t, s) then ViewOf(after, t.id) == ViewOf(Observe(b, t.id, s), t.id)
    else
      && (p == t.applied || (Moves(t, p) && !Closes(t, p))) && NotAbove(p, s) && s.quote > p.quote && Raises(t, p, s)
      && ViewOf(after, t.id) == ViewOf(Observe(Observe(b, t.id, p), t.id, s), t.id) && after.open.None?
  }

  /**
    A whole series, in steps of any size, leaves the open row and the sums over CLOSED rows that
    its last applied report leaves alone; if that report goes beyond the position, those of the
    two reports that were applied last.
  */
  lemma {:induction false} SeriesCollapses(b: Book, t: OpenTrade, obs: seq<Totals>)
    requires Starts(b, t) && Series(t, obs)
    ensures Collapses(b, t, obs)
  {
    hide Observe, ViewOf, Raises, ReportFits, Closes, Moves, NotAbove, Collapses;
    if obs == [] {
      EmptyCollapses(b, t);
    } else {
      SeriesCollapses(b, t, obs[..|obs| - 1]);
      CollapseStep(b, t, obs);
    }
  }

  lemma EmptyCollapses(b: Book, t: OpenTrade)
    requires Starts(b, t)
    ensures Collapses(b, t, [])
  {
    hide Observe;
    NothingMoved(b, t);
  }

  lemma CollapseStep(b: Book, t: OpenTrade, obs: seq<Totals>)
    requires Starts(b, t) && Series(t, obs) && obs != []
    requires Collapses(b, t, obs[..|obs| - 1])
    ensures Collapses(b, t, obs)
  {
    hide Observe, Settle, Tolerance, TallyOf;
    var prefix, r := obs[..|obs| - 1], obs[|obs| - 1];
    var s := LastApplied(t, prefix);
    var before := ObserveAll(b, t.id, prefix);
    SeriesLags(t, prefix);
    SeriesLags(t, obs);
    TolerancePositive(t.quantity + t.applied.qty);
    if Within(t, s) {
      ViewDetermines(before, Observe(b, t.id, s), t.id, r);
      OneMore(b, t, s, r);
      if Raises(t, s, r) && !Within(t, r) {
        OvershootCloses(b, t, s, r);
      }
    } else {
      ObserveClosed(before, t.id, r);
    }
  }

  /** P&L that report r books when it is the only one: it sells at most the whole row. */
  function AlonePnl(t: OpenTrade, r: Totals): real
    requires t.quantity > 0.0
  {
    if Within(t, r) then Earned(t, r) else RowPnl(t, r)
  }

  /**
    P&L that a series books: that of its last applied report alone, corrected when that report
    goes beyond the position.
  */
  function SeriesPnl(t: OpenTrade, obs: seq<Totals>): real
    requires t.quantity > 0.0
  {
    var s := LastApplied(t, obs);
    AlonePnl(t, s) + (if Within(t, s) then 0.0 else Correction(t, AppliedBefore(t, obs), s))
  }

  /** The series books what its last report alone does: it is the last one applied, or both close the row alike. */
  predicate BooksAlike(t: OpenTrade, obs: seq<Totals>)
    requires t.quantity > 0.0
  {
    var s, last := LastApplied(t, obs), LastReport(t, obs);
    || (s == last && Within(t, s))
    || (Closes(t, s) && Closes(t, last) && s.fee == last.fee && SeriesPnl(t, obs) == AlonePnl(t, last))
  }

  /** The last report is not above the tolerance over what was applied at the start. */
  predicate Negligible(t: OpenTrade, last: Totals) {
    last.qty <= t.applied.qty + Tolerance(t.quantity + t.applied.qty)
  }

  /**
    Path independence. For every nondecreasing series of cumulative reports, in steps of any
    size, applying them one by one leaves the same open row and the same sums over CLOSED rows
    as applying only the last one, if and only if the last report is itself within the tolerance
    of the start, or is the last one applied and within the position, or both close the row with
    equal fee and P&L.
  */
  lemma PathIndependentIff(b: Book, t: OpenTrade, obs: seq<Totals>)
    requires Starts(b, t) && Series(t, obs)
    ensures t.quantity > 0.0
    ensures ViewOf(ObserveAll(b, t.id, obs), t.id) == ViewOf(Observe(b, t.id, LastReport(t, obs)), t.id)
            <==> Negligible(t, LastReport(t, obs)) || BooksAlike(t, obs)
  {
    hide Observe, ObserveAll, ViewOf, Tolerance, Series, SeriesPnl, AlonePnl, Earned, Share;
    var y, s, last := TallyOf(b.closed, t.id), LastApplied(t, obs), LastReport(t, obs);
    SeriesLags(t, obs);
    TolerancePositive(t.quantity + t.applied.qty);
    if Negligible(t, last) {
      SeriesCollapses(b, t, obs);
      ObserveNothing(b, t, s);
      ObserveNothing(b, t, last);
    } else {
      SeriesView(b, t, obs);
      AloneView(b, t, last);
      SeriesPnlIs(t, obs);
    }
  }

  lemma SeriesPnlIs(t: OpenTrade, obs: seq<Totals>)
    requires t.quantity > 0.0
    ensures var s := LastApplied(t, obs);
      SeriesPnl(t, obs) ==
        if Within(t, s) then AlonePnl(t, s) else RowPnl(t, s) + Correction(t, AppliedBefore(t, obs), s)
  {
    hide RowPnl, Correction, Earned;
  }

  /** What one report leaves: the view of Effect with the P&L it books. */
  lemma AloneView(b: Book, t: OpenTrade, r: Totals)
    requires Starts(b, t) && NotAbove(t.applied, r) && r.quote > t.applied.quote && !Negligible(t, r)
    requires r.qty <= t.applied.qty + t.quantity + Tolerance(t.quantity + t.applied.qty)
    ensures t.quantity > 0.0
    ensures var y := TallyOf(b.closed, t.id);
      ViewOf(Observe(b, t.id, r), t.id) ==
        if Closes(t, r) then Closed(t, y, r.fee - t.applied.fee, AlonePnl(t, r)) else Effect(t, y, r)
  {
    hide Observe, Tolerance, Share, Earned, RowPnl;
    TolerancePositive(t.quantity + t.applied.qty);
    if Within(t, r) {
      ObserveEffect(b, t, r);
    } else {
      OvershootEffect(b, t, r);
    }
  }

  /** What a series leaves. */
  lemma SeriesView(b: Book, t: OpenTrade, obs: seq<Totals>)
    requires Starts(b, t) && Series(t, obs) && !Negligible(t, LastReport(t, obs))
    ensures t.quantity > 0.0
    ensures var y, s := TallyOf(b.closed, t.id), LastApplied(t, obs);
      ViewOf(ObserveAll(b, t.id, obs), t.id) ==
        if Closes(t, s) then Closed(t, y, s.fee - t.applied.fee, SeriesPnl(t, obs)) else Effect(t, y, s)
  {
    hide Observe, ObserveAll, ViewOf, Tolerance, Series, AlonePnl, SeriesPnl, RowPnl, Correction;
    hide Earned, Share, Moves, TallyOf;
    var s, p := LastApplied(t, obs), AppliedBefore(t, obs);
    SeriesLags(t, obs);
    SeriesCollapses(b, t, obs);
    SeriesPnlIs(t, obs);
    if Within(t, s) {
      AloneView(b, t, s);
    } else {
      OvershootLags(b, t, obs);
      if p == t.applied {
        NothingMoved(b, t);
        NoCorrection(t, s);
        OvershootEffect(b, t, s);
      } else {
        OvershootAfter(b, t, p, s);
      }
    }
  }

  /** By how much a report goes beyond the position; at most the tolerance in a series. */
  function Beyond(t: OpenTrade, r: Totals): real {
    Max(0.0, r.qty - t.applied.qty - t.quantity)
  }

  /**
    What a series books less than its last report alone: the quantity that came after the last
    applied report, which is at most the tolerance and what goes beyond the position, its fee,
    and the difference in P&L.
  */
  lemma WhatIsNotBooked(b: Book, t: OpenTrade, obs: seq<Totals>)
    requires Starts(b, t) && Series(t, obs) && !Negligible(t, LastReport(t, obs))
    ensures t.quantity > 0.0
    ensures var s := LastApplied(t, obs); var last := LastReport(t, obs);
      var series := TallyOf(ObserveAll(b, t.id, obs).closed, t.id);
      var alone := TallyOf(Observe(b, t.id, last).closed, t.id);
      && 0.0 <= last.qty - s.qty <= Tolerance(t.quantity + t.applied.qty) + Beyond(t, last)
      && alone.exitFee - series.exitFee == last.fee - s.fee
      && alone.pnl - series.pnl == AlonePnl(t, last) - SeriesPnl(t, obs)
  {
    hide Observe, ObserveAll, Tolerance, Series, SeriesPnl, Earned, Share, TallyOf;
    SeriesLags(t, obs);
    TolerancePositive(t.quantity + t.applied.qty);
    SeriesPnlIs(t, obs);
    SeriesView(b, t, obs);
    AloneView(b, t, LastReport(t, obs));
  }

  /**
    When the last applied report goes beyond the position, the series and that report alone close
    the row with the same quantity and fees, and their P&L differs by at most the tolerance times
    the difference of the two average prices.
  */
  lemma OvershootPnl(b: Book, t: OpenTrade, obs: seq<Totals>)
    requires Starts(b, t) && Series(t, obs) && !Within(t, LastApplied(t, obs))
    ensures var s, p := LastApplied(t, obs), AppliedBefore(t, obs);
      var series, alone := ViewOf(ObserveAll(b, t.id, obs), t.id), ViewOf(Observe(b, t.id, s), t.id);
      && series.open.None? && alone.open.None?
      && series.tally.(pnl := alone.tally.pnl) == alone.tally
      && Abs(series.tally.pnl - alone.tally.pnl)
         <= Tolerance(t.quantity + t.applied.qty) * Abs(AveragePrice(t.applied, s) - AveragePrice(p, s))
  {
    hide Observe, ObserveAll, ViewOf, Tolerance, Series, AlonePnl, SeriesPnl, RowPnl, Correction;
    hide Earned, Share, TallyOf, AveragePrice;
    var s, p := LastApplied(t, obs), AppliedBefore(t, obs);
    SeriesLags(t, obs);
    OvershootLags(b, t, obs);
    SeriesPnlIs(t, obs);
    SeriesView(b, t, obs);
    OvershootEffect(b, t, s);
    CorrectionBound(t, p, s, Tolerance(t.quantity + t.applied.qty));
  }

  lemma CorrectionBound(t: OpenTrade, p: Totals, s: Totals, tol: real)
    requires 0.0 <= s.qty - t.applied.qty - t.quantity <= tol
    ensures Abs(Correction(t, p, s)) <= tol * Abs(AveragePrice(t.applied, s) - AveragePrice(p, s))
  {
    hide AveragePrice;
    ProductBound(s.qty - t.applied.qty - t.quantity, AveragePrice(t.applied, s) - AveragePrice(p, s), tol);
  }

  lemma ProductBound(x: real, d: real, tol: real)
    requires 0.0 <= x <= tol
    ensures Abs(x * d) <= tol * Abs(d)
  {
    OrderTimes(x, tol, Abs(d));
    assert Abs(x * d) == x * Abs(d) by {
      PositiveOrZero(x, Abs(d));
      assert x * -d == -(x * d);
    }
  }

  lemma OvershootLags(b: Book, t: OpenTrade, obs: seq<Totals>)
    requires Starts(b, t) && Series(t, obs) && !Within(t, LastApplied(t, obs))
    ensures var s := LastApplied(t, obs); var tol := Tolerance(t.quantity + t.applied.qty);
      && b.open == Some(t) && t.quantity > 0.0
      && t.applied.qty >= 0.0 && t.applied.quote >= 0.0 && t.applied.fee >= 0.0
      && NotAbove(t.applied, s) && s.quote > t.applied.quote && t.applied.qty + tol < s.qty
      && 0.0 < s.qty - t.applied.qty - t.quantity <= tol
  {
    hide LastApplied, LastReport, Series, Tolerance;
    SeriesLags(t, obs);
  }

  lemma NoCorrection(t: OpenTrade, s: Totals)
    ensures Correction(t, t.applied, s) == 0.0
  {
    hide AveragePrice;
  }

  lemma OvershootAfter(b: Book, t: OpenTrade, p: Totals, s: Totals)
    requires Starts(b, t) && Moves(t, p) && !Closes(t, p) && NotAbove(p, s) && s.quote > p.quote && Raises(t, p, s)
    requires !Within(t, s) && s.qty <= t.applied.qty + t.quantity + Tolerance(t.quantity + t.applied.qty)
    ensures ViewOf(Observe(Observe(b, t.id, p), t.id, s), t.id)
            == Closed(t, TallyOf(b.closed, t.id), s.fee - t.applied.fee, RowPnl(t, s) + Correction(t, p, s))
  {
    hide Observe, Tolerance, TallyOf, AveragePrice, Share, Earned, RowPnl, Correction;
    ObserveEffect(b, t, p);
    TolerancePositive(t.quantity + t.applied.qty);
    var b1 := Observe(b, t.id, p);
    var t1 := b1.open.value;
    assert t1.quantity + t1.applied.qty == t.quantity + t.applied.qty;
    OvershootEffect(b1, t1, s);
    OvershootSum(t, p, t1, s);
  }

  /** The P&L of the two sales against that of one. */
  lemma OvershootSum(t: OpenTrade, p: Totals, t1: OpenTrade, s: Totals)
    requires t.quantity > 0.0 && t.applied.qty < p.qty < s.qty
    requires t1.quantity == t.quantity - (p.qty - t.applied.qty) && t1.applied == p && t1.entryPrice == t.entryPrice
    requires t1.entryFee == t.entryFee - Share(t, p.qty - t.applied.qty)
    ensures Earned(t, p) + RowPnl(t1, s) == RowPnl(t, s) + Correction(t, p, s)
  {
    hide Share, AveragePrice;
    var d := p.qty - t.applied.qty;
    AverageTimes(t.applied, s);
    AverageTimes(p, s);
    TwoSales(d, t.quantity, s.qty - t.applied.qty - t.quantity, AveragePrice(t.applied, s), AveragePrice(p, s),
             t.entryPrice, p.quote - t.applied.quote, s.quote - p.quote);
  }

  lemma AverageTimes(a: Totals, r: Totals)
    requires a.qty < r.qty
    ensures AveragePrice(a, r) * (r.qty - a.qty) == r.quote - a.quote
  {
    DivTimes(r.quote - a.quote, r.qty - a.qty);
  }

  /** g0 is paid for d, then g1 for what is left of q and x more, at the averages c and overall a. */
  lemma TwoSales(d: real, q: real, x: real, a: real, c: real, e: real, g0: real, g1: real)
    requires a * (q + x) == g0 + g1 && c * (q - d + x) == g1
    ensures g0 - e * d + (c - e) * (q - d) == (a - e) * q + x * (a - c)
  {
    var q1 := q - d;
    assert (c - e) * q1 == c * q1 - e * q1 && (a - e) * q == a * q - e * q;
    assert e * q1 == e * q - e * d;
    assert a * (q + x) == a * q + x * a && c * (q1 + x) == c * q1 + x * c;
    assert x * (a - c) == x * a - x * c;
  }

  /**
    A fee revised after a partial fill is lost: of two reports of the same quantity, the second
    with a fee, the second is dropped by the quantity test while the row is open, and the fee is
    booked only if it is reported alone.
  */
  lemma RevisedFeeIsDropped() returns (b: Book, t: OpenTrade, obs: seq<Totals>)
    ensures Starts(b, t) && Series(t, obs) && |obs| == 2
    ensures var first := Observe(b, t.id, obs[0]);
      && first.open.Some? && first.open.value.quantity == 0.6
      && ApplyProtectiveTx(first, t.id, obs[1]) == Success((first, NothingNew))
      && ObserveAll(b, t.id, obs) == first && TallyOf(first.closed, t.id).exitFee == 0.0
    ensures TallyOf(Observe(b, t.id, obs[1]).closed, t.id).exitFee == 0.1
  {
    t := OpenTrade(0, 1.0, 100.0, 0.0, 98.0, 102.0, 100.0, Some(7), Executing,
                   Totals(0.0, 0.0, 0.0), Some(Totals(0.0, 0.0, 0.0)));
    b := Book(Some(t), [], map[], [None]);
    var first, second := Totals(0.4, 40.8, 0.0), Totals(0.4, 40.8, 0.1);
    obs := [first, second];
    assert Starts(b, t) && Moves(t, first) && Moves(t, second) && !Closes(t, first);
    assert ReportFits(t, t.applied, first) && ReportFits(t, first, second);
    hide *;
    RevisedFeeRun(b, t, first, second);
  }

  lemma RevisedFeeRun(b: Book, t: OpenTrade, first: Totals, second: Totals)
    requires Starts(b, t) && Moves(t, first) && Moves(t, second) && !Closes(t, first) && b.closed == []
    requires ReportFits(t, t.applied, first) && ReportFits(t, first, second) && second.qty == first.qty
    ensures var b1 := Observe(b, t.id, first);
      && Series(t, [first, second]) && b1.open.Some?
      && b1.open.value.quantity == t.quantity - (first.qty - t.applied.qty)
      && ApplyProtectiveTx(b1, t.id, second) == Success((b1, NothingNew)) && ObserveAll(b, t.id, [first, second]) == b1
      && TallyOf(b1.closed, t.id).exitFee == first.fee - t.applied.fee
    ensures TallyOf(Observe(b, t.id, second).closed, t.id).exitFee == second.fee - t.applied.fee
  {
    hide Observe, Settle, Share, Earned, Tolerance;
    TolerancePositive(t.quantity + t.applied.qty);
    TwoReports(b, t, first, second);
    AfterMove(b, t, first);
    ObserveEffect(b, t, first);
    ObserveEffect(b, t, second);
    var b1 := Observe(b, t.id, first);
    ObserveNothing(b1, b1.open.value, second);
  }

  lemma TwoReports(b: Book, t: OpenTrade, a: Totals, c: Totals)
    requires ReportFits(t, t.applied, a) && ReportFits(t, a, c)
    ensures Series(t, [a, c]) && ObserveAll(b, t.id, [a, c]) == Observe(Observe(b, t.id, a), t.id, c)
  {
    hide ReportFits, Observe;
    var one, two := [a], [a, c];
    assert one[..|one| - 1] == [] && two[..|two| - 1] == one;
    assert LastReport(t, one[..|one| - 1]) == t.applied && LastReport(t, two[..|two| - 1]) == a;
    assert Series(t, []);
    assert Series(t, one);
    assert ObserveAll(b, t.id, one) == Observe(b, t.id, a);
  }

  // ---------------------------------------------------------------- reports within the tolerance

  function SoldQty(b: Book, b': Book, p: TradeId): real {
    TallyOf(b'.closed, p).qty - TallyOf(b.closed, p).qty
  }

  /** The ledger b', reached from b after the report r, is behind r by less than the tolerance. */
  predicate Follows(b: Book, t: OpenTrade, b': Book, r: Totals) {
    var tol := Tolerance(t.quantity + t.applied.qty);
    match b'.open
    case Some(t1) =>
      && t1.id == t.id && t1.quantity > 0.0 && t1.applied.qty >= 0.0 && t1.applied.quote >= 0.0 && t1.applied.fee >= 0.0
      && t1.quantity + t1.applied.qty == t.quantity + t.applied.qty
      && SoldQty(b, b', t.id) == t1.applied.qty - t.applied.qty
      && NotAbove(t1.applied, r) && r.qty <= t1.applied.qty + tol
      && (r.qty > t1.applied.qty ==> r.quote > t1.applied.quote)
    case None =>
      SoldQty(b, b', t.id) == t.quantity && r.qty >= t.applied.qty + t.quantity - tol
  }

  lemma SettleQuantity(b: Book, t: OpenTrade, sold: real, price: real, exitFee: real, cause: Cause,
                       applied: Totals, dust: real)
    requires b.open == Some(t) && 0.0 <= sold <= t.quantity
    ensures var b' := Settle(b, t, sold, price, exitFee, cause, applied, dust);
      && SoldQty(b, b', t.id) == (if t.quantity - sold > dust then sold else t.quantity)
      && (if t.quantity - sold > dust
          then b'.open.Some? && b'.open.value.id == t.id && b'.open.value.applied == applied
               && b'.open.value.quantity == t.quantity - sold
          else b'.open.None?)
  {
    hide Pnl, AllocatedEntryFee;
    var b' := Settle(b, t, sold, price, exitFee, cause, applied, dust);
    TallyAppend(b.closed, b'.closed[|b.closed|], t.id);
  }

  lemma FollowsOn(b: Book, t: OpenTrade, b1: Book, r: Totals, n: Totals)
    requires Starts(b, t) && Follows(b, t, b1, r)
    requires ReportFits(t, r, n)
    ensures Follows(b, t, Observe(b1, t.id, n), n)
  {
    hide Settle, Tolerance, TallyOf, WellFormed;
    var tol := Tolerance(t.quantity + t.applied.qty);
    TolerancePositive(t.quantity + t.applied.qty);
    if b1.open.Some? {
      var t1 := b1.open.value;
      var delta := n.qty - t1.applied.qty;
      assert Clamp(n) == n;
      if delta > tol {
        var sold := Min(t1.quantity, delta);
        var price := Ratio(n.quote - t1.applied.quote, delta);
        SettleQuantity(b1, t1, sold, price, n.fee - t1.applied.fee, ByProtection, n, tol);
        assert Observe(b1, t.id, n) == Settle(b1, t1, sold, price, n.fee - t1.applied.fee, ByProtection, n, tol);
      } else {
        assert Observe(b1, t.id, n) == b1;
      }
    }
  }

  lemma TolerancePositive(q: real)
    ensures Tolerance(q) > 0.0
  {
  }

  lemma {:induction false} SeriesFollows(b: Book, t: OpenTrade, obs: seq<Totals>)
    requires Starts(b, t) && Series(t, obs)
    ensures Follows(b, t, ObserveAll(b, t.id, obs), LastReport(t, obs))
  {
    hide Observe, Follows, Starts, ReportFits;
    if obs == [] {
      FollowsAtStart(b, t);
    } else {
      var n := |obs| - 1;
      SeriesFollows(b, t, obs[..n]);
      FollowsOn(b, t, ObserveAll(b, t.id, obs[..n]), LastReport(t, obs[..n]), obs[n]);
    }
  }

  lemma FollowsAtStart(b: Book, t: OpenTrade)
    requires Starts(b, t)
    ensures Follows(b, t, b, t.applied)
  {
    TolerancePositive(t.quantity + t.applied.qty);
    hide Tolerance;
  }

  /**
    Whatever the steps of a series of reports are, also below the tolerance or beyond the
    position by less than it, the quantity booked for the lineage differs from the last report
    by at most the tolerance.
  */
  lemma BookedWithinTolerance(b: Book, t: OpenTrade, obs: seq<Totals>)
    requires Starts(b, t) && Series(t, obs) && obs != []
    ensures var sold := SoldQty(b, ObserveAll(b, t.id, obs), t.id);
      var reported := obs[|obs| - 1].qty - t.applied.qty; var tol := Tolerance(t.quantity + t.applied.qty);
      -tol <= sold - reported <= tol
  {
    TolerancePositive(t.quantity + t.applied.qty);
    hide Tolerance, SoldQty, ObserveAll;
    SeriesFollows(b, t, obs);
  }
}
