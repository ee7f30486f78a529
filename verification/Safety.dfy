/**
  What every run of the protocol guarantees, wherever it is interrupted, and the one place where
  the source needs a precondition it does not check: installing protection at startup.
*/
module Safety {
  import opened Wrappers
  import opened Ledger
  import opened Venue
  import opened Accounting
  import opened Protocol
  import opened Preservation
  import opened QuoteChain

  /** A run of the bot and the exchange from an empty database. */
  ghost predicate IsHistory(ws: seq<World>, ss: seq<Step>) {
    IsRun(ws, ss) && Initial(ws[0])
  }

  lemma Reachable(ws: seq<World>, ss: seq<Step>, i: nat)
    requires IsHistory(ws, ss) && i < |ws|
    ensures Inv(ws[i])
  {
    InitialInv(ws[0]);
    RunKeepsInv(ws, ss, i);
  }

  // ---------------------------------------------------------------- no oversell

  lemma SoldWithinLineage(w: World, p: TradeId)
    requires Inv(w) && p < |w.book.origins|
    ensures Sold(w.venue, p) <= LineageQty(w.book, p)
  {
    if IsOpen(w, p) {
      OpenSoldWithinLineage(w);
    }
  }

  lemma OpenSoldWithinLineage(w: World)
    requires Inv(w) && w.book.open.Some?
    ensures PendingList(w) + PendingSell(w) <= w.book.open.value.quantity
    ensures Sold(w.venue, w.book.open.value.id) <= LineageQty(w.book, w.book.open.value.id)
  {
    hide TallyOf, EffectsInv;
    var t := w.book.open.value;
    if c :| IsPendingSell(w, c) {
      PendingSellIs(w, c);
      assert OrderAgrees(w, c) && GoodMarket(w.venue.orders[c]);
    } else {
      NoPendingSell(w);
      if t.list.Some? && t.list.value in w.venue.lists {
        var o := w.venue.lists[t.list.value];
        FillsOrdered(o, w.venue.grain, AppliedFromList(t), Last(o));
      }
    }
  }

  lemma {:induction false} LineageFixed(ws: seq<World>, ss: seq<Step>, i: nat, j: nat, p: TradeId)
    requires IsHistory(ws, ss) && i <= j < |ws| && p < |ws[i].book.origins|
    ensures p < |ws[j].book.origins| && LineageQty(ws[j].book, p) == LineageQty(ws[i].book, p)
  {
    if i < j {
      LineageFixed(ws, ss, i, j - 1, p);
      Reachable(ws, ss, j - 1);
      assert Next(ws[j - 1], ss[j - 1], ws[j]);
      if ss[j - 1].Tx? {
        AttemptKeepsLineage(ws[j - 1].book, ss[j - 1].op, p);
      }
    }
  }

  /**
    No oversell. Once a position has been opened, at any later point of any history the exchange
    has sold for it, over all its OCO lists and market SELLs together, at most the quantity that
    was opened, and that is at most what the BUY order executed.
  */
  lemma NoOversell(ws: seq<World>, ss: seq<Step>, i: nat, j: nat)
    requires IsHistory(ws, ss) && i < j < |ws| && ss[i].Tx? && ss[i].op.OpOpen?
    ensures var op := ss[i].op;
      && Sold(ws[j].venue, |ws[i].book.origins|) <= op.quantity
      && op.origin.Some? && op.origin.value in ws[i].venue.orders
      && op.quantity <= ws[i].venue.orders[op.origin.value].executed
  {
    var w := ws[i];
    var op := ss[i].op;
    var p := |w.book.origins|;
    Reachable(ws, ss, i);
    Reachable(ws, ss, j);
    assert Next(w, ss[i], ws[i + 1]);
    assert OrderAgrees(w, op.origin.value);
    LineageConserved(w.book, op, []);
    LineageFixed(ws, ss, i + 1, j, p);
    SoldWithinLineage(ws[j], p);
  }

  /** A process that starts in the state where an earlier one died continues its history. */
  lemma HistoryContinues(ws: seq<World>, ss: seq<Step>, us: seq<World>, ts: seq<Step>)
    requires IsHistory(ws, ss) && IsRun(us, ts) && us[0] == ws[|ss|]
    ensures IsHistory(ws + us[1..], ss + ts) && |ws + us[1..]| == |ss| + |us|
    ensures forall i :: 0 <= i < |ws| ==> (ws + us[1..])[i] == ws[i]
    ensures forall j :: 0 <= j < |us| ==> (ws + us[1..])[|ss| + j] == us[j]
  {
    hide Next;
    var vs, rs := ws + us[1..], ss + ts;
    forall j | 0 <= j < |us| ensures vs[|ss| + j] == us[j] {
      assert j > 0 ==> us[1..][j - 1] == us[j];
    }
    forall i | 0 <= i < |rs| ensures Next(vs[i], rs[i], vs[i + 1]) {
      if i < |ss| {
        assert Next(ws[i], ss[i], ws[i + 1]);
      } else {
        assert Next(us[i - |ss|], ts[i - |ss|], us[i - |ss| + 1]);
      }
    }
  }

  /** No oversell across a restart: the position was opened before, the sales may come after. */
  lemma NoOversellAfterRestart(ws: seq<World>, ss: seq<Step>, us: seq<World>, ts: seq<Step>, i: nat, j: nat)
    requires IsHistory(ws, ss) && IsRun(us, ts) && us[0] == ws[|ss|]
    requires i < |ss| && j < |us| && ss[i].Tx? && ss[i].op.OpOpen?
    ensures Sold(us[j].venue, |ws[i].book.origins|) <= ss[i].op.quantity
  {
    hide Sold, Next;
    HistoryContinues(ws, ss, us, ts);
    NoOversell(ws + us[1..], ss + ts, i, |ss| + j);
  }

  // ---------------------------------------------------------------- no lost list

  /**
    In every reachable state a submitted list that may still execute is the one stored on the
    OPEN row of the position it was submitted for; so at most one such list exists. No list id
    is ever submitted twice.
  */
  lemma NoListIsLost(ws: seq<World>, ss: seq<Step>, i: nat, l: ListId)
    requires IsHistory(ws, ss) && i < |ws| && l in ws[i].venue.lists && CanExecute(ws[i].venue.lists[l])
    ensures var w := ws[i];
      && w.book.open.Some? && w.book.open.value.list == Some(l)
      && w.venue.lists[l].position == w.book.open.value.id
      && (forall k :: k in w.venue.lists && CanExecute(w.venue.lists[k]) ==> k == l)
      && NoDuplicates(w.venue.listLog)
  {
    Reachable(ws, ss, i);
    forall k | k in ws[i].venue.lists && CanExecute(ws[i].venue.lists[k]) ensures k == l {
      assert Holds(ws[i], k);
    }
  }

  // ---------------------------------------------------------------- fills are counted once

  /** The parts that lists other than l sold for p. */
  function EarlierParts(v: Venue, p: TradeId, l: ListId): map<nat, real> {
    map k | k in v.lists && v.lists[k].position == p && k != l :: Executed(v.lists[k])
  }

  /**
    The applied totals of t are the base plus the k-th execution of its list, and the base is
    exactly what the earlier lists of the position executed, in quantity and in quote.
  */
  predicate OnTopOfEarlier(v: Venue, t: OpenTrade, l: ListId, k: nat)
    requires l in v.lists && k < |v.lists[l].cum|
  {
    && t.base.Some?
    && t.base.value.qty == Sum(EarlierParts(v, t.id, l), v.listLog)
    && t.base.value.quote == EarlierQuote(v, t)
    && t.applied.qty == t.base.value.qty + v.lists[l].cum[k].qty
    && t.applied.quote == t.base.value.quote + v.lists[l].cum[k].quote
  }

  /**
    Fills of a chain of replacement lists are counted once. The applied totals are what the
    earlier lists executed plus one execution of the current list, and the stored base is exactly
    the former; without a current list they are what all lists of the position executed.
  */
  lemma ChainCountedOnce(ws: seq<World>, ss: seq<Step>, i: nat)
    requires IsHistory(ws, ss) && i < |ws| && ws[i].book.open.Some?
    ensures var w := ws[i]; var t := w.book.open.value;
      if t.list.Some? && t.list.value in w.venue.lists
      then exists k :: 0 <= k < |w.venue.lists[t.list.value].cum| && OnTopOfEarlier(w.venue, t, t.list.value, k)
      else t.applied.qty == SoldByLists(w.venue, t.id) && t.applied.quote == EarlierQuote(w.venue, t)
  {
    Reachable(ws, ss, i);
    InitialInv(ws[0]);
    RunKeepsQuotes(ws, ss, i);
    ChainInState(ws[i]);
  }

  lemma ChainInState(w: World)
    requires Inv(w) && QuotesAgree(w) && w.book.open.Some?
    ensures var t := w.book.open.value;
      if t.list.Some? && t.list.value in w.venue.lists
      then exists k :: 0 <= k < |w.venue.lists[t.list.value].cum| && OnTopOfEarlier(w.venue, t, t.list.value, k)
      else t.applied.qty == SoldByLists(w.venue, t.id) && t.applied.quote == EarlierQuote(w.venue, t)
  {
    var t := w.book.open.value;
    assert SoldByLists(w.venue, t.id) == t.applied.qty + PendingList(w);
    if t.list.Some? && t.list.value in w.venue.lists {
      var l := t.list.value;
      var o := w.venue.lists[l];
      assert AppliedFromList(t) in o.cum && t.base.Some? && o.position == t.id;
      WithoutList(w.venue, t.id, l);
      var k :| 0 <= k < |o.cum| && o.cum[k] == AppliedFromList(t);
      assert OnTopOfEarlier(w.venue, t, l, k);
    }
  }

  lemma WithoutList(v: Venue, p: TradeId, l: ListId)
    requires GoodVenue(v) && l in v.lists && v.lists[l].position == p
    ensures SoldByLists(v, p) == Sum(EarlierParts(v, p, l), v.listLog) + Executed(v.lists[l])
  {
    var m, m' := ListParts(v, p), EarlierParts(v, p, l);
    assert forall x :: x in v.listLog && x != l ==> Part(m, x) == Part(m', x);
    SumChange(m, m', v.listLog, l);
  }

  // ---------------------------------------------------------------- exactly once

  /**
    In every reachable state at most one order is unresolved; an order opened one trade or
    booked one sale if it is marked applied and none otherwise; whatever executed is applied or
    still unresolved; and what is applied is the final execution of a dead order.
  */
  lemma OrdersAppliedOnce(ws: seq<World>, ss: seq<Step>, i: nat, c: OrderId)
    requires IsHistory(ws, ss) && i < |ws| && c in ws[i].book.orders
    ensures var w := ws[i]; var o := w.book.orders[c];
      && (forall d :: IsUnresolved(w.book, c) && IsUnresolved(w.book, d) ==> c == d)
      && Effects(w.book, c) == (if o.applied then 1 else 0)
      && (c in w.venue.orders && w.venue.orders[c].executed > 0.0 ==> o.applied || Unresolved(o))
      && (o.applied ==> c in w.venue.orders && w.venue.orders[c].phase.Dead? && w.venue.orders[c].executed == o.executed)
  {
    Reachable(ws, ss, i);
    assert AppliedOnce(ws[i].book, c);
    assert OrderAgrees(ws[i], c);
  }

  lemma {:induction false} BlockedOrApplied(ws: seq<World>, ss: seq<Step>, i: nat, j: nat, c: OrderId)
    requires IsHistory(ws, ss) && i <= j < |ws|
    requires c in ws[i].venue.orders && ws[i].venue.orders[c].executed > 0.0
    ensures c in ws[j].venue.orders && ws[j].venue.orders[c].executed > 0.0 && c in ws[j].book.orders
    ensures !ws[j].book.orders[c].applied ==> forall d :: d in ws[j].book.orders ==> d in ws[i].book.orders
  {
    Reachable(ws, ss, i);
    if i < j {
      BlockedOrApplied(ws, ss, i, j - 1, c);
      Reachable(ws, ss, j - 1);
      var w, w' := ws[j - 1], ws[j];
      assert Next(w, ss[j - 1], w');
      assert OrderAgrees(w, c);
      hide Inv, Attempt, Guard, GoodVenue;
      match ss[j - 1] {
        case Environment => assert MarketAdvance(w.venue.orders[c], w'.venue.orders[c]);
        case Tx(op) => OrdersPersist(w, op, w', c);
        case _ =>
      }
    }
  }

  lemma OrdersPersist(w: World, op: Op, w': World, c: OrderId)
    requires Next(w, Tx(op), w') && c in w.book.orders
    ensures c in w'.book.orders && (w.book.orders[c].applied ==> w'.book.orders[c].applied)
    ensures IsUnresolved(w.book, c) ==> w'.book.orders.Keys == w.book.orders.Keys
  {
    hide Guard, Pnl, AllocatedEntryFee, Ratio, Tolerance;
  }

  /**
    An order that the exchange executed even in part blocks every new order until it has been
    applied: if a later state knows an order that the earlier one did not, it was applied.
  */
  lemma ExecutedBlocksNewOrders(ws: seq<World>, ss: seq<Step>, i: nat, j: nat, c: OrderId, d: OrderId)
    requires IsHistory(ws, ss) && i <= j < |ws|
    requires c in ws[i].venue.orders && ws[i].venue.orders[c].executed > 0.0
    requires d !in ws[i].book.orders && d in ws[j].book.orders
    ensures c in ws[j].book.orders && ws[j].book.orders[c].applied && Effects(ws[j].book, c) == 1
  {
    BlockedOrApplied(ws, ss, i, j, c);
    Reachable(ws, ss, j);
    assert AppliedOnce(ws[j].book, c);
  }

  // ---------------------------------------------------------------- the stop only rises

  /** If trade p is the open one, its stop is at least `stop` and its take-profit is `take`. */
  predicate StopAtLeast(b: Book, p: TradeId, stop: real, take: real) {
    && p < |b.origins|
    && (b.open.Some? && b.open.value.id == p ==> stop <= b.open.value.stop && b.open.value.takeProfit == take)
  }

  lemma AttemptKeepsStop(b: Book, op: Op, b': Book, p: TradeId, stop: real, take: real)
    requires StopAtLeast(b, p, stop, take) && Attempt(b, op) == Success(b')
    ensures StopAtLeast(b', p, stop, take)
  {
    hide Pnl, AllocatedEntryFee, Ratio, Tolerance;
  }

  /** Along any run the stop of an open trade never falls and its take-profit never moves. */
  lemma {:induction false} StopNeverFalls(ws: seq<World>, ss: seq<Step>, i: nat, j: nat, p: TradeId, stop: real, take: real)
    requires IsRun(ws, ss) && i <= j < |ws| && StopAtLeast(ws[i].book, p, stop, take)
    ensures StopAtLeast(ws[j].book, p, stop, take)
  {
    if i < j {
      StopNeverFalls(ws, ss, i, j - 1, p, stop, take);
      assert Next(ws[j - 1], ss[j - 1], ws[j]);
      if ss[j - 1].Tx? {
        AttemptKeepsStop(ws[j - 1].book, ss[j - 1].op, ws[j].book, p, stop, take);
      }
      hide StopAtLeast;
    }
  }
}
