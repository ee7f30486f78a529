/**
  The quote side of a chain of replacement lists. The main invariant follows quantities; this one
  follows what the executions were worth: the stored base is the total quote of all earlier lists.
*/
module QuoteChain {
  import opened Wrappers
  import opened Ledger
  import opened Venue
  import opened Accounting
  import opened Protocol
  import opened Preservation

  /** The quote that lists other than the current one brought for p. */
  function OtherQuotes(v: Venue, p: TradeId, current: Option<ListId>): map<nat, real> {
    map l | l in v.lists && v.lists[l].position == p && current != Some(l) :: Last(v.lists[l]).quote
  }

  function EarlierQuote(v: Venue, t: OpenTrade): real {
    Sum(OtherQuotes(v, t.id, t.list), v.listLog)
  }

  predicate QuotesAgree(w: World) {
    w.book.open.Some? ==>
      var t := w.book.open.value;
      if t.list.Some? && t.list.value in w.venue.lists
      then t.base.Some? && t.base.value.quote == EarlierQuote(w.venue, t)
      else t.applied.quote == EarlierQuote(w.venue, t)
  }

  /** The same trade with the same columns that the chain depends on. */
  predicate SameChain(t: Option<OpenTrade>, t': Option<OpenTrade>) {
    t'.Some? ==>
      && t.Some? && t'.value.id == t.value.id && t'.value.list == t.value.list
      && t'.value.base == t.value.base && t'.value.applied.quote == t.value.applied.quote
  }

  lemma ChainFrame(w: World, b': Book)
    requires QuotesAgree(w) && SameChain(w.book.open, b'.open)
    ensures QuotesAgree(World(b', w.venue))
  {
    hide Sum;
  }

  lemma NothingYet(w: World, t: OpenTrade)
    requires Inv(w) && t.id == |w.book.origins| && t.list == None
    ensures EarlierQuote(w.venue, t) == 0.0
  {
    SumOfNothing(OtherQuotes(w.venue, t.id, t.list), w.venue.listLog);
  }

  /** A fresh list changes nothing yet, whether it is only stored or submitted. */
  lemma FreshIsOther(v: Venue, p: TradeId, l: ListId)
    requires GoodVenue(v) && l !in v.lists
    ensures Sum(OtherQuotes(v, p, Some(l)), v.listLog) == Sum(OtherQuotes(v, p, None), v.listLog)
  {
    SumSame(OtherQuotes(v, p, Some(l)), OtherQuotes(v, p, None), v.listLog);
  }

  /** Forgetting a list adds what it brought to what the others did. */
  lemma ForgottenCounts(v: Venue, p: TradeId, l: ListId)
    requires GoodVenue(v) && l in v.lists && v.lists[l].position == p
    ensures Sum(OtherQuotes(v, p, None), v.listLog)
      == Sum(OtherQuotes(v, p, Some(l)), v.listLog) + Last(v.lists[l]).quote
  {
    SumChange(OtherQuotes(v, p, Some(l)), OtherQuotes(v, p, None), v.listLog, l);
  }

  /** A list that may be forgotten was applied at what it brought. */
  lemma AppliedWhole(w: World, l: ListId)
    requires Inv(w) && Holds(w, l) && l in w.venue.lists
    requires Executed(w.venue.lists[l]) == AppliedFromList(w.book.open.value).qty
    ensures w.venue.lists[l].position == w.book.open.value.id
    ensures AppliedFromList(w.book.open.value) == Last(w.venue.lists[l])
  {
    Whole(w);
    hide Inv, NoLostList;
    var o := w.venue.lists[l];
    FillsOrdered(o, w.venue.grain, AppliedFromList(w.book.open.value), Last(o));
  }

  lemma ClearKeepsQuotes(w: World, id: TradeId, state: Protection, b': Book)
    requires Inv(w) && QuotesAgree(w) && Guard(w, OpClearProtection(id, state))
    requires ClearProtectionTx(w.book, id, state) == Success(b')
    ensures QuotesAgree(World(b', w.venue))
  {
    hide Inv, GoodVenue, Sum, OtherQuotes, Last;
    var t := w.book.open.value;
    AppliedWhole(w, t.list.value);
    Whole(w);
    ForgottenCounts(w.venue, t.id, t.list.value);
  }

  lemma Whole(w: World)
    requires Inv(w)
    ensures GoodVenue(w.venue) && ListsInv(w)
  {
  }

  lemma SetKeepsQuotes(w: World, id: TradeId, list: Option<ListId>, state: Protection, b': Book)
    requires Inv(w) && QuotesAgree(w) && Guard(w, OpSetProtection(id, list, state))
    requires SetProtectionTx(w.book, id, list, state) == Success(b')
    ensures QuotesAgree(World(b', w.venue))
  {
    Whole(w);
    hide Inv, GoodVenue, HasUnresolved, Sum;
    if w.book.open.value.list != list {
      FreshIsOther(w.venue, id, list.value);
    }
  }

  lemma OtherColumns(b: Book, op: Op, b': Book)
    requires Attempt(b, op) == Success(b')
    requires op.OpIntent? || op.OpUpdate? || op.OpClose? || op.OpRaiseStop?
    ensures SameChain(b.open, b'.open)
  {
    hide Pnl, AllocatedEntryFee, HasUnresolved;
  }

  /** A protective execution leaves the base of the list it belongs to. */
  lemma ProtectiveColumns(b: Book, id: TradeId, total: Totals, b': Book, out: Outcome)
    requires ApplyProtectiveTx(b, id, total) == Success((b', out))
    ensures b'.open.Some? ==>
      && b.open.Some? && b'.open.value.id == b.open.value.id
      && b'.open.value.list == b.open.value.list && b'.open.value.base == b.open.value.base
  {
    hide Pnl, AllocatedEntryFee, Ratio, Tolerance;
  }

  lemma TxKeepsQuotes(w: World, op: Op, b': Book)
    requires Inv(w) && QuotesAgree(w) && Guard(w, op) && Attempt(w.book, op) == Success(b')
    ensures QuotesAgree(World(b', w.venue))
  {
    hide Inv, ApplyProtectiveTx, ClearProtectionTx, SetProtectionTx, RecordIntent, CloseTradeTx, EarlierQuote;
    match op {
      case OpOpen(origin, quantity, price, fee, stop, take) => NothingYet(w, b'.open.value);
      case OpSetProtection(id, list, state) => SetKeepsQuotes(w, id, list, state, b');
      case OpClearProtection(id, state) => ClearKeepsQuotes(w, id, state, b');
      case OpProtective(id, total) =>
        var out :| ApplyProtectiveTx(w.book, id, total) == Success((b', out));
        ProtectiveColumns(w.book, id, total, b', out);
        if b'.open.Some? {
          assert EarlierQuote(w.venue, b'.open.value) == EarlierQuote(w.venue, w.book.open.value) by {
            SameEarlier(w.venue, w.book.open.value, b'.open.value);
          }
        }
      case _ =>
        OtherColumns(w.book, op, b');
        ChainFrame(w, b');
    }
  }

  lemma SameEarlier(v: Venue, t: OpenTrade, t': OpenTrade)
    requires t'.id == t.id && t'.list == t.list
    ensures EarlierQuote(v, t') == EarlierQuote(v, t)
  {
  }

  /** A list that was submitted for p as its current one brought nothing yet. */
  lemma SubmittedIsNoOther(v: Venue, p: TradeId, l: ListId, quantity: real, winner: Leg)
    requires l !in v.lists
    ensures var v' := WithList(v, l, p, quantity, winner);
      Sum(OtherQuotes(v', p, Some(l)), v'.listLog) == Sum(OtherQuotes(v, p, Some(l)), v.listLog)
  {
    hide Sum;
    var v' := WithList(v, l, p, quantity, winner);
    var m := OtherQuotes(v, p, Some(l));
    assert OtherQuotes(v', p, Some(l)) == m;
    SumAppend(m, v.listLog, l);
  }

  lemma FreshListStarts(w: World, l: ListId)
    requires Inv(w) && Holds(w, l) && l !in w.venue.lists
    ensures w.book.open.value.base == Some(w.book.open.value.applied)
  {
    Whole(w);
    hide Inv, GoodVenue, NoLostList;
  }

  lemma SubmitKeepsQuotes(w: World, l: ListId, winner: Leg, v': Venue)
    requires Inv(w) && QuotesAgree(w) && Holds(w, l) && l !in w.venue.lists
    requires v' == WithList(w.venue, l, w.book.open.value.id, w.book.open.value.quantity, winner)
    ensures QuotesAgree(World(w.book, v'))
  {
    hide Inv, Sum, OtherQuotes;
    FreshListStarts(w, l);
    SubmittedIsNoOther(w.venue, w.book.open.value.id, l, w.book.open.value.quantity, winner);
  }

  /** Only the list that the open row names can bring more. */
  lemma OtherQuoteStays(w: World, v': Venue, l: ListId)
    requires Inv(w) && Advance(w.venue, v') && l in w.venue.lists && !Holds(w, l)
    ensures Last(v'.lists[l]) == Last(w.venue.lists[l]) && v'.lists[l].position == w.venue.lists[l].position
  {
    Whole(w);
    hide Inv;
    var a, b := w.venue.lists[l], v'.lists[l];
    assert OcoAdvance(a, b, w.venue.grain);
    if !a.phase.Dead? {
      ExhaustedStays(a, b, w.venue.grain);
      assert b.cum[|a.cum| - 1] == Last(a);
      FillsOrdered(b, w.venue.grain, Last(a), Last(b));
    }
  }

  lemma OtherPartStays(w: World, v': Venue, t: OpenTrade, l: ListId)
    requires Inv(w) && Advance(w.venue, v') && w.book.open == Some(t) && l in w.venue.lists
    ensures Part(OtherQuotes(w.venue, t.id, t.list), l) == Part(OtherQuotes(v', t.id, t.list), l)
  {
    hide Inv, OcoAdvance, MarketAdvance;
    if !Holds(w, l) {
      OtherQuoteStays(w, v', l);
    }
  }

  lemma AdvanceKeepsEarlier(w: World, v': Venue, t: OpenTrade)
    requires Inv(w) && Advance(w.venue, v') && w.book.open == Some(t)
    ensures EarlierQuote(v', t) == EarlierQuote(w.venue, t) && v'.lists.Keys == w.venue.lists.Keys
  {
    LogNamesLists(w);
    hide Inv, Sum, OtherQuotes, OcoAdvance, MarketAdvance, Part;
    var m, m' := OtherQuotes(w.venue, t.id, t.list), OtherQuotes(v', t.id, t.list);
    forall l | l in w.venue.listLog ensures Part(m, l) == Part(m', l) {
      OtherPartStays(w, v', t, l);
    }
    SumSame(m, m', w.venue.listLog);
  }

  lemma LogNamesLists(w: World)
    requires Inv(w)
    ensures forall l :: l in w.venue.listLog ==> l in w.venue.lists
  {
    Whole(w);
    hide Inv, ListsInv;
  }

  lemma AdvanceKeepsQuotes(w: World, v': Venue)
    requires Inv(w) && QuotesAgree(w) && Advance(w.venue, v')
    ensures QuotesAgree(World(w.book, v'))
  {
    hide Inv, Advance, EarlierQuote;
    if w.book.open.Some? {
      AdvanceKeepsEarlier(w, v', w.book.open.value);
    }
  }

  /** Every step keeps the quotes in agreement. */
  lemma StepKeepsQuotes(w: World, s: Step, w': World)
    requires Inv(w) && QuotesAgree(w) && Next(w, s, w')
    ensures QuotesAgree(w')
  {
    hide Inv, Guard, Attempt, Advance, Sum;
    match s
    case Tx(op) => TxKeepsQuotes(w, op, w'.book);
    case SubmitList(l, winner) => SubmitKeepsQuotes(w, l, winner, w'.venue);
    case SubmitOrder(c) =>
    case Environment => AdvanceKeepsQuotes(w, w'.venue);
  }

  lemma {:induction false} RunKeepsQuotes(ws: seq<World>, ss: seq<Step>, i: nat)
    requires IsRun(ws, ss) && Inv(ws[0]) && QuotesAgree(ws[0]) && i < |ws|
    ensures QuotesAgree(ws[i])
  {
    if i > 0 {
      RunKeepsInv(ws, ss, i - 1);
      RunKeepsQuotes(ws, ss, i - 1);
      StepKeepsQuotes(ws[i - 1], ss[i - 1], ws[i]);
    }
  }
}
