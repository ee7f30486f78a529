/**
  app/agents/multi_orchestrator.py: many symbols share the position slots. Every symbol runs its
  own protocol, in any interleaving with the others; only entries take the lock. Recovery opens
  positions without asking for capacity, and a process may die while it holds the lock.
*/
module Portfolio {
  import opened Wrappers
  import opened Ledger
  import opened Venue
  import opened Protocol
  import opened Preservation
  import TradingDatabase

  type Symbol = nat

  /** `entering` holds the lock and passed the checks; it may still record one BUY intent. */
  datatype State = State(worlds: map<Symbol, World>, entering: Option<Symbol>)

  datatype Event = Approve(entrant: Symbol) | Act(actor: Symbol, step: Step) | Release

  function UnresolvedBuys(b: Book): set<OrderId> {
    set c | c in b.orders && b.orders[c].side.Buy? && Unresolved(b.orders[c])
  }

  /** Slots one symbol takes: its open position and every BUY whose outcome is unresolved. */
  function Slots(b: Book): nat {
    (if b.open.Some? then 1 else 0) + |UnresolvedBuys(b)|
  }

  function UsedSlots(ws: map<Symbol, World>, symbols: seq<Symbol>): nat {
    if symbols == [] then 0
    else
      var s := symbols[|symbols| - 1];
      UsedSlots(ws, symbols[..|symbols| - 1]) + (if s in ws then Slots(ws[s].book) else 0)
  }

  function CountOpen(ws: map<Symbol, World>, symbols: seq<Symbol>): nat {
    if symbols == [] then 0
    else
      var s := symbols[|symbols| - 1];
      CountOpen(ws, symbols[..|symbols| - 1]) + (if s in ws && ws[s].book.open.Some? then 1 else 0)
  }

  /** The checks of execute_entry that concern slots. */
  predicate MayEnter(ws: map<Symbol, World>, symbols: seq<Symbol>, max: nat, s: Symbol) {
    && s in symbols
    && CountOpen(ws, symbols) < max
    && forall i :: 0 <= i < |symbols| && symbols[i] in ws ==> !HasUnresolved(ws[symbols[i]].book)
  }

  /** The loop over configured symbols and the count of open trades, as execute_entry runs them. */
  method CheckEntry(ws: map<Symbol, World>, symbols: seq<Symbol>, max: nat, s: Symbol) returns (ok: bool)
    requires forall i :: 0 <= i < |symbols| ==> symbols[i] in ws
    ensures ok <==> MayEnter(ws, symbols, max, s)
  {
    if s !in symbols {
      return false;
    }
    var positions := 0;
    for i := 0 to |symbols|
      invariant positions == CountOpen(ws, symbols[..i])
    {
      assert symbols[..i + 1][..i] == symbols[..i];
      if ws[symbols[i]].book.open.Some? {
        positions := positions + 1;
      }
    }
    assert symbols[..|symbols|] == symbols;
    if positions >= max {
      return false;
    }
    for i := 0 to |symbols|
      invariant forall j :: 0 <= j < i ==> !HasUnresolved(ws[symbols[j]].book)
    {
      var pending := TradingDatabase.AnyUnresolved(ws[symbols[i]].book.orders);
      if pending {
        return false;
      }
    }
    return true;
  }

  predicate IsBuyIntent(step: Step) {
    step.Tx? && step.op.OpIntent? && step.op.side.Buy?
  }

  ghost predicate Moves(p: State, e: Event, p': State, symbols: seq<Symbol>, max: nat) {
    match e
    case Approve(s) =>
      p.entering == None && MayEnter(p.worlds, symbols, max, s)
      && p' == p.(entering := Some(s))
    case Act(s, step) =>
      && s in p.worlds && s in p'.worlds && Next(p.worlds[s], step, p'.worlds[s])
      && p'.worlds == p.worlds[s := p'.worlds[s]]
      && (if IsBuyIntent(step) then p.entering == Some(s) && p'.entering == None
          else p'.entering == p.entering)
    case Release => p' == p.(entering := None)
  }

  ghost predicate IsTrace(ps: seq<State>, es: seq<Event>, symbols: seq<Symbol>, max: nat) {
    && |ps| == |es| + 1
    && (forall s :: s in ps[0].worlds ==> Initial(ps[0].worlds[s])) && ps[0].entering == None
    && forall i :: 0 <= i < |es| ==> Moves(ps[i], es[i], ps[i + 1], symbols, max)
  }

  // ---------------------------------------------------------------- slots of one symbol

  /** Only a BUY intent takes a slot: opening a trade trades the order's slot for the position's. */
  lemma AttemptSlots(b: Book, op: Op, b': Book)
    requires Attempt(b, op) == Success(b')
    requires op.OpOpen? ==> op.origin.Some?
    requires op.OpUpdate? ==> IsUnresolved(b, op.c)
    ensures Slots(b') <= Slots(b) + (if IsBuyIntent(Tx(op)) then 1 else 0)
  {
    hide Pnl, AllocatedEntryFee, Ratio, Tolerance, RecordIntent, UpdateOrder, ApplyOrder, Slots;
    match op {
      case OpIntent(c, side, qty) => IntentSlots(b, c, side, qty, b');
      case OpUpdate(c, executed, status) => UpdateSlots(b, c, executed, status, b');
      case OpOpen(origin, _, _, _, _, _) => AppliedBuySlots(b, origin.value, b');
      case OpClose(_, _, _, _, exit) =>
        if exit.Some? {
          AppliedSellSlots(b, exit.value, b');
        } else {
          ShrinkingSlots(b, b');
        }
      case _ => ShrinkingSlots(b, b');
    }
  }

  lemma ShrinkingSlots(b: Book, b': Book)
    requires b'.orders == b.orders && (b'.open.Some? ==> b.open.Some?)
    ensures Slots(b') <= Slots(b)
  {
    assert UnresolvedBuys(b') == UnresolvedBuys(b);
  }

  lemma IntentSlots(b: Book, c: OrderId, side: Side, qty: real, b': Book)
    requires RecordIntent(b, c, side, qty) == Success(b')
    ensures Slots(b') <= Slots(b) + (if side.Buy? then 1 else 0)
  {
    assert UnresolvedBuys(b) == {};
    assert UnresolvedBuys(b') == if side.Buy? then {c} else {};
  }

  lemma UpdateSlots(b: Book, c: OrderId, executed: real, status: OrderStatus, b': Book)
    requires UpdateOrder(b, c, executed, status) == Success(b') && IsUnresolved(b, c)
    ensures Slots(b') <= Slots(b)
  {
    var u, u' := UnresolvedBuys(b), UnresolvedBuys(b');
    assert u' == u || u' == u - {c};
  }

  lemma AppliedBuySlots(b: Book, c: OrderId, b': Book)
    requires ApplyOrder(b, c, Buy).Success? && b'.orders == ApplyOrder(b, c, Buy).value.orders
    requires ApplyOrder(b, c, Buy).value.open.None?
    ensures Slots(b') <= Slots(b)
  {
    assert c in UnresolvedBuys(b) && UnresolvedBuys(b') == UnresolvedBuys(b) - {c};
  }

  lemma AppliedSellSlots(b: Book, c: OrderId, b': Book)
    requires ApplyOrder(b, c, Sell).Success? && b'.orders == ApplyOrder(b, c, Sell).value.orders
    requires b'.open.Some? ==> b.open.Some?
    ensures Slots(b') <= Slots(b)
  {
    assert UnresolvedBuys(b') == UnresolvedBuys(b);
  }

  lemma NextSlots(w: World, step: Step, w': World)
    requires Next(w, step, w')
    ensures Slots(w'.book) <= Slots(w.book) + (if IsBuyIntent(step) then 1 else 0)
  {
    hide Attempt, Slots;
    if step.Tx? {
      AttemptSlots(w.book, step.op, w'.book);
    }
  }

  /** In a state the protocol can reach, a symbol takes one slot at most. */
  lemma OneSlotPerSymbol(w: World)
    requires Inv(w)
    ensures Slots(w.book) <= 1
  {
    assert OneUnresolved(w.book) && UnresolvedFits(w);
    hide Inv, OneUnresolved, UnresolvedFits;
    var u := UnresolvedBuys(w.book);
    if c :| c in u {
      assert IsUnresolved(w.book, c);
      OnlyBuy(w, c);
    } else {
      assert u == {};
    }
  }

  lemma OnlyBuy(w: World, c: OrderId)
    requires OneUnresolved(w.book) && UnresolvedFits(w) && c in UnresolvedBuys(w.book)
    ensures UnresolvedBuys(w.book) == {c} && w.book.open.None?
  {
    assert IsUnresolved(w.book, c);
    assert forall d :: d in UnresolvedBuys(w.book) ==> IsUnresolved(w.book, d);
  }

  // ---------------------------------------------------------------- slots of the portfolio

  lemma {:induction false} UsedElsewhere(ws: map<Symbol, World>, ws': map<Symbol, World>, symbols: seq<Symbol>)
    requires forall s :: s in symbols ==> (s in ws <==> s in ws') && (s in ws ==> ws'[s] == ws[s])
    ensures UsedSlots(ws', symbols) == UsedSlots(ws, symbols)
  {
    if symbols != [] {
      assert symbols[|symbols| - 1] in symbols;
      UsedElsewhere(ws, ws', symbols[..|symbols| - 1]);
    }
  }

  lemma {:induction false} UsedChange(ws: map<Symbol, World>, s: Symbol, w': World, symbols: seq<Symbol>)
    requires NoDuplicates(symbols) && s in ws
    ensures UsedSlots(ws[s := w'], symbols) ==
            UsedSlots(ws, symbols) + (if s in symbols then Slots(w'.book) - Slots(ws[s].book) else 0)
  {
    hide Slots;
    if symbols != [] {
      var n := |symbols| - 1;
      if symbols[n] == s {
        UsedElsewhere(ws, ws[s := w'], symbols[..n]);
      } else {
        assert s in symbols <==> s in symbols[..n];
        UsedChange(ws, s, w', symbols[..n]);
      }
    }
  }

  lemma {:induction false} ApprovedUse(ws: map<Symbol, World>, symbols: seq<Symbol>)
    requires forall i :: 0 <= i < |symbols| && symbols[i] in ws ==> !HasUnresolved(ws[symbols[i]].book)
    ensures UsedSlots(ws, symbols) == CountOpen(ws, symbols)
  {
    if symbols != [] {
      var s := symbols[|symbols| - 1];
      ApprovedUse(ws, symbols[..|symbols| - 1]);
      assert s in ws ==> UnresolvedBuys(ws[s].book) == {};
    }
  }

  lemma {:induction false} NothingUsed(ws: map<Symbol, World>, symbols: seq<Symbol>)
    requires forall s :: s in ws ==> Initial(ws[s])
    ensures UsedSlots(ws, symbols) == 0
  {
    if symbols != [] {
      var s := symbols[|symbols| - 1];
      NothingUsed(ws, symbols[..|symbols| - 1]);
      assert s in ws ==> UnresolvedBuys(ws[s].book) == {};
    }
  }

  /** An approved entrant that has not yet recorded its BUY reserves one slot. */
  predicate SlotsInv(p: State, symbols: seq<Symbol>, max: nat) {
    UsedSlots(p.worlds, symbols) + (if p.entering.Some? then 1 else 0) <= max
  }

  lemma MoveKeepsSlots(p: State, e: Event, p': State, symbols: seq<Symbol>, max: nat)
    requires SlotsInv(p, symbols, max) && Moves(p, e, p', symbols, max) && NoDuplicates(symbols)
    ensures SlotsInv(p', symbols, max)
  {
    hide Next, Slots;
    match e {
      case Approve(s) => ApprovedUse(p.worlds, symbols);
      case Act(s, step) =>
        NextSlots(p.worlds[s], step, p'.worlds[s]);
        UsedChange(p.worlds, s, p'.worlds[s], symbols);
      case Release =>
    }
  }

  /**
    Position slots. In every interleaving of entries, exits, timeouts, recoveries and crashes,
    open positions plus BUY orders with an unresolved outcome, over all symbols, never exceed
    the configured maximum.
  */
  lemma {:induction false} SlotsNeverExceeded(ps: seq<State>, es: seq<Event>, symbols: seq<Symbol>, max: nat, i: nat)
    requires IsTrace(ps, es, symbols, max) && NoDuplicates(symbols) && i < |ps|
    ensures SlotsInv(ps[i], symbols, max) && UsedSlots(ps[i].worlds, symbols) <= max
  {
    hide Moves;
    if i == 0 {
      NothingUsed(ps[0].worlds, symbols);
    } else {
      SlotsNeverExceeded(ps, es, symbols, max, i - 1);
      assert Moves(ps[i - 1], es[i - 1], ps[i], symbols, max);
      MoveKeepsSlots(ps[i - 1], es[i - 1], ps[i], symbols, max);
    }
  }

  /** The symbols that hold a position. */
  function OpenSymbols(ws: map<Symbol, World>, symbols: seq<Symbol>): set<Symbol> {
    set k | k in symbols && k in ws && ws[k].book.open.Some?
  }

  /** The symbols that hold a position or may come to hold one by a BUY already recorded. */
  ghost function BusySymbols(ws: map<Symbol, World>, symbols: seq<Symbol>): set<Symbol> {
    set k | k in symbols && k in ws && IsBusy(ws[k].book)
  }

  ghost predicate IsBusy(b: Book) {
    b.open.Some? || exists c :: c in b.orders && b.orders[c].side.Buy? && Unresolved(b.orders[c])
  }

  lemma {:induction false} CountIsNumber(ws: map<Symbol, World>, symbols: seq<Symbol>)
    requires NoDuplicates(symbols)
    ensures CountOpen(ws, symbols) == |OpenSymbols(ws, symbols)|
  {
    if symbols != [] {
      var n := |symbols| - 1;
      CountIsNumber(ws, symbols[..n]);
      var before := OpenSymbols(ws, symbols[..n]);
      assert symbols[n] !in before;
      assert OpenSymbols(ws, symbols) ==
        before + if symbols[n] in ws && ws[symbols[n]].book.open.Some? then {symbols[n]} else {};
    }
  }

  lemma {:induction false} BusyUseSlots(ws: map<Symbol, World>, symbols: seq<Symbol>)
    requires NoDuplicates(symbols)
    ensures |BusySymbols(ws, symbols)| <= UsedSlots(ws, symbols)
  {
    hide Slots, IsBusy;
    if symbols != [] {
      var n := |symbols| - 1;
      BusyUseSlots(ws, symbols[..n]);
      assert BusySymbols(ws, symbols) ==
        BusySymbols(ws, symbols[..n]) + if symbols[n] in ws && IsBusy(ws[symbols[n]].book) then {symbols[n]} else {};
      if symbols[n] in ws {
        BusyTakesSlot(ws[symbols[n]].book);
      }
    }
  }

  lemma BusyTakesSlot(b: Book)
    ensures IsBusy(b) ==> Slots(b) >= 1
  {
    if b.open.None? && IsBusy(b) {
      var c :| c in b.orders && b.orders[c].side.Buy? && Unresolved(b.orders[c]);
      assert c in UnresolvedBuys(b);
    }
  }

  /** An entrant is admitted exactly when a slot is free and the outcome of every order is known and booked. */
  lemma AdmittedIff(ws: map<Symbol, World>, symbols: seq<Symbol>, max: nat, s: Symbol)
    requires NoDuplicates(symbols)
    ensures MayEnter(ws, symbols, max, s) <==>
      && s in symbols && |OpenSymbols(ws, symbols)| < max
      && forall k, c :: k in symbols && k in ws && c in ws[k].book.orders ==>
           && ws[k].book.orders[c].status in {Filled, Canceled, Rejected, Expired, ExpiredInMatch}
           && (ws[k].book.orders[c].executed > 0.0 ==> ws[k].book.orders[c].applied)
  {
    CountIsNumber(ws, symbols);
    hide CountOpen, OpenSymbols;
    if MayEnter(ws, symbols, max, s) {
      forall k, c | k in symbols && k in ws && c in ws[k].book.orders ensures !Unresolved(ws[k].book.orders[c]) {
        assert !HasUnresolved(ws[k].book);
      }
    }
  }

  /** No more symbols than slots ever hold a position or wait for the outcome of a BUY. */
  lemma BusyNeverExceed(ps: seq<State>, es: seq<Event>, symbols: seq<Symbol>, max: nat, i: nat)
    requires IsTrace(ps, es, symbols, max) && NoDuplicates(symbols) && i < |ps|
    ensures |BusySymbols(ps[i].worlds, symbols)| <= max
  {
    hide IsTrace;
    SlotsNeverExceeded(ps, es, symbols, max, i);
    BusyUseSlots(ps[i].worlds, symbols);
  }

  /**
    Whatever let an entrant through, its BUY intent keeps the limit iff a slot was free before,
    counting the orders of unknown outcome. The count of open trades alone does not tell that.
  */
  lemma IntentFitsIff(ws: map<Symbol, World>, symbols: seq<Symbol>, max: nat, s: Symbol, c: OrderId, qty: real, w': World)
    requires NoDuplicates(symbols) && s in symbols && s in ws && Next(ws[s], Tx(OpIntent(c, Buy, qty)), w')
    ensures UsedSlots(ws[s := w'], symbols) <= max <==> UsedSlots(ws, symbols) < max
  {
    hide Guard;
    var u, u' := UnresolvedBuys(ws[s].book), UnresolvedBuys(w'.book);
    assert u == {} && u' == {c};
    hide Next;
    UsedChange(ws, s, w', symbols);
  }

  /**
    An instance: while one symbol has a BUY of unknown outcome, another passes the count, and
    both positions may open. The check of unresolved orders, which execute_entry makes only when
    a notional is given, is needed.
  */
  lemma CountAloneIsNotEnough() returns (before: map<Symbol, World>, after: map<Symbol, World>, max: nat)
    ensures 0 in before && 1 in before && Inv(before[0]) && Inv(before[1])
    ensures 1 in after && after == before[1 := after[1]]
    ensures exists c, qty :: Next(before[1], Tx(OpIntent(c, Buy, qty)), after[1])
    ensures CountOpen(before, [0, 1]) < max && UsedSlots(before, [0, 1]) <= max < UsedSlots(after, [0, 1])
  {
    var v := Venue(0.001, map[], map[], [], []);
    var idle := World(EMPTY_BOOK, v);
    var row := OrderRow(Buy, 1.0, 0.0, PendingSubmit, false);
    var waiting := World(EMPTY_BOOK.(orders := map[7 := row]), v);
    var op := OpIntent(7, Buy, 1.0);
    InitialInv(idle);
    assert Tolerance(1.0) < v.grain && !HasUnresolved(EMPTY_BOOK);
    assert EMPTY_BOOK.orders[7 := row] == map[7 := row];
    assert Next(idle, Tx(op), waiting);
    StepKeepsInv(idle, Tx(op), waiting);
    before, after, max := map[0 := waiting, 1 := idle], map[0 := waiting, 1 := waiting], 1;
    assert after == before[1 := after[1]] && Next(before[1], Tx(OpIntent(7, Buy, 1.0)), after[1]);
    hide Inv, Next;
    TwoSymbols(before);
    TwoSymbols(after);
    assert UnresolvedBuys(idle.book) == {};
    assert UnresolvedBuys(waiting.book) == {7};
  }

  lemma TwoSymbols(ws: map<Symbol, World>)
    requires 0 in ws && 1 in ws
    ensures UsedSlots(ws, [0, 1]) == Slots(ws[0].book) + Slots(ws[1].book)
    ensures CountOpen(ws, [0, 1]) == (if ws[0].book.open.Some? then 1 else 0) + (if ws[1].book.open.Some? then 1 else 0)
  {
    assert [0, 1][..1] == [0] && [0][..0] == [];
    assert UsedSlots(ws, [0]) == Slots(ws[0].book);
    assert CountOpen(ws, [0]) == if ws[0].book.open.Some? then 1 else 0;
  }
}
