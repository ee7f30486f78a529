# Verified model of the trading bot

This project models the parts of the bot that move money and proves what they keep. It needs Dafny 4.11;
`dafny verify dfyconfig.toml` checks everything.

## What is modelled

**The order and OCO protocol.** `Ledger.dfy` specifies the transactions on the `trades` and `orders` tables for one
(mode, symbol) pair, `TradingDB.dfy` implements them step by step, with rollback, and `Transactions.dfy` says independently
when each commits and what it writes. `Venue.dfy` is the exchange: market orders and two-leg OCO lists whose requests may be
lost, delayed or executed in part. `Protocol.dfy` puts both together as a state machine whose steps are one transaction, one
request sent, or a move of the exchange; nothing else survives a crash, so a crash and a restart are possible between any
two steps. `Preservation.dfy` proves the invariant of that machine and `Safety.dfy` what follows for every history;
`QuoteChain.dfy` follows the quotes of replacement lists. `Broker.dfy`
is the bot itself (`broker.py` and `protection.py`): its methods run against `Exchange.dfy`, a client whose replies may be
missing, and a ghost record of all durable states shows that they extend a run of the protocol and nothing else. Further
ghost fields of the client keep the last answers it gave, so that contracts can say which answer a stored status, price or
quantity came from. `OcoReply.dfy` holds the validators, `Observation.dfy` what a validated reply tells about the exchange.

**Accounting.** `Accounting.dfy` proves conservation of quantity and entry fee over all partial closes and the exact
condition under which protective accounting does not depend on the path of reports.

**Portfolio.** `Portfolio.dfy` runs many symbols at once and bounds the position slots; `PaperLedger.dfy` is the paper
account with shared cash and the exposure limit.

**Arithmetic.** `Risk.dfy` (sizing against a loss budget), `LotFilter.dfy` (lot normalization), `OrderBook.dfy` (the walk
through the asks), `TradeCosts.dfy` (cost scenarios), `Indicators.dfy` (bounds of the indicators), `Backtest.dfy` (the
candle loop). `Rules.dfy` holds the validated settings and the pricing rules they share, `Candles.dfy` the candles,
`RealFacts.dfy` facts about products and quotients.

Quantities and money are exact reals; the comparison tolerances of the code are kept.

## Assumptions about the exchange

They are exactly the definitions named here.

- Only one leg of a list executes, at most the quantity of the list, and a dead list or order stays as it is
  (`Venue.OcoAdvance`, `Venue.MarketAdvance`, `Venue.GoodOco`).
- Fills come in lots: two cumulative executions of a list differ by at least `grain`, and so do an execution and the whole
  quantity unless equal (`Venue.GoodOco`); the ledger's tolerance is below one lot, that is, a position is smaller than a
  thousand million lots (`Protocol.Guard` for a BUY intent, `Broker.Enter`).
- Client ids are fresh (`Exchange.FreshListId`, `Exchange.FreshOrderId`).
- A reply that passes validation is truthful about the moment it was produced (`Exchange.TruthfulList`, `TruthfulLeg`,
  `TruthfulFills`, `TruthfulOrder`); a dead list may still be reported as executing.
- A successful cancellation means that the list is dead (`Exchange.CancelOrderList`). The code clears the id after a
  successful cancel even if the next query still shows two active legs.
- Steps for one symbol are sequential (app/agents/orchestrator.py:713-715).

One assumption is about a caller: `execute_entry` looks at unresolved orders only when a notional is given. The
orchestrator always gives one (app/agents/orchestrator.py:583), so the slot limit holds (`Portfolio.SlotsNeverExceeded`). An
entrant approved by the count alone keeps the limit iff a slot was free counting unresolved orders
(`Portfolio.IntentFitsIff`, with an instance in `Portfolio.CountAloneIsNotEnough`).

## Where the code does less than it promises

- `reconcile_open_position_protection` installs a list at startup without looking at unresolved orders
  (app/agents/orchestrator.py:110-116). While a SELL is unresolved this can sell the position twice. The installation is
  safe iff no order is unresolved (`Startup.StartupInstallSafeIff`, with a history in `Startup.StartupCanOversell`), so
  `Broker.ReconcileOpenPositionProtection` carries that as a precondition. `maybe_exit` does check it.
- Protective accounting is not fully path independent. A report that raises the quantity by at most the tolerance, or
  changes only the quote or the fee, is dropped by the quantity test; `Accounting.RevisedFeeIsDropped` is such a series.
  `Accounting.PathIndependentIff` is the exact condition over all nondecreasing series, and `Accounting.WhatIsNotBooked`
  says what is missing otherwise.
- ATR stops size a position with a distance that its stop does not use, since the fill sets the fixed percentages. The
  approved position then stays within the loss budget iff `RiskManager.CoversStop` holds of the sizing stop or
  `RiskManager.LimitCovers` holds of the settings, that is, the position limit alone keeps the loss small enough
  (`RiskManager.ApprovedLossIff`, `RiskManager.BookedLossIff`). `RiskManager.AtrStopMayExceedBudget` is an input for which
  neither holds.

## Model

| member | source | states |
|---|---|---|
| `Safety.NoOversell` | app/execution/broker.py:602-839 | in every history, however interleaved and wherever interrupted, the exchange has sold for an opened position (all OCO lists and market SELLs together) at most the quantity opened, which is at most what the BUY executed |
| `Safety.SoldWithinLineage` | app/execution/broker.py:797-823 | in any state that meets the invariant, what the exchange sold for a position is at most what the ledger accounts for under that position |
| `Safety.OpenSoldWithinLineage` | app/execution/protection.py:884-922 | for the open position, what was executed and not yet booked fits the open quantity, so sales stay within its lineage |
| `Safety.LineageFixed` | app/storage/db.py:463-522 | along any history the quantity a lineage accounts for never changes once the trade exists |
| `Safety.NoListIsLost` | app/execution/protection.py:196-222 | in every reachable state a submitted list that may still execute is stored on the OPEN row of the position it was submitted for; at most one such list exists and no list id is submitted twice |
| `Safety.ChainCountedOnce` | app/storage/db.py:222-245 | in every reachable state the applied quantity and quote are the sums over all earlier lists of what they executed plus one execution of the current list, and the stored base is exactly the former |
| `Safety.ChainInState` | app/execution/protection.py:552-554 | the same, in any state that meets the invariant and whose quotes agree |
| `QuoteChain.StepKeepsQuotes` | app/storage/db.py:222-245 | every protocol step keeps the base quote equal to what the earlier lists of the position brought |
| `QuoteChain.RunKeepsQuotes` | app/execution/protection.py:740-746 | so does every run |
| `QuoteChain.AdvanceKeepsQuotes` | app/execution/protection.py:912-921 | a move of the exchange cannot change what earlier lists brought |
| `QuoteChain.ForgottenCounts` | app/storage/db.py:401-414 | forgetting a list adds its whole quote to that of the earlier ones |
| `Safety.WithoutList` | app/execution/protection.py:740-746 | what all lists sold is what the other lists sold plus the execution of the current one |
| `Safety.OrdersAppliedOnce` | app/storage/db.py:779-788 | at most one order is unresolved; an order opened one trade or booked one sale iff it is marked applied; whatever executed is applied or still unresolved |
| `Safety.ExecutedBlocksNewOrders` | app/storage/db.py:744-777 | an order the exchange executed even in part blocks every new intent until it has been applied exactly once |
| `Safety.BlockedOrApplied` | app/storage/db.py:834-849 | until an executed order is applied, no order that was unknown at that time appears |
| `Safety.OrdersPersist` | app/storage/db.py:790-824 | no transaction deletes an order or takes back its applied mark, and none adds an order while one is unresolved |
| `Safety.StopNeverFalls` | app/storage/db.py:416-438 | along any run the stop of an open trade never falls and its take-profit never moves |
| `Safety.AttemptKeepsStop` | app/storage/db.py:416-438 | no transaction lowers the stop of a trade or moves its target |
| `Safety.Reachable` | app/execution/protection.py:188-343 | every state of every history meets the protocol invariant |
| `Safety.HistoryContinues` | app/execution/broker.py:193-427 | a run that starts in the state in which an earlier history ended continues that history |
| `Safety.NoOversellAfterRestart` | app/execution/broker.py:602-839 | a position opened before a restart is not oversold by anything the restarted process does |
| `BrokerAgent.Broker.RestartedNeverOversells` | app/execution/broker.py:18-24 | the restarted bot: no position opened by the earlier process or by this one is ever oversold |
| `Preservation.StepKeepsInv` | app/execution/broker.py:103-191 | every step (transaction, request, move of the exchange) keeps the invariant |
| `Preservation.RunKeepsInv` | app/execution/broker.py:193-427 | so does every run |
| `Preservation.InitialInv` | app/storage/db.py:28-40 | an empty database and an exchange without orders meet the invariant |
| `Preservation.IntentKeepsInv` | app/storage/db.py:744-777 | recording an order intent keeps the invariant |
| `Preservation.UpdateKeepsInv` | app/storage/db.py:790-824 | following the exchange in an order record keeps the invariant |
| `Preservation.OpenKeepsInv` | app/storage/db.py:174-205 | opening a trade for an executed BUY keeps the invariant |
| `Preservation.CloseKeepsInv` | app/storage/db.py:440-530 | closing (part of) a trade for an executed SELL keeps the invariant |
| `Preservation.ProtectiveKeepsInv` | app/storage/db.py:263-399 | applying a cumulative execution the list really had keeps the invariant |
| `Preservation.SetProtectionKeepsInv` | app/storage/db.py:207-261 | storing a fresh list id, or a status for the same id, keeps the invariant |
| `Preservation.ClearProtectionKeepsInv` | app/storage/db.py:401-414 | forgetting a dead list whose execution is fully applied keeps the invariant |
| `Preservation.RaiseStopKeepsInv` | app/storage/db.py:416-438 | raising the stop keeps the invariant |
| `Preservation.SubmitListKeepsInv` | app/execution/protection.py:223-232 | sending the stored list keeps the invariant |
| `Preservation.SubmitOrderKeepsInv` | app/execution/broker.py:120-127 | sending the recorded order keeps the invariant |
| `Preservation.AdvanceKeepsInv` | app/execution/protection.py:912-921 | anything the exchange may do on its own keeps the invariant |
| `Preservation.TxKeepsInv` | app/storage/db.py:15-26 | any committed, guarded transaction keeps the invariant |
| `Startup.StartupInstallSafeIff` | app/agents/orchestrator.py:110-116 | installing a list at startup without looking at unresolved orders cannot oversell, whatever the exchange did, iff no order is unresolved |
| `Startup.StartupCanOversell` | app/agents/orchestrator.py:110-116 | a history after which the unguarded installation lets the exchange sell the position twice |
| `Startup.DisasterIsHistory` | app/agents/orchestrator.py:102-127 | the steps that lead there form a history of the protocol |
| `Startup.GuardedInstallIsSafe` | app/execution/protection.py:874-880 | with no unresolved order the installation cannot oversell |
| `Accounting.LineageConserved` | app/storage/db.py:463-522 | after any interleaving of transactions, committed or rolled back, CLOSED plus OPEN quantity of a lineage is the opened quantity and the entry fees add up to the fee paid |
| `Accounting.RunKeepsLineage` | app/storage/db.py:310-363 | any sequence of transactions keeps quantity and entry fee of every lineage |
| `Accounting.AttemptKeepsLineage` | app/storage/db.py:310-363 | so does one transaction |
| `Accounting.SettleKeepsLineage` | app/storage/db.py:463-522 | a split or a full close keeps both sums |
| `Accounting.PathIndependentIff` | app/storage/db.py:263-399 | for every nondecreasing series of cumulative reports, in steps of any size, applying them one by one leaves the same open row and the same sums over CLOSED rows as the last one alone, iff the last report is within the tolerance of the start, or is the last one applied and within the position, or both close the row with equal fee and P&L |
| `Accounting.SeriesCollapses` | app/storage/db.py:263-399 | a series in steps of any size leaves what its last applied report leaves alone, or what the last two leave if that one goes beyond the position |
| `Accounting.SeriesView` | app/storage/db.py:296-399 | the open row, or the closed quantity, fees and P&L, that a series leaves, in closed form |
| `Accounting.AloneView` | app/storage/db.py:296-399 | the same for one report, also beyond the position by less than the tolerance |
| `Accounting.WhatIsNotBooked` | app/storage/db.py:296-305 | what a series books less than its last report alone: at most the tolerance of quantity (and what lies beyond the position), with its fee and the difference in P&L |
| `Accounting.OvershootPnl` | app/storage/db.py:285-341 | a report beyond the position by less than the tolerance closes the row with the same quantity and fees whether earlier reports were applied or not; the P&L differs by at most the tolerance times the difference of the average prices |
| `Accounting.ObserveTwice` | app/storage/db.py:296-341 | two successive fills book the same as the second cumulative report at once |
| `Accounting.ShareSplits` | app/storage/db.py:317-329 | the entry fee splits between two sales as for one combined sale |
| `Accounting.RevisedFeeIsDropped` | app/storage/db.py:296-302 | two reports of one partial fill, the second with a fee: the row stays open, the second is dropped as nothing new and no exit fee is booked; the second alone books it |
| `Accounting.BookedWithinTolerance` | app/storage/db.py:285-316 | for every nondecreasing series the booked quantity is within the tolerance of the last report |
| `Accounting.SeriesFollows` | app/storage/db.py:285-316 | after every report the ledger is behind it by at most the tolerance, and accounts exactly for what it applied |
| `Transactions.IntentIs` | app/storage/db.py:744-777 | an order intent commits iff every order is terminal and booked, the id is new, and a BUY finds no position, a SELL finds one; it adds one pending row |
| `Transactions.UpdateIs` | app/storage/db.py:790-824 | an update of a known order writes execution and status only |
| `Transactions.ApplyIs` | app/storage/db.py:779-788 | an order is marked applied iff it executed, has this side, is terminal but not rejected, and is not applied yet |
| `Transactions.OpenIs` | app/storage/db.py:174-205 | a trade is opened iff none is open and its order, if any, may be booked; every column of the row is given |
| `Transactions.CloseIs` | app/storage/db.py:440-530 | a sale is booked iff the trade is open, its order may be booked and something was executed; the row is split or closed with a share of the entry fee in proportion and the P&L of the sold part |
| `Transactions.ProtectiveIs` | app/storage/db.py:263-399 | a cumulative report is refused, ignored or booked exactly under the stated conditions, with the tolerances as numbers, at the average price of what it adds |
| `Transactions.ProtectionIs` | app/storage/db.py:207-261 | the protection columns change only for the open trade with this id; a new list moves the base to what is applied, the same one keeps it |
| `Transactions.RaiseIs` | app/storage/db.py:416-438 | high-water mark and stop become the maximum, for the open trade with this id only |
| `TradingDatabase.TradingDB.RecordOrderIntent` | app/storage/db.py:744-777 | commits a PENDING_SUBMIT row iff no order is unresolved, the side fits the position and the id is new; otherwise nothing changes and the error says why |
| `TradingDatabase.TradingDB.HasUnresolvedOrder` | app/storage/db.py:834-849 | true iff some order is not terminal or executed and unapplied |
| `TradingDatabase.AnyUnresolved` | app/storage/db.py:834-849 | the loop over the order rows decides that |
| `TradingDatabase.TradingDB.ApplyOrderConn` | app/storage/db.py:779-788 | marks exactly one matching, executed, terminal, unapplied order or fails and changes nothing |
| `TradingDatabase.TradingDB.UpdateOrderRecord` | app/storage/db.py:790-824 | overwrites execution and status of one known order and nothing else |
| `TradingDatabase.TradingDB.OpenTrade` | app/storage/db.py:174-205 | applies the BUY and inserts the OPEN row in one transaction; a second OPEN row undoes both |
| `TradingDatabase.TradingDB.CloseTrade` | app/storage/db.py:440-530 | applies the SELL and closes or splits the row in one transaction, or changes nothing |
| `TradingDatabase.TradingDB.BookSale` | app/storage/db.py:315-399 | row updates of a sale: split off a CLOSED row or close the whole, with the fee share and the P&L |
| `TradingDatabase.TradingDB.ApplyProtectiveExecution` | app/storage/db.py:263-399 | books the delta of a cumulative report, ignores one within the tolerance, refuses one that goes backwards, has no quote, or exceeds the position |
| `TradingDatabase.TradingDB.SetTradeProtection` | app/storage/db.py:207-261 | stores list and status; a new identity moves the accounting base |
| `TradingDatabase.TradingDB.ClearTradeProtection` | app/storage/db.py:401-414 | forgets the list, keeps everything else |
| `TradingDatabase.TradingDB.RaisePositionStop` | app/storage/db.py:416-438 | neither the stop nor the high-water mark ever falls |
| `TradingDatabase.TradingDB.Commit` | app/storage/db.py:15-26 | commits, or fails and undoes every change of the transaction |
| `TradingDatabase.TradingDB.Rollback` | app/storage/db.py:15-26 | restores all tables |
| `OcoReply.ValidateChildren` | app/execution/protection.py:154-182 | the loop with its sets of seen ids accepts exactly two children with distinct client ids and distinct positive order ids, not BUY; for a list whose id carries a token they are its take-profit and stop leg, of the right type |
| `OcoReply.ValidatePlaced` | app/execution/protection.py:23-99 | accepts a placement reply iff symbol, list id, order-list id, status and both legs are right |
| `OcoReply.ValidateQueried` | app/execution/protection.py:101-186 | the same for a queried list, which must also match the stored order-list id; a list with an older client id needs only two well-formed children |
| `OcoReply.ValidateLeg` | app/execution/protection.py:345-401 | accepts a leg report iff identity, side, status, type and executed quantity are consistent; a leg with an older client id may have any sell-side type |
| `OcoReply.SumFills` | app/execution/protection.py:668-700 | adds up the fills of one order; refuses another symbol, nonpositive prices or quantities and negative commissions |
| `OcoReply.AsProtection` | app/execution/protection.py:548-553 | the status stored for a list is the one reported: executing exactly for EXECUTING, terminal exactly for ALL_DONE, REJECT and EXPIRED |
| `OcoReply.FillTotalsAre` | app/execution/protection.py:668-718 | the running totals of an order are the sums of quantity, of price times quantity and of commission over exactly its fills |
| `OcoReply.FillSumIs` | app/exchange/binance.py:594-602 | the sums behind the weighted fill price are those of quantity and of price times quantity |
| `OcoReply.AveragePriceIs` | app/exchange/binance.py:594-602 | the weighted fill price times the quantity is the sum of price times quantity |
| `OcoReply.FillPriceBetween` | app/exchange/binance.py:594-602 | a fill price lies between any bounds of the prices of the fills |
| `OcoReply.BaseCommissionIs` | app/execution/broker.py:429-435 | the commission taken in the base asset is the sum over the fills |
| `Observation.CloseIsEqual` | app/execution/protection.py:700-714 | two executions of one list that are close in the sense of the comparison are the same execution |
| `Observation.IsCloseMeans` | app/execution/protection.py:704-709 | two quantities are close iff they differ by at most the absolute bound or a 1e-9th of the larger |
| `Observation.FitIs` | app/execution/protection.py:620-645 | the checks on the collected leg states decide whether the legs as answered fit the status |
| `Observation.HitIsFill` | app/execution/protection.py:700-720 | fills that match the reported quantity are the execution of the leg, the final one if the list is dead |
| `Observation.NothingExecutedYet` | app/execution/protection.py:647-658 | if no leg of a dead list executed, nothing of it is missing in the ledger |
| `Observation.HitRetires` | app/execution/protection.py:740-746 | after the fill of a dead list was applied the list may be forgotten |
| `Observation.ReportedGuard` | app/execution/protection.py:740-746 | base plus what the list executed is a total that may be applied |
| `Observation.OnlyOne` | app/execution/broker.py:200-203 | the unresolved records that recovery loops over are at most one |
| `Observation.OpenedLeavesNone` | app/execution/broker.py:369-379 | a trade opened for an order resolves it |
| `Observation.ClosedLeavesNone` | app/execution/broker.py:402-409 | a sale booked for an order resolves it and shrinks the position |
| `BrokerAgent.Broker.constructor` | app/execution/broker.py:18-24 | a started or restarted process begins a run in the state it finds |
| `BrokerAgent.Broker.ProtectiveFill` | app/execution/protection.py:521-812 | extends the run by protocol steps only, keeps the identity of the list and the terms of the trade, stores the status last answered; on normal return the legs as answered fit that status, the report tells exactly whether a sale was booked, and a list known to be dead is fully booked |
| `BrokerAgent.Broker.ObserveLegs` | app/execution/protection.py:575-658 | the part after the list was verified: it goes on iff the two legs as last answered fit the status of the list, and reports whether a sale was booked |
| `BrokerAgent.Broker.QueryLegs` | app/execution/protection.py:583-618 | asks for both legs; each state is the last answer about that leg and a true fact about the list |
| `BrokerAgent.Broker.QueryLeg` | app/execution/protection.py:583-618 | one leg: query, validation, and what it tells about the list |
| `BrokerAgent.Broker.CollectFills` | app/execution/protection.py:660-728 | the summed account fills are an execution the list really had; they are refused only if one is invalid or they do not account for the leg |
| `BrokerAgent.Broker.ApplyHit` | app/execution/protection.py:660-812 | books the executed leg and reports whether it did; a partial fill is pending iff the leg is partially filled on an executing pair; keeps the list id whatever happens |
| `BrokerAgent.Broker.BookFills` | app/execution/protection.py:740-746 | applies base plus fills and, for a dead list, leaves it retirable |
| `BrokerAgent.Broker.PlaceExchangeProtection` | app/execution/protection.py:188-343 | stores the id before sending, submits at most two lists, terminates; on normal return for a position without a list it is closed, or a list is stored that the exchange last answered as EXECUTING |
| `BrokerAgent.Broker.StoreListIntent` | app/execution/protection.py:211-222 | persists a fresh list id before any request |
| `BrokerAgent.Broker.SendList` | app/execution/protection.py:223-238 | sends at most one request; without an answer it asks once more, by the stored id |
| `BrokerAgent.Broker.PostList` | app/execution/protection.py:211-285 | stores the verified status of the new list; a failure leaves no list stored, or one in status SUBMITTING or PROTECTION_UNKNOWN |
| `BrokerAgent.Broker.ReplaceTerminal` | app/execution/protection.py:294-343 | an immediately terminal list is reconciled and replaced once; it gives up on the first list only when that is executing |
| `BrokerAgent.Broker.RearmTerminalProtection` | app/execution/protection.py:475-519 | changes nothing unless the status is terminal; forgets only a list that is fully booked, then submits at most one replacement under a new id |
| `BrokerAgent.Broker.CancelExchangeProtection` | app/execution/protection.py:884-922 | returns without a fill only when the open row names no list and the last list is dead with its whole execution in the ledger |
| `BrokerAgent.Broker.ReconcileOpenPositionProtection` | app/execution/protection.py:814-882 | on normal return a position still open stores a list that the exchange last answered as EXECUTING, so a terminal one was replaced; it fails for want of protection only after a replacement; needs that no order is unresolved when no list is stored |
| `BrokerAgent.Broker.StoreOrderIntent` | app/execution/broker.py:112-118 | the intent is durable before any request; a SELL only without a list and for at most the position |
| `BrokerAgent.Broker.SendOrder` | app/execution/broker.py:120-134 | sends at most one order; without an answer it asks once more, by client id |
| `BrokerAgent.Broker.SubmitMarketOrder` | app/execution/broker.py:103-191 | at most one order is sent and recorded; the answer is refused only if it is about another order or an impossible quantity, or if it executed without being settled with complete fills at a positive price; otherwise it is returned and the record agrees with it |
| `BrokerAgent.Broker.RecordAnswer` | app/execution/broker.py:155-191 | the part after the answer: what is recorded, and exactly which answers are refused |
| `BrokerAgent.Broker.UpdateRecord` | app/execution/broker.py:173-181 | writes only what is true of the exchange |
| `BrokerAgent.Broker.Enter` | app/execution/broker.py:437-565 | does nothing while a position is open or an order unresolved, sends at most one BUY of at most the risk quantity; success means the position was opened at the price of the fills answered for that order, less the commission in the base asset, with stop and target from that price, and its list was last answered as EXECUTING, or it was closed again |
| `BrokerAgent.Broker.BuyAndHold` | app/execution/broker.py:505-548 | sends one BUY and, if it executed, holds what it brought |
| `BrokerAgent.Broker.HoldFilled` | app/execution/broker.py:517-548 | entry price, quantity, stop and target of the new position come from the fills, and its list was last answered as EXECUTING |
| `BrokerAgent.Broker.OpenPosition` | app/execution/broker.py:530-540 | opens the trade of an executed BUY and leaves no order unresolved |
| `BrokerAgent.Broker.MaybeExit` | app/execution/broker.py:602-839 | does nothing while an order is unresolved; an order is sent only at or below the stop, at or above the target or on a SELL signal, after the stored list is dead, for at most the position and the free balance; a completed sale is booked at the price of the fills answered for that order; a position is retained only strictly between stop and target, with a list last answered as EXECUTING; the stop never falls |
| `BrokerAgent.Broker.ExitCycle` | app/execution/broker.py:602-839 | the decisions of one exit cycle, in the order of the source |
| `BrokerAgent.Broker.Retain` | app/execution/broker.py:644-730 | without a reason no order is sent: replace a terminal list, raise the stop, or install a list; afterwards the list was last answered as EXECUTING |
| `BrokerAgent.Broker.RatchetStop` | app/execution/broker.py:681-716 | on normal return the high-water mark is the maximum and the stop the one the trailing rules ask for; nothing else changes |
| `BrokerAgent.Broker.SoftwareExit` | app/execution/broker.py:768-823 | sends an order only after the stored list is dead; a completed exit shrinks or closes the position at the price of the fills answered; a fill found on the way is reported as booked or still protected |
| `BrokerAgent.Broker.SellRest` | app/execution/broker.py:797-823 | sells at most the remaining quantity and the free balance with one order, and books it at the price of its fills |
| `BrokerAgent.Broker.ClosePosition` | app/execution/broker.py:816-823 | books the SELL, shrinks the position and leaves no order unresolved |
| `BrokerAgent.Broker.ReconcileUnresolvedOrders` | app/execution/broker.py:193-427 | submits no order and changes nothing when no order is unresolved; when every record was resolved no order is unresolved and every record is dead, agrees with the exchange and was booked exactly once |
| `BrokerAgent.Broker.ResolveOrder` | app/execution/broker.py:200-426 | one record: resolved means that the order is dead, its record holds the final execution and that was booked exactly once, at the price of its account fills |
| `BrokerAgent.Broker.RecoverOrder` | app/execution/broker.py:200-426 | follows the exchange and sends no order; every outcome but a refusal by the database is explained by the answers: none, a mismatch, not terminal, incomplete fills, no price, a position in the way, nothing left, no position |
| `BrokerAgent.Broker.BookRecovered` | app/execution/broker.py:279-409 | a terminal execution is booked only when the account fills account for all of it, at their price |
| `BrokerAgent.Broker.ApplyRecovered` | app/execution/broker.py:327-409 | complete fills are booked against the record and the position they belong to |
| `Observation.ResolvedIsSettled` | app/execution/broker.py:369-409 | in a state that meets the invariant without unresolved orders every order is dead and booked exactly as often as it executed |
| `BrokerAgent.Broker.RecoverBuy` | app/execution/broker.py:354-392 | a recovered BUY opens its position at the given price with stop and target from it, for the execution less the base commission; if it is still open its list was last answered as EXECUTING |
| `BrokerAgent.Broker.RecoverSell` | app/execution/broker.py:393-409 | a recovered SELL is booked against the open position at the given price for what the record says was executed, or nothing changes |
| `BrokerAgent.Broker.RecordNothing` | app/execution/broker.py:233-254 | a terminal order without execution is resolved and only its record changes |
| `BrokerAgent.Broker.MarkRecovery` | app/execution/broker.py:256-277 | an execution that cannot be applied yet stays unresolved and keeps blocking |
| `BrokerAgent.RunExtends` | app/storage/db.py:15-26 | appending a protocol step to a run gives a run |
| `BrokerAgent.Broker.Elapse` | app/execution/protection.py:884-922 | while the bot waits the exchange may move |
| `BrokerAgent.Broker.SetProtection` | app/storage/db.py:207-261 | a guarded update of list and status is one step |
| `BrokerAgent.Broker.ClearProtection` | app/storage/db.py:401-414 | only a retirable list is forgotten |
| `BrokerAgent.Broker.MarkUnknown` | app/execution/protection.py:239-252 | after a failed verification the list keeps its identity, and its status becomes PROTECTION_UNKNOWN or stays |
| `BrokerAgent.Broker.ApplyExecution` | app/execution/protection.py:740-746 | a guarded protective execution is one step |
| `BrokerAgent.Broker.QueryList` | app/execution/protection.py:526-529 | a missing answer tells nothing; an answer is truthful if it is believable |
| `BrokerAgent.Broker.QueryOrder` | app/execution/broker.py:130-134 | the same for an order |
| `BrokerAgent.Broker.CancelList` | app/execution/protection.py:888-892 | a successful cancellation means that the list is dead |
| `ExchangeClient.Exchange.CancelOrderList` | app/exchange/binance.py:555-569 | the exchange may move meanwhile; success means dead |
| `ExchangeClient.Exchange.GetOrderList` | app/exchange/binance.py:537-553 | an answer that passes validation is truthful |
| `ExchangeClient.Exchange.GetLeg` | app/exchange/binance.py:483-489 | the executed quantity of a leg is exact |
| `ExchangeClient.Exchange.MyTrades` | app/exchange/binance.py:571-580 | valid account fills add up to an execution the list had |
| `ExchangeClient.Exchange.GetOrder` | app/exchange/binance.py:483-489 | the executed quantity of an order is exact and a terminal status means dead |
| `ExchangeClient.Exchange.AcceptList` | app/exchange/binance.py:491-535 | a submitted list is in flight for the whole open quantity; the exchange chooses the leg that may execute |
| `ExchangeClient.Exchange.AcceptOrder` | app/exchange/binance.py:455-481 | a submitted order is in flight |
| `ExchangeClient.Exchange.NormalizeQuantity` | app/exchange/binance.py:347-351 | nothing is rounded up |
| `ExchangeClient.Exchange.FreshListId` | app/execution/protection.py:15-21 | the id was never submitted before |
| `ExchangeClient.Exchange.FreshOrderId` | app/execution/broker.py:99-101 | the id was never submitted before |
| `ExchangeClient.Exchange.OrderTrades` | app/exchange/binance.py:571-580 | an answer about account fills is remembered as the last one |
| `ExchangeClient.Exchange.AssetBalance` | app/exchange/binance.py:421-428 | so is the free balance |
| `ExchangeClient.Exchange.CheckLiquidity` | app/exchange/binance.py:379-419 | so is the verdict on the order book; module OrderBook says what it is |
| `ExchangeClient.AdvanceTransitive` | app/execution/protection.py:912-921 | what the exchange does in two waits it may do in one |
| `Portfolio.SlotsNeverExceeded` | app/agents/multi_orchestrator.py:336-408 | over all interleavings of entries, exits, timeouts, recoveries and crashes, open positions plus unresolved BUY orders never exceed the maximum |
| `Portfolio.BusyNeverExceed` | app/agents/multi_orchestrator.py:336-408 | the symbols that hold a position or wait for the outcome of a BUY are never more than the maximum |
| `Portfolio.AdmittedIff` | app/agents/multi_orchestrator.py:336-370 | an entrant is admitted iff it is configured, fewer symbols than the maximum hold a position, and every order of every configured symbol is terminal and booked |
| `Portfolio.CountIsNumber` | app/storage/db.py:604-621 | the count of open trades is the number of symbols with an open position |
| `Portfolio.MoveKeepsSlots` | app/agents/multi_orchestrator.py:348-370 | every event keeps the slots within the maximum, counting the entrant that was approved |
| `Portfolio.AttemptSlots` | app/execution/broker.py:354-379 | only a BUY intent takes a slot; recovery trades the slot of the order for that of the position |
| `Portfolio.OneSlotPerSymbol` | app/storage/db.py:744-777 | in a reachable state a symbol takes one slot at most |
| `Portfolio.CheckEntry` | app/agents/multi_orchestrator.py:336-370 | the count and the loop over configured symbols decide exactly the entry condition |
| `Portfolio.IntentFitsIff` | app/agents/multi_orchestrator.py:348-370 | whatever let an entrant through, its BUY intent keeps the limit iff a slot was free, counting orders of unknown outcome |
| `Portfolio.CountAloneIsNotEnough` | app/agents/multi_orchestrator.py:367-370 | an instance where the count of open trades alone lets two symbols exceed the maximum |
| `Portfolio.ApprovedUse` | app/storage/db.py:604-621 | with no unresolved order the used slots are the open trades that are counted |
| `PaperLedger.LedgerIdentity` | app/execution/broker.py:458-485 | after any run over all symbols cash is the starting balance plus realized P&L minus what the open positions cost, never negative, and every base balance is the open quantity |
| `PaperLedger.BuyBalanced` | app/execution/broker.py:458-485 | a paper entry keeps the identity |
| `PaperLedger.SellBalanced` | app/execution/broker.py:733-751 | a paper exit keeps the identity |
| `PaperLedger.FullSale` | app/storage/db.py:463-475 | a full sale books the proceeds less everything the trade cost |
| `PaperLedger.PaperEntryIs` | app/execution/broker.py:458-485 | an entry happens iff price and quantity are positive, no position is open and the cash covers quantity, slippage and fee; cash, balance and the new row are given |
| `PaperLedger.PaperExitIs` | app/execution/broker.py:733-751 | an exit adds the slipped proceeds less the fee to the cash, empties the balance and closes the row at the slipped price |
| `PaperLedger.SellKeepsHeadroom` | app/agents/multi_orchestrator.py:379-398 | an exit at any price keeps exposure plus reserve within the limit |
| `PaperLedger.BuyWithinLimit` | app/agents/multi_orchestrator.py:379-398 | an entry whose cost is within the reserve leaves exposure within the limit of the equity that is left |
| `PaperLedger.PaperAccount.constructor` | app/execution/broker.py:38-64 | a fresh account is balanced |
| `PaperLedger.PaperAccount.Enter` | app/execution/broker.py:437-485 | commits the specified entry exactly when position, quantity and cash allow it, within the risk quantity; otherwise nothing changes |
| `PaperLedger.PaperAccount.MaybeExit` | app/execution/broker.py:602-751 | sells everything iff the price is at or below the stop, at or above the target, or the signal is SELL; otherwise keeps the balances and never lowers the stop |
| `PaperLedger.PaperAccount.Liquidate` | app/execution/broker.py:733-751 | books the exit in cash, base balance and trade together |
| `PaperLedger.PaperAccount.Ratchet` | app/execution/broker.py:681-716 | the high-water mark becomes the maximum and the stop the one the trailing rules ask for |
| `PaperLedger.PaperAccount.Snapshot` | app/agents/multi_orchestrator.py:186-300 | equity and exposure of all holdings, available iff every holding has a fresh price and the equity is positive |
| `PaperLedger.PaperAccount.ExecuteEntry` | app/agents/multi_orchestrator.py:348-408 | an accepted entry leaves the exposure, at the sizing prices, within the limit of the post-entry equity, although other symbols may exit meanwhile |
| `PaperLedger.PaperAccount.CheckExposure` | app/agents/multi_orchestrator.py:379-398 | approves iff the snapshot is available and cash and exposure limit cover the notional with fee and slippage |
| `TradingRules.CandidateStop` | app/execution/broker.py:684-700 | the least stop not below the present one, at break-even where that applies and at the trailing distance where that applies |
| `TradingRules.BreakEvenRecovers` | app/execution/broker.py:685-693 | once raised to break-even, a sale at the stop brings back the unit cost after slippage and fee |
| `TradingRules.RaisedStopIs` | app/execution/broker.py:681-700 | a raised stop is at the trailing distance below the highest price, or where a sale of the whole position brings back exactly what it cost with its entry fee, and at the higher of both if both are due |
| `TradingRules.CandidateBelowTake` | compare_strategy_intervals.py:471-491 | a trailing stop stays below the target while the price does |
| `RiskManager.FixedStopLossBudget` | app/risk/manager.py:76-94 | with fixed stops a paper position of the approved size that exits at its stop loses at most equity times risk per trade times the clamped multiplier, costs included |
| `RiskManager.EntryApprovedIff` | app/risk/manager.py:46-102 | evaluate_entry approves iff the signal is BUY, its confidence reaches the threshold, equity and price are positive and less than the daily limit is lost; stop and target lie around the price at the ATR distances or the fixed ones |
| `RiskManager.QuantityIsGreatest` | app/risk/manager.py:76-98 | the approved quantity is the greatest whose loss at the stop with fees and slippage is within the risk budget and whose cost is within the position budget |
| `RiskManager.AtrDistanceIs` | app/risk/manager.py:12-40 | the ATR is used iff enabled and positive; the stop is the ATR times its multiplier, clamped to half and double the fixed distance and to the absolute bounds |
| `RiskManager.LossBudget` | app/risk/manager.py:76-94 | the same with ATR stops whenever the sizing stop covers the fixed stop or the position limit covers it |
| `RiskManager.ApprovedLossIff` | app/risk/manager.py:76-94 | the loss of the approved quantity, the minimum of both sizes, at its stop is within the budget iff the sizing stop covers the fixed stop or the position limit alone keeps it there |
| `RiskManager.BookedLossIff` | app/risk/manager.py:86-94 | the same for the P&L that the exit of the approved position at its stop books |
| `RiskManager.AtrStopMayExceedBudget` | app/risk/manager.py:12-43 | settings and an ATR for which the exit at the stop books a loss of 50 against a budget of 25 |
| `RiskManager.UnitLossWithinBudgetIff` | app/risk/manager.py:86-92 | the loss per unit is within what the sizing reckons with iff the sizing stop covers the fixed stop |
| `RiskManager.StopExitBooks` | app/execution/broker.py:84-97 | what the exit at the stop books |
| `RiskManager.PositionLimit` | app/risk/manager.py:93-94 | in every mode the approved quantity costs at most the position limit at the sizing price with costs; in paper mode that is what the entry takes from the cash |
| `RiskManager.RewardRatioKept` | app/risk/manager.py:41-43 | the reward-to-risk ratio is kept unless the cap cuts the target |
| `RiskManager.AtrScaledDistances` | app/risk/manager.py:12-43 | the stop lies between half and double the fixed distance, or is the absolute maximum; both distances are positive and capped |
| `LotFilter.NormalizeIsGreatest` | app/exchange/binance.py:312-345 | a nonzero result is the greatest quantity not above the request on the grid of all steps, meets every rule and is a fixed point; zero exactly when that quantity is zero or breaks a rule, or the input is not positive |
| `LotFilter.NormalizeQuantityDecimal` | app/exchange/binance.py:312-345 | the loops over filters and rules compute that quantity; missing filters are an error |
| `LotFilter.RoundedGreatest` | app/exchange/binance.py:319-328 | rounding down on the combined step gives the greatest common multiple of all steps not above the request |
| `LotFilter.CommonIsCombined` | app/exchange/binance.py:325-327 | a common multiple of all steps is a multiple of the scaled least common multiple |
| `LotFilter.MultipleOfCombined` | app/exchange/binance.py:325-327 | and conversely |
| `LotFilter.Lcm` | app/exchange/binance.py:326-327 | a positive common multiple of all steps, and no smaller one is |
| `LotFilter.LcmDivides` | app/exchange/binance.py:326-327 | every common multiple is a multiple of the least one |
| `LotFilter.ScaledIsValue` | app/exchange/binance.py:325-326 | scaling a decimal step gives the integer it stands for |
| `OrderBook.WalkIsCheapest` | app/exchange/binance.py:404-411 | the cost of the walk is the minimum over all ways to take the quantity from the levels |
| `OrderBook.AverageBetween` | app/exchange/binance.py:404-414 | the average lies between the best and the last touched ask |
| `OrderBook.AverageGrows` | app/exchange/binance.py:404-414 | the average never falls as the quantity grows |
| `OrderBook.WalkLeads` | app/exchange/binance.py:406-411 | a way that is behind the walk after n levels has saved at most the gap at the last price |
| `OrderBook.GreedyTakes` | app/exchange/binance.py:406-411 | the walk takes exactly the quantity, within what each level offers |
| `OrderBook.Walk` | app/exchange/binance.py:404-413 | the loop computes what remains and what the filled part costs |
| `OrderBook.CheckEntryLiquidity` | app/exchange/binance.py:379-419 | succeeds exactly on a prompt, positive, sorted, uncrossed, deep book with a spread and an average within the limits, written out, and returns the average |
| `OrderBook.SpreadIff` | app/exchange/binance.py:400-403 | the spread limit in basis points of the mid price as an inequality of prices |
| `OrderBook.SlippageIff` | app/exchange/binance.py:414-417 | the slippage limits in basis points of the reference as inequalities of prices |
| `OrderBook.SortedIff` | app/exchange/binance.py:391-394 | comparing neighbours is comparing all pairs of levels |
| `TradeCosts.ScenariosOrdered` | compare_strategy_intervals.py:307-347 | raw, fee-adjusted, cost-adjusted and stress-adjusted P&L of a trade are ordered |
| `TradeCosts.ScenariosAre` | compare_strategy_intervals.py:307-347 | each figure is the result of a round trip: the notional buys a quantity at the entry slipped up, it is sold at the exit slipped down, with the fee on both; the stress figure at the sum of both slippages |
| `TradeCosts.TotalsOrdered` | compare_strategy_intervals.py:521-545 | so are their totals over any list of trades |
| `TradeCosts.CombinedTotals` | compare_strategy_intervals.py:521-545 | whatever order the merged trades are sorted into, a total is the sum of the symbols' totals |
| `TradeCosts.ProceedsFall` | compare_strategy_intervals.py:327-339 | more slippage never brings more |
| `TradeCosts.Summarize` | compare_strategy_intervals.py:269-304 | counts, total, win rate, average, profit factor and the deepest fall of the cumulative P&L from an earlier level |
| `TradeCosts.SummaryAgrees` | compare_strategy_intervals.py:269-304 | there is a profit factor iff a trade lost, it is above one iff the trades made money, and the drawdown is at least the total loss |
| `TradeCosts.WinnersAndLosers` | compare_strategy_intervals.py:282-285 | gross profit and gross loss make up the total |
| `TradeCosts.TotalOfColumn` | compare_strategy_intervals.py:529-545 | the list of figures that the summary receives adds up to the total over the trades |
| `TradeCosts.SlicesTile` | compare_strategy_intervals.py:654-661 | the walk-forward slices are disjoint and every usable candle is in one |
| `Backtest.BacktestFrame` | compare_strategy_intervals.py:350-502 | the loop with its flags computes the specified trades |
| `Backtest.NoLookAhead` | compare_strategy_intervals.py:419-502 | the trades of a run on any prefix, without its end-of-sample trade, are the first trades of the whole run, for every strategy |
| `Backtest.Causal` | compare_strategy_intervals.py:419-499 | two frames that agree on their first n candles have the same position, flags and trades after them, but for the plan to enter next |
| `Backtest.TradesOnlyGrow` | compare_strategy_intervals.py:392-416 | trades are only appended |
| `Backtest.StatesAreGood` | compare_strategy_intervals.py:392-499 | after every candle a pending entry means flat, a pending exit means open, stop and high-water mark are strictly below the target, trades are in time order and entries respect the cooldown |
| `Backtest.TradesAreGood` | compare_strategy_intervals.py:392-502 | the trades of every run are in time order and respect the cooldown |
| `Backtest.PositionFares` | compare_strategy_intervals.py:419-491 | a position stays, with the high-water mark and stop that the signal and the trailing rules give and the same target, unless an exit was pending or a level was touched; then exactly one trade is added, at the open, at the stop whenever the stop was touched, or at the target, with its reason |
| `Backtest.FlatEnters` | compare_strategy_intervals.py:426-449 | a flat state enters at the slipped open exactly when an entry was planned and the cooldown is over, with the planned stop and target distances; the candle may close it at one of them |
| `Backtest.SignalObeyed` | compare_strategy_intervals.py:464-499 | an exit is pending after a candle iff a position is open and the strategy said SELL; an entry is pending iff flat, the strategy said BUY with enough confidence and a candle follows, with the distances for that signal; a candle that sold plans nothing |
| `Backtest.FlagsAlwaysFit` | compare_strategy_intervals.py:392-499 | on any frame a pending entry means flat and a pending exit means open |
| `Backtest.WarmsUp` | compare_strategy_intervals.py:350-420 | the first sixty candles do nothing; a frame below 62 candles has no trades |
| `Backtest.EndsFlat` | compare_strategy_intervals.py:501-502 | the only other trade of a run closes a position left open at the last close |
| `Backtest.RunTotalsOrdered` | compare_strategy_intervals.py:504-518 | on every run the totals of the four cost scenarios are ordered |
| `Indicators.DirectionalBounds` | app/strategy/indicators.py:35-49 | +DI and -DI are nonnegative with sum at most 100 and ADX lies in [0, 100] on every valid OHLC sequence |
| `Indicators.DiBounds` | app/strategy/indicators.py:40-44 | the directional indicators are defined together and bounded |
| `Indicators.TrendTellsDi` | app/strategy/indicators.py:36-44 | where highs rise and lows never fall +DI is positive and -DI zero, where lows fall and highs never rise the reverse |
| `Indicators.PureTrend` | app/strategy/indicators.py:35-49 | there ADX is 100 |
| `Indicators.MovementWithinRange` | app/strategy/indicators.py:27-41 | directional movement is at most the true range, candle by candle |
| `Indicators.TrueRangeIs` | app/strategy/indicators.py:27-32 | the true range is how far the candle reaches, counting the close before it |
| `Indicators.MeanWithin` | app/strategy/indicators.py:5-6 | an exponentially weighted mean lies between the bounds of what was observed, with or without gaps |
| `Indicators.MeanIsSmooth` | app/strategy/indicators.py:5-6 | without gaps the running mean is the textbook recursion |
| `Indicators.SmoothIsLinear` | app/strategy/indicators.py:42-44 | smoothing is linear |
| `Indicators.SmoothIsMonotone` | app/strategy/indicators.py:42-44 | smoothing is monotone |
| `Indicators.RsiBounds` | app/strategy/indicators.py:9-24 | RSI lies in [0, 100] for every sequence of closes |
| `Indicators.RsiIs` | app/strategy/indicators.py:9-24 | RSI is the share of the smoothed rises in the smoothed moves, 50 where nothing moved |
| `Indicators.RsiSidesWithChange` | app/strategy/indicators.py:9-24 | RSI is above 50 iff the smoothed price change is positive and below iff it is negative |
| `Indicators.RsiIsShare` | app/strategy/indicators.py:14-24 | the formula and its special cases are the share of the mean gain in mean gain plus mean loss |
| `Indicators.EmaWithin` | app/strategy/indicators.py:5-6 | the EMA stays between the lowest and the highest price |

## Left out

- HTTP, signing, rate limits, WebSocket prices and candle download: each exchange call is a nondeterministic outcome.
- SQLite mechanics and schema migration: a transaction is atomic, may fail to commit and then rolls back.
- Dashboard, notifications, logging, LLM advisor, file lock and command line tools: input and output only.
- Float and Decimal rounding, tick rounding of prices, NaN in inputs and JSON parsing.
- Conversion of commissions through third assets: the fee is any nonnegative quote amount.
- The numeric order-list id column, average price and commission columns, reasons and timestamps: no decision depends on
  them except the comparison of a stored order-list id, which is compared with an arbitrary value.
- Lists with client ids from before the present naming scheme: the validators accept them as the source does, but the
  protocol starts from an empty database, so the bot never holds one.
- Safety.ChainCountedOnce: speaks of quantity and quote; the fee base is left out, because the exchange model has no fees.
- `inspect_exchange_protection`: a read-only report, used by the validation tools.
- The inventory check before a software exit and the loss-streak pause: they may refuse at any time, for reasons that are
  not modelled.
- Account valuation of unmanaged holdings outside paper mode, and the age of prices.
- The switch that blocks live trading, and the checks of the signal and the risk decision at the head of `enter`: a refusal
  before anything happens.
- The strategy: an arbitrary function of the candles so far. Adaptive learning and signal reports.
- The stop and target percentages stored with a simulated trade: no decision depends on them.
- Grid search of the walk-forward report: only the slices are modelled.
- Commissions below zero (rebates) in the base asset: they are taken as zero.
- BrokerAgent.Broker.Enter: does not state the quantity recorded beyond its bound by the execution, because lot filters are
  an arbitrary rounding down here; module LotFilter states what they do.
- BrokerAgent.Broker.ReconcileOpenPositionProtection: requires that no order is unresolved when no list is stored. The
  source does not check it; without it the call can oversell, and Startup.StartupInstallSafeIff says exactly when.
- TradingDatabase.TradingDB.OpenTrade: the `state_updates` written in the same transaction are left out here; only the paper
  account uses them, and PaperLedger.PaperAccount.Enter changes cash, base balance and trade together.
- TradingDatabase.TradingDB.CloseTrade: the same, see PaperLedger.PaperAccount.Liquidate.
- TradingDatabase.TradingDB.UpdateOrderRecord: the average price and commission columns, which no decision reads.
- TradingDatabase.TradingDB.SetTradeProtection: the numeric order-list id column.
- TradingDatabase.TradingDB.ClearTradeProtection: the numeric order-list id column.
- ExchangeClient.Exchange.AcceptList: the refusals of the client before it sends (mode, symbol, trading status, filters); to
  the bot they are requests that never arrive.
- ExchangeClient.Exchange.AcceptOrder: the same.
- PaperLedger.PaperAccount.constructor: the migration of balances from the earlier schema.
- PaperLedger.PaperAccount.Snapshot: testnet and live balances and unmanaged assets.
- ExchangeClient.Exchange.NormalizeQuantity: promises only that nothing is rounded up; see module LotFilter.
