# A verified model of the trading system

This project models, in Dafny, the parts of the trading system whose correctness rests on state that changes over
time: the backtest engine, the live bar builder and runner, the crash-safe order protocol, deal accounting,
reconciliation, the hash-chained ledger, the strategy registry and the allocator. Prices, lots, money and weights are
`real`, times are `int` nanoseconds. Strategies, hashes, signatures, the risk gate and the correlation test are
arbitrary functions.

Code that updates objects in place appears twice: as a specification on values, and as a class whose methods are proved
to compute exactly that specification. The laws are proved about the specification, so they hold of the class.

## Parts

| files | what they hold |
|---|---|
| `SimModel`, `BrokerModel`, `SimBroker`, `BrokerLaws`, `FillOrder` | the fill simulator: a plain bar-by-bar specification, the class that skips from event to event, its laws (conservation, risk, stops), and the order in which it handles its lists |
| `Backtest`, `EventLoop`, `Causality`, `BacktestLaws` | the event loop: specification, class, no lookahead, delivery of every bar, final equity |
| `LiveModel`, `LiveRunner`, `LiveParity`, `SignalIds` | the live runner, live/backtest parity, parity from quotes through builder and runner, signal numbering |
| `Resample`, `Events`, `LiveBarsModel`, `LiveBars`, `LiveBarsLaws`, `LateBars` | live bars: streaming aggregation equals the historical one, event order, the fast path, and when a bar is emitted late |
| `Orders`, `OrderLaws` | sending orders: journal, search, retry, crash |
| `Deals`, `DealLaws` | deals and the expected balance: overlapping syncs, saves, the owner's rebase, crashes |
| `Reconcile`, `Stops` | reconciliation episodes and the halt; protective stops |
| `Clusters`, `Shares`, `Allocator` | union-find clusters, capped water filling, risk fractions and lots |
| `Ledger` | the hash chain with several writers |
| `Ladder`, `Registry`, `RegistryStore`, `RegistryLaws`, `RegistryRuns` | the promotion ladder, replay, swap and rollback, the weekly promotion limit |
| `Drawdown`, `Types` | the two drawdown computations; shared values |

## Main results

- **Skip-ahead.** `SimBroker.SimBroker.Advance` leaves what visiting every bar leaves; advancing in two goes is advancing
  in one.
- **No lookahead.** Two data sets that agree on the past give the same run. The rollovers of a run are taken from the
  span of its data, so appending later bars can add a rollover in the past: with the same past, the runs agree up to T
  exactly when the rollovers up to T do (`BacktestLaws.SameRunIffSameRollovers`, with a concrete data set in
  `BacktestLaws.LaterBarsAddARollover`).
- **Conservation.** Balance is initial balance plus net of closed trades plus swaps less entry commissions of open
  positions, in every reachable state.
- **Live bars.** As long as no quote reopens a minute, every series emits exactly the historical bars closed by the latest
  cutoff, globally in event order. A quote reopens a minute when the minute has closed by the cutoff, no minute of its
  symbol is under construction, and the last one that went out is older; a quote that comes before its minute has closed
  by the cutoff, as any quote within the grace period does, never does. The builder is left with something overdue exactly
  then (`LiveBarsLaws.OverdueIffReopened`, and for whole runs `LiveBarsLaws.NeverOverdueIffNoneReopens`), and a bucket that
  has gone out can go out again (`LiveBarsLaws.LateQuoteRepeatsABucket`).
- **Late bars.** For any quotes at all, a subscription emits a bar that had closed by an earlier cutoff if and only if a
  quote starts a minute in an already closed bar and a cutoff at or past that bar's close follows
  (`LateBars.EmitsLateIffOpened`); the first such quote of a run is one that reopens a minute.
- **Quotes to signals.** As long as no quote reopens a minute, builder and runner together give the signals of the backtest
  on the historical bars of the same quotes (`LiveParity.QuotesParity`).
- **Orders.** Everything at the broker is in the journal on disk, and at most two requests per order id are ever
  accepted, unconditionally. At most one is, if the order of a send in flight does not leave the broker and does not
  fill between the two reads of one search. Both hypotheses are needed; a retry places again exactly when the order is in
  neither answer (`OrderLaws.PlacesAgainIffUnseen`). The second case, a fill between the read of the positions and the
  read of the orders, is not mentioned in the source's comments.
- **Deals.** Each deal counts once over any run of overlapping syncs, saves, rebases by the owner and crashes, under two
  hypotheses, both needed: no save forgets a deal that an answer to come still holds (`DealLaws.SaveRemembersIff` says
  exactly when), and the owner's command adopts a balance that what has not been taken in accounts for
  (`DealLaws.RebaseFitsIff`); a deal logged between that command's sync and its reading of the account is counted twice
  otherwise (`DealLaws.RebasedDealCountsTwice`). A first start reads the account and then the clock; it is in balance exactly
  when the deals between the two reads amount to the deals of the clock's very instant.
- **Reconciliation.** A halt in force always has an episode other than "clean" on disk. "Stuck" loses
  its halt in exactly two ways (`Reconcile.LosesHaltIff`): the job's second check finds a mismatch when the owner's command
  has cleared the halt in between (`Reconcile.OverlapLosesTheHalt`), or a crash hits the owner's closing actions
  (`Reconcile.StuckWithoutHalt`).
- **Stops.** The tracked stop only tightens and the broker's stop always protects it. The broker's own stop can be
  loosened after a lost answer; `Stops.BrokerLoosensIff` says exactly when.
- **Allocation.** Clusters are the connected components; the filling is the only one with a common level; fractions never
  exceed the risk budget.
- **Registry.** The state is the replay of the ledger, histories chain edge to edge, no demo_only version reaches a money
  stage, a rollback after a swap restores exactly the stage taken, and a version leaves "retired" exactly when
  a swap it won is rolled back while the old champion is in shadow.

## Model

| member | source | states |
|---|---|---|
| SimBroker.SkipQuiet | packages/engine/src/autotrader/engine/simbroker.py:295-307 | a stretch of bars that concern no open item changes nothing when it is processed bar by bar |
| SimBroker.SimBroker.Open | packages/engine/src/autotrader/engine/simbroker.py:396-437 | a fill opens the specified position with its costs, or rejects it when the price is beyond the stop; other symbols are untouched |
| SimBroker.SimBroker.Close | packages/engine/src/autotrader/engine/simbroker.py:457-528 | closing books the specified trade, cash and fill, and removes that position only |
| SimBroker.SimBroker.CheckExit | packages/engine/src/autotrader/engine/simbroker.py:439-455 | stop before target, with the target only where allowed |
| SimBroker.SimBroker.ProcessBar | packages/engine/src/autotrader/engine/simbroker.py:353-394 | one bar: market orders, expiries, exits, pending triggers, in this order |
| SimBroker.SimBroker.EarliestEvent | packages/engine/src/autotrader/engine/simbroker.py:336-351 | the result is the first bar that concerns an open item, and none exactly when there is no such bar |
| SimBroker.SimBroker.Advance | packages/engine/src/autotrader/engine/simbroker.py:295-307 | jumping from event to event leaves the same positions, orders, trades, fills and balance as visiting every bar of the range |
| SimBroker.SimBroker.SubmitEntry | packages/engine/src/autotrader/engine/simbroker.py:183-193 | the entry waits in the right list with the next number and its expiry |
| SimBroker.SimBroker.Cancel | packages/engine/src/autotrader/engine/simbroker.py:195-202 | the first pending order of that strategy and id goes, or a rejection is noted |
| SimBroker.SimBroker.RequestClose | packages/engine/src/autotrader/engine/simbroker.py:211-219 | an exit order for the position waits for the next bar, or a rejection is noted |
| SimBroker.SimBroker.ModifyStop | packages/engine/src/autotrader/engine/simbroker.py:221-241 | the stop moves only to a price strictly between the old stop and the last price; anything else is a noted rejection; the result is true exactly when the stop has moved |
| SimBroker.SimBroker.ChargeSwaps | packages/engine/src/autotrader/engine/simbroker.py:531-541 | every open position pays or earns its swap, three times on the triple day |
| SimBroker.SimBroker.CloseAll | packages/engine/src/autotrader/engine/simbroker.py:567-578 | every position closes at the last price of its symbol and all orders are dropped |
| BrokerLaws.ProcessBarKeeps | packages/engine/src/autotrader/engine/simbroker.py:353-394 | a bar keeps money at risk positive, orders and positions well-formed, the record of trades, and the unexplained balance |
| BrokerLaws.TriggerOrdersKeeps | packages/engine/src/autotrader/engine/simbroker.py:381-394 | a pending entry that fills inside a bar can be stopped out on it but never takes its target on it |
| BrokerLaws.AdvanceSplits | packages/engine/src/autotrader/engine/simbroker.py:295-307 | advancing to a bar in between and on from there is advancing in one go |
| BrokerLaws.RunFollows | packages/engine/src/autotrader/engine/simbroker.py:221-241 | over any calls every surviving position is the same position with more swaps and a stop that has only tightened |
| BrokerLaws.Conservation | packages/engine/src/autotrader/engine/simbroker.py:396-511 | in every reachable state the balance is the initial balance plus the net of closed trades plus swaps less entry commissions of open positions |
| FillOrder.BarInOrder | packages/engine/src/autotrader/engine/simbroker.py:353-394 | with ascending numbers, a bar handled with each list sorted by number before its phase is the bar handled in list order, and the numbers still ascend |
| FillOrder.HandledInOrder | packages/engine/src/autotrader/engine/simbroker.py:353-394 | in every reachable state market orders, pending orders and positions are in the order of their numbers, so any stretch of bars is the same with and without the sorting |
| BrokerLaws.AllClosedBalances | packages/engine/src/autotrader/engine/simbroker.py:567-578 | after closing everything nothing is open, and equity is the initial balance plus the net of all trades |
| EventLoop.RunBacktest | packages/engine/src/autotrader/engine/backtest.py:202-243 | the loop in place computes the specified run and its settlement |
| EventLoop.EventLoop.AdvanceBroker | packages/engine/src/autotrader/engine/backtest.py:204-212 | every symbol is brought up to the bars closed by the event time |
| EventLoop.EventLoop.HandleRequest | packages/engine/src/autotrader/engine/backtest.py:167-197 | signals are recorded, refused without a price or by the gate, or submitted; the other requests go to the broker |
| EventLoop.EventLoop.CloseBars | packages/engine/src/autotrader/engine/backtest.py:221-235 | the bars of this close time become visible in subscription order, and the strategy is called for each when warmed up |
| Causality.RunPast | packages/engine/src/autotrader/engine/backtest.py:202-235 | the loop over times up to T does the same on the data and on the part of it that closed by T |
| Causality.SamePastSameRun | packages/engine/src/autotrader/engine/backtest.py:202-235 | data sets that agree on the bars closed by T and on the rollovers up to T give the same run up to T, whole state included |
| Causality.SpansAgree | packages/engine/src/autotrader/engine/backtest.py:139-149 | rollovers up to T agree when both data sets start at the same time and reach T |
| BacktestLaws.NoLookahead | packages/engine/src/autotrader/engine/backtest.py:202-235 | in complete runs, bars that close after T cannot change a signal dated up to T |
| BacktestLaws.SameRunIffSameRollovers | packages/engine/src/autotrader/engine/backtest.py:139-149 | with the same past, two runs agree up to T if and only if the rollovers up to T do |
| BacktestLaws.LaterBarsAddARollover | packages/engine/src/autotrader/engine/backtest.py:139-149 | two concrete data sets with the same past but different rollovers up to it |
| BacktestLaws.EveryBarDelivered | packages/engine/src/autotrader/engine/backtest.py:221-231 | the "series bar skipped" error cannot occur, and a run that goes to its end makes every bar visible |
| BacktestLaws.FinalEquity | packages/engine/src/autotrader/engine/backtest.py:237-243 | the last equity point is the initial balance plus the net of all trades, and every trade has money at risk |
| LiveRunner.LiveRunner.OnBars | packages/engine/src/autotrader/engine/live.py:84-100 | a batch in any order is grouped by close time, appended, and handed to the strategy; the result is the checked requests in call order |
| LiveModel.AppendDue | packages/engine/src/autotrader/engine/market.py:53-63 | appending the bars of one close time never raises, and makes exactly those bars visible |
| LiveModel.BatchesAreStream | packages/engine/src/autotrader/engine/live.py:84-100 | batches that keep one close time together amount to the whole event stream |
| LiveModel.Parity | packages/engine/src/autotrader/engine/live.py:84-100 | for the same views and a strategy that ignores fills, the runner makes the backtest's calls on the same series and emits the same signals, or both stop at the same call |
| LiveModel.WholeRunParity | packages/engine/src/autotrader/engine/backtest.py:221-235 | the same for whole runs from the start |
| LiveParity.AppendsInOrder | packages/engine/src/autotrader/engine/market.py:53-63 | events in strict order that come after what their series hold are appended without raising, each to its own series |
| LiveParity.BuilderNeverRaises | packages/engine/src/autotrader/engine/market.py:53-63 | everything the builder emits is appended to empty series without raising and leaves exactly the historical bars there |
| LiveParity.CallsAreStream | packages/engine/src/autotrader/engine/live.py:84-100 | the runner fed with the builder's events call by call does what it does with the whole list of them |
| LiveParity.OrderedIsStream | packages/engine/src/autotrader/engine/backtest.py:221-235 | a list of events in order is the event stream of its own series, close time by close time |
| LiveParity.QuotesParity | packages/engine/src/autotrader/engine/live.py:84-100 | as long as no quote reopens a minute, quotes through builder and runner give the strategy state, series and signals of the backtest on the historical bars of those quotes, or both are stopped by the strategy |
| SignalIds.SignalNumbering.NextId | packages/engine/src/autotrader/engine/context.py:72-77 | the number is one at a new instant and one more than the last at the same instant |
| SignalIds.IdsAscend | packages/engine/src/autotrader/engine/context.py:72-77 | with a clock that does not go back ids strictly ascend, so none is given twice |
| Resample.StreamedIsBatch | packages/data/src/autotrader/data/aggregate.py:44-60 | folding elements into buckets one at a time gives the bars of grouping by bucket and aggregating each group |
| Resample.StreamedShape | packages/core/src/autotrader/core/timeframes.py:29-38 | the bars are one width long, do not overlap, and the last holds the last element |
| Events.SortBySeries | packages/engine/src/autotrader/engine/live_bars.py:152-153 | the sorted events depend only on the order within each series |
| LiveBars.LiveBarBuilder.OnInput | packages/engine/src/autotrader/engine/live_bars.py:96-120 | a quote or a tick does what the specification of one input says, events included |
| LiveBars.LiveBarBuilder.OnCutoff | packages/engine/src/autotrader/engine/live_bars.py:122-153 | the loop over symbols, due minutes and timeframes emits and keeps what the specification says |
| LiveBars.LiveBarBuilder.AddMinute | packages/engine/src/autotrader/engine/live_bars.py:155-181 | a closed minute joins its bucket, or the bucket before it goes out and a new one opens |
| LiveBars.LiveBarBuilder.Add | packages/engine/src/autotrader/engine/live_bars.py:102-117 | a quote joins or opens its minute, or is counted as late |
| LiveBarsLaws.FastPath | packages/engine/src/autotrader/engine/live_bars.py:122-125 | when the cutoff is before the next due close the long way emits nothing and changes nothing |
| LiveBarsLaws.RunInv | packages/engine/src/autotrader/engine/live_bars.py:94-153 | as long as no quote reopens a minute the next due close is the minimum of all pending closes, and built, pending and emitted bars are those of the quotes so far |
| LiveBarsLaws.StreamingIsBatch | packages/data/src/autotrader/data/aggregate.py:28-62 | as long as no quote reopens a minute, every series emits exactly its historical bars cut at the latest cutoff, and all events are in strict order of close time and subscription |
| LiveBarsLaws.PromptIsEnough | packages/engine/src/autotrader/engine/live_bars.py:102-117 | quotes that come before their minute has closed by the cutoff reopen nothing, and all of them are in the historical bars |
| LiveBarsLaws.LateQuoteDropped | packages/engine/src/autotrader/engine/live_bars.py:102-112 | a later quote that reopens no minute is only counted as late |
| LiveBarsLaws.OverdueIffReopened | packages/engine/src/autotrader/engine/live_bars.py:102-117 | a quote leaves something pending that closed by the cutoff if and only if its minute closed by it, none is under construction and the last one out is older |
| LiveBarsLaws.NeverOverdueIffNoneReopens | packages/engine/src/autotrader/engine/live_bars.py:94-153 | at no point of a run is anything overdue if and only if no quote of it reopens a minute |
| LiveBarsLaws.LateQuoteRepeatsABucket | packages/engine/src/autotrader/engine/live_bars.py:102-117 | a concrete quote that reopens a minute makes a bucket go out twice |
| LateBars.AwaitedIff | packages/engine/src/autotrader/engine/live_bars.py:94-153 | after any inputs, a subscription is going to emit a bar with a given close if and only if some quote started a minute in it and no cutoff since has reached that close |
| LateBars.EmitsLateIffOpened | packages/engine/src/autotrader/engine/live_bars.py:94-153 | over any inputs, a subscription emits a bar that had closed by an earlier cutoff if and only if a quote starts a minute in an already closed bar and a cutoff at or past its close follows |
| LateBars.NoneOpensIffNoneReopens | packages/engine/src/autotrader/engine/live_bars.py:102-117 | no quote of a run starts a minute that has closed if and only if none reopens one |
| LateBars.NoneReopensNoneLate | packages/engine/src/autotrader/engine/live_bars.py:94-153 | without a reopened minute no subscription ever emits a bar late |
| OrderLaws.EveryOrderIsJournaled | packages/execution/src/autotrader/execution/order_manager.py:208-327 | over every run the broker holds only journaled orders, journaled decision numbers strictly increase across restarts, and no id is accepted more than twice |
| OrderLaws.AtMostOnce | packages/execution/src/autotrader/execution/order_manager.py:278-316 | under the two hypotheses no id is accepted twice, one reported as sent was accepted once, and one recorded as rejected never |
| OrderLaws.PlacesAgainIffUnseen | packages/execution/src/autotrader/execution/order_manager.py:198-204 | a retry places again if and only if the order was not among the positions at the first read and not among the orders at the second |
| OrderLaws.ClosedBetweenAttempts | packages/execution/src/autotrader/execution/order_manager.py:282-291 | an answer lost and a stop-out before the retry give two orders |
| OrderLaws.FilledBetweenReads | packages/execution/src/autotrader/execution/order_manager.py:198-204 | a fill between the two reads of one search gives two orders |
| OrderLaws.ReachesPlacing | packages/execution/src/autotrader/execution/order_manager.py:208-276 | every approved decision leads to the states of the two lemmas above |
| OrderLaws.DecisionsReachInOrder | packages/core/src/autotrader/core/signing.py:80-91 | with one entry at a time, decisions reach the broker in strictly increasing order over any restarts |
| Deals.DealBook.SyncDeals | packages/execution/src/autotrader/execution/order_manager.py:506-551 | an answer with repeats is taken in as specified, and new deals are reported exactly when one was unknown |
| Deals.DealBook.Prune | packages/execution/src/autotrader/execution/journal.py:108-111 | a deal is remembered after a save if and only if it was before and is at most a week old; its time and everything else stay |
| DealLaws.EachDealOnce | packages/execution/src/autotrader/execution/order_manager.py:506-551 | over any run of overlapping syncs, saves, rebases by the owner and crashes the journal's expected balance is that of the first start plus the cash of the distinct deals taken in since |
| DealLaws.SyncedBalance | packages/execution/src/autotrader/execution/fake.py:364-407 | when a sync finishes and nothing was logged since its answer, the expected balance is the broker's balance |
| DealLaws.SaveRemembersIff | packages/execution/src/autotrader/execution/journal.py:108-111 | a save keeps every deal it must if and only if no deal taken in lies between the start of an answer to come and a week ago |
| DealLaws.ForgottenDealCountsTwice | packages/execution/src/autotrader/execution/journal.py:108-111 | outside that condition a deal at the cursor counts a second time after a quiet week |
| DealLaws.RebaseFitsIff | packages/execution/src/autotrader/execution/reconcile.py:275-277 | the owner's command leaves the right balance, whatever was expected before, if and only if what the broker has logged since the account was read amounts to what has not been taken in |
| DealLaws.RebasedDealCountsTwice | packages/execution/src/autotrader/execution/reconcile.py:275-277 | a deal logged between that command's sync and its reading of the account is in the adopted balance and is counted again by the next sync |
| DealLaws.FirstStartFitsIff | packages/execution/src/autotrader/execution/order_manager.py:188-196 | a first start is in balance if and only if the deals between the reading of the account and of the clock amount to the deals of the clock's instant |
| DealLaws.FreshWriteIsSafe | packages/execution/src/autotrader/execution/journal.py:108-111 | a week before a save no later than the start, less the lookback, of any sync to come or on its way is enough for the first hypothesis |
| DealLaws.SyncInOneGo | packages/execution/src/autotrader/execution/order_manager.py:506-551 | without a crash and another sync the steps of a sync leave the book of the whole answer |
| Reconcile.HaltIsExplained | packages/execution/src/autotrader/execution/reconcile.py:165-208 | at every crash point a halt in force has a persisted episode other than "clean" |
| Reconcile.ClearedAfterCleanCheck | packages/execution/src/autotrader/execution/reconcile.py:171-176 | a halt is cleared only when the last finished check had no mismatch |
| Reconcile.OnlyTheOwnerLeavesStuck | packages/execution/src/autotrader/execution/reconcile.py:216-225 | the persisted "stuck" changes only by the owner's command after such a check |
| Reconcile.LosesHaltIff | packages/execution/src/autotrader/execution/reconcile.py:178-225 | in every reachable state a step leads to "stuck" without a halt if and only if it is a mismatch at the job's second check with no halt in force, or a crash while "stuck" is on disk and its halt has been cleared |
| Reconcile.CrashInClosing | packages/execution/src/autotrader/execution/reconcile.py:216-225 | such a crash hits the owner's closing actions |
| Reconcile.OverlapLosesTheHalt | packages/execution/src/autotrader/execution/reconcile.py:196-208 | a run without a crash in which the owner's command clears the halt between the job's two checks ends in "stuck" without a halt |
| Reconcile.StuckIsHalted | packages/execution/src/autotrader/execution/reconcile.py:178-208 | "stuck" means halted when no step loses the halt, in particular without overlap and without a crash in the owner's closing actions |
| Reconcile.StuckWithoutHalt | packages/execution/src/autotrader/execution/reconcile.py:216-225 | a crash between clearing the halt and saving "clean" leaves "stuck" with no halt, and later mismatches do not halt again |
| Reconcile.RoundInSteps | packages/execution/src/autotrader/execution/reconcile.py:165-208 | an uninterrupted round ends in the episode and halt that its one or two checks call for |
| Reconcile.Reconciler.RunOnce | packages/execution/src/autotrader/execution/reconcile.py:165-208 | the job in place does one round |
| Reconcile.OwnerInSteps | packages/execution/src/autotrader/execution/reconcile.py:216-225 | the uninterrupted steps of the owner's command clear the halt and the episode if the second check has no mismatch, whatever the first found, and otherwise leave both |
| Stops.RoundingShrinksRisk | packages/execution/src/autotrader/execution/order_manager.py:107-109 | rounding a stop moves it toward the entry by less than a tick, not past it, and never adds risk |
| Stops.TrackedOnlyTightens | packages/execution/src/autotrader/execution/order_manager.py:481-494 | over any tightenings and confirmations with lost answers the tracked stop only tightens and the broker's keeps protecting it |
| Stops.BrokerLoosensIff | packages/execution/src/autotrader/execution/order_manager.py:481-494 | an applied tightening loosens the broker's stop if and only if the new stop lies between the tracked one and the broker's |
| Stops.LostAnswerLoosens | packages/execution/src/autotrader/execution/order_manager.py:481-494 | one lost answer leads there |
| Clusters.Find | packages/allocator/src/autotrader/allocator/weights.py:58-62 | find with path halving ends at the root and changes no root |
| Clusters.Union | packages/allocator/src/autotrader/allocator/weights.py:64-67 | linking two roots joins exactly their two components |
| Clusters.FindClusters | packages/allocator/src/autotrader/allocator/weights.py:54-71 | the groups partition the keys into the connected components of the pairs above the threshold, each and all in order |
| Clusters.SameRootIffJoined | packages/allocator/src/autotrader/allocator/weights.py:58-67 | two keys have one root if and only if a path of linked pairs joins them |
| Shares.CappedShares | packages/allocator/src/autotrader/allocator/weights.py:74-91 | the shares are the minimum of cap and a common level times weight and add up to the smaller of one and cap times positive weights; the level rises every round |
| Shares.OneFilling | packages/allocator/src/autotrader/allocator/weights.py:74-91 | no other division meets that description |
| Shares.Split | packages/allocator/src/autotrader/allocator/weights.py:102-107 | slot shares are split in proportion to weights, and nothing is lost |
| Shares.AllocateShares | packages/allocator/src/autotrader/allocator/weights.py:94-107 | clusters share one filled slot that weighs as the strongest member |
| Shares.ClustersWithinCap | packages/allocator/src/autotrader/allocator/weights.py:94-107 | no cluster exceeds the cap, no share is negative, all together at most one |
| Allocator.Allocator.Rebalance | packages/allocator/src/autotrader/allocator/allocator.py:49-83 | a new allocation only when due or forced, over the live and scaled versions, with the specified shares and fractions |
| Allocator.WithinBudget | packages/allocator/src/autotrader/allocator/allocator.py:85-91 | whatever changed stage since, live and scaled fractions add up to at most the risk budget |
| Allocator.ProposalWithinRisk | packages/allocator/src/autotrader/allocator/allocator.py:93-115 | outside the paper stage the lots risk at most the fraction of equity, are whole steps unless they are the maximum, and a step more does not fit |
| Ledger.JsonlLedger.Last | packages/core/src/autotrader/core/ledger.py:39-48 | the last hash is right, remembered or read |
| Ledger.JsonlLedger.Append | packages/core/src/autotrader/core/ledger.py:50-62 | one record with the true previous hash is added |
| Ledger.JsonlLedger.Verify | packages/core/src/autotrader/core/ledger.py:72-80 | accepts exactly the chains, with their length, and otherwise names the first break |
| Ledger.WritersAgree | packages/core/src/autotrader/core/ledger.py:39-62 | in any interleaving of writers with stale memories the chain verifies and every writer's last hash is right |
| Ledger.SameEndSameLedger | packages/core/src/autotrader/core/ledger.py:72-80 | two verifying ledgers of one length and final hash are equal record by record, or hold two texts with the same hash |
| Ledger.TamperBreaks | packages/core/src/autotrader/core/ledger.py:72-80 | changing any part of a record that is not the last breaks the chain, or shows two texts with one hash |
| Ledger.OmissionBreaksIff | packages/core/src/autotrader/core/ledger.py:72-80 | leaving out a record that is not the last goes unnoticed if and only if its hash repeats the one before it |
| RegistryStore.RegistryStore.constructor | packages/lifecycle/src/autotrader/lifecycle/registry.py:130-146 | the state is the replay of the given ledger |
| RegistryStore.RegistryStore.Transition | packages/lifecycle/src/autotrader/lifecycle/registry.py:216-300 | legal moves are recorded, illegal ones change nothing |
| RegistryStore.RegistryStore.Swap | packages/lifecycle/src/autotrader/lifecycle/registry.py:304-331 | both changes are recorded when the swap is allowed, none otherwise |
| RegistryStore.RegistryStore.LatestSwap | packages/lifecycle/src/autotrader/lifecycle/registry.py:333-343 | the search returns the latest swap, the first of equals |
| RegistryStore.RegistryStore.Rollback | packages/lifecycle/src/autotrader/lifecycle/registry.py:345-358 | the rollback records what the specification says, or changes nothing |
| RegistryStore.RegistryStore.PromotionsTo | packages/lifecycle/src/autotrader/lifecycle/registry.py:193-194 | the count over all histories |
| RegistryStore.RegistryStore.PromoteToLive | packages/lifecycle/src/autotrader/lifecycle/evaluator.py:342-358 | micro goes live only below the weekly limit |
| RegistryLaws.StateIsReplay | packages/lifecycle/src/autotrader/lifecycle/registry.py:148-176 | over every run the state is the replay of the ledger, keys are unique and histories chain edge to edge |
| RegistryLaws.ReasonRoundTrip | packages/lifecycle/src/autotrader/lifecycle/registry.py:333-343 | the old champion is read back from a printed reason if and only if its name has no colon and no blanks around it |
| RegistryLaws.LadderIsSafe | packages/lifecycle/src/autotrader/lifecycle/registry.py:216-358 | over every run with swaps and rollbacks no demo_only version is in a money stage, and others in shadow or beyond have a profile |
| RegistryRuns.RollbackRestores | packages/lifecycle/src/autotrader/lifecycle/registry.py:345-358 | while a swap stands a rollback gives the old champion exactly the stage taken and moves nobody else but the winner |
| RegistryRuns.SwapThenRollback | packages/lifecycle/src/autotrader/lifecycle/registry.py:304-358 | the same after a swap and any other steps, demotion or retirement of the new champion included |
| RegistryRuns.RetiredLeftIff | packages/lifecycle/src/autotrader/lifecycle/registry.py:216-358 | in every run a step takes a version out of "retired" if and only if it rolls back the swap the version won while the old champion is in shadow, and then to shadow |
| RegistryRuns.RollbackRevivesRetired | packages/lifecycle/src/autotrader/lifecycle/registry.py:355-356 | a rollback does: a retired new champion comes back to shadow |
| RegistryRuns.WeeklyLimit | packages/lifecycle/src/autotrader/lifecycle/evaluator.py:342-358 | in every closed week of every run the evaluator promotes at most the configured number to live |
| Drawdown.MaxDrawdown | packages/lifecycle/src/autotrader/lifecycle/stats.py:47-54 | the loop returns the largest fall from any point to a later one, with a zero start |
| Drawdown.ArrayFormAgrees | packages/lifecycle/src/autotrader/lifecycle/champion.py:47-52 | the array form returns the same number on every sequence |
| Drawdown.OneDrawdown | packages/lifecycle/src/autotrader/lifecycle/stats.py:47-54 | there is only one such number |

## Left out

- Floating point: prices, money and weights are exact reals; rounding errors are not modelled.
- Dictionary order: symbols, series and versions are numbered; the insertion order of the source's dictionaries matters
  only where the model keeps it (positions, orders, versions of the registry).
- Trade statistics that nothing else reads: excursions, spread and slippage cost, stored R multiples, tags.
- The spread and slippage of a bar are given with the bar; the spread model is not part of this model.
- The strategy sees the whole broker state instead of its views of positions and pending orders, which is more than it
  sees in the source, so no-lookahead holds for the views as well.
- The gate, the strategy, the news function and the correlation are arbitrary functions.
- Parity: `LiveModel.Parity` and `LiveParity.QuotesParity` assume a strategy that does nothing on fills and that
  gets the same broker views on both sides.
- LiveRunner.LiveRunner.OnBars: an exception is a flag that stays set, which is where the backtest stops as well; the source
  loses the requests of earlier groups of that call and would go on with the next call.
- Initial history handed to the live runner at its start: the runner starts with empty series.
- Time zones: buckets come from an arbitrary floor function that is constant on each bucket and keeps whole minutes;
  seams at daylight-saving changes are not modelled.
- Duplicate minutes in the input of the historical aggregation, which it drops, and its cut at the end of the data, which
  is the cutoff here.
- The dispatch of minute bars to the minute callback, and the fan-out of one builder to several runners.
- The next due time when nothing is pending is the constant 2^62; inputs are assumed to be before it.
- Orders: the order manager is modelled as a step relation and not as a class, because it may crash or be interleaved at
  every await. Lot and quote checks of an entry appear as a step that drops it. Broker calls act when they are made: a
  request that is lost and then acted on later is not modelled.
- Orders: what each tracked order holds besides its state (lots, fills, costs, the closed-trade record) and the events and
  alerts sent about it.
- OrderLaws.AtMostOnce: assumes that the order of a send in flight stays at the broker and does not fill between the two
  reads of a search; both cases without the assumption are shown to give two orders.
- OrderLaws.DecisionsReachInOrder: assumes that decisions are consumed one at a time, as a single subscriber does.
- DealLaws.EachDealOnce: assumes that no save forgets a deal taken in that a coming answer can hold and that every rebase
  leaves the right balance, because the code is wrong otherwise, and that the first start is in balance.
- Reconciliation: how a check compares the journal with the broker and how a resync repairs it; a check is its verdict.
  Convergence of an owner resync does not hold in general and is not claimed.
- Stops: closing a position whose stop cannot be set.
- Files: the journal is written atomically; partial writes, corrupt journals and their handling are not modelled.
- Hashes and signatures are functions and flags; the JSON form of records is their text.
- Registry: two learned-origin labels are one flag; metrics, alerts, events and swap test records are left out. Blanks are
  the four ASCII ones.
- RegistryLaws.LadderIsSafe: assumes that learned versions inherit the demo_only flag of a registered parent, that names
  have no colon and no blanks around them, and that only a swap prints a swap reason.
- RegistryRuns.SwapThenRollback: assumes that earlier swaps of the strategy carry earlier times.
- RegistryRuns.WeeklyLimit: assumes that "micro targets met" is printed by this promotion only.
- The evaluator's statistics (bootstrap, Sharpe ratio, profit factor) and the swap test.
- Broker clients, the message bus, databases, the HTTP interface, the command line and the dashboards.
