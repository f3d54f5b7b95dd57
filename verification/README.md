# Milodex: verified models of the replay machine, the event store, the lock and the metrics

This project models four parts of Milodex in Dafny and proves what each is for.

1. **The backtest replay machine.** `KernelSpec` gives the effect of one order, one drain, one
   session-end flatten and one held-days refresh as functions of the simulation state; `Kernel` is
   the mutable kernel and simulated broker, every method proved to compute those functions.
   `DailySpec` and `IntradaySpec` are the two replays stated with plain filters and counts;
   `DailyEngine` and `IntradayEngine` are the loops with bisection, cursors, lookup tables and a
   sorted event timeline, proved to compute the same runs. The strategy is any function of everything
   it has been shown so far; the execution service is a `Gate`, any decision on an order given the
   audit trail and what the broker and the data provider show. The main results: no look-ahead in
   two-run form (daily and within the day), the T+1 fill rule, conservation of equity through drains
   and flattens, and an invariant over every run by which cash, the book and all counters are
   functions of the audit trail. `KernelDecisions`, `DailyDays` and `IntradayEvents` say what
   happens from the outside, without the specification's own helper functions: which orders a drain
   fills and what each skip means, what the gate and the strategy are shown, and what each day and
   each event adds to the curve, the queue and the audit trail, all from the bars, the cash and the
   positions at hand.
2. **The durable execution protocol.** `EventStoreSpec` has the tables and one function per
   transaction; `EventStore` is the store object over them. `QueuedIntents`, `Outbox` and
   `Migrations` are state machines that interleave any number of processes over those transactions,
   with a crash possible after every step. `DrainFence` says over whole runs, from the exits that
   earlier steps recorded, which queued rows a runner is shown and which it can claim.
3. **The advisory lock.** `AdvisoryLock` splits acquire and release into file-system steps taken by
   processes that can die anywhere, and gives the lock object.
4. **Walk-forward and metrics arithmetic.** `WalkForward`, `OosAggregate`, `Drawdown`, `Lots`, and
   the exchange-calendar compaction in `Calendar`.

Quantities, prices and equities are exact reals; days and timestamps are integers; symbols, keys and
ids are opaque identities. Insertion-ordered dictionaries are `OrderedDict`, sorted lists
`SortedTimes`, sums `Sums`, and bar tables with their date filter `BarTables`.

## Where the code does not do what its text says

Each of these is proved, with a concrete input and the exact condition.

- Intraday look-ahead through the gate. The data provider picks its latest bar by UTC date, so a
  risk check that prices on that bar sees closes that lie in the future
  (`ProviderQuotes.GateSeesUnfinishedBar`). A fill can differ under some gate exactly when the quotes
  of that date differ and an order reaches the gate (`ProviderQuotes.FillLeaksIff`); the provider is
  right at a time exactly when every bar of that date has completed
  (`ProviderQuotes.QuotesAreCompletedBars`), and from then on no gate can look ahead
  (`ProviderQuotes.NoLookAheadOnceDateIsDone`). A gate that ignores quotes never does
  (`IntradayNoLookAhead.NoLookAheadWithinDay`).
- The consume is meant to re-assert every predicate of the enumeration (`event_store.py:2385`), but it
  has no strategy filter: a row without a strategy is claimable though never enumerated
  (`QueuedIntents.OrphanRowIsClaimable`); for every other row the two agree
  (`QueuedIntents.ClaimAgreesWithActive`).
- The duplicate count takes a rejection to mean that no order exists (`event_store.py:1431-1432`): if
  the broker refuses an order it did deliver, the count does not see it
  (`Outbox.LyingRefusalIsInvisible`). An attempt in the window counts exactly when it was not rejected
  (`Outbox.ContributesIffUnrejected`), so with truthful refusals nothing delivered is invisible
  (`Outbox.DeliveredOrdersAreCounted`).
- The lock is said never to stay blocked after a crash (`advisory_lock.py:11-13`): a crash between the
  exclusive create and the write blocks it (`AdvisoryLock.CrashBeforeWriteWedges`,
  `AdvisoryLock.WedgedForever`), unless a process that read an earlier record unlinks the wrong file
  (`AdvisoryLock.WedgeLiftsIff`); a dead creator blocks for good exactly when it never wrote its record
  (`AdvisoryLock.SelfHealsIffWritten`).
- Mutual exclusion fails when two stale reclaims interleave
  (`AdvisoryLock.InterleavedReclaimsBreakExclusion`), and when a live holder does not refresh in time
  (`AdvisoryLock.LapsedHolderIsRobbed`); step by step and over every run these are the only two ways
  (`AdvisoryLock.ExposedIffUnsafe`, `AdvisoryLock.ExclusionIff`).
- The cash floor fails exactly with slippage above one (`KernelLaws.FloorIffSlippageAtMostOne`).
- The one-pass drawdown misses on curves with negative equity (`Drawdown.NegativeEquityIsMissed`);
  `Drawdown.OnePassIsWorstIff` says exactly on which.
- The stitched curve does not telescope once a window recovers from an equity of zero
  (`OosAggregate.ZeroEquityBreaksTelescoping`, `OosAggregate.TelescopesIff`,
  `OosAggregate.TracksIffRests`).
- The single-window flag is silent on some runs with a window that lost more than everything
  (`OosAggregate.DependencyIsMissed`, `OosAggregate.DependencyFlagExact`).

## Model

| member | source | states |
|---|---|---|
| Kernel.SimulatedBroker.FillPriceFor | src/milodex/broker/simulated.py:112-124 | a fill price exists exactly when the symbol has a positive close, and then it differs from the close by exactly slippage * close, against the trader |
| Kernel.SimulatedBroker.SubmitOrder | src/milodex/broker/simulated.py:138-177 | without a price the order is refused and nothing is logged; otherwise it fills in full at the model price and is appended to the order log |
| Kernel.BacktestSimulationKernel.SyncBrokerState | src/milodex/backtesting/simulation_kernel.py:176-215 | after a sync the execution service sees exactly this day, these prices, this account and one report per open position; the kernel's own book does not change |
| Kernel.BacktestSimulationKernel.SkipMissingOrInvalidSell | src/milodex/backtesting/simulation_kernel.py:651-708 | a sell is passed over exactly for no position, no open or a non-positive open, and leaves the one audit record that names the first of them; otherwise nothing changes |
| Kernel.BacktestSimulationKernel.DrainPendingOrders | src/milodex/backtesting/simulation_kernel.py:358-490 | the mutable drain decides the attempted sells in queue order at one snapshot, re-syncs, then decides the buys in queue order at a second, each order by its open, the book, the cash and the gate; it keeps exactly what the policy retains, and its counts are the fills and skips it recorded |
| Kernel.BacktestSimulationKernel.LiquidateOpenPositions | src/milodex/backtesting/simulation_kernel.py:492-577 | the flatten decides every open position once, in book order, at its close, and returns exactly the symbols it closed, one sell fill each and no other fill or skip |
| Kernel.BacktestSimulationKernel.RefreshHeldDays | src/milodex/backtesting/simulation_kernel.py:330-356 | every open position's held days become the count of listed days since its fill day |
| Kernel.BacktestSimulationKernel.SimulateDecisionStep | src/milodex/backtesting/simulation_kernel.py:242-328 | the strategy is evaluated once, on the bars given, the primary symbol's own (never a substitute), the book and the equity; the orders are its intents one for one and in order, under its reasoning and the stamp, or one no-action record quotes the primary's last bar; no fill or skip happens |
| Kernel.BacktestSimulationKernel.RecordStrandedOrders | src/milodex/backtesting/simulation_kernel.py:579-616 | every order still queued at the end is audited as skipped, one record each, in order |
| KernelDecisions.BuyIsDecided | src/milodex/backtesting/simulation_kernel.py:710-733 | a queued buy fills in full at open * (1 + slippage) if and only if its symbol is not held, its quantity and open are positive, the cash covers that price times quantity plus commission, and the gate approves; every skip record names the first condition that fails, a buy of nothing leaves none, and the new book is stated entry by entry |
| KernelDecisions.SellIsDecided | src/milodex/backtesting/simulation_kernel.py:396-423 | a queued sell sells the whole position at open * (1 - slippage) if and only if it is held, its open is positive and the gate approves; each skip record names the first condition that fails |
| KernelDecisions.DrainDecides | src/milodex/backtesting/simulation_kernel.py:387-490 | every drain: the sells of the queue in queue order at what the account shows before them, then the buys in queue order at what it shows after them, and exactly the retained orders left, in order |
| KernelDecisions.SnapShows | src/milodex/backtesting/simulation_kernel.py:176-215 | what the gate sees: day, prices, quotes, cash, equity as cash plus quantity times price, and per position its quantity, entry price, current price, value and unrealized profit in money and percent |
| KernelDecisions.FlattenSettles | src/milodex/backtesting/simulation_kernel.py:543-577 | every flatten: each position in book order is sold whole at close * (1 - slippage) exactly with a positive close and the gate's approval, under its queued exit's reasoning or the engine's |
| KernelDecisions.DecisionEvaluates | src/milodex/backtesting/simulation_kernel.py:301-328 | one evaluation shows the strategy exactly the bars, equity, holdings and entry state given, queues its intents in order, and leaves the book alone |
| KernelDecisions.CountsAreRecords | src/milodex/backtesting/simulation_kernel.py:485-490 | the running fill and skip counts are the numbers of such records in the audit trail |
| KernelLaws.DrainConservesEquity | src/milodex/backtesting/simulation_kernel.py:391-490 | portfolio value at the drain's opens falls by exactly slippage * open * qty + commission summed over the drain's fills, for any mix of sells, buys, skips, carried orders and vetoes |
| KernelLaws.LiquidateConservesEquity | src/milodex/backtesting/simulation_kernel.py:543-577 | the same identity for the session-end flatten at the day's closes |
| KernelLaws.RunKeepsInv | src/milodex/backtesting/simulation_kernel.py:421-483 | over every run of drains, flattens, refreshes and no-action records: the three books have the same symbols, quantities are positive, entry prices are the fill prices, buys minus sells per symbol is 1 if open else 0, and cash, book and counters are what the audit trail says |
| KernelLaws.RoundTripsCountSells | src/milodex/backtesting/simulation_kernel.py:172-174 | over every run the per-symbol minima of buys and sells add up to the number of sell fills |
| KernelLaws.RunKeepsFloor | src/milodex/backtesting/simulation_kernel.py:728-731 | over every run with slippage of at most one, cash is at least minus one commission per sell fill (at least zero for a negative commission) |
| KernelLaws.FloorIffSlippageAtMostOne | src/milodex/broker/simulated.py:112-124 | for any costs: the cash floor holds over every run, gate and starting cash if and only if slippage is at most one |
| KernelLaws.DrainSellsFirst | src/milodex/backtesting/simulation_kernel.py:387-490 | everything a drain records about sells comes before anything it records about buys |
| KernelLaws.LiquidateSettlesPriced | src/milodex/backtesting/simulation_kernel.py:543-577 | after the flatten a position with a positive close is open only if the gate vetoed closing it |
| KernelLaws.DrainSplitsQueue | src/milodex/backtesting/simulation_kernel.py:369-378 | a drain splits the queue into attempted and carried orders, losing none and inventing none |
| KernelLaws.DrainRecordsEachOrder | src/milodex/backtesting/simulation_kernel.py:391-490 | a drain leaves exactly one record, fill, veto or skip, for each attempted order of positive size |
| DailySpec.NoLookAhead | src/milodex/backtesting/engine.py:1050-1143 | for any strategy, gate and costs: two tables that agree on bars dated up to the k-th trading day leave the same cash, book, audit trail, queue, curve and everything shown after that day |
| DailySpec.RunKeepsRunInv | src/milodex/backtesting/engine.py:1050-1143 | after every day of every daily run the kernel invariant holds and held days are right |
| DailySpec.HeldDaysTick | src/milodex/backtesting/simulation_kernel.py:330-356 | a position open after the (k+1)-th day was filled on some listed day j and its held-days figure is exactly k - j |
| DailyDays.DayReplays | src/milodex/backtesting/engine.py:1050-1143 | every day of every run, from the bars: held days refreshed, yesterday's queue decided at the opens of bars dated exactly that day and nothing left queued; with a bar up to the day for some universe symbol the curve grows by exactly (day, cash + quantity * latest close, or entry price without one), the strategy sees that figure and every bar up to the day, and its intents are the next queue; without one neither happens |
| DailyDays.FinishReports | src/milodex/backtesting/engine.py:158-225 | the report of every run: buys, sells and skips are the numbers of such records in the audit trail, trades their sum, round trips the sells, the final equity the curve's last value or the start, and each leftover order one record |
| DailyEngine.CutIsFilter | src/milodex/backtesting/engine.py:1620-1636 | on ascending bars, cutting at the bisection point keeps exactly the bars dated on or before the day |
| DailyEngine.BracketIsDay | src/milodex/backtesting/engine.py:1661-1668 | the two bisection points bracket exactly the bars of the day |
| DailyEngine.SliceBarsToDay | src/milodex/backtesting/engine.py:1608-1638 | the sliced table is the plain date filter of every symbol, symbols without visible bars left out |
| DailyEngine.OpensAreFilter | src/milodex/backtesting/engine.py:1650-1675 | opens read by bisection from the sliced bars are the opens of the plain filter: only bars exactly on the day |
| DailyEngine.TradingDaysInRange | src/milodex/backtesting/engine.py:1565-1580 | the trading days are strictly ascending and are exactly the days in range on which some symbol has a bar |
| DailyEngine.DailySimulation.SimulateDay | src/milodex/backtesting/engine.py:1050-1143 | one pass of the mutable loop is one step of the specified replay, and leads from one state to the next as DayReplays says |
| DailyEngine.SimulateDaily | src/milodex/backtesting/engine.py:1008-1165 | the whole loop, with bisection and running counters, reports exactly the figures of the specified replay: some list of states that starts empty with the cash and follows day by day, and the audit-trail counts of its last one; it fails exactly on an empty universe |
| IntradaySpec.SizingCloseIsLastVisible | src/milodex/backtesting/intraday_simulation.py:285-322 | the sizing close found by searching to the left of ts is the last completed bar's exactly when no bar is open across ts |
| IntradayNoLookAhead.SizingSeesOnlyCompleted | src/milodex/backtesting/intraday_simulation.py:292-302 | at every event on the grid the sizing close is the last completed bar's |
| IntradayNoLookAhead.NoLookAheadWithinDay | src/milodex/backtesting/engine.py:1280-1350 | two-run: state after the events up to ts depends only on bars completed by ts, on starts and opens of bars started by ts, and on what the provider quotes the gate (on nothing more, if the gate ignores quotes) |
| IntradayFills.CursorsCountCompleted | src/milodex/backtesting/intraday_simulation.py:325-362 | at every event of every run each cursor is the number of bars with start + size <= ts |
| IntradayFills.EveryOrderAccountedFor | src/milodex/backtesting/engine.py:1260-1450 | after every day each queued order is in exactly one place: attempted, pending, or dropped by the flatten |
| IntradayFills.EventsInOrder | src/milodex/backtesting/intraday_simulation.py:49-102 | every event of a day is no later than any event of a later day |
| IntradayFills.FillsAtNextBar | src/milodex/backtesting/engine.py:1260-1350 | every attempt is made at the open of the earliest replayed bar of its symbol starting at or after the decision; an order still pending has had no such bar |
| IntradayFills.NeverAtSeenBar | src/milodex/backtesting/engine.py:1273-1278 | whatever bar was complete when an order was decided started before the bar it is attempted at |
| IntradayEvents.EventReplays | src/milodex/backtesting/engine.py:1262-1350 | every event of every run: the strategy is asked exactly when some bar is newly complete and a universe symbol has a completed bar; it then sees one more context with cash plus quantity * last completed close, and its intents join the queue behind; exactly when a bar of the day starts at the event the queue is decided at the opens of bars starting then |
| IntradayEvents.ShownAreCompleted | src/milodex/backtesting/intraday_simulation.py:256-282 | at an event that asks the strategy, its last context holds for each universe symbol exactly the first NumDone of its bars, absent without any, and universe[0]'s as the primary ones; at any other event nothing is shown |
| IntradayEvents.CompletedAreEarlier | src/milodex/backtesting/intraday_simulation.py:325-362 | the first NumDone bars are exactly those with start + size <= ts |
| IntradayEvents.EventsAreStartsAndEnds | src/milodex/backtesting/intraday_simulation.py:49-102 | an instant is an event of a day if and only if a bar of the day starts or completes then |
| IntradayEvents.DayStarts | src/milodex/backtesting/engine.py:1242-1246 | before its first event a day has only set held days to the listed days since each fill |
| IntradayEvents.DayCloses | src/milodex/backtesting/engine.py:1388-1447 | the end of every day: a same-session book is flattened at the last close of bars on the day, under the latest queued exit's reasoning, dropping exactly the exits of closed positions; the curve grows by cash plus quantity * last close on the day, else the last before, else nothing |
| IntradayEvents.FramesAreSession | src/milodex/backtesting/engine.py:1207-1236 | a same-session run replays exactly the bars starting in session, in order; any other replays every bar |
| IntradayEvents.RunReports | src/milodex/backtesting/engine.py:158-225 | the report of every intraday run is read off its curve and audit trail, with round trips equal to sells |
| IntradayBook.RunKeepsSound | src/milodex/backtesting/engine.py:1240-1450 | the kernel invariant, and the cash floor for slippage of at most one, hold after every day of every intraday run |
| IntradayBook.HeldDaysTick | src/milodex/backtesting/simulation_kernel.py:330-356 | at any time of the (k+1)-th trading day an open position was filled on some listed day j and shows exactly k - j held days: one tick per outer day, at its first event, though drains stamp the UTC date of the event |
| IntradayBook.FlattenIsContinuous | src/milodex/backtesting/engine.py:1378-1382 | day-end equity after the session-end flatten is the one before it less exactly the slippage and commission of its own fills |
| IntradayEngine.SearchIsCount | src/milodex/backtesting/intraday_simulation.py:312-321 | the binary search for the sizing close lands on the count of bars starting before ts |
| IntradayEngine.OpenByTsIsOpenAt | src/milodex/backtesting/intraday_simulation.py:105-126 | the lookup table keyed by bar start has an open exactly when a bar starts then, and the right one |
| IntradayEngine.AdvanceCursor | src/milodex/backtesting/intraday_simulation.py:348-362 | the cursor loop stops at the count of completed bars (never moving back) and reports whether it moved |
| IntradayEngine.BuildEventTimeline | src/milodex/backtesting/intraday_simulation.py:49-102 | the timeline is strictly ascending and holds exactly the bar starts and bar completions of the day |
| IntradayEngine.LatestCloseOnDayForSymbol | src/milodex/backtesting/intraday_simulation.py:129-178 | the last close on the day, else (if allowed) the last close before it, else none |
| IntradayEngine.MarkToMarketAtDayEnd | src/milodex/backtesting/intraday_simulation.py:212-253 | cash plus each position at its day-end close, unpriceable positions counting nothing |
| IntradayEngine.IntradaySimulation.SimulateDay | src/milodex/backtesting/engine.py:1242-1447 | one day of the mutable loop is one day of the specified replay |
| IntradayEngine.SimulateIntraday | src/milodex/backtesting/engine.py:1167-1482 | the whole intraday loop reports exactly the figures of the specified replay over the session-filtered bars |
| ProviderQuotes.QuotesAreCompletedBars | src/milodex/data/simulated.py:60-78 | the provider offers exactly the completed bars at ts if and only if every bar dated up to that day has completed |
| ProviderQuotes.NoLookAheadOnceDateIsDone | src/milodex/data/simulated.py:60-78 | two-run, for any gate: no look-ahead at any event by which every bar of its UTC date has completed |
| ProviderQuotes.FillLeaksIff | src/milodex/execution/service.py:863-867 | from one state and the same opens, a fill is the same under every gate if and only if the provider quotes of that UTC date are equal or no order gets past the skip checks |
| ProviderQuotes.GateSeesUnfinishedBar | src/milodex/execution/service.py:863-867 | under an order-value cap priced on the provider's latest bar, two runs that agree on everything completed or started differ: the fill follows a close known only later |
| EventStore.EventStore.GetActiveQueuedIntents | src/milodex/core/event_store.py:2258-2357 | the SQL fence followed by the row-by-row configuration guard returns exactly the strategy's rows that are queued, expire after now, come from the running session or one with a run ended in a controlled stop, and match their configuration on disk, in id order |
| EventStore.EventStore.ConsumeQueuedIntentAndAppendAttempt | src/milodex/core/event_store.py:2461-2499 | wins exactly if the key has a queued, unexpired row of the running session or one with a run ended in a controlled stop, its configuration matches and the client id is new; then that row alone is consumed and the attempt appended, otherwise nothing is written |
| EventStore.EventStore.ExpireStaleQueuedIntents | src/milodex/core/event_store.py:2584-2622 | flips exactly the queued rows expired by now and returns exactly those |
| EventStore.EventStore.UpdateStrategyRunEnd | src/milodex/core/event_store.py:1032-1060 | closes the latest open run of the session and nothing else |
| EventStore.EventStore.FinalizeExecutionAttempt | src/milodex/core/event_store.py:875-909 | succeeds exactly when one pending row carries the id, and changes exactly the pending rows that do; a pending status is refused and changes nothing |
| EventStore.EventStore.CountRecentSubmittedOrders | src/milodex/core/event_store.py:1382-1490 | returns the number of submitted paper trades in the window and scope plus the number of unrejected attempts there whose broker id no such trade carries |
| EventStore.EventStore.AppendExplanation | src/milodex/core/event_store.py:530-570 | refused exactly without an ancestor; buffered exactly when bufferable inside a batch; otherwise stored at once with its real id; accepted rows are never lost |
| EventStore.EventStore.ExitBatch | src/milodex/core/event_store.py:573-627 | leaving the outermost batch stores every buffered row in order; an inner exit stores nothing |
| DrainFence.EnumeratedIff | src/milodex/core/event_store.py:2306-2357 | over every run: the enumeration lists, in id order, exactly the rows of the strategy that are queued, expire after now, were queued by the running session or by one whose last recorded exit is a controlled stop, and whose configuration on disk hashes to the frozen hash |
| DrainFence.ClaimsIff | src/milodex/core/event_store.py:2442-2499 | over every run: a runner holding a check consumes its key's row, and appends its attempt, if and only if the row is queued, unexpired, of the running session or one last recorded as a controlled stop, and the client id is new; otherwise no table changes |
| DrainFence.NeverAcrossUncleanExit | src/milodex/core/event_store.py:2276-2283 | a row of another session none of whose runs ended in a controlled stop (ended otherwise, open, or no run at all) is never enumerated and never changed by a claim |
| DrainFence.RowsAreWritten | src/milodex/core/event_store.py:1006-1060 | over every run each strategy-run row holds exactly the session and exit that the last step writing it recorded: its start, the stop that closed it as the session's latest open run, or a reconciliation |
| DrainFence.VerifiesIff | src/milodex/core/event_store.py:2411-2436 | a check is held exactly for a queued row whose configuration on disk has the frozen hash, and names that hash |
| DrainFence.SweepsExactly | src/milodex/core/event_store.py:2604-2622 | the sweep expires exactly the queued rows whose expiry has come, and remembers exactly those |
| QueuedIntents.RunKeepsInv | src/milodex/core/event_store.py:2359-2499 | over every interleaving with crashes: no row is claimed twice or swept twice or both, keys and client ids stay unique, every attempt row has one origin and every consumed row has its attempt |
| QueuedIntents.ClaimIsAtomic | src/milodex/core/event_store.py:2461-2499 | a claim flips its row and appends its attempt, or changes nothing at all |
| QueuedIntents.ClaimAgreesWithActive | src/milodex/core/event_store.py:2390-2410 | on one snapshot verify-then-claim wins exactly for drainable rows with a matching configuration, which for a row with a strategy is exactly being active |
| QueuedIntents.OrphanRowIsClaimable | src/milodex/core/event_store.py:2306-2320 | a row without a strategy is claimable and no strategy ever enumerates it |
| QueuedIntents.WinnerHoldsCheck | src/milodex/core/event_store.py:2407-2437 | a winning claim by a runner that holds a check flips a drainable row whose frozen hash is the checked one |
| QueuedIntents.WinnerCheckedItsConfig | src/milodex/core/event_store.py:2407-2437 | however far apart check and claim are, a winning claim flips a drainable row whose frozen hash is the one the runner computed |
| QueuedIntents.SweepKeepsActive | src/milodex/core/event_store.py:2604-2622 | sweeping at now removes from the drainable set at any time exactly the rows expired by now; nothing at any later-or-equal time |
| Outbox.RunKeepsInv | src/milodex/core/event_store.py:785-909 | over every interleaving with crashes: submitted attempts own distinct broker ids, every submitted paper trade records exactly one attempt of the same symbol, side and strategy, and is not older |
| Outbox.UnrejectedAttemptCounts | src/milodex/core/event_store.py:1450-1490 | an attempt in the window that was not rejected keeps the duplicate count at one or more |
| Outbox.ContributesIffUnrejected | src/milodex/core/event_store.py:1425-1433 | an attempt inside the window adds to the count if and only if it was not rejected, delivered or not |
| Outbox.DeliveredOrdersAreCounted | src/milodex/core/event_store.py:1414-1433 | with truthful refusals, an order that exists at the broker is seen by the count of its symbol, side and strategy while its attempt is in the window, crash or no crash |
| Outbox.LyingRefusalIsInvisible | src/milodex/core/event_store.py:1431-1433 | an order delivered despite a refusal is not counted |
| Outbox.CountIsPerAttempt | src/milodex/core/event_store.py:1420-1433 | the count is a count of attempts: each contributes at most one, a fully recorded submit exactly one while its trade is in the window |
| Outbox.CountIsOrders | src/milodex/core/event_store.py:1461-1490 | on any tables the count is the number of submitted paper trades of the symbol, side and scope since then plus the number of pending, submitted or errored attempts whose broker id no submitted paper trade carries |
| Outbox.OutcomeIsStored | src/milodex/core/event_store.py:875-909 | storing an answer changes exactly the one attempt: submitted with the broker's id, rejected, or errored, the last two without an id; an exception ends the submit |
| Outbox.OutcomeIsRecorded | src/milodex/core/event_store.py:785-815 | recording appends the explanation and one paper trade that points at it, mirrors the attempt, and is submitted under the broker's id exactly if it was accepted |
| Outbox.ScopesPartitionTheCount | src/milodex/core/event_store.py:1445-1490 | the unscoped count is the sum of the per-strategy counts plus the strategy-less count |
| Migrations.SchemaStore.ApplyMigrations | src/milodex/core/event_store.py:2949-3016 | one constructor executes exactly the migrations newer than all before them, each whole; the first failure leaves everything before it committed and nothing of itself |
| Migrations.RunKeepsInv | src/milodex/core/event_store.py:2993-3016 | with any number of concurrent constructors, failures and crashes at any statement: the committed schema is a prefix of the shipped migrations offered once each in order, with the version of that prefix |
| Migrations.VersionNeverDecreases | src/milodex/core/event_store.py:2993-3016 | the recorded version never decreases along a run |
| Migrations.ReturnedSeesItsMigrations | src/milodex/core/event_store.py:2993-3016 | a constructor that returned sees a version at least that of every migration it ships |
| Migrations.ConstructorFinishes | src/milodex/core/event_store.py:2949-3016 | from every reachable state in which nobody is in a transaction, a constructor can run to its return by its own steps, and has then executed exactly what offering its remaining migrations to the recorded version executes |
| Migrations.CommittedSchemaIsAscendingPrefix | src/milodex/core/event_store.py:3018-3024 | for ascending migrations exactly those up to the recorded version have been executed, each once |
| AdvisoryLock.AtMostOneHolder | src/milodex/core/advisory_lock.py:122-198 | over every interleaving with deaths, if live holders refresh within the age limit and a reclaim unlinks the file it judged, at most one live process holds |
| AdvisoryLock.ExposedIffUnsafe | src/milodex/core/advisory_lock.py:126-157 | for every step from a sound state: well-behaved processes can go on to become two holders if and only if the step is a tick past a live holder's age limit or a reclaim that unlinks an active owner's file |
| AdvisoryLock.ExclusionIff | src/milodex/core/advisory_lock.py:122-198 | over every run: at no point can well-behaved processes go on to become two holders, if and only if no step was of those two kinds |
| AdvisoryLock.InterleavedReclaimsBreakExclusion | src/milodex/core/advisory_lock.py:126-163 | two interleaved reclaims of one stale file end with two live holders |
| AdvisoryLock.LapsedHolderIsRobbed | src/milodex/core/advisory_lock.py:231-258 | a live holder that lets the age limit pass without refreshing ends up holding together with its successor |
| AdvisoryLock.WedgedForever | src/milodex/core/advisory_lock.py:299-313 | a file left empty by a dead creator, with no reclaim under way, is never unlinked and refuses every acquire, over every continuation |
| AdvisoryLock.WedgeLiftsIff | src/milodex/core/advisory_lock.py:126-157 | such a file can still go away if and only if some process read an earlier record and has not finished with it |
| AdvisoryLock.CrashBeforeWriteWedges | src/milodex/core/advisory_lock.py:159-193 | dying between create and write reaches that state in five ordinary steps |
| AdvisoryLock.QuietAcquire | src/milodex/core/advisory_lock.py:122-198 | undisturbed, an acquire succeeds exactly when there is no file, or a readable one whose pid is dead or that is past the age limit; a refusal changes no file |
| AdvisoryLock.QuietAcquireIff | src/milodex/core/advisory_lock.py:122-198 | in numbers: without a file, or over a written record whose pid is not running or whose file is untouched for more than 43200 seconds |
| AdvisoryLock.RefreshBuysTwelveHours | src/milodex/core/advisory_lock.py:231-258 | a refresh moves only the file's time to now, and no holder lapses within the 43200 seconds after it |
| AdvisoryLock.QuietRelease | src/milodex/core/advisory_lock.py:260-267 | undisturbed, a release unlinks its own file exactly if it can read it, stops holding either way, and changes nothing else |
| AdvisoryLock.SelfHealsIffWritten | src/milodex/core/advisory_lock.py:11-13 | a lock whose creator died can be acquired again at some time if and only if its record was written |
| AdvisoryLock.LivenessIsIdentity | src/milodex/core/advisory_lock.py:347-390 | a live creator always passes the liveness test; a dead one passes exactly when its pid was recycled between the record and the end of the grace period, or, without start times, recycled at all |
| AdvisoryLock.DeadStaysDead | src/milodex/core/advisory_lock.py:357-363 | once past the grace period, a record judged dead is never judged live again while its file stands, whatever pids are handed out, over every run of safe steps |
| AdvisoryLock.Lock.Acquire | src/milodex/core/advisory_lock.py:122-198 | acquired exactly when free, leaving this process's record in a new file; refused by a live fresh holder with that holder's pid, or by an unreadable file; otherwise file and held flag are unchanged |
| AdvisoryLock.Lock.AcquireBlocking | src/milodex/core/advisory_lock.py:200-229 | polls until an attempt finds the lock free, and holds it then; times out only once the deadline has passed, after every attempt found it taken, and never waits a poll beyond the deadline |
| AdvisoryLock.Lock.Refresh | src/milodex/core/advisory_lock.py:231-258 | touches the file exactly when held and present |
| AdvisoryLock.Lock.Release | src/milodex/core/advisory_lock.py:260-267 | unlinks only a file naming this process, and stops holding |
| WalkForward.SpansSucceedIff | src/milodex/backtesting/walk_forward_runner.py:112-134 | for at least one window: succeeds exactly with one day more than windows, and train + windows * test uses every day with train >= test, the longest test that allows it |
| WalkForward.Split | src/milodex/backtesting/walk_forward.py:32-76 | fails exactly on a parameter below one; otherwise window k trains on `train` days from k * step and tests the `test` days after, as many windows as fit |
| WalkForward.ExactlyThatManyWindows | src/milodex/backtesting/walk_forward.py:62-76 | the budget yields W windows exactly; window k tests the days right after its own train range, and the last test ends the budget |
| WalkForward.WindowsTile | src/milodex/backtesting/walk_forward_runner.py:112-134 | laid end to end the test ranges are all days after the first train range, each once |
| WalkForward.TestDatesSelectTheWindow | src/milodex/backtesting/walk_forward_runner.py:268-271 | filtering the days by a window's test dates gives back exactly its slice |
| OosAggregate.RunWalkForward | src/milodex/backtesting/walk_forward_runner.py:235-300 | every window is simulated once, on exactly its test slice, from the same starting equity, and keeps that output's curve, end, trades, skips and round trips with the percentage return of its end; fails exactly for too few days or a parameter below one |
| OosAggregate.AggregateOos | src/milodex/backtesting/walk_forward_runner.py:412-490 | the aggregate's curve, return stream, return, drawdown and totals are those of the stitched windows; fails exactly for a zero starting equity |
| OosAggregate.WindowIsAppended | src/milodex/backtesting/walk_forward_runner.py:435-474 | stitching one more window: the curve so far stays, each of the window's days follows under its own date and moves by the ratio the window moved, off a positive value, and else rests, seeded from the start if its first day had already moved |
| OosAggregate.SumAddsUp | src/milodex/backtesting/walk_forward_runner.py:480-490 | totals add up over windows |
| OosAggregate.ReturnsRebuildCurve | src/milodex/backtesting/walk_forward_runner.py:450-474 | one return per step of the stitched curve, and every value is the one before compounded by its return, across window boundaries |
| OosAggregate.StitchedCurveTelescopes | src/milodex/backtesting/walk_forward_runner.py:435-478 | the stitched curve ends at the start times the product of the windows' growth, seeded or not, when no window moves once it is broke (in particular for positive equities) |
| OosAggregate.AggregateReturnIsCompound | src/milodex/backtesting/walk_forward_runner.py:477-534 | the aggregate return equals the compounded per-window returns, each taken from its final equity, if and only if the curve telescopes |
| OosAggregate.TelescopesIff | src/milodex/backtesting/walk_forward_runner.py:453-474 | for any list of windows without negative equities it telescopes if and only if no window moves once it is broke, or some window ends at zero |
| OosAggregate.TracksIffRests | src/milodex/backtesting/walk_forward_runner.py:453-474 | for equities of any sign the stitched curve follows a window day by day, rescaled, if and only if that window does not move once it is broke |
| OosAggregate.AggregateDrawdownDominates | src/milodex/backtesting/walk_forward_runner.py:450-480 | without negative equities the aggregate drawdown is at least every single window's, even where a window is lost altogether |
| OosAggregate.SingleWindowDependency | src/milodex/backtesting/walk_forward_runner.py:512-526 | the flag is raised exactly when at least two windows compound to an edge and dropping the first best one leaves none |
| OosAggregate.DependencyFlagExact | src/milodex/backtesting/walk_forward_runner.py:512-526 | the flag differs from "some one window carries the edge" if and only if there is an edge, some window lost more than everything, and the best window made less than the whole; it then misses, never a false alarm |
| OosAggregate.DependencyIsMissed | src/milodex/backtesting/walk_forward_runner.py:512-526 | on window returns 50, 50, -190, -190 percent dropping either loser removes the edge and no flag is raised |
| OosAggregate.ComputeDailyReturns | src/milodex/analytics/metrics.py:284-293 | the loop computes the day-over-day returns, leaving out a day after a non-positive value |
| OosAggregate.ReturnsOfPositiveDays | src/milodex/analytics/metrics.py:284-293 | there is one return for every step off a positive value and for no other, in order, each the change over that value |
| OosAggregate.OneReturnPerStepIff | src/milodex/backtesting/walk_forward_runner.py:453-457 | one return per step, none dropped, exactly when every day but the last is positive |
| Drawdown.MaxDrawdownStats | src/milodex/analytics/metrics.py:305-330 | on every curve: the worst fall from a running peak, and the calendar days from that peak to the first day that fell so far; both zero exactly without a fall |
| Drawdown.OnePassIsWorst | src/milodex/analytics/metrics.py:314-330 | on curves without negative values the one-pass result is the maximum over all ordered pairs, its two days attain it, peak before trough |
| Drawdown.OnePassIsWorstIff | src/milodex/analytics/metrics.py:314-330 | on every curve the one-pass result bounds all ordered pairs if and only if the curve never falls below zero once positive, or some worst pair ends on a day whose positive past has a single value |
| Drawdown.PeakIsWorstIff | src/milodex/analytics/metrics.py:318-324 | the running peak is the worst reference for a day exactly when the day's value is not negative or no other positive value precedes it |
| Drawdown.NegativeEquityIsMissed | src/milodex/analytics/metrics.py:318-329 | on 1, 10, -5 the scan reports 1.5 while the drop from the first day is 6 |
| Lots.MatchSale | src/milodex/analytics/metrics.py:400-413 | the inner loop ends; it takes lots from the front, each whole but the last, with the profit of each match and the days held between dated trades, and leaves a rest of the last lot unless it is dust |
| Lots.SaleTakesFront | src/milodex/analytics/metrics.py:400-413 | for any quantities: which lots a sale takes, how much of each, what each match makes and how long it was held, and what it leaves |
| Lots.TradeIsBooked | src/milodex/analytics/metrics.py:399-413 | a buy queues one lot of its quantity, price and date; a sale books its matches behind the earlier ones against its own symbol's lots; anything else, and every other symbol, stays as it is |
| Lots.SaleConserves | src/milodex/analytics/metrics.py:400-413 | every quantity is matched, left or dropped as dust |
| Lots.DustIsBounded | src/milodex/analytics/metrics.py:412-413 | each match drops at most one piece of dust of at most 1e-9 |
| Lots.TradesConserve | src/milodex/analytics/metrics.py:385-413 | per symbol, over any trades: bought = matched + pending + dust |
| Lots.LotsRefineShares | src/milodex/analytics/metrics.py:385-413 | for whole quantities lot matching agrees with a share-by-share queue: same total profit, same shares left in the same order |
| Lots.TradeStats | src/milodex/analytics/metrics.py:368-448 | over the trades in recording order: wins and losses partition the pairs, means times counts give the gross figures and the days held between dated trades, and the profit factor is their ratio, infinite or undefined exactly in its degenerate cases |
| Lots.TallyIs | src/milodex/analytics/metrics.py:420-432 | winning pairs are those with positive profit, and the gross figures are the sums of each side's profits |
| Lots.InOrderIsStableSort | src/milodex/analytics/metrics.py:397 | the recording order is the stable one: ascending, the same trades, and trades of one time as given |
| Lots.HoldsOfSortedTrades | src/milodex/analytics/metrics.py:397-410 | when later recordings are not dated earlier, no match has a negative holding time, in whatever order the trades arrive |
| Lots.ProfitFactorMeansProfit | src/milodex/analytics/metrics.py:440-447 | a finite profit factor exceeds one exactly when the pairs made money in total |
| Calendar.ExpandTable | src/milodex/data/sessions.py:121-148 | the loop over the coverage computes the specified expansion and fails exactly when a special day is not an open day |
| Calendar.ExpandsExactly | src/milodex/data/sessions.py:121-148 | expansion succeeds exactly when every special day trades, and lists, ascending and once each, the weekdays of the coverage that are not closed, with special hours where given and the regular ones elsewhere |
| Calendar.CompactsExactly | scripts/generate_xnys_calendar.py:38-71 | compaction rejects an empty list, else an unordered one, else one with a weekend; otherwise the table has the list's first and last day, 9:30 to 16:00, exactly the weekdays without a session as closed and exactly the other hours as special |
| Calendar.WeekdaysGoRound | scripts/generate_xnys_calendar.py:50-53 | weekdays advance by one a day from Monday to Sunday and round, and 1 January 2024 was a Monday |
| Calendar.ExpandCompact | scripts/generate_xnys_calendar.py:111-113 | expanding what was compacted gives back exactly the sessions |
| Calendar.CompactExpand | scripts/generate_xnys_calendar.py:38-71 | a canonical table's sessions compact back into it |
| Calendar.CompactIsCanonical | scripts/generate_xnys_calendar.py:44-71 | what compaction produces is canonical |
| Calendar.CompactAcceptsIff | scripts/generate_xnys_calendar.py:44-53 | comparing the days with their sorted set accepts exactly the non-empty, strictly ascending, weekday-only lists |

## Left out

- OosAggregate.TelescopesIff: the end value is characterised without negative equities; for equities of any sign TracksIffRests gives the day-by-day condition, while the end value alone can agree by coincidence of several moves.
- IntradayEvents.EventReplays: assumes that all bar starts lie on one grid of bar-size steps and that session days follow time, as bars of one timeframe do; IntradaySpec.SizingCloseIsLastVisible says when the sizing close is right without it.
- IntradayBook.HeldDaysTick: assumes that every replayed bar starts on the UTC date of its session day, which the source's two day rules give.
- AdvisoryLock.AtMostOneHolder: assumes that live holders refresh in time and that reclaims do not interleave, because the lock does not enforce either; ExclusionIff gives the exact condition.
- QueuedIntents.RunKeepsInv: appended rows arrive as queued, as the store's only writer makes them.
- Dictionary order of the bar tables and lookup maps, where it cannot reach a result; the order of open positions and fill counters is modelled.
- Symbol normalisation, order uuids, broker order status and cancellation.
- Non-finite floats and rounding: all arithmetic is exact, so finiteness checks never fire.
- An exception from the data provider when a symbol has no bar yet: the gate is a total function.
- The final broker sync and the snapshots and session rows written when a run ends.
- SQL text, JSON encoding, WAL mode, busy timeouts and sub-second time: a transaction is one atomic step, timestamps are whole seconds.
- Operating-system probing of processes: a pid is live when a process of the model has it.
- Time zones and regular-hours wall-clock rules: the session filter and the day of a bar are given functions on timestamps.
- Sharpe, Sortino and CAGR, and the stability figures over windows; they rest on roots and powers.
- Parsing of recording times: a trade carries its sort key and, when it parses, its date.
- The window list's date formatting and the calendar's rendering to module text.
