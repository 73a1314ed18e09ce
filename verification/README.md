# A verified model of the trading research core

This project models, in Dafny, the parts of a trading research system whose correctness rests on more than one function:
latency sampling, the byte-bounded capture writer and its framing, the simulated matching engine and its book, the
portfolio ledger, and four smaller cores. `dafny verify dfyconfig.toml` checks the whole project.

Money, prices, quantities and weights are `f64` in the system and exact reals here; nothing is claimed about rounding,
NaN or infinities. Atomics are sequentially consistent. Integer widths, wrap-around and saturation are written out where
the code depends on them.

## What is proved

- **Latency coupling** (`Latency.dfy`). A stress scenario is accepted by a finite check over merged sample values. The
  check is exactly pointwise dominance of seeded quantiles, and under it every draw of a whole run, for any interleaving
  of calls, any symbol and any mixing of seed and ordinal, is at least the matching baseline draw. Which samples a draw
  comes from, the symbol's rule, the class's or the constant, is stated from the configuration alone.
- **Bounded writer** (`Writer.dfy`, `WriterBounds.dfy`, `WriterRuns.dfy`, `WriterMarks.dfy`, `WriterFile.dfy`). Sends
  and the writer task are an interleaved step machine in which each permit acquisition or return, each counter update
  and each write is a step. Bounds hold at every step, every permit is back once all is at rest whatever failed, no work
  is endless, nothing deadlocks while the receiver is open, a call is left to its timeout only in closed states that are
  stated exactly, high-water marks are exact, the file is a prefix of the accepted frames, and flush and sync intervals
  bound what can be missing.
- **Framing** (`Framing.dfy`). The two-pass encoder succeeds exactly when both passes agree and fit. For every chunking
  of reads, both scanners find exactly the frames that were written, and the writer's runs compose with them.
- **Matching** (`Book.dfy`, `Matching*.dfy`). Delta application refines a price map, and for repeated prices a stack of
  quantities per price. Trades conserve volume and respect price-time priority, and a trade's volume is followed order
  by order, through the queue ahead of each. Orders that reach nothing come to rest behind the displayed queue. Depth
  sweeps miss no fill despite their early exit. The simulated liquidity drawn at a price never exceeds the fraction of
  displayed increases, exactly when that fraction is below one.
- **Portfolio** (`Sums.dfy`, `Portfolio*.dfy`). Equity attribution is conserved over runs, with the exact condition on
  exact fees, and what a fill and a funding event move, for whom and in which currency is stated in amounts. Cost basis
  is exact for arithmetic and harmonic averages, with the exact condition on dust. Settling and reopening keeps native
  equity, changes USD equity by an exact sum of gaps, and is idempotent exactly when those cancel and every settled
  balance can be priced.
- **Smaller cores**. The weighted quantile merge has half a rank of error on every prefix (`Merge.dfy`); the allocation
  window protocol counts exactly (`Allocator.dfy`, `AllocatorRuns.dfy`); range replay is the whole replay cut out,
  seeded with the latest state before it (`Replay.dfy`); the JSON difference is first, unique and found by following
  its path (`JsonDiff.dfy`).

Where the code and a stated intention differ, the code is modelled and the difference is shown: `DisturbedRun` (a stop's
snapshot is read after ownership is released), `StrandedRun` (a frame sent to a closed receiver keeps its permits),
`MiscostedFeeExample` (a fee booked in one currency and costed in another), `DustFillExample` (a quantity within the
epsilon is given a zero average), `CoinRevaluationExample` and `CoinRefusedExample` (inverse coins reopened as cash at
the coin's rate, which may differ or be missing), and `BoundHoldsIffFractional` (a fraction of exactly one refills the
whole budget on each snapshot).

## Model

| member | source | states |
|---|---|---|
| `Latency.HashBytes` | crates/reap-backtest/src/execution.rs:868-878 | the byte loop computes the FNV-1a fold of all the bytes |
| `Latency.DeterministicQuantileIndex` | crates/reap-backtest/src/execution.rs:858-888 | the index picked for a draw is the quantile rank of the mixed word, always inside the sample list |
| `Latency.QuantileIndex` | crates/reap-backtest/src/execution.rs:865-880 | a 64-bit word scaled by the sample count lands on a valid rank |
| `Latency.NoSaturation` | crates/reap-backtest/src/execution.rs:890-906 | for lists of at most 65,536 samples no product of the dominance check saturates |
| `Latency.DominanceCheckIsExact` | crates/reap-backtest/src/execution.rs:890-906 | the finite check over the merged sample values accepts exactly when the stress quantile is at least the baseline quantile for every 64-bit word, whatever the two sample counts |
| `Latency.DominanceReflexive` | crates/reap-backtest/src/execution.rs:890-906 | every sample list dominates itself |
| `Latency.DominanceTransitive` | crates/reap-backtest/src/execution.rs:890-906 | dominance checked pairwise carries over a chain of scenarios |
| `Latency.UnnamedSymbolIsGeneric` | crates/reap-backtest/src/execution.rs:606-628 | a symbol no rule names draws from the samples of the class without a symbol |
| `Latency.AcceptedStressDominates` | crates/reap-backtest/src/execution.rs:576-628 | an accepted stress configuration dominates the baseline for every class and every symbol, named in a rule or not |
| `Latency.AcceptedIffDominates` | crates/reap-backtest/src/execution.rs:576-604 | a stress configuration is accepted if and only if the seeds agree and its samples are pointwise no less for every class and every symbol, named or not |
| `Latency.RuleTableFindsRule` | crates/reap-backtest/src/execution.rs:780-802 | the sampler's rule table holds, for validated profiles, exactly the rule the configuration search finds |
| `Latency.DrawIsEffectiveQuantile` | crates/reap-backtest/src/execution.rs:804-836 | a sampler draw is the quantile, at the mixed word, of the effective samples of its class and symbol |
| `Latency.RuleGoverns` | crates/reap-backtest/src/execution.rs:606-628 | a symbol draws from the samples of its own rule, and without one from those of its class's rule without a symbol |
| `Latency.ConstantGoverns` | crates/reap-backtest/src/execution.rs:606-640 | a symbol that no rule covers draws the constant of its class: market data, order entry, cancel, order update or fill |
| `Latency.Sampler.constructor` | crates/reap-backtest/src/execution.rs:780-802 | a new sampler holds the configuration's tables and no draws |
| `Latency.Sampler.LatencyFor` | crates/reap-backtest/src/execution.rs:804-828 | the latency returned for an ordinal is the specified draw for that ordinal |
| `Latency.Sampler.Sample` | crates/reap-backtest/src/execution.rs:804-836 | a call returns the specified draw and advances only its own class and symbol |
| `Latency.CountersDependOnCounts` | crates/reap-backtest/src/execution.rs:804-836 | after any interleaving of calls the ordinal and usage of a key depend only on how often that key was drawn |
| `Latency.CoupledDraw` | crates/reap-backtest/src/execution.rs:576-628 | under an accepted stress configuration with the same seed, each stress draw is at least the baseline draw with the same ordinal |
| `Latency.CoupledRuns` | crates/reap-backtest/src/execution.rs:804-881 | over whole runs with arbitrary and different call interleavings, the k-th stress draw of a class and symbol is at least its k-th baseline draw, for every mixing function |
| `Latency.CoupledUsage` | crates/reap-backtest/src/execution.rs:763-856 | the reported count is equal and the reported minimum, maximum, total and mean are no less in the stress run |
| `Latency.UsageReports` | crates/reap-backtest/src/execution.rs:804-855 | after any number of draws the report of a key is their number, sum, smallest and largest, number and sum saturating |
| `Latency.MeanIsBetween` | crates/reap-backtest/src/execution.rs:838-855 | until a counter saturates the reported mean lies between the reported minimum and maximum |
| `Writer.ValidateByteBounds` | crates/reap-capture-framing/src/bounded_writer.rs:945-965 | bounds are accepted exactly when 0 < frame limit <= queue limit <= the semaphore's 32-bit range |
| `WriterBounds.SafeBounds` | crates/reap-capture-framing/src/bounded_writer.rs:295-455 | queued bytes are within reserved bytes, within byte permits held, within the limit; depth is within entry permits held, within the capacity |
| `WriterBounds.StepKeepsSafe` | crates/reap-capture-framing/src/bounded_writer.rs:305-455 | every atomic step of a send, of the writer task or of a drop handler keeps permits and counters in balance |
| `WriterBounds.AccountedKeepsSafe` | crates/reap-capture-framing/src/bounded_writer.rs:877-943 | a step that changes one send's account by what it changes in the shared counters keeps the global balance |
| `WriterRuns.StepKeepsLinked` | crates/reap-capture-framing/src/bounded_writer.rs:425-455 | every step keeps the channel the ordered list of sent items, and the received item in the writer task's hand only |
| `WriterRuns.BoundsHold` | crates/reap-capture-framing/src/bounded_writer.rs:295-943 | at every state of every interleaving the two chains of bounds hold and no high-water mark passes its limit; no counter goes below zero |
| `WriterRuns.SlotAlwaysFree` | crates/reap-capture-framing/src/bounded_writer.rs:283-425 | while the receiver is open a send that holds an entry permit finds a free channel slot |
| `WriterRuns.NothingLeaks` | crates/reap-capture-framing/src/bounded_writer.rs:815-943 | once sends have ended, the writer task has ended and the channel is gone, every counter is zero and every permit is back, whichever error path was taken |
| `WriterRuns.TeardownEnds` | crates/reap-capture-framing/src/bounded_writer.rs:877-943 | with both channel ends gone, a drop handler always has a step until all is at rest, and each such step shrinks what is left |
| `WriterRuns.NoDeadlock` | crates/reap-capture-framing/src/bounded_writer.rs:295-455 | while the receiver is open and some send is unfinished, a step other than a timeout is possible that changes the state |
| `WriterRuns.StuckIffStranded` | crates/reap-capture-framing/src/bounded_writer.rs:295-455 | in any state of any run a call is left to its timeout, with no step of a send, the task, a drain or the handle possible, if and only if the task has ended, the handle is alive, and whatever is not over is in the undrained channel or waits for an entry or bytes that are gone, with at least one waiting |
| `WriterRuns.StrandedRun` | crates/reap-capture-framing/src/bounded_writer.rs:295-455 | such a run exists: a send that has its slot when the task fails enters the closed channel and keeps the only entry from the next call |
| `WriterRuns.EveryStepNearer` | crates/reap-capture-framing/src/bounded_writer.rs:295-943 | in every run, each step of a send or of the writer task, timeouts and failures included, lowers a well-founded measure of the work left, so only finitely many happen without new calls |
| `WriterMarks.HighWaterIsExact` | crates/reap-capture-framing/src/bounded_writer.rs:905-918 | when no send is between raising a counter and folding it, each high-water mark equals the largest value its counter had in the run |
| `WriterFile.FileIsPrefix` | crates/reap-capture-framing/src/bounded_writer.rs:1004-1048 | at every moment the file is a prefix of the accepted frames in channel order |
| `WriterFile.CleanEndIsComplete` | crates/reap-capture-framing/src/bounded_writer.rs:1020-1048 | after a clean end the file is all accepted frames, synced, and the record and byte counts are exact |
| `WriterFile.FlushBound` | crates/reap-capture-framing/src/bounded_writer.rs:1016-1040 | whenever the writer task waits, fewer counted records than the flush interval are missing from the file |
| `WriterFile.SyncBound` | crates/reap-capture-framing/src/bounded_writer.rs:1016-1046 | with syncing on, fewer counted records than the sync interval are not durable |
| `WriterFile.FileSplits` | crates/reap-capture-framing/src/bounded_writer.rs:1004-1048 | after any run, failed or not, a scan finds the first accepted frames in order and at most one partial record, given newline-free payloads |
| `WriterFile.CleanFileSplits` | crates/reap-capture-framing/src/bounded_writer.rs:1004-1048 | after a clean end a scan finds exactly the accepted frames, as many as the writer task counted |
| `Framing.CountingWriter.Write` | crates/reap-capture-framing/src/frame.rs:131-143 | a chunk is counted, or refused exactly when the saturating total passes the limit |
| `Framing.CountingWriter.Serialize` | crates/reap-capture-framing/src/frame.rs:131-148 | over any chunking the counter overflows exactly when the pass is longer than its limit |
| `Framing.FixedCapacityWriter.Write` | crates/reap-capture-framing/src/frame.rs:177-189 | a chunk is appended exactly when it fits the remaining capacity |
| `Framing.FixedCapacityWriter.WriteNewline` | crates/reap-capture-framing/src/frame.rs:167-174 | the newline is appended if there is room, and otherwise the overflow is remembered |
| `Framing.FixedCapacityWriter.Serialize` | crates/reap-capture-framing/src/frame.rs:150-194 | the buffer never grows past its capacity and holds the whole pass exactly when it fits |
| `Framing.MeasureFrame` | crates/reap-capture-framing/src/frame.rs:82-107 | measuring succeeds exactly for a pass that succeeds and fits, and then gives the exact frame length; otherwise the error says which failed |
| `Framing.Encoded` | crates/reap-capture-framing/src/frame.rs:46-74 | for any two passes of a stateful serializer, encoding succeeds exactly when both succeed with one length that fits; the frame is the second pass and a newline |
| `Framing.EncodeFrame` | crates/reap-capture-framing/src/frame.rs:46-74 | the two-pass encoder answers, in value and in every error, as specified on the passes |
| `Framing.SplitJoins` | crates/reap-capture-framing/src/verify.rs:264-304 | the frames of a byte sequence concatenate back to it |
| `Framing.SplitOfConcat` | crates/reap-capture-framing/src/verify.rs:264-304 | splitting undoes concatenation of complete frames, with at most one partial record at the end |
| `Framing.TruncatedFileSplits` | crates/reap-capture-framing/src/verify.rs:264-304 | any prefix of a file of frames splits into its first frames and at most one partial record |
| `Framing.Reader.FillBuf` | crates/reap-capture-framing/src/verify.rs:272-282 | buffered bytes are shown unchanged; none are shown only at the end of the input |
| `Framing.ReadFrameBounded` | crates/reap-capture-framing/src/verify.rs:264-304 | for every chunking the next frame is read exactly, or refused exactly when it is over the limit |
| `Framing.ScanBounded` | crates/reap-capture-framing/src/verify.rs:137-206 | for every chunking the scan reports exactly the file's frames, their validation results and a trailing partial; it fails exactly at the first frame over a limit and names it |
| `Framing.ScanWriterStats` | crates/reap-capture-framing/src/bounded_writer.rs:967-1002 | for every chunking the evidence scan reports the file's length and the same number of records as the bounded scan |
| `Framing.FramesByNewlines` | crates/reap-capture-framing/src/bounded_writer.rs:985-993 | newlines, plus one for an unfinished last record, count the frames |
| `Book.TakeFromLevels` | crates/reap-book/src/lib.rs:134-168 | the taking loop returns the fills and leaves the levels of the specified walk |
| `Book.TakesExactlyReachable` | crates/reap-book/src/lib.rs:134-168 | on positive levels a take removes exactly the smaller of the quantity and the crossing liquidity |
| `Book.WalkTakesBestFirst` | crates/reap-book/src/lib.rs:134-168 | fills come best price first, and a level is touched only when every better one is used up |
| `Book.TakeConservesEachPrice` | crates/reap-book/src/lib.rs:134-168 | at every price, what was there is what was filled plus what is left |
| `Book.TakeKeepsWellFormed` | crates/reap-book/src/lib.rs:134-168 | a sorted, duplicate-free, positive side stays so after a take |
| `Book.ApplySideDelta` | crates/reap-book/src/lib.rs:171-187 | on any side, repeated prices included, the result is sorted and each price has the quantities it had with the updates applied in order to the first; from unique prices it is the duplicate-free listing of the updated price map, zero deleting |
| `Book.SortedListingUnique` | crates/reap-book/src/lib.rs:171-187 | there is only one sorted listing of a price map, so the delta result is determined |
| `Book.StacksDetermine` | crates/reap-book/src/lib.rs:171-187 | a sorted side is determined by the quantities listed at each price, so with repeated prices the delta result is determined too |
| `Book.ValidIsUncrossed` | crates/reap-book/src/lib.rs:189-199 | on sorted sides a book is valid if and only if both sides have levels, all are positive, and every bid is below every ask |
| `Book.BookReducer.constructor` | crates/reap-book/src/lib.rs:30-37 | a new book is empty, with nothing shown |
| `Book.BookReducer.ApplySnapshot` | crates/reap-book/src/lib.rs:59-69 | a snapshot replaces the book and sets the status by its validity |
| `Book.BookReducer.ApplyDelta` | crates/reap-book/src/lib.rs:71-95 | a delta with a negative quantity only marks a gap, and without a book nothing is stored; otherwise, for any book, both sides become sorted with each price updated in order, and from unique prices the listings of the updated price maps |
| `Book.BookReducer.TakeLiquidity` | crates/reap-book/src/lib.rs:134-168 | a take changes only the opposite side, as the walk specifies |
| `MatchingTrade.TradeConservesVolume` | crates/reap-backtest/src/matching.rs:288-347 | along the loop, volume lost equals fills plus queue consumed at the trade's price |
| `MatchingTrade.TradeRespectsPriority` | crates/reap-backtest/src/matching.rs:288-347 | an order on the list is reached only if all earlier ones are completely filled |
| `MatchingTrade.CrossingIsMonotone` | crates/reap-backtest/src/matching.rs:489-510 | once an order in priority order is not crossed, no later one is |
| `MatchingRuns.TradeVolume` | crates/reap-backtest/src/matching.rs:288-347 | for every reachable engine, fills, consumed queue and leftover make up the eligible volume, and a trade without volume changes nothing |
| `MatchingRuns.TradeWithinFraction` | crates/reap-backtest/src/matching.rs:288-347 | queue consumed plus fills come out of the quantity times the fraction, and never exceed it |
| `MatchingRuns.TradePriority` | crates/reap-backtest/src/matching.rs:288-347 | a resting order is filled only if every order with price-time priority over it is completely filled |
| `MatchingRuns.TradeLeftover` | crates/reap-backtest/src/matching.rs:288-347 | leftover volume means every crossing order is completely filled |
| `MatchingRuns.TradeTouchesMakersOnly` | crates/reap-backtest/src/matching.rs:288-347 | a trade leaves alone every order that does not rest on the maker side |
| `MatchingFlow.TradeWaterfall` | crates/reap-backtest/src/matching.rs:288-347 | the order of each rank receives what gets past the orders before it and the queues ahead of them: at its price first the queue, then the order; traded through, the queue clears for nothing; an order that is not crossed receives nothing |
| `MatchingFlow.QueueBeforeFill` | crates/reap-backtest/src/matching.rs:316-331 | a trade at an order's own price fills it only once nothing is queued ahead of it |
| `MatchingFlow.FirstInLine` | crates/reap-backtest/src/matching.rs:316-345 | for the first order at the trade's price the queue loses the smaller of volume and queue, and the order the smaller of its open quantity and the rest |
| `MatchingFlow.TradedThrough` | crates/reap-backtest/src/matching.rs:328-345 | an order that volume reaches beyond the tolerance loses its whole queue at no cost and is filled from all of that volume |
| `MatchingFlow.TradeReports` | crates/reap-backtest/src/matching.rs:288-347 | a trade reports, in priority order, exactly the quantity each maker lost, at that maker's own price |
| `MatchingRuns.PriorityListIsResting` | crates/reap-backtest/src/matching.rs:489-510 | the priority list is exactly the live orders of the side, each once, in price-time order |
| `MatchingDepth.EarlyExitSkipsNothing` | crates/reap-backtest/src/matching.rs:357-399 | leaving the depth loop at the first order not crossed gives what visiting every order would |
| `MatchingDepth.SweepDrawsItsFills` | crates/reap-backtest/src/matching.rs:357-399 | in total the sweep draws from the budget exactly what the orders were filled; at each price it draws no more than was filled by orders that over-cross that price |
| `MatchingDepth.SweepMissesNoFill` | crates/reap-backtest/src/matching.rs:357-399 | after the sweep no crossed order that still wants quantity faces a budget level it over-crosses |
| `MatchingDepth.FillEachMovesTotal` | crates/reap-order/src/lib.rs:296-338 | fills that fit the open quantity move exactly their total from open to filled |
| `MatchingOutcome.DepthMissesNoFill` | crates/reap-backtest/src/matching.rs:265-399 | after any depth snapshot on a reachable engine no live order faces budget past its price by more than the threshold times that price |
| `MatchingSweep.SweepClearsQueues` | crates/reap-backtest/src/matching.rs:360-382 | a snapshot clears the queue ahead of every order its best price crosses and leaves every other queue as it was |
| `MatchingSweep.FirstSwept` | crates/reap-backtest/src/matching.rs:360-399 | the crossed order with the best priority fills the smaller of its open quantity and all the budget past its own price by the threshold |
| `MatchingSweep.SweptReports` | crates/reap-backtest/src/matching.rs:357-399 | a sweep reports to each owner, at the order's own price and as a maker, exactly what the order was filled |
| `MatchingSweep.TakerReports` | crates/reap-backtest/src/matching.rs:401-418 | an entering order's reports are takes within its limit that add up to what it filled |
| `MatchingRuns.RunKeepsInv` | crates/reap-backtest/src/matching.rs:149-418 | in every reachable state open and filled partition each order and exactly the live orders are ranked, with distinct arrivals |
| `MatchingBudget.RunStaysBudgeted` | crates/reap-backtest/src/matching.rs:464-487 | in every reachable state the budget is an exact-price subsequence of the displayed book, each quantity within the fraction |
| `MatchingBudget.TickGridIsSeparated` | crates/reap-backtest/src/matching.rs:531-533 | prices on a tick grid are further apart than the comparison tolerance |
| `MatchingBudget.CapacityGrowth` | crates/reap-backtest/src/matching.rs:535-565 | a snapshot adds at a price at most the fraction of the displayed increase there |
| `MatchingBudget.CapacityExact` | crates/reap-backtest/src/matching.rs:535-565 | after a snapshot each price holds exactly what was left plus the fraction of its increase, capped by the fraction of what is shown |
| `MatchingBudget.NeverOverspent` | crates/reap-backtest/src/matching.rs:265-418 | for a fraction below one and tick-separated prices, over any run the liquidity drawn at a price is at most the fraction of the summed displayed increases there |
| `MatchingOutcome.FullSnapshotRefills` | crates/reap-backtest/src/matching.rs:464-468 | with fraction one a snapshot makes the whole display available again |
| `MatchingOutcome.BoundHoldsIffFractional` | crates/reap-backtest/src/matching.rs:464-487 | the spending bound holds of every run exactly when the fraction is below one |
| `MatchingEntry.PostOnlyNeverTakes` | crates/reap-backtest/src/matching.rs:180-233 | a post-only order draws nothing: it rests exactly when it does not cross the display, and an invalid one is rejected |
| `MatchingEntry.ImmediateNeverRests` | crates/reap-backtest/src/matching.rs:190-237 | an immediate-or-cancel order is never live or ranked afterwards, and is cancelled untouched if it does not cross |
| `MatchingEntry.CrossingTakesReachable` | crates/reap-backtest/src/matching.rs:225-240 | a crossing order fills exactly the smaller of its quantity and the budget within its limit, and only then rests |
| `MatchingEntry.RestsAtTheBack` | crates/reap-backtest/src/matching.rs:420-456 | an order that rests has the latest arrival and the assumed queue ahead of it |
| `MatchingEntry.QueueIsDisplayed` | crates/reap-backtest/src/matching.rs:430-456 | on tick-separated prices the queue found ahead is the quantity displayed at the order's price |
| `MatchingEntry.PassiveRests` | crates/reap-backtest/src/matching.rs:180-220 | a usable order that may wait and does not reach the best opposite price comes to rest live and untouched, last in arrival, with nothing drawn and every other order, the book and the budget as they were, behind the quantity displayed at its price times the multiplier |
| `MatchingEntry.CrossesIffReaches` | crates/reap-backtest/src/matching.rs:202-220 | an order crosses if and only if there is an opposite best price and its limit is at least as good |
| `MatchingEntry.UnusableIsRejected` | crates/reap-backtest/src/matching.rs:180-188 | an order without quantity or price is rejected whatever its time in force, and every other order, the book and the budget stay as they were |
| `MatchingEntry.OnlyPendingEnter` | crates/reap-backtest/src/matching.rs:157-164 | activating anything but a pending order changes nothing |
| `MatchingEntry.SubmittedWaits` | crates/reap-backtest/src/matching.rs:149-155 | a submitted order waits unranked under a fresh id with the largest whole number of lots that fits its quantity open |
| `MatchingEntry.CancelEnds` | crates/reap-backtest/src/matching.rs:249-259 | cancelling ends an order that is not over, keeps what it filled, and takes it out of the ranking |
| `MatchingEngine.Simulator.constructor` | crates/reap-backtest/src/matching.rs:64-81 | a new engine has no books, no orders and fresh numbering |
| `MatchingEngine.Simulator.PrepareSubmit` | crates/reap-backtest/src/matching.rs:149-155 | a submitted order is pending under a fresh id with its quantity rounded down to the lot |
| `MatchingEngine.Simulator.CancelAt` | crates/reap-backtest/src/matching.rs:249-259 | a cancel finishes the order and takes it out of the ranking, and nothing else changes |
| `MatchingEngine.Simulator.PriorityOrderIds` | crates/reap-backtest/src/matching.rs:489-510 | the sorted list is the unique price-time listing of the live orders of the side |
| `MatchingEngine.Simulator.OnTradeAt` | crates/reap-backtest/src/matching.rs:288-347 | the in-place trade loop computes the specified trade and keeps the engine invariant |
| `MatchingEngine.Simulator.TradeThrough` | crates/reap-backtest/src/matching.rs:301-343 | the loop distributes the volume over the list as specified |
| `MatchingEngine.Simulator.VisitOrder` | crates/reap-backtest/src/matching.rs:305-342 | one order in the trade's way loses queue first, then open quantity |
| `MatchingEngine.Simulator.MatchLiveSide` | crates/reap-backtest/src/matching.rs:357-399 | the in-place sweep with its early exit computes the specified sweep |
| `MatchingEngine.Simulator.DrawFor` | crates/reap-backtest/src/matching.rs:376-396 | a crossed order's queue clears and it draws from the budget within its over-cross limit |
| `MatchingEngine.Simulator.ApplyFills` | crates/reap-backtest/src/matching.rs:385-396 | the fills are applied to the order one after another |
| `MatchingEngine.Simulator.OnDepthAt` | crates/reap-backtest/src/matching.rs:270-276 | a snapshot updates book and budget, sweeps sells then buys, and keeps the engine invariant |
| `MatchingEngine.Simulator.ActivateAt` | crates/reap-backtest/src/matching.rs:157-240 | a pending order is rejected, cancelled, rested or matched as specified, under the next arrival number, and the taker fills returned are what was drawn from the budget |
| `MatchingEngine.Simulator.Admit` | crates/reap-backtest/src/matching.rs:180-238 | each time-in-force and crossing case ends as specified, with the taker fills of what it drew |
| `MatchingEngine.Simulator.MatchTakerOrder` | crates/reap-backtest/src/matching.rs:401-418 | a crossing order takes from the budget at its own limit |
| `PortfolioAttribution.CashEntry` | crates/reap-backtest/src/portfolio.rs:389-394 | an entry in a currency moves USD equity by the amount at the currency's rate |
| `PortfolioAttribution.PositionEntry` | crates/reap-backtest/src/portfolio.rs:297-322 | a change in one symbol's entries moves USD equity by the change in their worth at the symbol's rate |
| `PortfolioAttribution.TradeKeepsEquity` | crates/reap-backtest/src/portfolio.rs:92-141 | trading at the mark leaves USD equity unchanged for spot, linear and inverse instruments |
| `PortfolioAttribution.EstimatedFeeCounts` | crates/reap-backtest/src/portfolio.rs:168-187 | an estimated fee lowers equity by exactly the cost added to the fee total |
| `PortfolioAttribution.FillAttribution` | crates/reap-backtest/src/portfolio.rs:92-241 | a fill at the mark lowers equity by its fee cost, for every estimated fee and exactly the exact fees that are not costed in another currency than booked |
| `PortfolioAttribution.MiscostedFeeExample` | crates/reap-backtest/src/portfolio.rs:768-783 | a linear swap fee in the base coin at a rate other than the price breaks attribution |
| `PortfolioAttribution.FundingAttribution` | crates/reap-backtest/src/portfolio.rs:244-289 | a funding settlement at the mark moves equity by exactly the funding booked |
| `PortfolioAttribution.MoveAttribution` | crates/reap-backtest/src/portfolio.rs:297-322 | a mark move changes equity by exposure times move, exposure being quantity or, for inverse, coins |
| `PortfolioAttribution.RunAttribution` | crates/reap-backtest/src/portfolio.rs:92-289 | over any run of mark moves, fills and fundings, equity change equals market gains plus funding minus fees |
| `PortfolioAmounts.NormalizeIs` | crates/reap-backtest/src/portfolio.rs:742-749 | currency names come out trimmed, upper-case and not empty, a blank name as USD, and normalizing again changes nothing |
| `PortfolioAmounts.KeptIn` | crates/reap-backtest/src/portfolio.rs:730-749 | linear derivatives are kept in the currency they settle in, everything else in its quote, and coins are the settlement currency or the base |
| `PortfolioAmounts.OnlySwapsAreFunded` | crates/reap-backtest/src/portfolio.rs:251-269 | funding applies to open linear and inverse swaps at a usable mark and to nothing else |
| `PortfolioAmounts.FundingPays` | crates/reap-backtest/src/portfolio.rs:244-289 | funding changes equity by minus the rate times the position's size in USD, contracts at the mark for a linear swap and contracts for an inverse one, and returns exactly that |
| `PortfolioAmounts.FundingMoves` | crates/reap-backtest/src/portfolio.rs:271-286 | a linear swap pays in cash of its accounting currency, an inverse swap in coins at the mark, and nothing else moves |
| `PortfolioAmounts.LongsPay` | crates/reap-backtest/src/portfolio.rs:244-289 | at a positive rate a long loses equity and a short gains it |
| `PortfolioAmounts.NoFunding` | crates/reap-backtest/src/portfolio.rs:255-269 | what cannot be funded is left as it was, and only a flat swap reports a zero |
| `PortfolioAmounts.FillMovesPosition` | crates/reap-backtest/src/portfolio.rs:120-121 | buying adds the quantity to the position and selling takes it away, apart from a fee charged in the base itself |
| `PortfolioAmounts.FillMovesMoney` | crates/reap-backtest/src/portfolio.rs:123-186 | buying pays the traded value in cash, or takes it up in coins for an inverse, and an estimated fee is paid on top |
| `PortfolioAmounts.EstimatedFeePaid` | crates/reap-backtest/src/portfolio.rs:164-186 | a fill at the mark without an exact fee costs equity the maker's or the taker's rate on the traded value, and nothing when neither is known |
| `PortfolioAmounts.FillTallies` | crates/reap-backtest/src/portfolio.rs:92-192 | an accepted fill adds its traded value to turnover and counts its kind of fee and a failed conversion; a refused one counts only as invalid |
| `PortfolioAmounts.RunTallies` | crates/reap-backtest/src/portfolio.rs:92-192 | over any sequence of fills turnover is the sum and the fee counters count until they saturate |
| `PortfolioBasis.NewAvgIsIdeal` | crates/reap-backtest/src/portfolio.rs:202-216 | the average cost is the arithmetic or harmonic one unless the position is within the epsilon of zero |
| `PortfolioBasis.TradeRealises` | crates/reap-backtest/src/portfolio.rs:194-219 | opening and adding move cost between cash and basis; reducing, closing and flipping leave exactly the profit on the closed quantity |
| `PortfolioBasis.TradeBalance` | crates/reap-backtest/src/portfolio.rs:456-488 | a trade moves a settlement balance by realised profit exactly when it leaves no dust, and a spot balance by the exchange |
| `PortfolioBasis.FeeBalance` | crates/reap-backtest/src/portfolio.rs:221-241 | a fee moves exactly the balance of the currency it is booked in |
| `PortfolioBasis.FillBalance` | crates/reap-backtest/src/portfolio.rs:92-219 | a fill moves every account balance by its trade flow and fee, exactly unless it leaves dust in that currency |
| `PortfolioBasis.DustFillExample` | crates/reap-backtest/src/portfolio.rs:194-219 | a fill that leaves a quantity within the epsilon stores a zero average, and the balance then moves by something else than the flow |
| `PortfolioBasis.FillKeepsPriced` | crates/reap-backtest/src/portfolio.rs:194-219 | after a fill that leaves no dust every open derivative still has a positive average |
| `PortfolioBasis.RunBalance` | crates/reap-backtest/src/portfolio.rs:456-488 | over any fill sequence that leaves no dust every account balance changes by exactly realised profits, spot exchanges and fees |
| `PortfolioSettle.ReopenKeepsEquity` | crates/reap-backtest/src/portfolio.rs:491-663 | reopening from the settled snapshot keeps the native equity of every listed currency at the same marks |
| `PortfolioSettle.SettleTwice` | crates/reap-backtest/src/portfolio.rs:557-663 | the balances and the positions of the reopened account settle to themselves |
| `PortfolioSettle.SettledBalances` | crates/reap-backtest/src/portfolio.rs:577-599 | each settled balance is the currency's native equity, fully available and free of liability |
| `PortfolioSettle.SettledPositions` | crates/reap-backtest/src/portfolio.rs:601-645 | settled positions describe, once each, exactly the derivatives that are open or were listed, at their marks |
| `PortfolioSettle.SettledFields` | crates/reap-backtest/src/portfolio.rs:577-600 | a settled balance is all available, owes nothing, and keeps its currency, loan limit and inventory symbol |
| `PortfolioSettle.SettlesIff` | crates/reap-backtest/src/portfolio.rs:557-663 | an account settles if and only if it can be valued, its equity and every listed balance are not negative, and every open derivative has a margin mode and a mark |
| `PortfolioSettle.SettledMargin` | crates/reap-backtest/src/portfolio.rs:645-663 | the settled margin ratio is equity over gross notional when there is any, scaled by leverage and the margin rate for the exchange |
| `PortfolioSettle.NotionalOfOne` | crates/reap-backtest/src/portfolio.rs:528-555 | a derivative's gross notional is the absolute size in USD, and spot has none |
| `PortfolioSettle.LastModeWins` | crates/reap-backtest/src/portfolio.rs:602-606 | of several opening entries for a symbol the last gives its margin mode |
| `PortfolioReopen.ReopenedUsd` | crates/reap-backtest/src/portfolio.rs:48-90 | a reopened account is worth the sum of its balances, each at its rate or inventory price |
| `PortfolioReopen.ReopenGap` | crates/reap-backtest/src/portfolio.rs:48-90 | reopening changes USD equity by exactly a sum of gaps: each cash amount times its listed weight minus its rate, and each symbol's native equity times the weight of its currency minus its unit price |
| `PortfolioReopen.OneSymbolDecides` | crates/reap-backtest/src/portfolio.rs:48-90 | with every other entry even, USD equity is kept if and only if the symbol's native equity is zero or its currency is reopened at the symbol's own unit price; for inverse coins that is mark times quote rate |
| `PortfolioReopen.ReopenKeepsUsd` | crates/reap-backtest/src/portfolio.rs:48-90 | so USD equity is kept when value lies in listed cash, linear derivatives settled in it, and listed spot inventory |
| `PortfolioReopen.CoinRevaluationExample` | crates/reap-backtest/src/portfolio.rs:557-663 | coins of an inverse instrument reopen as cash at the coin's own rate, so USD equity can change |
| `PortfolioAgain.ReopenedValuable` | crates/reap-backtest/src/portfolio.rs:324-354 | a reopened account can be valued in USD if and only if every balance with a nonzero total is rated cash or marked and rated inventory |
| `PortfolioAgain.ReopenedNotional` | crates/reap-backtest/src/portfolio.rs:528-555 | the notional of a reopened account is always known and is that of the account before |
| `PortfolioAgain.SettleAgain` | crates/reap-backtest/src/portfolio.rs:557-663 | a reopened account settles again if and only if every balance with a nonzero total can be priced, and otherwise is refused as unvalued; then account, balances, positions and notional are the same, and the whole snapshot is if and only if USD equity was kept |
| `PortfolioAgain.SettleIdempotent` | crates/reap-backtest/src/portfolio.rs:557-663 | settling is idempotent if and only if every settled balance can be priced and the gaps of reopening add up to zero |
| `PortfolioAgain.CoinRefusedExample` | crates/reap-backtest/src/portfolio.rs:557-663 | an account settled without a rate for its coin is refused when settled again |
| `PortfolioBook.PortfolioState.Open` | crates/reap-backtest/src/portfolio.rs:48-90 | the two opening loops build the specified ledger from a snapshot |
| `PortfolioBook.PortfolioState.PlacePosition` | crates/reap-backtest/src/portfolio.rs:63-87 | an opening position is entered against its cost in coins or cash |
| `PortfolioBook.PortfolioState.ApplyFillUpdate` | crates/reap-backtest/src/portfolio.rs:92-192 | a fill updates positions, cash, coins and totals as specified, and a refused fill only the invalid count |
| `PortfolioBook.PortfolioState.ApplyPositionFill` | crates/reap-backtest/src/portfolio.rs:194-219 | position and average cost become the specified ones, other symbols unchanged |
| `PortfolioBook.PortfolioState.ApplyExactFee` | crates/reap-backtest/src/portfolio.rs:221-241 | an exact fee goes to inventory, coins or cash by its currency |
| `PortfolioBook.PortfolioState.ApplyFundingPayment` | crates/reap-backtest/src/portfolio.rs:244-289 | funding is paid in coins or cash and the returned amount is the one added to the total |
| `PortfolioBook.PortfolioState.CashUsdChecked` | crates/reap-backtest/src/portfolio.rs:396-407 | defined exactly when every nonzero cash has a rate, and then the USD value of the cash |
| `PortfolioBook.PortfolioState.EquityUsdChecked` | crates/reap-backtest/src/portfolio.rs:324-354 | defined exactly when everything of value can be priced, and then equal to USD equity |
| `PortfolioBook.PortfolioState.BalanceIn` | crates/reap-backtest/src/portfolio.rs:456-488 | the loop gives the exchange-style balance of the normalized currency |
| `PortfolioBook.PortfolioState.EquityInCurrency` | crates/reap-backtest/src/portfolio.rs:491-526 | defined exactly when all symbols are known and needed marks valid, and then the native equity |
| `PortfolioBook.PortfolioState.NotionalUsdChecked` | crates/reap-backtest/src/portfolio.rs:528-555 | defined exactly when every open derivative can be priced, and then the gross notional |
| `PortfolioBook.PortfolioState.SettledInitial` | crates/reap-backtest/src/portfolio.rs:557-663 | the settlement with every refusal in the order the checks are made |
| `Merge.CeilUsToMs` | crates/reap-cli/src/latency.rs:1115-1117 | the smallest whole number of milliseconds that is not less, where the addition does not saturate |
| `Merge.WeightIsObservations` | crates/reap-cli/src/latency.rs:1074-1088 | total weight is the number of observations of the sources that kept any sample, however few they kept |
| `Merge.RankError` | crates/reap-cli/src/latency.rs:1100-1112 | for every prefix of the sorted samples the outputs taken from it differ from its proportional share by at most a half |
| `Merge.Walk` | crates/reap-cli/src/latency.rs:1100-1112 | each output is taken from the sample holding its half-rank mass, in ascending order; without any weight all come from the smallest sample |
| `Merge.MergeProfileSamples` | crates/reap-cli/src/latency.rs:1052-1113 | without dropped samples the exact sorted multiset rounded up; otherwise, sources without samples included, the stated length, sorted, with at most half a rank of error on every prefix |
| `Allocator.TallyMeaning` | crates/reap-benchmark-allocator/src/lib.rs:235-283 | live is allocated minus freed and the peak is the largest net amount at any point, at least zero |
| `Allocator.TallyCounts` | crates/reap-benchmark-allocator/src/lib.rs:226-292 | calls and bytes are those of the log, a reallocation counting on both sides with its new and its old size |
| `AllocatorRuns.StepKeepsInv` | crates/reap-benchmark-allocator/src/lib.rs:82-193 | every atomic step of every thread keeps the claim exclusive and the counters those of the claimant's log |
| `AllocatorRuns.OneWindow` | crates/reap-benchmark-allocator/src/lib.rs:82-97 | in no interleaving are two windows unstopped, or one unstopped while another starts |
| `AllocatorRuns.NeverLost` | crates/reap-benchmark-allocator/src/lib.rs:115-173 | no checkpoint, pause, resume or stop ever finds its window lost |
| `AllocatorRuns.OnlyOwnerCounts` | crates/reap-benchmark-allocator/src/lib.rs:226-292 | while a window is open only its own thread changes the counters, and only while unpaused |
| `AllocatorRuns.CheckpointsExact` | crates/reap-benchmark-allocator/src/lib.rs:115-125 | every checkpoint is exactly its thread's successful operations since start outside pauses |
| `AllocatorRuns.UndisturbedStopsExact` | crates/reap-benchmark-allocator/src/lib.rs:157-173 | a stop's snapshot is exact if no thread claims a window before its last read |
| `AllocatorRuns.StopCanBeWrong` | crates/reap-benchmark-allocator/src/lib.rs:161-173 | because ownership is released before the counters are read, every run in which a stop is reading, nobody claims and there is a second thread, whatever it is doing, extends to the end of that stop with a report that is not the window's log |
| `AllocatorRuns.StopExactIffAlone` | crates/reap-benchmark-allocator/src/lib.rs:157-173 | a stop that nobody has overtaken reports its window's log in every continuation if and only if its thread is the only one |
| `AllocatorRuns.DisturbedRun` | crates/reap-benchmark-allocator/src/lib.rs:161-173 | a run from the initial state ends with a stop whose report is wrong |
| `Replay.ObserveAllKept` | crates/reap-backtest/src/replay.rs:107-167 | observing any market events keeps the warm state well formed, as the seed results need |
| `Replay.ObservedIsLatest` | crates/reap-backtest/src/replay.rs:107-141 | after any events the warm state holds, for each symbol, its last index price, last funding rate, last usable mark and last usable bounds, and nothing else |
| `Replay.SeedsAreLatest` | crates/reap-backtest/src/replay.rs:107-167 | the seeds after any events are the latest index prices, funding rates and limits they announced, each in symbol order |
| `Replay.SeedsRestore` | crates/reap-backtest/src/replay.rs:107-167 | re-observing the seeds in a fresh state gives the same index, funding, mark and limit values per symbol; only limit times move |
| `Replay.SeedsAreStable` | crates/reap-backtest/src/replay.rs:143-167 | announcing again what was announced announces the same events |
| `Replay.RangeReplay` | crates/reap-backtest/src/replay.rs:271-407 | if the whole replay succeeds, replaying any range i..j of it announces exactly the whole replay's events of those records, after seeds stamped i that are the latest index prices, funding rates and limits announced before i and the books of the processor there; it succeeds if and only if it announces something and the processor is healthy at j |
| `Replay.WholeReplay` | crates/reap-backtest/src/replay.rs:271-407 | a whole replay announces exactly what the processor does over all records in order, without seeds |
| `Replay.ReplayAccepts` | crates/reap-backtest/src/replay.rs:271-407 | the input loop succeeds if and only if every line is readable, the records are of one session and numbered from one without a gap, or for a whole replay all unnumbered, and the processor handles them up to the end |
| `Replay.ReplayTimes` | crates/reap-backtest/src/replay.rs:329-340 | a replay reports the number of records it selected and their first, last and greatest time |
| `Replay.RangesCompose` | crates/reap-backtest/src/replay.rs:271-407 | the events of adjacent ranges together are those of their union, and of 1..n those of the whole replay |
| `Replay.EmitIs` | crates/reap-backtest/src/replay.rs:370-405 | a selected record appends exactly its announcements, one before the range is only observed |
| `Replay.WarmState.constructor` | crates/reap-backtest/src/replay.rs:94-99 | a new warm state knows nothing |
| `Replay.WarmState.ObserveEvent` | crates/reap-backtest/src/replay.rs:107-141 | an event updates only its own map and symbol, and only usable marks and limits are remembered |
| `Replay.WarmState.Events` | crates/reap-backtest/src/replay.rs:143-167 | the seeds are index prices, funding rates and limits, each in symbol order |
| `Replay.ReplaySelected` | crates/reap-backtest/src/replay.rs:248-445 | the main loop computes the specified replay or refuses exactly when it does |
| `Replay.TakeLine` | crates/reap-backtest/src/replay.rs:271-406 | one line is skipped, refused, warmed or announced as specified |
| `Replay.EmitOutputs` | crates/reap-backtest/src/replay.rs:370-405 | the output loop announces or observes, and refuses private data |
| `JsonDiff.NoneIffEqual` | crates/reap-backtest/src/research_verification.rs:477-545 | no difference is found exactly for equal documents |
| `JsonDiff.FoundIsFirst` | crates/reap-backtest/src/research_verification.rs:477-541 | what is found is the first difference in array order and key order: everything visited before agrees |
| `JsonDiff.FirstIsUnique` | crates/reap-backtest/src/research_verification.rs:477-541 | two documents have at most one first difference |
| `JsonDiff.TokenRoundTrip` | crates/reap-backtest/src/research_verification.rs:491-507 | decoding a path token gives back the key or the array index, for every key |
| `JsonDiff.PathLeads` | crates/reap-backtest/src/research_verification.rs:477-541 | the path, followed by section 4 of RFC 6901, leads in both documents to the place of the difference |
| `JsonDiff.PathBuffer.Push` | crates/reap-backtest/src/research_verification.rs:490-507 | pushing appends to the shared path |
| `JsonDiff.PathBuffer.Truncate` | crates/reap-backtest/src/research_verification.rs:490-513 | truncating restores the earlier path |
| `JsonDiff.Visit` | crates/reap-backtest/src/research_verification.rs:478-541 | the recursive walk reports the first difference under the buffer's path and restores the buffer after an equal subtree |
| `JsonDiff.VisitItems` | crates/reap-backtest/src/research_verification.rs:480-499 | arrays are compared by length, then item by item |
| `JsonDiff.VisitKeys` | crates/reap-backtest/src/research_verification.rs:500-533 | objects are compared over the sorted union of their keys |
| `JsonDiff.FirstDifference` | crates/reap-backtest/src/research_verification.rs:477-545 | nothing exactly for equal documents; otherwise the path text of the first difference, with the length suffix for arrays of different length |

## Left out

- Floating-point rounding, NaN and infinities: all `f64` arithmetic is exact real arithmetic, and finiteness checks are not modelled.
- File, directory, metadata and permission handling, and SHA-256: a file is a byte sequence and digests are omitted.
- Time: a timeout or a cancelled call is an abort at any waiting point; the enqueue deadline shared by the three waits is not tracked.
- Partial permit assignment inside the runtime's semaphores: acquiring is all or nothing.
- Weak memory orders: every atomic step is sequentially consistent, and the allocator's 64-bit counters do not wrap.
- Serializers that go on after a refused write: a failed write ends a pass.
- The legacy entry-count writer and unbounded scanner: compatibility copies with weaker bounds.
- Configuration validation as such: only the facts it establishes are used, as preconditions.
- Order updates, reasons and timestamps of the matching engine beyond fills: plumbing around the state that is modelled.
- Feed processing, venue parsing and the replay's callback errors: replay takes any deterministic processor and collects its events.
- The replay boundary record and its validation: a flat conjunction over fields the replay already tracks.
- Display of differing JSON values and its truncation: text formatting only.
- Research orchestration, reports, provenance, strategy, live runtime and approval: plumbing or code outside these cores.
- AllocatorRuns.UndisturbedStopsExact: one direction for a single report, because a disturbed stop can still read the right numbers by chance; `StopExactIffAlone` is the if-and-only-if over all continuations.
