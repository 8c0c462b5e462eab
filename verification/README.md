# Verification of the market-data and trading pipeline

A Dafny model of the stateful cores of the repository, with proofs. In each of them a computation that is
incremental, lossy or restartable is supposed to agree with something simple; the model states the simple thing on its own
and proves the agreement over all inputs, all runs and all interleavings. Prices, sizes and profits are reals,
sequence numbers naturals, timestamps integers.

- **Aggregator** - `OrderBooks`, `Reconnect`, `Worker` (with `GapDetector`), `SnapshotProtocol`, `GapWindow`.
  A book that discards stale deltas is compared with a log replayed with nothing discarded; the worker's
  output with the numbers a consumer must be able to account for; the request channels with a count of tokens; the
  24-bucket ring with counting over the full history.
- **Candle service** - `Trades`, `Accumulators`, `Moments`, `SignAutocorrelation`, `Gini`, `ValueAreas`,
  `BlockWindow`, `Calendar`, `Cascade`, `CascadeRuns`, `CascadeEngine`, `CascadeRestart`, `HashCodec`, `AccWriters`. Running fields are compared with batch
  definitions over the bar's trades; the seven-timeframe cascade with merging closed bars; a restored
  engine with one that never crashed; the two parallel accumulators with the cascade fed from the same ticks.
- **Bot** - `CostBasis`, `OrderRules`, `OrderLedger`, `Barriers`. The ledger's methods are the stretches of code between awaits,
  callable in any order their preconditions allow, so an invariant of the class is an invariant of every interleaving.
- Shared: `Options`, `Integers` (division that truncates), `RealSeqs`, `MapSums`.

Classes stand for the source's objects; ghost fields record histories. Methods are proved against functions and
predicates over those histories, and the lemmas are about the latter. `dafny verify dfyconfig.toml` checks everything.

## Where the code departs from its documentation

1. An accepted merge returns the buffered numbers above the snapshot, but the worker discards them
   (`symbol.go:305-308`). The book is right exactly when there were none (`Reconnect.DiscardingReplayIsSoundIff`),
   and a level it got wrong stays so until a later delta writes it (`Reconnect.LevelIsRightIff`). The same goes for deltas
   dropped at the fan-out (`Reconnect.MissingDeltasIff`).
2. With message numbering, a message whose first delta was dropped at the fan-out is never gap-checked: its numbers and
   any missed before it are lost silently (`Worker.MessageCoverageIff`). A tracker at 0 is not checked either (`Worker.DeltaCoverageIff`).
   The marker written after a panic or a stale snapshot covers no number, so what lies between the highest number reached and a
   higher next snapshot is lost without one (`Worker.CrossingIff`).
3. `coordinator.go:221-224` says a gap makes the worker request a snapshot; no tick ever does (`Worker.Worker.HandleTick`), so
   nothing resynchronises the book.
4. The gap counter also counts events ahead of the current hour, and such an event hides one in the same slot
   (`GapWindow.CounterErrorIsExact`, `GapWindow.AheadIsCounted`).
5. A failed 1-second write leaves the trades in place but has already moved the cumulative delta, which counts them again
   on the next attempt (`AccWriters.AccWriter.Flush`, `AccWriters.FailedWriteCountsTwice`). A snapshot reset clears the parallel accumulators and counts one gap, but
   leaves the cascade alone: until the timeframe next closes their bars agree exactly if no trades and one gap had been folded
   (`AccWriters.FlushedBarsAgreeIff`, `AccWriters.SnapshotLosesTrades`, `AccWriters.SnapshotReplacesOneGap`).
6. A fill that arrives before its order is open is lost, and so is its redelivery until 10000 other ids have been handled
   (`OrderLedger.EarlyFillIsLost`, `OrderLedger.OrderQueueWorker.HandleFill`). Since an id is handled once, the second
   partial fill of an order is dropped as well.
7. The risk gate is said to bound the position (`order_worker.py:309-311`). It bounds open orders only: filled entries are
   deducted, so entries one after another never fill it (`OrderLedger.EntriesNeverFillTheGate`, `OrderRules.GateBoundsPositionIff`).
   Open exit and stop orders count towards what gates entries, and with negative sizes they make room for more than the
   limit (`OrderRules.GateKeepsLimitIff`, `OrderRules.GateLetsThrough`).
8. With negative sizes the clip at zero can lose the notional of an open order; it does exactly when a fill finds less on the
   books than its own notional (`OrderRules.FillKeepsBalanceIff`, `OrderRules.NegativeSizeLosesBalance`).
9. The daily loss is said to be reset at UTC midnight (`circuit_breaker.py:11`), but nothing in the service calls the reset, so the
   limit applies to the net loss since the start.
10. The cost basis is called FIFO but is an average (`CostBasis.AverageAgainstFifo`, `CostBasis.AverageIsNotFifo`); the two are the same
   while all open buys were at one price (`CostBasis.OnePriceAgreesWithFifo`).
11. `barrier.py:117-118` says a pruned bucket cannot receive a late event; it can, and then fires twice
   (`Barriers.LateBarFiresAgain`). Two buckets flushed together may prune the older one at once.

## Model

| member | source | states |
|---|---|---|
| `OrderBooks.TruthIsLastWriter` | aggregator/internal/orderbook/orderbook.go:59-87 | the reference book: a level of a log replayed with nothing discarded holds the size of its last writer, or is gone if that writer removed it |
| `OrderBooks.TruthKeepsUnwritten` | aggregator/internal/orderbook/orderbook.go:59-87 | ... and a level nothing wrote keeps its initial value |
| `OrderBooks.LastSeqIsRunningMax` | aggregator/internal/orderbook/orderbook.go:59-87 | after any deltas in any order the last sequence number is the running maximum of the well-formed ones |
| `OrderBooks.RedeliveryIsNoOp` | aggregator/internal/orderbook/orderbook.go:59-87 | redelivering, in any order, deltas the book has already been given changes neither levels nor sequence number |
| `OrderBooks.DeliveryReachesTruth` | aggregator/internal/orderbook/orderbook.go:59-108 | from the true book at a snapshot, any delivery that takes new deltas in log order, with old and repeated ones mixed in anywhere, ends in the true book at the highest number seen |
| `OrderBooks.OrderBook.Apply` | aggregator/internal/orderbook/orderbook.go:59-87 | the in-place update is exactly one step of the specification: stale and malformed deltas leave the book alone |
| `OrderBooks.OrderBook.ApplySnapshot` | aggregator/internal/orderbook/orderbook.go:98-108 | the book becomes the snapshot, whatever it was |
| `OrderBooks.OrderBook.Reset` | aggregator/internal/orderbook/orderbook.go:90-95 | the book is empty and unanchored again |
| `Reconnect.Machine.NeedsSnapshotNow` | aggregator/internal/reconnect/reconnect.go:67-72 | moves to Buffering and keeps what is buffered |
| `Reconnect.Machine.Feed` | aggregator/internal/reconnect/reconnect.go:77-82 | appends exactly when buffering |
| `Reconnect.Machine.MergeSnapshot` | aggregator/internal/reconnect/reconnect.go:94-122 | three cases by state and staleness: ignored unless buffering; refused with a new request, the buffer kept; or accepted with exactly the buffered numbers above the snapshot and the buffer emptied; includes the largest-number guard |
| `Reconnect.AcceptedIffNothingMissing` | aggregator/internal/reconnect/reconnect.go:94-103 | a buffer without holes is accepted if and only if no number between the snapshot and the buffer's end is missing from it |
| `Reconnect.MergeReturnsNewer` | aggregator/internal/reconnect/reconnect.go:104-121 | for a contiguous buffer an accepted merge returns exactly the numbers of the buffered deltas above the snapshot, in order |
| `Reconnect.MergeRestoresTruth` | aggregator/internal/reconnect/reconnect.go:94-122 | applying either those deltas or the whole overlapping buffer to the snapshot gives the true book at the end of the log |
| `Reconnect.DiscardingReplayIsSoundIff` | aggregator/internal/coordinator/symbol.go:281-312 | the worker drops the returned numbers: its book is the true one, whatever the log held, if and only if nothing was buffered above the snapshot |
| `Reconnect.MissingDeltasIff` | aggregator/internal/coordinator/coordinator.go:241-248 | whatever subset of the deltas after a snapshot is missing, dropped at the fan-out or discarded at the merge: a level is the true one, whatever sizes the missing deltas carried, if and only if the last delta to write it was delivered, or none did |
| `Reconnect.LevelIsRightIff` | aggregator/internal/coordinator/symbol.go:305-312 | for the merge: if and only if no discarded delta wrote the level or a later one did |
| `Worker.DeltaCoverageIff` | aggregator/internal/coordinator/symbol.go:220-239 | one delta accounts for every number up to its own if and only if the previous number is positive, the next expected, or not lower |
| `Worker.MessageCoverageIff` | aggregator/internal/coordinator/symbol.go:202-219 | message numbering accounts for a whole message if and only if its first delta was delivered (or nothing was missed) |
| `Worker.NoSilentLossStep` | aggregator/internal/coordinator/symbol.go:190-239 | one more live delta, late, repeated or early, keeps everything up to the highest number accounted for |
| `Worker.SpanStep` | aggregator/internal/coordinator/symbol.go:202-239 | on either numbering, one more delta keeps everything since the first snapshot of the stretch accounted for, and nothing above the highest number reached |
| `Worker.SpanStepMarker` | aggregator/internal/coordinator/symbol.go:204-228 | ... and so does a marker whose delta was lost to a panic |
| `Worker.CrossingIff` | aggregator/internal/coordinator/symbol.go:97-127 | on either numbering, across a panic or a new snapshot: everything up to the new snapshot is accounted for if and only if it is no higher than what was reached before |
| `Worker.Worker.Start` | aggregator/internal/coordinator/symbol.go:138-144 | a worker asks for a snapshot once, and only if it never did |
| `Worker.Worker.HandleDelta` | aggregator/internal/coordinator/symbol.go:196-263 | a live delta is marked, applied and written: an update above the book's number sets its price on the asks for side "ask" and on the bids for any other side, removes it for size "0" or none, and touches neither the other side nor another price |
| `Worker.Worker.HandleTick` | aggregator/internal/coordinator/symbol.go:171-271 | full effect of a trade, a buffered delta and a live delta on output, trackers and, price by price and side by side, the book, keeping the no-silent-loss invariant |
| `Worker.Worker.HandleTicks` | aggregator/internal/coordinator/symbol.go:163-271 | over any run of ticks while not buffering: a level is what the last tick gave it whose number was above the book's and above every earlier update's, or what it was if there is none; the book's number is the highest an update carried |
| `Worker.MarkedIff` | aggregator/internal/coordinator/symbol.go:202-239 | a delta is marked if and only if its numbering is under way and it is not the next number, with a marker from the one to the other |
| `Worker.Worker.HandleSnapshot` | aggregator/internal/coordinator/symbol.go:273-322 | discarded unless buffering; stale: an internal merge error is marked and a snapshot requested; accepted: anchors both numberings at the snapshot and goes live |
| `Worker.Worker.Recover` | aggregator/internal/coordinator/symbol.go:97-127 | after a panic: a marker that covers no number, trackers cleared, the result slot drained, buffering, one new request |
| `Worker.Worker.PanicInGapWrite` | aggregator/internal/coordinator/symbol.go:204-232 | a panic while a marker is written: the marker is out, the delta neither applied nor written |
| `Worker.Worker.PanicInTickWrite` | aggregator/internal/coordinator/symbol.go:252-270 | a panic while a tick is written: everything before was done |
| `Worker.Worker.PanicInStaleWrite` | aggregator/internal/coordinator/symbol.go:281-303 | a panic while a stale snapshot is marked: the book is that of the snapshot, and only the recovery asks for a new one |
| `Worker.Worker.PanicInSnapshotWrite` | aggregator/internal/coordinator/symbol.go:309-317 | a panic while the snapshot event is written: live already, and back to buffering |
| `SnapshotProtocol.TokensStep` | aggregator/internal/coordinator/symbol.go:93-169 | how every atomic step of worker, dispatcher and fetch goroutines changes the outstanding requests of each worker |
| `SnapshotProtocol.OwnStaysExact` | aggregator/internal/coordinator/symbol.go:97-169 | no step of a worker, not even a panic or the recovery from it, makes its requests differ from one while it waits and none otherwise |
| `SnapshotProtocol.TokenInvariant` | aggregator/internal/coordinator/snapshot.go:18-41 | over every interleaving, panics included, a worker that is buffering or recovering has exactly one request outstanding, any other none, and no result was thrown away |
| `SnapshotProtocol.NothingBlocks` | aggregator/internal/coordinator/coordinator.go:85-89 | panics included, no request send and no result send ever blocks with at most 16 symbols added, every result is waited for, and the drain after a panic finds nothing |
| `SnapshotProtocol.NeverStuck` | aggregator/internal/coordinator/snapshot.go:18-61 | while any worker waits, panics or not, some step that carries a request forward is enabled |
| `GapWindow.SlotKept` | aggregator/internal/gapwindow/window.go:35-51 | a bucket not written by an insertion still holds the latest hour of its slot |
| `GapWindow.SurvivorsAreTheWindow` | aggregator/internal/gapwindow/window.go:55-66 | if no event lies ahead of the current hour, counting survivors of the ring is counting the last 24 hour buckets on the full history |
| `GapWindow.CounterErrorIsExact` | aggregator/internal/gapwindow/window.go:55-66 | for every history: the count is the window's plus, over the buckets that hold a later hour than now, what they hold less the window events they hide, less events before the epoch; right if and only if these add up to nothing |
| `GapWindow.SlotErrorIsExact` | aggregator/internal/gapwindow/window.go:60-64 | one bucket contributes the events of its window hour and that error |
| `GapWindow.NothingAheadNoError` | aggregator/internal/gapwindow/window.go:55-66 | no error at all while no bucket holds a later hour |
| `GapWindow.AheadIsCounted` | aggregator/internal/gapwindow/window.go:55-66 | a failing input: one event an hour ahead is counted although the window is empty |
| `GapWindow.HiddenBehindAhead` | aggregator/internal/gapwindow/window.go:35-51 | an event of the window is hidden only by one of the same slot ahead of now |
| `GapWindow.WindowInSeconds` | aggregator/internal/gapwindow/window.go:55-66 | in seconds: with nothing before the epoch or ahead of now, the window is the two internal causes in the running hour and the 23 before it |
| `GapWindow.WindowHoldsADay` | aggregator/internal/gapwindow/window.go:55-66 | so an internal event of the last 23 hours is in it, and one of 24 hours ago or more is not |
| `GapWindow.InsertionOrderDoesNotMatter` | aggregator/internal/gapwindow/window.go:35-51 | two orders of the same events give the same count |
| `GapWindow.Window.Add` | aggregator/internal/gapwindow/window.go:35-51 | every bucket still holds the latest hour seen in its slot with all of that hour's internal events |
| `GapWindow.Window.Count` | aggregator/internal/gapwindow/window.go:55-66 | the loop returns the survivors from the cutoff hour on, which is the window count plus that error over its own buckets; with nothing ahead of now, the internal gaps since the start of the hour 23 hours ago |
| `GapWindow.Window.Populate` | aggregator/internal/gapwindow/window.go:70-74 | adding a list is adding its records in turn |
| `BlockWindow.Window.Add` | candle-service/internal/blockwindow/window.go:38-46 | the in-place shift keeps the slice equal to the last windowSize sizes of the history, in order |
| `BlockWindow.NearestRankIsP99` | candle-service/internal/blockwindow/window.go:50-68 | the nearest-rank index is in range and at least 99% of the window is at or below it, fewer strictly below |
| `BlockWindow.P99IsUnique` | candle-service/internal/blockwindow/window.go:50-68 | only one value has that property |
| `BlockWindow.Window.Threshold` | candle-service/internal/blockwindow/window.go:50-68 | missing exactly below the minimum sample or when empty; otherwise that value |
| `BlockWindow.RestoredWindowGoesOn` | candle-service/internal/blockwindow/window.go:72-86 | a window restored from its own contents goes on exactly as the original |
| `BlockWindow.Window.Restore` | candle-service/internal/blockwindow/window.go:80-86 | the restored window is that of a history consisting of the given sizes |
| `Gini.WeightedIsPairGap` | candle-service/internal/accumulator/accumulator.go:1043-1049 | on sorted intervals the weights 2i-m+1 turn the sum into the sum over all pairs of their differences |
| `Gini.PairGapSort` | candle-service/internal/accumulator/accumulator.go:1035 | that pair sum does not depend on the order |
| `Gini.GiniIgnoresOrder` | candle-service/internal/accumulator/accumulator.go:1021-1051 | the coefficient does not depend on the order of the intervals |
| `Gini.SortedRatioIsGini` | candle-service/internal/accumulator/accumulator.go:1045-1050 | the published quotient is the order-free mean absolute difference ratio, between 0 and (m-1)/m |
| `Gini.ComputeGini` | candle-service/internal/accumulator/accumulator.go:1021-1051 | missing exactly for fewer than two timestamps or all-zero clamped intervals; otherwise that coefficient |
| `Moments.WelfordStep` | candle-service/internal/accumulator/accumulator.go:407-420 | the online update, third moment before second, keeps the exact mean and central moments of everything seen |
| `Moments.MomentsReadBack` | candle-service/internal/accumulator/accumulator.go:821-824 | the running mean is the plain mean and the second moment is never negative |
| `SignAutocorrelation.CauchySchwarz` | candle-service/internal/accumulator/accumulator.go:884-886 | the product of two sums of squares bounds the square of the mixed sum |
| `SignAutocorrelation.OnlineIsBatch` | candle-service/internal/accumulator/accumulator.go:876-886 | the four running numbers give exactly the batch lag-1 covariance and variances of the sign sequence |
| `SignAutocorrelation.AutocorrelationInUnitInterval` | candle-service/internal/accumulator/accumulator.go:884-886 | so the published value lies in [-1, 1] |
| `ValueAreas.FindPoc` | candle-service/internal/features/footprint.go:51-57 | largest volume, ties to the higher price |
| `ValueAreas.ExpandFrom` | candle-service/internal/features/footprint.go:64-90 | the loop ends at the first range of the expansion order that covers 70% or everything, around the point of control, for any volumes |
| `ValueAreas.ValueRangeCovers` | candle-service/internal/features/footprint.go:64-70 | with a non-negative total that range does cover 70%, and no earlier one did |
| `ValueAreas.CoveredGrows` | candle-service/internal/features/footprint.go:70-90 | each expansion adds exactly one neighbouring level, so the accumulated sum is the volume of the range |
| `ValueAreas.ComputeValueArea` | candle-service/internal/features/footprint.go:22-93 | missing exactly when the cells hold no volume; otherwise the value area of the sorted profile, its point of control the cell with most bought and sold, ties to the higher price; negative volumes included |
| `ValueAreas.ValueAreaCovers` | candle-service/internal/features/footprint.go:22-93 | with non-negative cells: the heaviest cell's price lies in the range, and the cells priced within the range hold at least 70% of all that was bought and sold |
| `ValueAreas.LevelsCarryCells` | candle-service/internal/features/footprint.go:34-49 | in whatever order the map is read, and for any condition on prices, the levels hold the volume bought and sold in the cells that meet it |
| `ValueAreas.ValueAreaIsUnique` | candle-service/internal/features/footprint.go:22-93 | for distinct prices these properties determine all four numbers |
| `ValueAreas.IterationOrderDoesNotMatter` | candle-service/internal/features/footprint.go:34-49 | with distinct numeric prices the result does not depend on the order in which the map is read |
| `Trades.SidesMakeUpTotal` | candle-service/internal/accumulator/accumulator.go:511-521 | buys and sells make up volume and quote volume, so the clamp of the sell volume never acts |
| `Trades.FootprintExtends` | candle-service/internal/accumulator/accumulator.go:523-530 | the footprint has one cell per price traded with exactly that price's volumes, and its sums are the bar's buy and sell volume |
| `Trades.LongestRunExtends` | candle-service/internal/accumulator/accumulator.go:484-495 | the running maximum is the longest stretch of equal sides in the trade history |
| `Trades.HeldWeighs` | candle-service/internal/accumulator/accumulator.go:443-451 | time-weighted sums stay between low and high times the time held, backward clock steps included |
| `Accumulators.VwapsWithin` | candle-service/internal/accumulator/accumulator.go:476-521 | volume-weighted prices, overall and per side, lie in [low, high] |
| `Accumulators.TwapOfWeighed` | candle-service/internal/accumulator/accumulator.go:639-653 | the finished time-weighted price lies in [low, high] |
| `Accumulators.TradesStep` | candle-service/internal/accumulator/accumulator.go:443-530 | one trade keeps every running trade field equal to its batch definition |
| `Accumulators.Accumulator.QuotesGiveReturns` | candle-service/internal/accumulator/accumulator.go:353-430 | over a run of quotes with positive mid-prices the histories are every spread and the log return of every two consecutive mid-prices |
| `Accumulators.Accumulator.Apply` | candle-service/internal/accumulator/accumulator.go:334-539 | a tick adds exactly the accepted trade, and the quote's return and spread, to the histories the fields summarise |
| `Accumulators.Accumulator.BarReset` | candle-service/internal/accumulator/accumulator.go:908-993 | all per-bar state is cleared, the carried mid-price is kept |
| `Accumulators.Accumulator.Reset` | candle-service/internal/accumulator/accumulator.go:997-1005 | ... and cleared too on a reset, with the bar count |
| `Accumulators.Accumulator.CurrentBar` | candle-service/internal/accumulator/accumulator.go:617-904 | the finished bar summarises the bar's trades: prices, volumes, the exact TWAP and side deviations with the exact conditions under which they are missing, all means inside the range |
| `Accumulators.Accumulator.SignAutocorr` | candle-service/internal/accumulator/accumulator.go:876-887 | present only as the batch autocorrelation in [-1, 1]; missing only when a variance vanishes |
| `Accumulators.Accumulator.RealizedVol` | candle-service/internal/accumulator/accumulator.go:821-824 | present only as the sample deviation of the bar's returns; missing only without variation |
| `Calendar.CloseIsBoundary` | candle-service/internal/cascade/cascade.go:160-181 | the truncation test says exactly that the next second is a multiple of the length, or Monday midnight |
| `Calendar.WhenBarsClose` | candle-service/internal/cascade/cascade.go:160-181 | in plain numbers, when each of the seven timeframes closes |
| `Calendar.ClosesNest` | candle-service/internal/cascade/cascade.go:160-181 | whenever a timeframe closes, so does the one below it, weeks included |
| `Calendar.OpenedOneLengthBefore` | candle-service/cmd/candle/main.go:187-190 | truncating the closing second gives the second one bar length before the next one |
| `CascadeEngine.ClosedTimeframesArePrefix` | candle-service/internal/cascade/cascade.go:202-213 | the bars closed by one second belong to a prefix of the timeframes |
| `Cascade.MergeAssociative` | candle-service/internal/cascade/cascade.go:74-114 | merging bar states is associative |
| `Cascade.FoldAllAggregates` | candle-service/internal/cascade/cascade.go:74-114 | a fold over seconds is their first open, last close, extremes, sums and counts, spreads included |
| `CascadeRuns.StateIsSegment` | candle-service/internal/cascade/cascade.go:202-213 | in every run each timeframe holds exactly the seconds since its last close |
| `CascadeRuns.ClosedBarAggregatesItsSeconds` | candle-service/internal/cascade/cascade.go:202-213 | a closed bar aggregates the seconds since the timeframe's previous close, no more and no less; it opened one second after that close, or with the first second of the run; its spread mean is that of the seconds that had one |
| `CascadeRuns.BarOpensWith` | candle-service/internal/cascade/cascade.go:75-77 | how many seconds a closed bar has and the stamp it opens with, from the position of the previous close alone |
| `CascadeRuns.RollUpInvariant` | candle-service/internal/cascade/cascade.go:202-213 | throughout any run the upper state is the merge of the lower bars pending and the lower state |
| `CascadeRuns.RollUp` | candle-service/internal/cascade/cascade.go:202-213 | every bar closed at a higher timeframe is the merge of the next-lower bars closed since its previous close, with missing or repeated seconds |
| `CascadeRuns.RestoredEngineGoesOn` | candle-service/internal/cascade/cascade.go:110-118 | two engines that differ only in spread tracking emit the same bars but for the spread mean, and are equal from the first close on |
| `CascadeEngine.CascadeAcc.Fold` | candle-service/internal/cascade/cascade.go:74-114 | the in-place fold is the fold of the specification |
| `CascadeEngine.Engine.Fold` | candle-service/internal/cascade/cascade.go:202-213 | one second steps all seven timeframes; each bar it returns aggregates the seconds since its timeframe's previous close and merges the lower bars closed since then |
| `CascadeEngine.Engine.RestoreFromHash` | candle-service/internal/cascade/cascade.go:223-251 | overwrites one timeframe with what the fields say, and no other |
| `CascadeEngine.Engine.RestoreAll` | candle-service/cmd/candle/main.go:576-595 | exactly the hashes with an opening time are read: a state that was saved comes back but for its spread tracking, one saved without an opening time and every other timeframe is left as it is |
| `CascadeRestart.Restart` | candle-service/cmd/candle/main.go:576-595 | a new engine that reads what another wrote has its states but for the spread tracking |
| `CascadeRestart.ClosesSameBars` | candle-service/internal/cascade/cascade.go:202-213 | engines whose states are the same but for spreads close, after any run, as many bars, the same but for spread means, and wholly the same in a timeframe that has closed |
| `CascadeRestart.CrashAndGoOn` | candle-service/cmd/candle/main.go:270-294 | a crash after any run and a restart from what was written: second by second the restarted engine closes the bars the lost one would have, up to spread means, and these aggregate the seconds on both sides of the crash |
| `CascadeEngine.Engine.SaveAll` | candle-service/cmd/candle/main.go:270-294 | what is written after each second is every timeframe's state |
| `HashCodec.ParseFormat` | candle-service/internal/cascade/cascade.go:225-250 | decimal text of any integer is read back, or as the nearest one of 64 bits |
| `HashCodec.ZeroIsWrittenZero` | candle-service/cmd/candle/main.go:583-584 | only an opening time of zero is written as "0", and none as nothing |
| `HashCodec.FieldsAreRead` | candle-service/internal/cascade/cascade.go:223-251 | each field is read on its own; what is absent or no number becomes zero or nil |
| `HashCodec.RestoreAfterSave` | candle-service/internal/cascade/cascade.go:223-288 | restoring what was saved gives the same state with only the spread tracking cleared |
| `HashCodec.CrashRestoreBisimulation` | candle-service/internal/cascade/cascade.go:223-288 | after a crash every later second closes the same bars except for the spread mean, and each timeframe is identical from its first close on |
| `AccWriters.FoldSummarises` | candle-service/internal/cascade/cascade.go:74-114 | folding a second's bar into a state that summarises the trades so far |
| `AccWriters.SummariesAgree` | candle-service/cmd/candle/main.go:182-214 | a cascade state and an accumulator that summarise the same trades produce bars that agree on open, high, low, close, volumes, trade and gap counts |
| `AccWriters.SummariesAgreeIff` | candle-service/cmd/candle/main.go:182-214 | a cascade state that also saw earlier trades and gaps agrees if and only if there were no trades and as many gaps as the reset put in their place |
| `AccWriters.FlushedBarsAgreeIff` | candle-service/cmd/candle/main.go:158-175 | a parallel bar published by a flush agrees with the cascade bar of the same flush if and only if the last reset of the interval lost nothing |
| `AccWriters.AccWriter.Apply` | candle-service/cmd/candle/main.go:88-122 | all three accumulators take the same trades and quotes, so both paths stay in step |
| `AccWriters.AccWriter.RestoreCascade` | candle-service/cmd/candle/main.go:576-635 | after a restart the first parallel bars agree with the restored cascade if and only if the saved states had folded no trades and no gaps since their last close |
| `AccWriters.AccWriter.IncrementGap` | candle-service/cmd/candle/main.go:314-322 | counts the gap on every path and clears the cumulative delta |
| `AccWriters.AccWriter.Reset` | candle-service/cmd/candle/main.go:324-337 | empties the accumulators, last mid-price and bar count included, but not the cascade: what had been folded is from now on missing from the parallel bars, and one gap counted instead |
| `AccWriters.AccWriter.BookDelta` | candle-service/cmd/candle/main.go:133-151 | the cumulative delta counts a second once per write attempt; the divergence flag says exactly that the price moved against the bar's own buys minus sells |
| `AccWriters.DivergenceMeans` | candle-service/cmd/candle/main.go:139-147 | the flag is 1 exactly when the price rose while more was sold, -1 exactly when it fell while more was bought |
| `AccWriters.AccWriter.FlushParallel` | candle-service/cmd/candle/main.go:182-214 | a bar is published exactly on the boundary: all its accumulator held at that second, restamped one length before the next second; the accumulator is then empty |
| `AccWriters.AccWriter.FinishSecond` | candle-service/cmd/candle/main.go:155-176 | cascade, parallel bars and reset after a successful write; a partial flush keeps the second from the cascade only, and the parallel accumulators keep their trades |
| `AccWriters.AccWriter.Flush` | candle-service/cmd/candle/main.go:124-177 | the bar written and folded carries the second's stamp and all the accumulator held, spread mean included; in a run of flushes at positive stamps each bar closed aggregates the seconds since its timeframe's previous close, opens with the stamp of the first, and rolls up; every published 1m and 15m bar agrees with the cascade if and only if the last snapshot reset of its interval lost no trades and exactly one gap, or there was none; aborted writes included; the cumulative delta is what was written plus what failed writes counted again |
| `AccWriters.AccWriter.TakeSnapshot` | candle-service/internal/consumer/consumer.go:411-421 | the only partial flush, written or not, and the reset that always follows it |
| `AccWriters.SnapshotLosesTrades` | candle-service/cmd/candle/main.go:324-337 | a failing run: a trade, a snapshot, the minute closed; the two bars differ |
| `AccWriters.SnapshotReplacesOneGap` | candle-service/cmd/candle/main.go:324-337 | a gap instead of the trade: the two bars agree |
| `AccWriters.FailedWriteCountsTwice` | candle-service/cmd/candle/main.go:133-154 | a failing run: a second whose write fails once has its trade in the cumulative delta twice |
| `CostBasis.FillConserves` | bot-service/bot_service/backtest/writer.py:22-38 | one fill moves value between cash, inventory and profit without creating any |
| `CostBasis.MoneyIsConserved` | bot-service/bot_service/strategy/order_worker.py:227-244 | over every history: profit = received for closed quantity - paid + held quantity at average price; the quantity is never negative |
| `CostBasis.HeldIsGreatestNet` | bot-service/bot_service/strategy/order_worker.py:231-243 | over every history the held quantity is the greatest net of buys less sells over its last few fills |
| `CostBasis.HeldIsNetIff` | bot-service/bot_service/strategy/order_worker.py:239-243 | it is all buys less all sells if and only if no sale was ever of more than was held |
| `CostBasis.AverageWithinBuys` | bot-service/bot_service/strategy/order_worker.py:231-243 | the average price lies within the prices paid since the position was last flat |
| `CostBasis.FifoConserves` | bot-service/bot_service/strategy/order_worker.py:227-228 | the first-in-first-out reference holds the same quantity and conserves money too |
| `CostBasis.TakeLeavesNewest` | bot-service/bot_service/strategy/order_worker.py:227-228 | a sale from the reference leaves the newest lots, the oldest of them possibly in part |
| `CostBasis.AverageAgainstFifo` | bot-service/bot_service/strategy/order_worker.py:227-244 | the code averages where its documentation says FIFO: the totals differ by exactly the difference in valuing what is held, so they agree if and only if that is zero, and whenever the position is flat |
| `CostBasis.DriftIsBounded` | bot-service/bot_service/strategy/order_worker.py:227-244 | they never drift apart by more than the held quantity times the spread of the open buy prices |
| `CostBasis.OnePriceAgreesWithFifo` | bot-service/bot_service/strategy/order_worker.py:227-244 | while all buys since the position was last flat were at one price, the code realizes exactly the FIFO profit |
| `CostBasis.AverageIsNotFifo` | bot-service/bot_service/backtest/writer.py:16-38 | a history on which the code realizes 5 and FIFO 10 |
| `CostBasis.CostBasisTracker.Record` | bot-service/bot_service/backtest/writer.py:22-38 | a buy adds its size and averages the cost; a sale takes its size off, down to nothing, keeps the average, and realizes what went times the price less the average; every other symbol is left alone, and the symbol stands where its own history puts it |
| `OrderRules.InsertKeepsBalance` | bot-service/bot_service/strategy/order_worker.py:399-402 | for sizes of any sign, inserting an order, even under an id already open, keeps the position notional equal to the open orders plus the excess of overwritten ones |
| `OrderRules.MovesByNotional` | bot-service/bot_service/strategy/order_worker.py:136-141 | an order moves its own symbol's notional by its fraction of the portfolio, on a fill not below zero, and no other symbol's |
| `OrderRules.FillMovesBalance` | bot-service/bot_service/strategy/order_worker.py:136-141 | for sizes of any sign, a fill keeps that balance, the clip at zero adding exactly the shortfall to the excess |
| `OrderRules.FillKeepsBalanceIff` | bot-service/bot_service/strategy/order_worker.py:136-141 | a fill keeps the balance as it is if and only if the books hold at least the order's own notional, the guard of the clip |
| `OrderRules.NotionalCovers` | bot-service/bot_service/strategy/order_worker.py:136-140 | with non-negative notionals an open order's is always covered, so the clip at zero never acts |
| `OrderRules.NegativeSizeLosesBalance` | bot-service/bot_service/strategy/order_worker.py:136-140 | a failing input: with an order of negative size open, the fill of another is clipped and the open order's notional forgotten |
| `OrderRules.GateBound` | bot-service/bot_service/strategy/order_worker.py:305-318 | the bound the risk gate gives for sizes of any sign: limit less the exempt orders open on the symbol, the excess and the order replaced |
| `OrderRules.GateKeepsLimitIff` | bot-service/bot_service/strategy/order_worker.py:305-318 | whatever order passes the gate, the gated notional stays within the limit if and only if the exempt orders open there and the excess are together not negative |
| `OrderRules.GateLetsThrough` | bot-service/bot_service/strategy/order_worker.py:305-318 | a failing input: with an exit of negative size open, an entry of the whole portfolio passes a 10% gate |
| `OrderRules.PlacedAndFilled` | bot-service/bot_service/strategy/order_worker.py:136-140 | an order placed and filled leaves the notional the gate looks at as it was |
| `OrderRules.GateBoundsPositionIff` | bot-service/bot_service/strategy/order_worker.py:305-318 | whatever order passes the gate, held and open together stay within the limit if and only if nothing is held |
| `OrderRules.InsertKeepsLimit` | bot-service/bot_service/strategy/order_worker.py:305-318 | so with non-negative notionals an order that passed the gate keeps the gated notional of its symbol within the limit |
| `OrderRules.InsertKeepsUnique` | bot-service/bot_service/strategy/order_worker.py:286-329 | ... and one open entry per symbol and side, and every gated order within the hard cap |
| `OrderRules.FillKeepsCleared` | bot-service/bot_service/strategy/order_worker.py:132-141 | a fill that comes in while an order is being placed cannot make it violate a gate it passed |
| `OrderRules.InsertKeepsBooks` | bot-service/bot_service/strategy/order_worker.py:390-402 | all of these together, and every id accounted for as filled, overwritten or open |
| `OrderRules.RememberOne` | bot-service/bot_service/strategy/order_worker.py:114-121 | the seen-set is the queue's contents, without duplicates, and the queue the last 10000 ids handled, eviction included |
| `OrderLedger.OrderQueueWorker.Process` | bot-service/bot_service/strategy/order_worker.py:248-329 | an exit or a stop is always sent; otherwise the first gate that stops the request: an open entry of its symbol and side, a size above the hard cap, or a notional above the limit together with what is open; sent exactly if it is cleared |
| `OrderLedger.OrderQueueWorker.PlacedPersisted` | bot-service/bot_service/strategy/order_worker.py:390-402 | the order becomes open only after its event was written |
| `OrderLedger.OrderQueueWorker.RestoreOpenOrder` | bot-service/bot_service/strategy/order_worker.py:100-105 | reconciliation inserts without gates, keeping the notional balance |
| `OrderLedger.OrderQueueWorker.Close` | bot-service/bot_service/strategy/order_worker.py:132-141 | a filled order comes off the books, clipped at zero as in the source, and the trace records a clip exactly when it acts |
| `OrderLedger.OrderQueueWorker.HandleFill` | bot-service/bot_service/strategy/order_worker.py:112-146 | a fill reaches the position exactly if its id is open and not among the last 10000 handled; otherwise it changes nothing but that memory |
| `OrderLedger.OrderQueueWorker.FinishFill` | bot-service/bot_service/strategy/order_worker.py:177-208 | after the event is written: profit, its peak, the drawdown and the circuit breaker, for waiting fills in any order; the breaker trips exactly below minus its limit |
| `OrderLedger.OrderQueueWorker.FeedBreaker` | bot-service/bot_service/strategy/order_worker.py:177-188 | the breaker trips exactly when the recorded loss passes its limit, its callback is called at most once, and nothing is recorded after that |
| `OrderLedger.WithFreshIds` | bot-service/bot_service/strategy/order_worker.py:112-141 | over every interleaving, for sizes of any sign, if no id is given out twice: the position notional is never below that of the open orders, and equal to it if and only if no fill on the symbol was clipped; each fill reaches the profit at most once, whatever was evicted |
| `OrderLedger.SizedIsNeverClipped` | bot-service/bot_service/strategy/order_worker.py:136-140 | in a run without negative sizes no fill is ever clipped |
| `OrderLedger.GatedOverRuns` | bot-service/bot_service/strategy/order_worker.py:286-318 | over every interleaving, for sizes of any sign: the gated orders open on a symbol add up to the position notional less the exempt ones and the excess |
| `OrderLedger.EntriesWithinLimit` | bot-service/bot_service/strategy/order_worker.py:286-318 | over every interleaving: one open entry per symbol and side where this process placed it, for sizes of any sign; and without negative sizes the gated notional within max_position_pct of the portfolio |
| `OrderLedger.SettledProfit` | bot-service/bot_service/strategy/order_worker.py:200 | once no fill is half handled, in whatever order they finished, the cumulative profit is that of the fills recorded |
| `OrderLedger.EarlyFillIsLost` | bot-service/bot_service/strategy/order_worker.py:112-130 | a fill that arrives while the placed event is being written is lost: the order opens afterwards and the redelivered fill is taken for a duplicate |
| `OrderLedger.EntriesNeverFillTheGate` | bot-service/bot_service/strategy/order_worker.py:309-318 | entries placed and filled one after another pass the gate as often as ids can be had: the notional it looks at is unchanged while the quantity grows by each fill |
| `Barriers.LastBarWins` | bot-service/bot_service/barrier.py:91-92 | a bucket holds, per symbol fed, exactly the last bar fed for it since the bucket opened |
| `Barriers.AscendingSorts` | bot-service/bot_service/barrier.py:100-104 | every element once, smallest first |
| `Barriers.TimeoutCoversSymbols` | bot-service/bot_service/barrier.py:123-136 | on a timeout closes and gap markers together cover the symbol set, each symbol once, markers in order |
| `Barriers.FlushReports` | bot-service/bot_service/barrier.py:99-136 | a flush of any buckets reports them in turn, each with its bars and the markers of exactly the absent symbols |
| `Barriers.BucketIsFloor` | bot-service/bot_service/barrier.py:75 | the bucket of a time is the one multiple of the timeframe at or below it and less than a timeframe away |
| `Barriers.PruningIsExact` | bot-service/bot_service/barrier.py:117-121 | the memory of fired buckets is exactly those after which none more than twice the timeout newer has fired |
| `Barriers.RefiringIsRare` | bot-service/bot_service/barrier.py:77-86 | a bucket fires twice only if one more than twice the timeout newer fired in between |
| `Barriers.Barrier.Create` | bot-service/bot_service/barrier.py:32-53 | refuses exactly an unknown timeframe and an empty symbol set |
| `Barriers.KnownTimeframes` | bot-service/bot_service/barrier.py:12-21 | the eight timeframes and their lengths |
| `Barriers.Barrier.Fire` | bot-service/bot_service/barrier.py:111-136 | takes the bucket out, remembers it, prunes, and emits its bars and markers |
| `Barriers.Barrier.FlushExpired` | bot-service/bot_service/barrier.py:99-136 | event by event: for exactly the buckets whose first bar arrived the timeout ago or more, oldest first, the bars collected and then one gap marker per symbol without one, before the next bucket's events |
| `Barriers.Barrier.Handle` | bot-service/bot_service/barrier.py:75-97 | late, still collecting or complete, decided by the fired set and the bars collected |
| `Barriers.Barrier.Feed` | bot-service/bot_service/barrier.py:55-136 | first those events for the overdue buckets, then nothing, or the one event with all bars of the bucket this bar completes; no pending bucket is complete, nor overdue when the timeout is positive; late, collecting or complete decided by what fired and what was collected |
| `Barriers.LateBarFiresAgain` | bot-service/bot_service/barrier.py:117-121 | the comment there is false: a late bar does fire its bucket a second time once a much newer bucket has fired |

## Left out

- Redis, QuestDB, HTTP, WebSocket and Prometheus: writes appear as events of an output trace; only the 1-second write may fail.
- The wall clock, the string-to-number parser, logarithm, square root and float formatting: parameters. The float text codec
  is assumed to round-trip on the values saved; the integer codec is written out and proved.
- Unsigned 64-bit wrap-around: sequence numbers are unbounded, but the guard on the largest number in the merge is modelled.
- IEEE rounding, infinities and NaN: the laws are exact over the reals.
- Cancellation and shutdown of the aggregator: runs end before the context is cancelled. A panic inside the panic handler ends the program.
- The tick fan-out's channels: a dropped tick is a tick the worker never sees, so the worker is proved on every sequence of ticks.
- The accumulator's fields for mid-price and spread extremes, order flow imbalance, effective spread, Hawkes intensity, depth, iceberg,
  footprint imbalance, auction, order book activity, upticks, largest trade, skewness and block trades: single reads or sums like the ones proved.
- The accumulator's fields, and the writer's delta fields, are grouped into records by topic, each updated in one assignment.
- Accumulators.Accumulator.Apply: follows the modelled fields only, as do the next three.
- Accumulators.Accumulator.BarReset: the other per-bar fields are not shown cleared.
- Accumulators.Accumulator.Reset: the last-known quote is not modelled.
- Accumulators.Accumulator.CurrentBar: depth, skewness, interval deviation, iceberg and block fields are not part of the bar.
- Accumulators.Accumulator.RealizedVol: the square root is a parameter assumed to be the non-negative root.
- ValueAreas.ComputeValueArea: the library sort is a function.
- AccWriters.AccWriter.Apply: block trades and the rolling window of sizes are fed by the same ticks but not wired in.
- AccWriters.AccWriter.Flush: block trades, depth, carry-forward quotes and what is persisted or published elsewhere are not modelled.
- AccWriters.FlushedBarsAgreeIff: the cascade's spread mean and bar count have no counterpart in the parallel bar.
- CascadeEngine.Engine.SaveAll: the seven hashes are written one after the other, with retries; a crash between two of them or a write given up is not modelled.
- CascadeRestart.CrashAndGoOn: what is lost with the accumulators of the second in progress is not part of the cascade.
- OrderLedger.OrderQueueWorker.HandleFill: exchange, fees, slippage and the event record itself are not modelled.
- OrderLedger.EntriesWithinLimit: the limit over runs is stated for runs without negative sizes; with them, a fill during placement can undo what the gate saw, and OrderLedger.GatedOverRuns says what the gated orders add up to.
- Restoring a position's cost basis after a crash: it overwrites two dictionary entries, so histories start from a flat position.
- CostBasis.CostBasisTracker.Record: stands for both the live and the backtest tracker, whose code is the same; fills are taken as non-negative in the lemmas.
- Barriers.Barrier.Feed: symbols are their alphabetical ranks, and a bar carries its close only.
- The seen-ids queue, the barrier's wall clock and the thread-safe post: calls are made on one event loop.
- Consumer groups, the candle service's order book, the dashboard, strategies, backtest runners, configuration and the ML service.
