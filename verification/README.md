# Kotsin NSE: market data, tape, archive and order path

A model of the parts of the trading engine where a fast, compressed or step-by-step form has to agree
with something simple, and proofs that it does.

* **Ticks to bars to store.** A snapshot feed with cumulative volume becomes bars of seven
  timeframes at once, closed by the next tick or by a one-second clock, kept in capped sorted
  lists and corrected by the exchange (`Session`, `Bars`, `Rollup`, `RollupLaws`, `SymbolFeed`,
  `SymbolLaws`, `SymbolDay`, `Series`, `Store`, `Aggregator`).
* **Price levels.** ATR and SuperTrend, single-linkage clustering of pivot levels, and the stop and
  target ladder through snapping and rounding; previous weeks and months (`Indicators`,
  `SuperTrendLaws`, `Clusters`, `Rounding`, `Ladder`, `LadderValues`, `Periods`).
* **Tape and archive.** An on-change quote recorder with a watch and grace machine and a
  forward-filling reader; day files that are flushed, set aside and pruned while anything may fail
  (`Tape`, `TapeChanges`, `TapeRecorder`, `DayFile`, `Archive`, `DailyArchive`, `Replay`).
* **Order path.** The gateway's idempotency, caps and breaker over whole histories with calls that
  overlap at the broker; the paper matcher's walk of the book; strike selection; the event bus
  (`Gateway`, `OrderGateway`, `Paper`, `PaperMatcher`, `Select`, `SelectLaws`, `Bus`).

Code that works on values is modelled as functions. Code that changes things step by step is a class
or a loop whose contract ties it to a step function, and the laws are proved about every run of those
steps. Prices are reals; timestamps of the bar path are whole seconds, IST a fixed offset; clocks,
file-system outcomes, halts, modes and broker answers are inputs.

## Where the code and its documentation differ

The model follows the code. Each point has a lemma in the table.

* The aggregator's header says higher frames are rolled from closed 1m bars. They are built from
  ticks; that they equal the roll-up is `RollUpRefinement`, which needs that neither frame dropped a
  tick as late or opened a closed bucket again. `OnTimeIff` says which ticks and clock calls those are.
* A late tick can reopen a flushed bucket (`BuiltOnceIff`, `LateTickReopens`), and a stale lower
  TotalQty over-counts (`VolumeIsTotalIff`, `StaleTotalOverCounts`).
* The SuperTrend ratchet fails on a gap wider than the bands (`RatchetIff`, `GapSqueezes`,
  `GapOvertakes`).
* Targets are rounded to two decimals before the tick, which can take them back through the close when
  the tick is not whole paise (`SidesHoldIff`, `WholePaiseHolds`, `FineTickTargetCrosses`), and a wall at
  the close of a bearish trade with a stop floor may be sent past the next target (`OutwardIff`,
  `WallAtCloseDisorders`).
* The archive promises a year for every contract held at any point of a day. A held row whose write
  failed is not counted when its day is pruned (`DeletionKeepsHeldIff`, `WaitingHeldRowLosesItsDay`).
* The daily order cap is checked before the broker wait and counted after it, so overlapping calls
  can pass it (`DailyOrdersBounded`, `OverlapReachesBound`).
* The delta floor is not asked of a strike that serves as both candidates
  (`PicksClearFloorIff`, `SharedStrikeSkipsFloor`).

## Model

| member | source | states |
|---|---|---|
| Session.IstDayIff | backend/kotsin_nse/market/session.py:122-123 | an IST day is the 86400 seconds from 18:30 UTC of the day before |
| Session.InSessionIff | backend/kotsin_nse/market/session.py:173-191 | a tick is in session from 09:15 up to 15:30 IST on the stock exchange and from 09:00 up to 23:30 for commodities |
| Session.BucketOnGrid | backend/kotsin_nse/market/session.py:173-191 | in session a bucket starts a whole number of its timeframe's minutes after the open, at or before the tick and less than one step before it |
| Session.BucketHolds | backend/kotsin_nse/market/session.py:173-191 | a bucket holds exactly the in-session seconds between its start and its end, the clipped last bucket of the day included |
| Session.BucketMonotone | backend/kotsin_nse/market/session.py:173-191 | a later tick never falls in an earlier bucket, and one at or past a bucket's end falls in a later bucket |
| Session.BucketNested | backend/kotsin_nse/market/session.py:173-191 | when one step divides another, the fine bucket lies inside the coarse bucket of the same tick and ends no later |
| Session.BucketIdempotent | backend/kotsin_nse/market/session.py:173-185 | a bucket start is its own bucket |
| RollupLaws.FlushConfluenceIff | backend/kotsin_nse/bars/aggregator.py:206-292 | when the one-second clock happens to flush is invisible if and only if nothing was dropped as late and no closed bucket was opened again: then, and only then, a series is the flush-free grouping of its ticks in strictly ascending buckets, each emitted once |
| Rollup.OnTimeIff | backend/kotsin_nse/bars/aggregator.py:206-292 | that condition read off the ticks and clock calls alone, on every run: each tick is for a later bucket than every tick before it, or for the same one with no clock call past its end between them |
| Rollup.TimelyIsOnTime | backend/kotsin_nse/bars/aggregator.py:206-292 | that includes every run whose ticks are no older than the ticks and clock calls before them, in any timeframe |
| RollupLaws.GroupedSummarises | backend/kotsin_nse/bars/aggregator.py:206-262 | for ticks whose buckets never go back, in any order inside a bucket: one bar per bucket that traded, and its open, high, low, close, volume and trades are those of exactly that bucket's ticks, recovered day extremes included |
| RollupLaws.BarsSummariseTicks | backend/kotsin_nse/bars/aggregator.py:206-292 | on every run that drops no tick and reopens no bucket, the bars of a series, emitted and forming, summarise exactly its ticks, and each tick is in a bar |
| RollupLaws.RollUpRefinement | backend/kotsin_nse/bars/aggregator.py:206-292 | a 30m bar is the roll-up of its 1m bars though both are built from ticks: for any dividing steps, on any schedules of the same ticks in which neither series dropped one or reopened a bucket, even when the two were flushed differently |
| RollupLaws.RollUpInOrder | backend/kotsin_nse/bars/aggregator.py:206-292 | the same roll-up with its hypothesis on the ticks and clock calls alone |
| RollupLaws.EmittedRollUp | backend/kotsin_nse/bars/aggregator.py:206-292 | on one such schedule, each emitted coarse bar is the roll-up of fine bars that have all been emitted |
| RollupLaws.FormingTogether | backend/kotsin_nse/bars/aggregator.py:273-292 | on one such schedule, while a fine bar forms the coarse bar around it forms too |
| RollupLaws.BuiltOnceIff | backend/kotsin_nse/bars/aggregator.py:217-236 | with late ticks allowed, a series is built once and in order if and only if no tick arrives for an already closed bucket while nothing forms |
| RollupLaws.LateTickReopens | backend/kotsin_nse/bars/aggregator.py:217-236 | that guard is missing in the code: a concrete late tick after a flush opens 09:15 a second time |
| SymbolFeed.LineConservesVolume | backend/kotsin_nse/bars/aggregator.py:206-292 | for any ticks, late ones included, a day's closed, forming and dropped-as-late volume is the volume its ticks brought |
| SymbolLaws.VolumeConservation | backend/kotsin_nse/bars/aggregator.py:133-241 | in every timeframe that volume equals the session volume the symbol counts |
| SymbolLaws.SessionVolume | backend/kotsin_nse/bars/aggregator.py:133-203 | the session volume is the volume of the current day's accepted ticks |
| SymbolLaws.SessionTelescopes | backend/kotsin_nse/bars/aggregator.py:162-203 | with TotalQty present it is the last total less the baseline (zero if connected by the open, else the first total), plus whatever the totals fell back by |
| SymbolLaws.VolumeIsTotalIff | backend/kotsin_nse/bars/aggregator.py:192-203 | it is exactly the last total less the baseline if and only if no total of the day fell back; a stale lower total resets the baseline and over-counts |
| SymbolLaws.StaleTotalOverCounts | backend/kotsin_nse/bars/aggregator.py:192-203 | totals of 100, a stale 50 and 120 from the open count 170 |
| SymbolLaws.StampedVwapTraded | backend/kotsin_nse/bars/aggregator.py:221-241 | every VWAP ever stamped lies between two prices already traded that day |
| SymbolLaws.TraceIsAccepted | backend/kotsin_nse/bars/aggregator.py:133-160 | bars see exactly the accepted in-session ticks, in order, at their own price |
| SymbolDay.TicksCarryRight | backend/kotsin_nse/bars/aggregator.py:133-228 | said on the raw frames alone, on every run: a tick recovers the day's high if and only if its frame carries a positive one above every one seen before that day, of which there was at least one, and the low likewise; it brings its own last quantity where there is no total, else what the total grew by since the last one of the day; and it stamps the day's value over its volume and the previous close |
| SymbolDay.StampsLastOi | backend/kotsin_nse/bars/aggregator.py:119-129 | and the open interest last set before it |
| SymbolDay.TicksAreCounted | backend/kotsin_nse/bars/aggregator.py:133-154 | the tick counter counts the frames that carry a price, in session or not |
| Series.CloseRefines | backend/kotsin_nse/bars/store.py:27-44 | closing into the newest or a later bucket keeps the list strictly sorted and is the obvious map update cut to the newest bars; a whole bar is never overwritten by a partial one |
| Series.InstallRefines | backend/kotsin_nse/bars/store.py:46-65 | installing a bar anywhere keeps the list sorted and changes that bucket and no other |
| Series.SeedRefines | backend/kotsin_nse/bars/store.py:67-77 | a backfill replaces the buckets it has, keeps the rest, and stays within the cap |
| Series.HistoryRefines | backend/kotsin_nse/bars/store.py:27-77 | over every sequence of closes, installs and seeds the list is strictly sorted and is exactly that finite map |
| Series.SameMapSameSeries | backend/kotsin_nse/bars/store.py:16-77 | a sorted list is determined by the map it shows |
| Series.CloseSortedIff | backend/kotsin_nse/bars/store.py:27-44 | a close keeps the order if and only if its bucket is not older than the newest one held |
| Series.WholeBarStays | backend/kotsin_nse/bars/store.py:27-77 | over every history, a bucket that has held a whole bar never goes back to a partial one while it is held |
| Series.StoreAllTrims | backend/kotsin_nse/bars/store.py:27-44 | bars closed in order of their buckets are all kept, up to the cap |
| Store.BarStore.Close | backend/kotsin_nse/bars/store.py:27-44 | the store's close is that series step, and pops only its own forming bar |
| Store.BarStore.ReplaceClosed | backend/kotsin_nse/bars/store.py:46-65 | the walk back from the newest bar finds the place, says whether the bucket was there, and touches no forming bar |
| Store.BarStore.Seed | backend/kotsin_nse/bars/store.py:67-77 | the store's seed is that series step for its own key only |
| Store.BarStore.SetForming | backend/kotsin_nse/bars/store.py:24-25 | only the series' own forming bar changes |
| Store.BarStore.LastBars | backend/kotsin_nse/bars/store.py:79-81 | the newest closed bars; a forming bar is never among them |
| Store.BarReconciler.Install | backend/kotsin_nse/bars/verify.py:221-254 | the exchange wins: its open, high, low, close and volume end up in the bucket, with the build's own trades and context, marked complete and as coming from the exchange; no other bucket, series or forming bar changes, and an exact build is only confirmed, in the store too when it is the bar held there |
| AggregatorModel.SymbolState.RollDay | backend/kotsin_nse/bars/aggregator.py:162-173 | the imperative day roll is the specified one, baseline included |
| AggregatorModel.SymbolState.VolumeDelta | backend/kotsin_nse/bars/aggregator.py:192-203 | likewise the volume delta, its baseline and its reset |
| AggregatorModel.SymbolState.DayExtremeMoves | backend/kotsin_nse/bars/aggregator.py:176-189 | likewise the recovered day extremes |
| AggregatorModel.SymbolState.Receive | backend/kotsin_nse/bars/aggregator.py:133-160 | a tick's whole effect on the symbol before the bars |
| AggregatorModel.Aggregator.ApplyOne | backend/kotsin_nse/bars/aggregator.py:206-241 | one series' share of a tick is exactly its step, and every other series is untouched, so the invariant holds at every suspension point |
| AggregatorModel.Aggregator.FlushOne | backend/kotsin_nse/bars/aggregator.py:273-292 | likewise one series' share of the clock, which closes at most its own bar |
| AggregatorModel.Aggregator.OnTick | backend/kotsin_nse/bars/aggregator.py:133-160 | a tick reaches all seven series of its instrument and no other; an untracked code changes nothing |
| AggregatorModel.Aggregator.FlushStale | backend/kotsin_nse/bars/aggregator.py:273-292 | the clock reaches every series of every instrument, and the count returned is the bars closed |
| AggregatorModel.Aggregator.CloseBar | backend/kotsin_nse/bars/aggregator.py:265-271 | the forming bar is popped into its stored series, by the store's close, before anything can be awaited |
| AggregatorModel.Aggregator.SetOi | backend/kotsin_nse/bars/aggregator.py:119-129 | open interest is stamped from the next tick on; an untracked code changes nothing |
| AggregatorModel.Aggregator.Track | backend/kotsin_nse/bars/aggregator.py:93-117 | an instrument whose series would collide with another's is refused, one already tracked is kept |
| AggregatorModel.Aggregator.EmittedBarsRollUp | backend/kotsin_nse/bars/aggregator.py:133-292 | end to end, on the object: if neither series dropped a tick or reopened a bucket, an instrument's emitted coarse bars are the roll-up of its emitted fine bars, each once and in order |
| AggregatorModel.Aggregator.SeriesRollUp | backend/kotsin_nse/bars/aggregator.py:206-292 | the same at any suspension point, where clock calls may have come between two timeframes' shares of one tick |
| AggregatorModel.Aggregator.StoredBarsRollUp | backend/kotsin_nse/bars/aggregator.py:133-292 | and for what a strategy reads: while only the aggregator writes, each stored series is the newest bars of its emitted ones, and every stored coarse bar past the coarse bucket of the oldest stored fine bar is the roll-up of stored fine bars, whatever the cap has cut |
| Indicators.TrueRanges | backend/kotsin_nse/bars/indicators.py:73-84 | one true range per bar after the first, each against the previous close |
| SuperTrendLaws.TrueRangeIsSpan | backend/kotsin_nse/bars/indicators.py:73-84 | a true range is the length of the shortest interval holding the bar and the previous close |
| Indicators.AtrSeries | backend/kotsin_nse/bars/indicators.py:87-98 | the loop computes the Wilder average at every bar, aligned, none before the seed |
| SuperTrendLaws.AtrWithin | backend/kotsin_nse/bars/indicators.py:87-98 | for every period, within any bounds on the true ranges so far lies the ATR, so equal ranges give exactly that range |
| SuperTrendLaws.SeedIsMean | backend/kotsin_nse/bars/indicators.py:93 | the first average times the period is the sum of the ranges before it |
| Indicators.SuperTrend | backend/kotsin_nse/bars/indicators.py:114-158 | the loop computes at every bar the point the recursive definition gives |
| Indicators.BarsInTrend | backend/kotsin_nse/bars/indicators.py:161-171 | the length of the longest run of one trend that the points end with |
| SuperTrendLaws.SuperTrendRatchet | backend/kotsin_nse/bars/indicators.py:114-158 | for bars no wider than their basic bands: the close is always on the trend's side, the trend flips exactly when the close crosses the line already drawn, and otherwise the line moves only in the trend's favour |
| SuperTrendLaws.CalmRatchets | backend/kotsin_nse/bars/indicators.py:126-158 | the same for one step, from any point |
| SuperTrendLaws.NextOnSideIff | backend/kotsin_nse/bars/indicators.py:126-158 | one bar ends on the right side if and only if it is not squeezed, a condition on the point before it and its basic bands; squeezed, the bands have crossed around its close |
| SuperTrendLaws.SideKeptIff | backend/kotsin_nse/bars/indicators.py:114-158 | a whole run stays on the right side if and only if no live bar is squeezed |
| SuperTrendLaws.NextFlipsIff | backend/kotsin_nse/bars/indicators.py:126-158 | from a close on the right side, a flip is a crossing of the drawn line if and only if the new basic band did not overtake the close; without a flip the line only ratchets |
| SuperTrendLaws.RatchetIff | backend/kotsin_nse/bars/indicators.py:114-158 | the whole advertised ratchet holds over a run if and only if no live bar is squeezed or overtaken by a new basic band |
| SuperTrendLaws.WideMultiplierIsCalm | backend/kotsin_nse/bars/indicators.py:87-158 | no hypothesis is needed when twice the multiplier reaches the period |
| SuperTrendLaws.BoundedRangeIsCalm | backend/kotsin_nse/bars/indicators.py:87-158 | a bar is calm when its true range is bounded by the ATR before it, which for 7/3.0 is 36 ATRs |
| SuperTrendLaws.GapSqueezes | backend/kotsin_nse/bars/indicators.py:114-158 | without that the advertised ratchet is false: three bars that gap over a falling line |
| SuperTrendLaws.GapOvertakes | backend/kotsin_nse/bars/indicators.py:114-158 | and three that gap over a rising one: the trend turns down though nothing was crossed |
| SuperTrendLaws.NoLookAhead | backend/kotsin_nse/bars/indicators.py:87-158 | ATR and SuperTrend of a shortened history are the same on what is left |
| SuperTrendLaws.PointsMove | backend/kotsin_nse/bars/indicators.py:73-158 | rescaling and shifting every price moves the bands with it and keeps every trend |
| Clusters.LiveIs | backend/kotsin_nse/bars/pivots.py:155-158 | every level with a positive price is clustered, as often as it is given, in ascending price |
| Sorting.SortStable | backend/kotsin_nse/bars/pivots.py:159 | the sort is stable: elements that compare alike keep their order |
| Clusters.ClusterZones | backend/kotsin_nse/bars/pivots.py:156-179 | the pass yields the zones of the maximal runs of the sorted positive levels |
| Clusters.NearIff | backend/kotsin_nse/bars/pivots.py:172-175 | two levels are near when they differ by at most so many percent of the higher one, in either order |
| Clusters.ClusteringIsExact | backend/kotsin_nse/bars/pivots.py:156-176 | for any levels with non-negative weights: zones are exactly the connected components of nearness, each level lies in its own, and zones strictly ascend |
| Clusters.ZonesAreComponents | backend/kotsin_nse/bars/pivots.py:156-179 | two levels share a zone if and only if a chain of pairwise gaps within tolerance joins them, over all pairs |
| Clusters.RunHolds | backend/kotsin_nse/bars/pivots.py:156-179 | each level lies in the run its zone number names |
| Clusters.RunsAreZones | backend/kotsin_nse/bars/pivots.py:156-179 | the runs put end to end are the sorted levels: none lost, none twice |
| Clusters.LargerToleranceCoarsens | backend/kotsin_nse/bars/pivots.py:156-179 | a larger tolerance only merges zones |
| Clusters.ZoneIsMean | backend/kotsin_nse/bars/pivots.py:161-170 | a zone's strength is its levels' total weight, its price times that is the sum of each level's price times its weight, and its members are their names |
| Clusters.ZoneBetween | backend/kotsin_nse/bars/pivots.py:163-172 | a zone's price lies between its members' prices |
| Clusters.ZonesAscend | backend/kotsin_nse/bars/pivots.py:156-179 | zones strictly ascend |
| Clusters.StrengthConserved | backend/kotsin_nse/bars/pivots.py:156-179 | the zones' total strength is the levels' total weight |
| Clusters.InnerGap | backend/kotsin_nse/bars/pivots.py:174-176 | a gap between inner levels is never wider than one around them, which is why adjacent levels suffice |
| Rounding.RoundToMonotone | backend/kotsin_nse/bars/pivots.py:288-290 | rounding to a grid keeps order |
| Rounding.RoundToIdempotent | backend/kotsin_nse/bars/pivots.py:288-290 | rounding twice is rounding once |
| Rounding.RoundToNearest | backend/kotsin_nse/bars/pivots.py:185-214 | a rounded price is the nearest multiple of the unit, and an even one when two are as near |
| LadderValues.TickIsNearest | backend/kotsin_nse/bars/pivots.py:288-289 | a price goes to its nearest tick and then to four decimals |
| LadderValues.FigureIsRound | backend/kotsin_nse/bars/pivots.py:202-209 | a round figure is the next multiple outward of 1, 10, 50 or 100 rupees, for prices up to 100, 500, 2000 and above |
| LadderValues.SnapIs | backend/kotsin_nse/bars/pivots.py:185-214 | a target goes to it if and only if that moves it at most a fifth of its distance from the close, or there is no distance |
| Ladder.SnapIsOutwardAndCapped | backend/kotsin_nse/bars/pivots.py:185-214 | before rounding the snap moves a target only outward and by at most a fifth of its distance from the close |
| Ladder.SnapKeepsOrder | backend/kotsin_nse/bars/pivots.py:185-214 | a farther target never snaps nearer than a nearer one, across the 100, 500 and 2000 step changes and the cap |
| Ladder.StopBehind | backend/kotsin_nse/bars/pivots.py:291-314 | the stop is never on the winning side, and unless the floor widened it, it is the nearest eligible zone behind |
| LadderValues.StopIs | backend/kotsin_nse/bars/pivots.py:290-309 | on every input: the nearest zone behind, a wall where one is asked for and there is one, or one ATR when there is none; and with a floor of so many ATRs, that many when the stop is nearer, all ticked |
| Ladder.WallsAhead | backend/kotsin_nse/bars/pivots.py:292-331 | targets come from walls ahead, nearest first, no more than the policy allows |
| LadderValues.WallsAreNearest | backend/kotsin_nse/bars/pivots.py:319-331 | a wall ahead is left out only where the limit is used up, and is no nearer than any that is a target |
| Ladder.LadderOrdered | backend/kotsin_nse/bars/pivots.py:270-331 | for a close on the tick the stop is never on the winning side; the targets never leave it where the sides hold; and they stay weakly ordered outward through snap, cap, two decimals and tick for a bullish trade, with no wall at the close, or without a stop floor wherever a trade is offered |
| Ladder.SidesHoldIff | backend/kotsin_nse/bars/pivots.py:185-331 | exactly when they hold, a condition on close and tick alone: the targets of every set of zones keep their side if and only if the tick leaves the first two-decimal price past the close on that side |
| Ladder.OutwardIff | backend/kotsin_nse/bars/pivots.py:270-331 | on every input the targets are ordered outward if and only if the trade is bullish or no wall after one at the close is cut short: a condition on the walls' own prices, between the close and its round figure and too far from that figure to be sent there |
| Ladder.WallAtCloseStops | backend/kotsin_nse/bars/pivots.py:291-314 | a wall exactly at the close of a bearish trade puts the stop on the close, so no trade is offered |
| Ladder.WallAtCloseDisorders | backend/kotsin_nse/bars/pivots.py:291-331 | with a stop floor that does happen: a policy, zones and an ATR for which the stop is not the close and the chosen targets are out of order |
| Ladder.FineTickTargetCrosses | backend/kotsin_nse/bars/pivots.py:185-214 | a close on the tick is not enough when the tick is finer than a paisa: a wall at 1.003 is given a target of 1.0 under a close of 1.0025 |
| Ladder.WholePaiseHolds | backend/kotsin_nse/bars/pivots.py:185-214 | with a tick of whole paise the sides of a close on the tick hold |
| Ladder.GradeMonotone | backend/kotsin_nse/bars/pivots.py:332-358 | a better reward-to-risk never earns a worse grade |
| Ladder.ComputeConfluence | backend/kotsin_nse/bars/pivots.py:270-358 | the whole computation: stop, targets, the ratio times the risk, the room in ATRs, what each grade means in those numbers, when nothing is offered, and the ladder's geometry |
| Tape.RoundTrip | backend/kotsin_nse/ops/tape.py:139-209 | the round trip: forward-filling any listing of the day's file, however it was batched, answers at every second with the last usable quote a sample saw, and with whether the contract was held then |
| Tape.RunCompresses | backend/kotsin_nse/ops/tape.py:139-209 | the change-compressed rows and every usable sight read the same quote and the same held flag at every second |
| TapeChanges.UnchangedIsNotWritten | backend/kotsin_nse/ops/tape.py:182-205 | and a contract seen alike at two samples, with only follows between and its watch not lapsed, has no new row |
| Tape.ReadSeriesIsSeries | backend/kotsin_nse/ops/tape.py:283-311 | de-duplicating last-wins, selecting and sorting lists exactly the file's rows of the code in ascending seconds |
| Tape.BisectRight | backend/kotsin_nse/ops/tape.py:278-280 | the split between the rows at or before a second and those after it |
| Tape.SeriesAtIsLatest | backend/kotsin_nse/ops/tape.py:278-280 | `at` is the latest row at or before the second, said on the file alone |
| Tape.MidPruneReadsSame | backend/kotsin_nse/ops/tape.py:283-302 | a day read from both its own file and the rows already set aside reads the same |
| Tape.HeldIffHistory | backend/kotsin_nse/ops/tape.py:139-171 | a symbol is marked held at a sample if and only if some contract of it is open then or was first seen closed at most AFTER_CLOSE_S ago; follows do not enter |
| Tape.RowsCarryHistory | backend/kotsin_nse/ops/tape.py:183-204 | every row a sample writes carries that flag |
| Tape.OpenNeverEvicted | backend/kotsin_nse/ops/tape.py:118-169 | an open contract stays watched without a limit, whatever is followed meanwhile |
| Tape.WatchedIsSeen | backend/kotsin_nse/ops/tape.py:172-204 | every contract still watched after a sample, and quoted at it, was seen with that quote, and as held if and only if its symbol is |
| Tape.HeldIsWritten | backend/kotsin_nse/ops/tape.py:186-205 | turning held is itself written: a contract last seen held at a second has a held row by then, even when its quote never changed |
| Tape.OpenIsWritten | backend/kotsin_nse/ops/tape.py:139-205 | so a contract open at a sample that has a quote for it has a held row by that second |
| Tape.FollowsCapped | backend/kotsin_nse/ops/tape.py:118-137 | follows alone never put more than MAX_WATCHED contracts on the tape, however many are held |
| Tape.CandidateStays | backend/kotsin_nse/ops/tape.py:118-169 | a candidate that was admitted stays for the whole time it was followed for, whatever else is followed or held meanwhile, as long as no position opens in it |
| Tape.NothingLapsedStays | backend/kotsin_nse/ops/tape.py:161-169 | after a sample nothing watched is past its time, and a lapsed contract's remembered quote is gone unless it was seen again as a leg |
| TapeRecorder.TickTape.Follow | backend/kotsin_nse/ops/tape.py:118-137 | the object takes exactly the follow step, or nothing when disabled |
| TapeRecorder.TickTape.Sweep | backend/kotsin_nse/ops/tape.py:161-171 | one pass over the watches gives the grace, drops what lapsed with its remembered key, and collects the symbols still held |
| TapeRecorder.TickTape.Resolve | backend/kotsin_nse/ops/tape.py:172-181 | every watched contract and every leg of every watched symbol is looked at, each code once |
| TapeRecorder.TickTape.Write | backend/kotsin_nse/ops/tape.py:182-205 | exactly the changed rows are written, and counted |
| TapeRecorder.TickTape.Sample | backend/kotsin_nse/ops/tape.py:139-209 | the object takes exactly the sample step, on targets so resolved |
| DayFile.BatchesMerge | backend/kotsin_nse/ops/archive.py:253-267 | flushing in any number of batches leaves the file one write of everything would |
| Archive.NothingLost | backend/kotsin_nse/ops/archive.py:110-267 | on every run, with any read, write or unlink failing and rows added mid-flush, a recorded key is buffered, in flight or on disk, unless its day was later deleted past its window with that key in it |
| Archive.KeptUntilDeleted | backend/kotsin_nse/ops/archive.py:225-327 | the same from any moment at which the key is held |
| Archive.NewestDaysStay | backend/kotsin_nse/ops/archive.py:290-316 | a day that was ever on disk still is, or as many newer days as its stream keeps are; a window of zero deletes nothing |
| Archive.DeletedPastWindow | backend/kotsin_nse/ops/archive.py:281-316 | stream by stream, in any run: a tape day is deleted only with as many newer tape days stored as the tape keeps, a held day as the held stream keeps, any other as research keeps, and a window of zero deletes nothing |
| Archive.DeletedOnceAside | backend/kotsin_nse/ops/archive.py:307-356 | a tape day is deleted only past its window and only once every row of every code its file marks held is in the held stream, unchanged |
| Archive.HeldRowsOutlive | backend/kotsin_nse/ops/archive.py:290-356 | such a row is lost only when its day leaves the held stream's own window |
| Archive.DeletionKeepsHeldIff | backend/kotsin_nse/ops/archive.py:307-356 | in any run, deleting a tape day leaves every stored row of every contract held that day aside, unchanged, if and only if each of those rows is of a contract the file itself says was held, or was already aside unchanged |
| Archive.NothingWaitingIsSafe | backend/kotsin_nse/ops/archive.py:307-356 | which is so when no row still to be written is alone in saying that a stored contract was held and, where nothing of the day was aside, only then |
| Archive.RecordedHeldIsAside | backend/kotsin_nse/ops/archive.py:110-356 | from an empty archive, held that day may be taken from what the run recorded: a contract with a held row added before the deletion has all its stored rows aside, unless that held row itself went at an earlier deletion |
| Archive.WaitingHeldRowLosesItsDay | backend/kotsin_nse/ops/archive.py:225-356 | it can fail, from an empty archive: two days recorded, one failed write and the pruning of that same flush lose a held contract's first row |
| Archive.HeldDayIsAside | backend/kotsin_nse/ops/archive.py:110-356 | from an empty archive, at the day's only deletion and with none of its rows still to write, a contract recorded held that day has exactly the rows recorded of it in the held stream |
| Replay.HeldContractReplays | backend/kotsin_nse/ops/tape.py:139-302 | tape and archive together: whatever fails in the archive's run, forward-filling that held file answers at every second with the last usable quote a sample saw of the contract |
| Replay.TradedContractReplays | backend/kotsin_nse/ops/tape.py:139-302 | and so for every contract that was open at a sample with a quote for it: nothing need be assumed about its rows |
| DailyArchiveModel.DailyArchive.Add | backend/kotsin_nse/ops/archive.py:110-114 | a row is buffered under its stream and IST day, or nothing happens when disabled |
| DailyArchiveModel.DailyArchive.FlushDays | backend/kotsin_nse/ops/archive.py:225-238 | with rows recorded while a day is being written: a day that can be written has all the rows it started with written, then in order the first of what came, the rest waits; any other keeps every row; all by steps of the machine |
| DailyArchiveModel.DailyArchive.SetAsideDay | backend/kotsin_nse/ops/archive.py:329-356 | says the file may go exactly when its held rows are safe |
| DailyArchiveModel.DailyArchive.PruneStream | backend/kotsin_nse/ops/archive.py:299-316 | oldest first, by allowed deletions only, down to the window when nothing fails |
| DailyArchiveModel.DailyArchive.Flush | backend/kotsin_nse/ops/archive.py:217-252 | the flush is those writes and then those prunes, so every law of the machine holds of it; when nothing fails the tape, the held stream and each research stream end with at most as many days as its own window |
| Gateway.AtMostOnce | backend/kotsin_nse/exec/gateway.py:122-260 | however calls interleave at the broker, an id passes the precheck at most once, never once seen or remembered, and so is placed and fills at most once |
| Gateway.ExitsNeverBlocked | backend/kotsin_nse/exec/gateway.py:158-260 | no history holds an exit refused for a halt or a cap |
| Gateway.NewExitIsPlaced | backend/kotsin_nse/exec/gateway.py:203-260 | and a new exit in a configured live mode is always sent |
| Gateway.SeenIff | backend/kotsin_nse/exec/gateway.py:122-156 | an id counts as seen if and only if it did at the start or a submission, a live call or a ledger entry of the history spent it |
| Gateway.SubmissionOutcome | backend/kotsin_nse/exec/gateway.py:169-201 | in every history a paper order is filled if and only if its id is new, it is no halted entry and its book fills; and exactly when it is refused by the book, passed as shadow, a duplicate, halted, or not for this call |
| Gateway.BreakerIsHistory | backend/kotsin_nse/exec/gateway.py:150-156 | the counter is the non-duplicate rejections since the last fill, shadow pass or reset, and the breaker is tripped if and only if that count reached the cap at a rejection since the last reset |
| Gateway.DailyOrdersBounded | backend/kotsin_nse/exec/gateway.py:221-260 | in every history, exits, paper, shadow and uncapped orders included: with at most k capped entries waiting at once, those filled in a day and those waiting are at most k - 1 above the daily cap, so one at a time keeps it |
| Gateway.OrdersCountFills | backend/kotsin_nse/exec/gateway.py:127-130 | in every history the day's orders are the fills since the day last changed |
| Gateway.LiveOutcome | backend/kotsin_nse/exec/gateway.py:203-251 | in every history a live call is sent to the broker if and only if the mode is live and configured, its id is new, no halt stands in an entry's way and, for a capped entry with the day's orders so far, every cap holds; and exactly when it is refused for each reason |
| Gateway.AnswerOutcome | backend/kotsin_nse/exec/gateway.py:251-260 | each answer decides the intent placed under its id and not answered yet: submitted when filled, refused when not, no mark when it raised |
| Gateway.OverlapReachesBound | backend/kotsin_nse/exec/gateway.py:221-260 | the bound is reached for every cap and every k: a day that fills k - 1 orders more than the cap with k waiting at once |
| OrderGatewayModel.OrderGateway.SubmitOrder | backend/kotsin_nse/exec/gateway.py:169-201 | the shadow and paper call is exactly its step |
| OrderGatewayModel.OrderGateway.SubmitLive | backend/kotsin_nse/exec/gateway.py:233-251 | a live call up to the broker wait is exactly its step |
| OrderGatewayModel.OrderGateway.Resume | backend/kotsin_nse/exec/gateway.py:251-260 | and after it, whatever came between |
| OrderGatewayModel.OrderGateway.Refuse | backend/kotsin_nse/exec/gateway.py:150-156 | a refusal counts unless it is a duplicate, and trips the breaker at the cap |
| OrderGatewayModel.OrderGateway.Reset | backend/kotsin_nse/exec/gateway.py:262-264 | clears the counter and the breaker and nothing else |
| OrderGatewayModel.OrderGateway.RememberId | backend/kotsin_nse/exec/gateway.py:122-125 | an id from the ledger counts as seen, and nothing else changes |
| Paper.WalkBook | backend/kotsin_nse/exec/paper.py:66-86 | the loop takes the greedy allocation: units, average, levels and cap |
| Paper.WithinCeilingIff | backend/kotsin_nse/exec/paper.py:72-76 | a level is within the ceiling if and only if it is at most so many percent worse than the touch |
| Paper.FillsWhatIsThere | backend/kotsin_nse/exec/paper.py:66-86 | on an ordered book it fills the smaller of the order and the size within the ceiling, no level over its size |
| Paper.GreedyIsOptimal | backend/kotsin_nse/exec/paper.py:66-86 | no other way to take as many units from the book costs a buyer less or brings a seller more |
| Paper.AverageBetween | backend/kotsin_nse/exec/paper.py:66-86 | the average lies between the touch and the ceiling |
| Paper.AverageWorsens | backend/kotsin_nse/exec/paper.py:66-86 | it worsens weakly with the size of the order |
| Paper.CappedIff | backend/kotsin_nse/exec/paper.py:66-86 | a cap is reported if and only if the fill fell short and the book had a level past the ceiling |
| PaperMatcherModel.PaperMatcher.FillOrder | backend/kotsin_nse/exec/paper.py:131-188 | one order: no price, stale, nothing inside, last price plus slippage, or the walk, and the counter each bumps |
| PaperMatcherModel.BookFillIsHonest | backend/kotsin_nse/exec/paper.py:131-188 | a fill against an ordered book is fresh, no larger than asked or than what is within the ceiling, and priced, to the paisa, between touch and ceiling |
| PaperMatcherModel.NoInventedPrice | backend/kotsin_nse/exec/paper.py:131-166 | past its allowance a book never fills, and without a book an order fills only at a real last price made worse by the slippage |
| PaperMatcherModel.StaleIff | backend/kotsin_nse/exec/paper.py:155-190 | an order is refused as stale if and only if the side it needs has levels and the book is older than its allowance, the wide one within the opening minutes of the IST day, the tight one at any other second |
| PaperMatcherModel.BookFillReports | backend/kotsin_nse/exec/paper.py:161-188 | what a book fill reports: the average of units taken from the asks for a buyer and the bids for a seller, its slippage in hundredths of a percent from the middle, its charges, levels and age |
| PaperMatcherModel.LastPriceFill | backend/kotsin_nse/exec/paper.py:136-153 | without that side, the whole order at the last price worsened by the allowance, or a refusal exactly when there is no price |
| Select.BeatsOnLiquidity | backend/kotsin_nse/instrument/select.py:113-130 | the two accumulator loops say whether the margin is met on every measure that has data, and at least one has |
| Select.BeatsIff | backend/kotsin_nse/instrument/select.py:113-130 | which is: at least so many times as much of every measure the other has, with data for at least one |
| Select.Nearest | backend/kotsin_nse/instrument/select.py:162-163 | a strike nearest to the level |
| Select.NearestIsFirst | backend/kotsin_nse/instrument/select.py:162-163 | and of those as near, the first |
| Select.CandidatesAreChosenRightly | backend/kotsin_nse/instrument/select.py:133-184 | only the strike nearest to one ATR out and the one nearest to the target are preferred; each clears the delta floor unless one strike serves both; the farther comes first if and only if it beats the nearer one |
| Select.NothingPreferred | backend/kotsin_nse/instrument/select.py:157-158 | nothing is preferred without strikes, a spot or an ATR |
| Select.PicksClearFloorIff | backend/kotsin_nse/instrument/select.py:165-184 | the preferred strikes all clear the delta floor if and only if one strike does not serve both candidates or happens to clear it |
| Select.SharedStrikeSkipsFloor | backend/kotsin_nse/instrument/select.py:170-171 | a chain in which one strike serves both candidates on a delta under the floor, and is tried first |
| Select.DeltaFallsAway | backend/kotsin_nse/instrument/select.py:323-335 | the delta estimate is a half at the money, never rises as the strike moves away, and stays within its band |
| Select.ClearsFloorIff | backend/kotsin_nse/instrument/select.py:323-335 | the floor in plain numbers: how far out of the money, or into it, a strike clears it |
| Select.DominanceRanks | backend/kotsin_nse/instrument/select.py:187-204 | a strike at least as good on both measures and better on one comes earlier, and equals are ordered by distance from the anchor |
| Select.OrderingPermutesPool | backend/kotsin_nse/instrument/select.py:239-254 | candidates and ranked rest are together exactly the pool, each strike once |
| SelectLaws.PoolIs | backend/kotsin_nse/instrument/select.py:223-237 | the pool is every strike of the wanted kind out of the money, or every one of the kind when none is |
| SelectLaws.ChoiceIsOut | backend/kotsin_nse/instrument/select.py:207-285 | the choice is out of the money whenever the chain has such a strike |
| SelectLaws.OrderWithoutData | backend/kotsin_nse/instrument/select.py:251-252 | without liquidity or ATR strikes are tried by distance from the target, or from spot when it does not lie ahead |
| SelectLaws.OrderWithData | backend/kotsin_nse/instrument/select.py:239-250 | with them the preferred strikes come first and give the anchor, and the rest follow by their places in volume and open interest together, then by distance |
| Select.SelectOption | backend/kotsin_nse/instrument/select.py:207-285 | the loop returns the first strike of that order whose quote is fresh, two-sided, within the premium band and tight enough, with the middle of its quote and its spread, or none when none is |
| Select.SelectionIsComplete | backend/kotsin_nse/instrument/select.py:207-285 | with unique codes, none is selected if and only if no strike of the pool passes the gates |
| Select.BudgetBuysTheMost | backend/kotsin_nse/instrument/select.py:338-355 | the quantity is whole lots, within the budget, and one lot more would not be, unless the lot limit stopped it |
| SelectLaws.NothingToBuy | backend/kotsin_nse/instrument/select.py:338-355 | and nothing without a price, a budget, a known multiplier or a lot |
| Bus.BusConserves | backend/kotsin_nse/bus.py:67-85 | on every interleaving: each event owed reached its subscription exactly once or is still coming; what reached it was delivered, in order, is queued or was dropped; the queue is the latest suffix; a blocking subscription drops nothing |
| Bus.OwedIsAccountedFor | backend/kotsin_nse/bus.py:76-85 | owed is delivered plus queued plus dropped plus still blocked |
| Bus.ServingMovesOn | backend/kotsin_nse/bus.py:76-85 | a publisher waits only for a full blocking subscription and serves only the next one |
| Bus.Subscription.constructor | backend/kotsin_nse/bus.py:67-74 | topics that must never drop block by default, the others drop the oldest |
| Bus.Subscription.Put | backend/kotsin_nse/bus.py:78-85 | the object's put is the model's offer |
| Bus.Subscription.Get | backend/kotsin_nse/bus.py:82-83 | the oldest queued event goes to the consumer, and only that |
| Bus.PublishNow | backend/kotsin_nse/bus.py:76-85 | with nothing blocking, every subscription takes the event |
| Periods.Aggregate | backend/kotsin_nse/bars/periods.py:46-71 | one period for each key with a bar, made of exactly its bars, earliest first, whatever order the bars came in |
| Periods.PeriodCovers | backend/kotsin_nse/bars/periods.py:56-70 | a period has its bars' true first open, last close, extremes and total volume |
| Periods.PreviousComplete | backend/kotsin_nse/bars/periods.py:82-101 | the loop and the sort give the last finished period by its end |
| Periods.PreviousIsLatest | backend/kotsin_nse/bars/periods.py:82-101 | which is the latest period before today's that has a bar, and none if and only if there is none |
| Periods.PreviousWeek | backend/kotsin_nse/bars/periods.py:74-101 | end to end for Monday-based weeks |
| Periods.PreviousMonth | backend/kotsin_nse/bars/periods.py:78-101 | end to end for calendar months |
| Periods.WeekTurnsOnMonday | backend/kotsin_nse/bars/periods.py:35-36 | a week turns on its Monday and on no other day |
| Periods.MonthKey | backend/kotsin_nse/bars/periods.py:39-40 | each day lies in its civil month |
| Periods.YearLength | backend/kotsin_nse/bars/periods.py:39-40 | twelve months from a January make 365 or 366 days by the leap rule |

## Left out

- Bars are values, not shared objects: a forming bar changes in the store only when it is set there again, and marking a confirmed bar in the store is modelled as finding the equal bar.
- Sub-second timestamps of ticks: every session and bucket boundary is a whole second.
- Ticks of one instrument are taken as serialised; a clock call between two timeframes' shares of one tick is covered series by series (`ApplyOne`, `FlushOne`, `SeriesRollUp`).
- Backfill seeding of the aggregator, the session VWAP stamped on history, custom timeframe tuples and counters that only count.
- `TfStats`, the REST sweep and its timeouts: the reconciler is modelled from the exchange's row on.
- Notes, labels, display rounding and the explicit step argument of the round-figure snap.
- Floating-point error everywhere; rounding is modelled only where it is the point (ladder, paper fills).
- Bollinger, volume baselines and surges, and the classic pivot formulas: expressions without a law that spans them.
- The tape across midnight: the remembered keys are not reset at the day roll, so the round trip is for one day's file.
- Latest-row-wins in a day file after a failed flush: the failed batch is re-appended after newer rows, so keys are preserved but not recency.
- Tape files without the `held` column, temporary-file sweeping and the archive's statistics; streams other than the tape are pruned by the same machine with nothing to set aside.
- Parquet, threads and the flush lock: a flush is one sequence of atomic steps between which rows may be added; on the object they come while days are written, and `PruneAddCommute` says why not while pruning.
- What an order is worth: charges are a function handed in, exposure is a flag, and wallet, sizing beyond `QtyForBudget`, exit engine and ledger are not part of this model.
- `book_from_quote`, `choose_expiry`, `select_future` and the option ladder projection: short expressions.
- Reason texts of refusals and selections.
- Fairness of the bus and of asyncio's wake-up order: the laws hold for every order, none is assumed.
- OrderGatewayModel.OrderGateway.Resume: the broker's own duplicate handling and polling are outside; an exit whose placement raises leaves no mark, as in the code.
- Paper.AverageBetween: stated for books ordered nearest level first, which the code assumes and does not check; so are the other laws of the walk except `WalkBook` itself.
- Select.SelectionIsComplete: needs unique scrip codes, because the rest drops every strike that shares a code with a candidate.
- Tape.HeldIffHistory: a contract is taken to have one symbol, and sample times are positive and do not go back.
- Replay.HeldContractReplays: for samples in distinct seconds and a day deleted once; symbol and role of an archived row are not read back, which the reader does not do either.
