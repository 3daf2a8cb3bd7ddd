# Verified model of the paper-trading engine

A Dafny model of the decision logic of a fail-closed paper-trading engine for short crypto
prediction markets, with proofs of what that logic keeps over every input, run and interleaving.
`dafny verify dfyconfig.toml` checks the project.

- **Price to beat.** `Canonical` derives the window of a market and guards what may become its
  price to beat. `PtbRepository` is the write-once table. `PtbService` interleaves any number of
  resolutions, each reading the table, waiting for evidence, inserting and reading back, with
  restarts in between; `PtbServiceLaws` is what its runs promise. `Collector` is the feed of
  boundary samples. `Scheduler` is the machine of ticks and retrying tasks, and `ScheduledService`
  runs it together with the service.
- **Router and risk.** `Router` decides over a snapshot of claims, and proves what every run of
  proposing, committing by compare-and-set and reconciling keeps. `Risk` collects the reasons to
  deny, and proves what every run of assessing, opening and elapsing time keeps.
- **Execution simulation.** `Fees` quotes per-level fees. `Depth` is the greedy walk over a sorted
  book and its optimality. `Simulation` and `SimulationLaws` are the simulated order, and
  `AllInCost` is when its cost a share grows with its size. `Replay` composes three of them into a
  causal two-leg replay.
- **Temporal features.** `Temporal` compares the append-all and the deduplicating queue on the same
  stream. `FeatureState` builds snapshots from them, and `Features` holds the identities of the
  features.
- **Evaluation.** `Bins`, `Calibration` and `Metrics` are reliability calibration and the scores.
  `WalkForward` and `WalkForwardLaws` are leakage-free folds.
- **Paper execution.** `Paper` is the gateway, the concurrent table behind it, reconciliation and
  settlement.

Instants and durations are whole microseconds. Decimals are exact reals; where their printed text
matters, in the identities of temporal samples, a number carries its text. Objects that the program
updates in place are classes whose methods are proved to follow a pure transition function. The laws
are proved about that function and its runs. Machines are total: a step out of turn changes nothing.

Five results say where the program does less than one might expect, each with an input and the exact
condition. A persistence id is ambiguous for markets whose settlement source is not the official one
(`PtbRepository.KeyCollidesOffSource`): readiness is always proven at the market's own boundary
exactly when no official market of an earlier window has its id, nor a close later one the id of an
hourly market, as holds of every official source (`PtbServiceLaws.ReadyIsProvenExactlyWhen`). The
scheduler never compares the window of a task with that of the market it discovers: a stored
readiness is of its own window exactly when the delivery was
(`ScheduledService.EventsAreOfTheirWindowsExactlyWhen`). A timestamp is a binary64 number, truncated
toward zero: the derived window starts after the instant exactly when that passes the instant onto a
boundary, as for fractions before the epoch, or the last microseconds of a block from the year 2514
on (`Canonical.WindowContainingIsCanonical`). The all-in cost a share of a purchase never falls as it
grows exactly when no fee is charged (`AllInCost.AllInNeverFallsExactlyWhen`). Two racing paper
executions are both reported as not duplicate, and the flag is right exactly when no write finds its
row already there (`Paper.FlagIsRightExactlyWhen`).

The router document leaves the compare-and-set of claims to storage; the model makes it a step that
appends a claim only at the revision it was decided on.

## Model

| member | source | states |
|---|---|---|
| `Canonical.WindowContainingIsCanonical` | src/direction_engine_v3/market_data/canonical.py:66-106 | the window constructor accepts every derived window; the window ends after the instant, and starts at or before it except exactly when the integer of the binary64 timestamp passes the instant onto a boundary |
| `Canonical.PassesBelow` | src/direction_engine_v3/market_data/canonical.py:98-103 | within 2^34 seconds of the epoch, into the year 2514, it passes exactly the instants before the epoch with a fraction |
| `Canonical.WindowCanStartLate` | src/direction_engine_v3/market_data/canonical.py:98-106 | two instants whose window starts after them: the last microsecond before the epoch, and one of January 2515 that binary64 rounds up |
| `Canonical.WindowContainingIsUnique` | src/direction_engine_v3/market_data/canonical.py:66-106 | a canonical window of a bucket that contains an instant is the derived one, except exactly for those instants |
| `PtbRepository.KeyIsInjective` | src/direction_engine_v3/market_data/ptb_repository.py:33-38 | among identities with their official source, two persistence ids are equal exactly when the identities agree in everything but the market id |
| `PtbRepository.KeyCollidesOffSource` | src/direction_engine_v3/market_data/ptb_repository.py:33-38 | a window of the official source and a later window of another source, under another condition, share one persistence id |
| `PtbRepository.PriceToBeatRepository.SaveOnce` | src/direction_engine_v3/market_data/ptb_repository.py:70-102 | the first row of a key stays; the caller is given the stored row in its own identity |
| `PtbRepository.ReadsGiveTheFirstSaved` | src/direction_engine_v3/market_data/ptb_repository.py:70-131 | after any saves, a read finds something exactly when there was a save under its key, and gives back the first of them: the very record for the identity that made it, its row in the reader's name for any other |
| `PtbService.EvidenceIsOfficial` | src/direction_engine_v3/market_data/official_runtime.py:524-575 | evidence yields a reference only for a market that names its official source, in that market's identity, effective at the window start for hourly markets |
| `PtbService.EstablishedIsProven` | src/direction_engine_v3/market_data/canonical.py:201-228 | an established record is effective and established within the tolerance of the window start, from fresh data received in order |
| `PtbServiceLaws.DecideSucceedsExactlyWhen` | src/direction_engine_v3/market_data/official_runtime.py:524-615 | a resolution that finds no row establishes a record exactly with the official source, one authority's evidence for the opening boundary, received in tolerance and fresh |
| `PtbService.RunKeepsInv` | src/direction_engine_v3/market_data/official_runtime.py:482-616 | over every interleaving of resolutions and restarts, stored rows are boundary-proven and never change, and every readiness reported is the stored row |
| `PtbServiceLaws.ReadyRecordsAgree` | src/direction_engine_v3/market_data/official_runtime.py:482-616 | all readiness ever reported for one full identity carries the same record |
| `PtbServiceLaws.MarketsSharingAKeyAgree` | src/direction_engine_v3/market_data/ptb_repository.py:70-131 | identities that share a persistence id are ready with the same row |
| `PtbServiceLaws.SharedKeyHandsOver` | src/direction_engine_v3/market_data/ptb_repository.py:104-131 | of two markets that share a persistence id, the second is ready inside its window with the row the first established, if that was not too late for it |
| `PtbServiceLaws.ReadyIsBoundaryProven` | src/direction_engine_v3/market_data/official_runtime.py:589-615 | readiness of a market with its official source is proven at its own boundary, in its own name |
| `PtbServiceLaws.ReadyIsProvenExactlyWhen` | src/direction_engine_v3/market_data/official_runtime.py:482-616 | every readiness of a market in every run is proven at its boundary, in its name, exactly when no official market of an earlier window has its persistence id, nor, if hourly, one of a later window within the tolerance; no market with its official source is misled so |
| `PtbServiceLaws.OffSourceReadinessCanMissItsBoundary` | src/direction_engine_v3/market_data/official_runtime.py:482-516 | the run of such a pair of markets: the later one, without its official source, is ready with the price of the earlier opening |
| `PtbServiceLaws.ReadyStaysReady` | src/direction_engine_v3/market_data/official_runtime.py:482-516 | after readiness of any market, every later resolution of it observed inside the window restores the same record, whatever ran in between |
| `PtbServiceLaws.RestoreOnlyInsideTheWindow` | src/direction_engine_v3/market_data/canonical.py:231-249 | with a stored row, a resolution of any market writes nothing, and is refused as established too late, refused as outside the window, or ready with that row; the row of an official market is never too late |
| `PtbService.OfficialPriceToBeatService.BeginResolve` | src/direction_engine_v3/market_data/official_runtime.py:482-516 | reading the repository first: restores, refuses or waits for evidence, as the machine's step |
| `PtbService.OfficialPriceToBeatService.FinishResolve` | src/direction_engine_v3/market_data/official_runtime.py:589-615 | deciding, inserting unless a row is there, and answering with the stored row are two steps of the machine in a row |
| `Collector.HandleAllKeepsBalance` | src/direction_engine_v3/market_data/official_runtime.py:225-274 | every frame of a message is counted once as snapshot, success or failure; the per-asset counters sum to the totals; matches and mismatches together are successes and snapshots; histories stay bounded without adjacent duplicates |
| `Collector.MessagesKeepBalance` | src/direction_engine_v3/market_data/official_runtime.py:225-274 | the same over every sequence of messages, each for its own connection |
| `Collector.LatestIsNewestEver` | src/direction_engine_v3/market_data/official_runtime.py:364-374 | over every sequence of messages the latest sample of an asset is at least as new as every update ever handled, evicted ones included |
| `Collector.MessagesAreCharged` | src/direction_engine_v3/market_data/official_runtime.py:396-406 | over every sequence of messages the failures are the malformed frames, and the per-asset failures sum to those of messages for one asset, and the others once for every asset |
| `Collector.Nearest` | src/direction_engine_v3/market_data/official_runtime.py:276-290 | the first of the nearest samples to the boundary |
| `Collector.OpeningTwap` | src/direction_engine_v3/market_data/official_runtime.py:276-290 | none exactly when no retained sample lies within the tolerance of the boundary, otherwise a nearest one |
| `Collector.ChainlinkTwapCollector.HandleMessage` | src/direction_engine_v3/market_data/official_runtime.py:225-274 | the deques, latest map and counters after a message are those of handling its frames in order, and the answer is the number of updates parsed |
| `Collector.ChainlinkTwapCollector.Record` | src/direction_engine_v3/market_data/official_runtime.py:364-374 | the history and latest sample after one update |
| `Scheduler.AtMostOneTaskAndOneEvent` | src/direction_engine_v3/shadow/ptb_scheduler.py:163-206 | under a clock that never goes back, each bucket and window starts at most one task and records at most one event despite pruning; a missed window never had a task |
| `Scheduler.EveryAttemptIsTimed` | src/direction_engine_v3/shadow/ptb_scheduler.py:221-304 | every attempt starts between detection and the deadline, a window is missed only when detected too late, and readiness is recorded exactly when an attempt resolved it |
| `Scheduler.AttemptsAreBounded` | src/direction_engine_v3/shadow/ptb_scheduler.py:221-304 | when each sleep lasts its interval, no task or event counts more than (tolerance - settle delay) / interval + 1 attempts |
| `Scheduler.StoredEventsAreFirst` | src/direction_engine_v3/shadow/ptb_scheduler.py:344-357 | the stored event of a window is the first ever appended, an earlier process's included |
| `Scheduler.RunBucketWindow` | src/direction_engine_v3/shadow/ptb_scheduler.py:221-304 | the retry loop terminates, and ends after exactly the rounds in which the task was still running, with that machine's outcome |
| `Scheduler.PTBBoundaryScheduler.RunDueOnce` | src/direction_engine_v3/shadow/ptb_scheduler.py:163-206 | pruning and scanning the buckets in order is one tick of the machine |
| `Scheduler.InterruptedIsNeverRecorded` | src/direction_engine_v3/shadow/ptb_scheduler.py:214-304 | a window whose task was cancelled or failed unexpectedly is neither started again nor ever recorded by that process, however the run goes on |
| `ScheduledService.ReadyEventIsHonoured` | src/direction_engine_v3/shadow/ptb_scheduler.py:250-289 | over every run of scheduler and service together, crashes included, an event stored as ready never changes, is of a market of its bucket, and carries the record that every later resolution of that market inside its window restores, proven at the market's opening when the source is official |
| `ScheduledService.EventsAreOfTheirWindowsExactlyWhen` | src/direction_engine_v3/shadow/ptb_scheduler.py:250-289 | every stored readiness is of a market that starts when its window does, exactly when every delivery that stores one is: the program compares the bucket alone |
| `ScheduledService.MatchedEventIsProven` | src/direction_engine_v3/shadow/ptb_scheduler.py:250-289 | then the stored readiness of a market with its official source is proven at the opening of the event's own window |
| `ScheduledService.EventCanBeOfAnotherWindow` | src/direction_engine_v3/shadow/daemon.py:665-680 | a run in which the event of a window is ready with the price of the window before, and not proven at its own opening |
| `Router.PreferredIsStrictOrder` | src/direction_engine_v3/router/engine.py:186-195 | the ranking is a strict order, total on distinct candidate ids |
| `Router.SelectedIsMostPreferred` | src/direction_engine_v3/router/engine.py:166-213 | the selection is eligible and funded, no eligible funded opportunity is preferred to it, and there is one exactly when some opportunity is eligible and funded |
| `Router.EveryOpportunityAnswered` | src/direction_engine_v3/router/engine.py:166-185 | past the early returns every opportunity is answered once: each candidate id is rejected, with each reason and in all, exactly as often as an opportunity of it is not fundable, for that reason and for any; the rest are funded |
| `Router.RoutingIgnoresOrder` | src/direction_engine_v3/router/engine.py:146-213 | permuting the opportunities changes neither selection, claim nor set of rejections |
| `Router.RouteOpportunities` | src/direction_engine_v3/router/engine.py:146-213 | the filtering passes and the running minimum compute the decision whose properties are proved |
| `Router.ReconcileIsIdempotent` | src/direction_engine_v3/router/engine.py:216-237 | repeating a reconciliation changes nothing |
| `Router.ReconcileCommutes` | src/direction_engine_v3/router/engine.py:216-237 | reconciling two different active claims gives the same snapshot in either order |
| `Router.ReconcileReleases` | src/direction_engine_v3/router/engine.py:216-237 | reconciling an active claim writes one revision and returns exactly its capital; a closed one changes nothing |
| `Router.EveryRunIsSafe` | src/direction_engine_v3/router/engine.py:97-118 | with any number of stale proposers, every reachable snapshot keeps claim and candidate ids distinct, active claims on distinct conditions with disjoint tokens, and reserved capital within the capital available |
| `Router.SecondCommitLoses` | docs/09-STRATEGY-ROUTER.md:14-17 | of two decisions on one revision only the first can be committed |
| `Router.CommitSucceeds` | src/direction_engine_v3/router/engine.py:196-213 | a decision on the current revision is accepted by the claim and snapshot constructors, and reserves exactly its capital |
| `Router.HeldClaimsCommit` | src/direction_engine_v3/router/engine.py:196-213 | in every reachable world, whatever the stale proposers did, a held claim decided on the current revision commits |
| `Router.ActiveClaimPersists` | docs/09-STRATEGY-ROUTER.md:19-22 | an active claim is unchanged, at its place, after every run in which no reconciliation names it |
| `Router.ExpiredClaimBlocks` | src/direction_engine_v3/router/engine.py:161-165 | while an active claim has expired nothing is selected |
| `Risk.ReasonsAre` | src/direction_engine_v3/risk/engine.py:195-223 | a reason is returned exactly when its gate denies |
| `Risk.ApprovedIffNothingDenies` | src/direction_engine_v3/risk/engine.py:182-239 | approval is of the amount requested and means that no gate denies; a denial approves nothing |
| `Risk.MoreExposureNeverRemovesADenial` | src/direction_engine_v3/risk/engine.py:242-287 | adding exposures to the state never removes a reason |
| `Risk.EveryRunStaysWithinLimits` | src/direction_engine_v3/risk/engine.py:242-287 | over every run of assessing, opening what was approved and letting time pass, the active exposures respect the total, cluster, asset and horizon limits and the position and overlap counts |
| `Risk.ReasonsInOrder` | src/direction_engine_v3/risk/engine.py:195-223 | the reasons come in the order of the gates, and none comes twice |
| `Risk.AssessCandidate` | src/direction_engine_v3/risk/engine.py:182-239 | the reasons appended in order, their repetitions removed, and the decision over them |
| `Risk.GatherTotals` | src/direction_engine_v3/risk/engine.py:256-264 | the totals and counts over the active exposures |
| `Fees.QuotedFeeIsClose` | src/direction_engine_v3/pricing/fees.py:58-71 | a quoted fee is not negative and within half a unit of the exact one |
| `Fees.QuoteFailsExactlyWhen` | src/direction_engine_v3/pricing/fees.py:56-70 | when a quote fails: a maker fee, missing parameters, a fractional exponent, or exponent zero at price zero or one |
| `Fees.DynamicFeeIsSymmetric` | src/direction_engine_v3/pricing/fees.py:64-71 | the dynamic fee is the same at a price and at its complement |
| `Fees.ExactFeeIsAdditive` | src/direction_engine_v3/pricing/fees.py:61-70 | splitting an order leaves its exact taker fee unchanged |
| `Fees.DynamicFeePeaksAtHalf` | src/direction_engine_v3/pricing/fees.py:64-70 | the dynamic fee is nowhere larger than at one half |
| `Depth.ConsumedSize` | src/direction_engine_v3/pricing/simulation.py:54-73 | the walk takes the request or the whole depth, whichever is less |
| `Depth.WalkMinimisesCost` | src/direction_engine_v3/pricing/simulation.py:54-73 | no allocation of the same quantity over ascending levels costs less than the walk |
| `Depth.WalkMaximisesProceeds` | src/direction_engine_v3/pricing/simulation.py:54-73 | no allocation of the same quantity over descending levels earns more than the walk |
| `Depth.MoreQuantityContinues` | src/direction_engine_v3/pricing/simulation.py:58-72 | a larger quantity takes the same levels in the same order, and at least as much of the last |
| `Simulation.EligibleIsPrefix` | src/direction_engine_v3/pricing/simulation.py:114-119 | the eligible levels of a sorted book are its best ones, up to the limit price |
| `Simulation.FillsAreConsumed` | src/direction_engine_v3/pricing/simulation.py:61-71 | one fill a consumed level, at its price and quantity with the fee quoted for them, and the same totals |
| `Simulation.WalkLevels` | src/direction_engine_v3/pricing/simulation.py:54-73 | the loop that decrements the remaining quantity makes exactly the fills of the consumed levels, or fails with the first fee that cannot be quoted |
| `Simulation.SimulateDepth` | src/direction_engine_v3/pricing/simulation.py:25-111 | guards, walk, buffers and per-share results, with the failures in the order of the code |
| `SimulationLaws.FillsTheLesser` | src/direction_engine_v3/pricing/simulation.py:54-74 | the filled quantity is the lesser of the request and the executable depth |
| `SimulationLaws.WalkIsOptimal` | src/direction_engine_v3/pricing/simulation.py:54-75 | among all allocations of the filled quantity over the eligible levels the gross notional is least for BUY and greatest for SELL |
| `SimulationLaws.AverageBetweenBestAndWorst` | src/direction_engine_v3/pricing/simulation.py:79-85 | the average price lies between the best and the worst fill, and the impact is its distance from the best |
| `SimulationLaws.SimulationIsAccepted` | src/direction_engine_v3/pricing/contracts.py:104-177 | the record's constructor never rejects a simulation |
| `SimulationLaws.TotalFeeIsClose` | src/direction_engine_v3/pricing/simulation.py:61-76 | the total fee is within half a unit a fill of the exact total |
| `SimulationLaws.PerShareCoversCosts` | src/direction_engine_v3/pricing/simulation.py:75-91 | the all-in cost of the filled shares is the notional and the fees, each with its surcharge in basis points; the net proceeds are the notional less its buffer and the surcharged fees |
| `SimulationLaws.LargerOrderExtends` | src/direction_engine_v3/pricing/simulation.py:58-72 | a larger order's fills begin with the smaller one's, up to the size and fee of its last |
| `SimulationLaws.BuyingMoreIsDearer` | src/direction_engine_v3/pricing/simulation.py:79-85 | for BUY the average, the worst price and the impact never fall as the quantity grows |
| `SimulationLaws.SellingMoreIsCheaper` | src/direction_engine_v3/pricing/simulation.py:79-85 | for SELL the average and the worst price never rise, and the impact never falls, as the quantity grows |
| `SimulationLaws.SmallerPurchaseSucceeds` | src/direction_engine_v3/pricing/simulation.py:61-71 | whatever BUY quantity can be simulated, every smaller one can |
| `AllInCost.AllInNeverFallsExactlyWhen` | src/direction_engine_v3/pricing/simulation.py:86-87 | the all-in cost a share of a BUY never falls as the quantity grows, on any book and for any two quantities, exactly when the schedule in the role never charges: maker, a zero rate, or a fee that cannot be quoted |
| `AllInCost.ChargesFall` | src/direction_engine_v3/pricing/simulation.py:86-87 | for every schedule that charges, one ask at one half and any quantity charged from half a unit of fee to three quarters of one: doubling it lowers the all-in cost a share |
| `AllInCost.DecimalChargedAlike` | src/direction_engine_v3/pricing/simulation.py:86-87 | among those quantities there is a finite decimal |
| `AllInCost.AllInCostCanFall` | src/direction_engine_v3/pricing/simulation.py:86-87 | in figures: 0.51 a share for a thousandth of a share, 0.505 for two thousandths |
| `Replay.AsOfIsFirstLatest` | src/direction_engine_v3/replay/structural.py:184-194 | the as-of book is the latest received one, and the first of the stream among equally late ones |
| `Replay.AsOfWasSeen` | src/direction_engine_v3/replay/structural.py:184-194 | there is an as-of book exactly when some book of the outcome has been received |
| `Replay.ReplayIsCausal` | src/direction_engine_v3/replay/structural.py:75-181 | the result depends only on the events received by the second leg, errors included |
| `Replay.LateEventsAreIrrelevant` | src/direction_engine_v3/replay/structural.py:94-98 | an event received after the second leg may stand anywhere in the stream or be left out |
| `Replay.UpFillIsCausal` | src/direction_engine_v3/replay/structural.py:94-118 | the UP fill depends only on the UP books received by the first leg |
| `Replay.MatchedAndExposure` | src/direction_engine_v3/replay/structural.py:127-128 | matched sets and exposure make up the larger leg, and the matched sets the smaller |
| `Replay.LossKnownIffFeasible` | src/direction_engine_v3/replay/structural.py:150-158 | the unwind loss is known exactly when the whole excess was sold: the excess leg always has an all-in cost |
| `Replay.PnlDecomposes` | src/direction_engine_v3/replay/structural.py:127-159 | with a feasible unwind the net result is at least matched * (1 - all-in costs) - loss, with equality exactly when the unwind does not gain |
| `Replay.ReplayIsAccepted` | src/direction_engine_v3/replay/structural.py:54-72 | the result's constructor never rejects a replay |
| `Temporal.PrunedDropsTheStalePrefix` | src/direction_engine_v3/features/temporal.py:184-196 | pruning drops exactly the leading stale samples |
| `Temporal.OrderedQueuesPruneFully` | src/direction_engine_v3/features/temporal.py:184-196 | a queue in time order keeps no stale sample |
| `Temporal.DeduplicationRefines` | src/direction_engine_v3/features/temporal.py:48-83 | on every stream the deduplicated queue is part of the append-all queue in order, repeats no identity, and adds = retained + skipped + conflicts + pruned; with nothing skipped or in conflict the queues are equal |
| `FeatureState.VariantsRefine` | src/direction_engine_v3/features/temporal.py:48-83 | the same of each lane of the two variants started empty on one stream: in each variant the lane's adds are retained, skipped, in conflict or pruned, and the append-all one skips and refuses none |
| `FeatureState.LanesAreTracks` | src/direction_engine_v3/features/temporal.py:48-83 | each lane of the two variants moves as the pair of queues of the refinement |
| `FeatureState.UndisturbedRunsAgree` | src/direction_engine_v3/features/temporal.py:85-182 | a run in which nothing is skipped or in conflict gives the snapshots of the append-all variant |
| `FeatureState.DistinctStreamsAgree` | src/direction_engine_v3/features/temporal.py:48-182 | on streams that repeat no identity both variants give the same snapshots |
| `FeatureState.SnapshotIsAccepted` | src/direction_engine_v3/features/directional.py:40-65 | the snapshot's constructor never rejects what is built: rates in range, and the imbalances between minus one and one |
| `FeatureState.SnapshotIdentities` | src/direction_engine_v3/features/temporal.py:110-139 | one plus the medium return is the product of one plus each return; the microprice distance is the imbalance times (ask - bid) / (ask + bid) |
| `FeatureState.SteadySnapshotKeepsSign` | src/direction_engine_v3/features/temporal.py:110-155 | with no flips, the medium return has the sign of each return that is not zero |
| `FeatureState.ConstantReturnsAreSteady` | src/direction_engine_v3/features/temporal.py:110-157 | when all pairwise returns are equal, momentum, acceleration and flip rate are zero, and the volatility is one return's size |
| `Features.MediumReturnCompounds` | src/direction_engine_v3/features/temporal.py:278-281 | the whole return compounds the pairwise ones |
| `Features.MicropriceFollowsImbalance` | src/direction_engine_v3/features/temporal.py:129-139 | the microprice identity on any positive quotes |
| `Features.FlipRateInUnit` | src/direction_engine_v3/features/temporal.py:152-155 | the flip rate lies between zero and one, and is zero exactly without flips |
| `FeatureState.ExternalTemporalState.AddReference` | src/direction_engine_v3/features/temporal.py:48-60 | appends, skips or records a conflict in the reference lane of its asset, and changes no other asset |
| `FeatureState.ExternalTemporalState.AddBook` | src/direction_engine_v3/features/temporal.py:62-74 | the same for the book lane |
| `FeatureState.ExternalTemporalState.AddTrade` | src/direction_engine_v3/features/temporal.py:76-83 | the same for the trade lane |
| `FeatureState.ExternalTemporalState.BuildSnapshot` | src/direction_engine_v3/features/temporal.py:85-196 | prunes the asset's three queues whatever the answer, and builds from what they keep |
| `Bins.BinsPartition` | src/direction_engine_v3/models/calibration.py:107-121 | summing bin by bin counts every sample once, in its own bin |
| `Bins.InOneBin` | src/direction_engine_v3/models/calibration.py:110-115 | no probability lies in two bins |
| `Calibration.Calibrate` | src/direction_engine_v3/models/calibration.py:77-84 | the scan finds the one bin of every probability between zero and one, for any calibrator its constructor accepts |
| `Calibration.Fit` | src/direction_engine_v3/models/calibration.py:87-128 | refuses in the order of the code, fails exactly when some bin has too few samples, and otherwise gives each bin its count and UP rate |
| `Calibration.FitIsAccepted` | src/direction_engine_v3/models/calibration.py:36-72 | the constructors accept every fit, and its bins are those of the boundaries given |
| `Calibration.FitCountsEverySample` | src/direction_engine_v3/models/calibration.py:74-75 | the bin counts sum to the sample count, and counts times rates to the number of UP outcomes |
| `Calibration.FitIsLeastSquares` | src/direction_engine_v3/models/calibration.py:107-121 | no predictor constant on the bins has a smaller squared training error than the calibrator |
| `Calibration.FitBeatsEveryConstant` | src/direction_engine_v3/models/calibration.py:107-121 | in particular no constant such as the base rate |
| `Metrics.ExpectedCalibrationError` | src/direction_engine_v3/evaluation/metrics.py:94-111 | the ten-bin loop computes the average of the bins' gaps |
| `Metrics.EceBounds` | src/direction_engine_v3/evaluation/metrics.py:94-111 | the distance of the mean probability from the outcome rate <= ECE <= 1 |
| `Metrics.EceSquaredAtMostBrier` | src/direction_engine_v3/evaluation/metrics.py:68-111 | the square of the calibration error is at most the Brier score |
| `Metrics.LogLossCoversBrier` | src/direction_engine_v3/evaluation/metrics.py:68-91 | the mean clamped log loss is at least the Brier score and at most the cost of the clamp |
| `Metrics.MaximumDrawdown` | src/direction_engine_v3/evaluation/metrics.py:114-121 | the one-pass loop gives the largest fall from an earlier equity, the start included, to a later one |
| `Metrics.Evaluate` | src/direction_engine_v3/evaluation/metrics.py:61-91 | refuses empty and pooled observations, and otherwise gives every score, drawdown included |
| `Metrics.ScoresAreConsistent` | src/direction_engine_v3/evaluation/metrics.py:61-91 | scores lie in their ranges, and ECE squared is at most the Brier score, that at most the log loss |
| `WalkForward.SortBySorts` | src/direction_engine_v3/evaluation/walk_forward.py:36-59 | sorting orders by the key and keeps every element as often as it occurs |
| `WalkForward.SortByIsStable` | src/direction_engine_v3/evaluation/walk_forward.py:36-59 | the elements of each key keep their order |
| `WalkForward.GroupByCluster` | src/direction_engine_v3/evaluation/walk_forward.py:33-35 | the dictionary loop groups each cluster's observations, clusters in the order of their first ones |
| `WalkForward.WalkForwardFolds` | src/direction_engine_v3/evaluation/walk_forward.py:20-63 | the refusals, and the loop with its skipped folds, give the list of folds whose properties are proved |
| `WalkForwardLaws.ClustersAreClustered` | src/direction_engine_v3/evaluation/walk_forward.py:33-36 | the sorted groups are whole clusters with distinct names, every observation in one of them |
| `WalkForwardLaws.EveryFoldIsSound` | src/direction_engine_v3/evaluation/walk_forward.py:38-62 | training lies strictly before every test instant less the embargo, both parts are in time order, and no cluster is split: trained clusters are trained whole, tested ones tested whole and not trained on |
| `WalkForwardLaws.EveryTwoFoldsFollow` | src/direction_engine_v3/evaluation/walk_forward.py:38-62 | no cluster is tested twice, and a later fold trains on all an earlier one did |
| `WalkForwardLaws.SkippedFoldsComeFirst` | src/direction_engine_v3/evaluation/walk_forward.py:38-49 | the folds made are consecutive and reach the end, so skipped folds form an initial run |
| `Paper.ReconciliationReproducesOrders` | src/direction_engine_v3/execution/paper.py:97-192 | every order of an execution is accepted, and authoritative reconciliation against the fills produced gives back its status, quantity and average price, at any time from its creation on |
| `Paper.PairIsOutcomeIndependent` | src/direction_engine_v3/execution/paper.py:195-210 | the two legs' settled results sum to the same whichever outcome wins exactly when they hold equal shares or the payout is zero |
| `Paper.AnswersAgree` | src/direction_engine_v3/storage/paper.py:341-375 | under any interleaving all calls for one idempotency key are answered with the same execution |
| `Paper.RunKeepsInv` | src/direction_engine_v3/storage/paper.py:356-375 | rows never change once written, each has one audit event of the same execution, and every answer is a row |
| `Paper.FlagIsRightExactlyWhen` | src/direction_engine_v3/execution/paper.py:137-143 | over every run each key is answered as not duplicate at most once, exactly when no write finds its key's row already there |
| `Paper.FlagIsRightOneAtATime` | src/direction_engine_v3/execution/paper.py:137-143 | in particular when no call for a key begins while another one for it is pending |
| `Paper.BothRacersLookFirst` | src/direction_engine_v3/execution/paper.py:137-143 | two racing calls for one key are both answered with the duplicate flag off |
| `Paper.OneCall` | src/direction_engine_v3/execution/paper.py:66-143 | a call with no other in between is its two steps of the machine |
| `Paper.PaperGateway.Execute` | src/direction_engine_v3/execution/paper.py:66-143 | the guards in their order, the answer and the tables after one call |
| `Paper.BuildLegs` | src/direction_engine_v3/execution/paper.py:97-133 | the loop over the intents builds the orders and fills, or fails on the first leg refused |

## Left out

- HTTP, WebSocket, JSON, SQLite and the text forms of decimals and instants: parsed values and maps with insert-if-absent stand for them, as both repositories write with INSERT OR IGNORE and read back.
- Clock readings, replies of attempts and evidence are parameters of the steps that take them.
- A fetched row that the candle parser rejects is a failed fetch; the discovery of a market is the market that is delivered.
- Instants outside the years 1 to 9999, which the program cannot represent.
- Decimal context rounding to 28 digits: arithmetic is exact, except for the fee quantum, which is modelled.
- Type checks of constructor arguments; their checks of values are the validity predicates.
- The scheduler's concurrency semaphore and the reporting fields of its events: they decide neither when an attempt starts nor whether it is recorded.
- Failures of a scheduler task reaching its caller: a task takes itself out of the table before its failure could be collected, so nothing is claimed about it.
- Identity of mutable attempt records shared between the scheduler's two dictionaries: a running task carries its own counters, and the dictionary of detected windows is a set.
- Frames for assets outside the collector's configuration, which end in a KeyError.
- Texts of unavailability reasons, and the diagnostic counts of temporal snapshots: presentation.
- The digits of the logarithm: the log loss takes any function with the two laws that determine the natural one.
- Promotion thresholds and calibrated forecasts, which would add only easy members.
- Cancelling a paper order and the run id stored with paper executions.
- Settlement services, the daemon, the dashboard, the strategies and the logistic model.
- Collector.HandleAllKeepsBalance: is stated for frames whose returned and hinted assets are configured, because others raise before they are counted.
- ScheduledService.ReadyEventIsHonoured: keeps one evidence window's events; another evidence window starts another table.
- Scheduler.AttemptsAreBounded: is stated for sleeps that last at least their interval, because a shorter one admits more attempts.
- Router.EveryRunIsSafe: bounds reserved capital by the most any proposer believed available, because each proposer brings its own figure.
- Temporal.DeduplicationRefines: counts what the deduplicating queue prunes; the append-all queue keeps no such counters.
