# Verified model of the branch discovery, worker and seeding core

These Dafny modules model the parts of the repository whose correctness rests on ordering,
concurrency or arithmetic that no single function shows, and prove what those parts promise.

- **Queue producer** (`QueueProducer.dfy`, `ForcedClose.dfy`, `QueueRecovery.dfy`, `QueueFactory.dfy`): the
  lazily created Redis producer and its queues as a protocol of atomic steps between awaits. Redis is an adversary: a connect may
  settle either way at any time, errors and end events may arrive arbitrarily late, a graceful
  close may outlive its bound. An inductive invariant covers every interleaving.
- **Alert sink** (`AlertSink.dfy`, `AlertFanOut.dfy`, `AlertCounters.dfy`, `AlertStops.dfy`,
  `LateLanding.dfy`, `AlertSinkObject.dfy`): single-flight, deduplicated,
  terminally stoppable notifications over a database that may answer, fail, hang or apply a
  failed write late.
- **Worker shutdown** (`Shutdown.dfy`, `ShutdownCoordinator.dfy`): bounded phases on a virtual
  clock with operations that fulfil, reject, throw, hang or settle late.
- **Ranking** (`LadderProfiles.dfy`, `LadderWalk.dfy`, `RungClassification.dfy`,
  `RungStitching.dfy`, `BranchRanking.dfy`, `BranchRankingLaws.dfy`, `MerchantRanking.dfy`,
  `MerchantRankingLaws.dfy`, `RankingRefinement.dfy`): the rung classifier, the branch-first and the
  merchant-first ranker, and the exact relation between their lists.
- **Demo fixture** (`FindOrCreate.dfy`, `DemoRedemptions.dfy`, `DemoFixture.dfy`,
  `DemoFixtureLaws.dfy`, `DemoFixtureAdmission.dfy`, `DemoFixtureRows.dfy`, `DemoDatabase.dfy`): a transaction over a database state
  with unique columns and foreign keys.
- **Usage caps and map cache** (`UsageLedger.dfy`, `StaticMapCache.dfy`): persisted counters with
  month rollover, and a bounded time-limited cache with interleaved fetches.
- **Catchment edges** (`Catchment.dfy`) and **slugs** (`Slugs.dfy`).
- Shared vocabulary: `Base.dfy`, `Sequences.dfy`, `Sorting.dfy` (the stable sort behind
  `Array.prototype.sort`), `Text.dfy`.

Where the source updates state, a class holds its fields and each method is proved to compute a
specification function or step; the laws are then proved of those functions and of all runs.

## Results worth knowing

- The source wants a cancelled producer to stay cancelled by structure, whatever the Redis client
  does after `disconnect()` (src/api/queues/index.ts:72-75). `DestroyedConnectionCanBecomeLive`:
  for a connect that may still settle ready after its disconnect, the epoch check alone does not
  give that. `ExpiredConnectCanBecomeLiveExactly` says which connects are concerned, and
  `NoDestroyedProducerWithoutCallsWhileClosing` that there are none when no makeQueue call falls
  between a closeQueues call and its expiry.
- `ExpiryCanLeaveAConnectBehind`: there is one slot for the pending connection, so an expired bound
  can leave an older connect in flight, against src/api/queues/index.ts:247-249.
  `ExpiryLeavesBehindExactly` says which, and `AwaitedClosesLeaveNothingBehind` that there is none
  when callers wait for closeQueues before they enqueue again.
- `NotificationsSpacedOut` and `DrainedIsSilent` hold but for a failed create whose row lands late;
  `LateLandingBreaksSpacing` and `LateLandingAfterDrain` show both exceptions.
- `MerchantListReducesBranchList`: the two rankers agree exactly when merchants that V2's comparator
  cannot separate are collected in name order. Two coordinate-less merchants are such a pair: their
  distances subtract to NaN and the name fallback is skipped (`CoordinatelessShopsPartTheLists`).
- `CountingStaysInSync`: the usage counters stay right exactly when the two clock readings of one
  count fall in one month. `StraddlingCountPassesTheCap` shows the cap passed otherwise, and
  `CapsHoldOverRuns` that it is passed by one attempt a month at most.
- `StoreEvictsExactly`: a full map cache drops its oldest entry even when a store only refreshes
  another key, so a fresh image can be lost although there was room.
- `ReplacementFailsExactlyOnDuplicates`: the catchment replacement script is not atomic; with two
  centres that resolve to one locality it stops with the old edges deleted and only the centres
  before the repeated one created (`FailedReplacementLosesEdges`).
- The comment above `classifyRung` (src/api/lib/ranking.ts:300-306) names two confirmed location
  confidences. The code asks `isBranchLocationConfirmed`, whose set (src/api/shared/location.ts:45)
  also contains `MERCHANT_CONFIRMED`; the model follows the code.

## Model

| member | source | states |
|---|---|---|
| QueueProducer.RunKeepsInv | src/api/queues/index.ts:66-257 | Over every interleaving of steps between awaits, the five module variables, the creations, the queue constructions and the closing calls stay in the relation that the results below read off |
| QueueProducer.OneCurrentCreation | src/api/queues/index.ts:66-77 | At most one connecting creation carries the current epoch; it is the memoised one and no producer is live meanwhile |
| QueueProducer.SupersededNeverLive | src/api/queues/index.ts:118-122 | A creation begun before an invalidation or a closeQueues call is not live at any later moment |
| QueueProducer.EpochCountsTeardowns | src/api/queues/index.ts:95 | The epoch grows by one exactly on a closeQueues call or the loss of a live producer, and otherwise stays |
| QueueProducer.BuiltQueuesRideTheLiveProducer | src/api/queues/index.ts:148-172 | Every constructed queue in queueCreations is bound to the connection that is live at that moment, in every reachable state |
| QueueProducer.TeardownHasItsOwnCause | src/api/queues/index.ts:200-207 | The live producer goes if and only if its own end event is delivered, its own add fails for an invalidating error, or closeQueues is called, and then queues and memo are cleared with it; a late error of any other connection changes nothing |
| QueueProducer.EveryConnectionAccountedFor | src/api/queues/index.ts:103-131 | Each connection ever made is connecting, live, force-disconnected, or taken over by a closeQueues call; a destroyed one has no listeners |
| QueueProducer.QuiescenceLeavesNoHandle | src/api/queues/index.ts:212-257 | When nothing connects, nothing is live and every closing call has returned, every connection was quit or destroyed |
| QueueProducer.ClosedStaysClosed | src/api/queues/index.ts:218-224 | After closeQueues, without a new enqueue, nothing becomes live or memoised again however late anything settles |
| QueueProducer.BurstSharesOneProducer | src/api/queues/index.ts:141-172 | Any two calls of a run, whatever happens between them: until something is torn down or evicted they share one construction per name and one connection between names, and at most one connection is made |
| QueueRecovery.CaughtQueueIsForgotten | src/api/queues/index.ts:166-168 | The catch handler of a construction takes that construction, and no other, out of queueCreations |
| QueueRecovery.RejectedOnlyUntilCaught | src/api/queues/index.ts:166-170 | A caller is handed a rejected construction only until the handler of that construction has run |
| QueueRecovery.ConstructionSettlesExactly | src/api/queues/index.ts:151-163 | A construction that resumes is built if and only if new Queue succeeds on a connection that has been live, and is rejected otherwise |
| QueueRecovery.RecoveryAfterFailedCreation | src/api/queues/index.ts:134-168 | Once the handlers of a failed creation and of the construction that waited for it under a name have run, in either order, the next call for that name starts a new construction on another connection |
| QueueRecovery.RecoveryBuildsFreshProducer | src/api/queues/index.ts:134-137 | After a teardown the next caller of any name gets a new connection and a new queue; after the eviction of the memoised failed creation so does the next caller of any name that has no entry or whose rejected construction was caught |
| ForcedClose.ExpiryDestroys | src/api/queues/index.ts:241-256 | An expired bound destroys exactly the captured connection and the pending one |
| ForcedClose.DestroyedWhilePending | src/api/queues/index.ts:247-255 | A connecting or live connection has been destroyed if and only if the bound of some closing call expired while it was the pending one |
| ForcedClose.DestroyedConnectionCanBecomeLive | src/api/queues/index.ts:72-75 | For a connect that may still settle ready after disconnect: a concrete run in which a connection destroyed by an expired bound becomes live, since no epoch change followed its creation |
| ForcedClose.DestroyedIsLiveExactly | src/api/queues/index.ts:114-131 | A live connection is a destroyed one if and only if its connect settled ready after its destruction |
| ForcedClose.ExpiredConnectCanBecomeLiveExactly | src/api/queues/index.ts:250-255 | The pending connect that an expired bound destroys can still become live if and only if its creation is the memoised one; otherwise it is live at no later moment |
| ForcedClose.NoDestroyedProducerWithoutCallsWhileClosing | src/api/queues/index.ts:72-75 | When no makeQueue call lies between a closeQueues call and the expiry of its bound, no destroyed connection is ever live, whatever settles when |
| ForcedClose.ExpiryCanLeaveAConnectBehind | src/api/queues/index.ts:250-255 | A concrete run in which an expired bound leaves an earlier connect in flight and undestroyed, its slot overwritten by a later creation |
| ForcedClose.ExpiryLeavesBehindExactly | src/api/queues/index.ts:247-255 | After an expiry the connects still in flight and undestroyed are exactly those from before it that are not the newest creation |
| ForcedClose.CloseReturnsOnce | src/api/queues/index.ts:226-241 | A closeQueues call returns gracefully, after its quit, or by its bound, exactly when that happens to it, and never both |
| ForcedClose.AwaitedClosesLeaveNothingBehind | src/api/queues/index.ts:247-255 | When callers wait for the closing calls under way before they call makeQueue, no expired bound leaves a connect behind |
| ForcedClose.WaitingCallersMakeNoCallWhileClosing | src/api/queues/index.ts:218-256 | Callers who wait for the closing calls also meet the condition under which no destroyed connection is ever live |
| QueueFactory.Factory.InvalidateProducer | src/api/queues/index.ts:93-101 | Guarded by identity: all fields are cleared together and the socket destroyed, or nothing changes |
| QueueFactory.Factory.GetProducerConnection | src/api/queues/index.ts:103-139 | Returns the memoised creation or starts exactly one in the current epoch |
| QueueFactory.Factory.MakeQueue | src/api/queues/index.ts:148-172 | Returns the memoised construction or starts exactly one |
| QueueFactory.Factory.Enqueue | src/api/queues/index.ts:183-197 | Refuses a blank jobId and one with a colon, in that order, before anything is created |
| QueueFactory.Factory.ResumeCreation | src/api/queues/index.ts:113-131 | After connect settles: live in the same epoch, otherwise destroyed; the pending field is cleared only if it is this connection |
| QueueFactory.Factory.EvictCreation | src/api/queues/index.ts:134-137 | Clears the memo only if it still holds this creation |
| QueueFactory.Factory.EvictQueue | src/api/queues/index.ts:166-168 | Deletes the name only if it still holds this construction |
| QueueFactory.Factory.AddFailed | src/api/queues/index.ts:200-209 | Invalidates only the live producer that the failed queue rides, and only for an invalidating error |
| QueueFactory.Factory.BeginClose | src/api/queues/index.ts:218-224 | Takes everything over in one step and starts a new epoch |
| QueueFactory.Factory.ExpireClose | src/api/queues/index.ts:241-256 | The forced close of the captured and the pending connection |
| AlertSink.RunKeepsInv | src/api/queues/maintenanceMetrics.ts:115-195 | Single-flight, task, row and stop invariants hold in every reachable state under any database behaviour |
| AlertSink.NotificationsSpacedOut | src/api/queues/maintenanceMetrics.ts:135-195 | Two notifications for the same recipient, type and reference are more than 15 minutes apart in every run with a shared non-decreasing clock, unless one of them is the row of a failed create that landed late |
| AlertSink.InFlightMatchesPending | src/api/queues/maintenanceMetrics.ts:140-194 | In-flight identities and tracked tasks match one to one |
| AlertSink.NoLaunchAfterStop | src/api/queues/maintenanceMetrics.ts:308-311 | From the moment stop begins no alert task is launched |
| AlertSink.DrainedIsSilent | src/api/queues/maintenanceMetrics.ts:308-330 | Once some stop has returned drained, the notifications stay as they are if and only if no failed create lands late; each that does adds one row, and none can if none was unsettled |
| AlertSink.OutcomesCountRecipients | src/api/queues/maintenanceMetrics.ts:145-179 | Per type, sent plus deduped plus failed equals the recipients handled |
| AlertFanOut.EndedFanOutReachedEveryone | src/api/queues/maintenanceMetrics.ts:145-179 | A fan-out ends only when every recipient that was fetched for it has been handled |
| AlertFanOut.OutcomesCountEveryArrival | src/api/queues/maintenanceMetrics.ts:145-179 | Per type, sent plus deduped plus failed counts every recipient fetched for an ended fan-out and what the others have done so far |
| AlertFanOut.SkippedExactlyWhenNotified | src/api/queues/maintenanceMetrics.ts:144-161 | A recipient is skipped if and only if it has a notification of the same type and reference since 15 minutes before the recipients were fetched; otherwise the write to it is next |
| AlertFanOut.WriteReachesItsRecipient | src/api/queues/maintenanceMetrics.ts:162-179 | A write leaves one row for its recipient, and whatever the outcome the loop goes on to the next |
| AlertCounters.CountersTellWhatHappened | src/api/queues/maintenanceMetrics.ts:131-133 | In every reachable state each counter is the tally of what it counts: sweep signals by name, failed launches, sent, deduped and failed recipients |
| AlertStops.StopReturnsOnce | src/api/queues/maintenanceMetrics.ts:308-330 | A stop call waits for what was pending when it began, returns drained at once if that was nothing, else drained or timed out exactly when its race is so decided |
| AlertStops.DrainedMeansSettled | src/api/queues/maintenanceMetrics.ts:318-326 | A stop call that returned drained has seen every task it waited for settle |
| AlertFanOut.OutageClasses | src/api/queues/maintenanceMetrics.ts:94-108 | Timeouts, driver errors and the counted database failure are outages; network, unclassified and all other internal errors are not |
| AlertSink.SentMeansWritten | src/api/queues/maintenanceMetrics.ts:162-178 | Each alert counted as sent is a row; each row the sink wrote and each failed create that may still land is counted as sent or failed |
| AlertSink.EpisodeIsOpenExactlyWhen | src/api/queues/maintenanceMetrics.ts:239-282 | A sweep has an open episode if and only if it was degraded and no effective recovery followed |
| AlertSink.DbDownExactlyWhen | src/api/queues/maintenanceMetrics.ts:223-237 | A sweep counts as database-degraded if and only if its latest failure since its last recovery was classed database-unavailable |
| AlertSink.LaunchStep | src/api/queues/maintenanceMetrics.ts:239-306 | Exactly which call in which state launches which alert |
| AlertSink.RecoveredClosesAnEpisode | src/api/queues/maintenanceMetrics.ts:266-282 | Between two RECOVERED launches of a sweep there is a degraded call; none launches without an open episode |
| AlertSink.DegradedNeverLaunchesDuringDbOutage | src/api/queues/maintenanceMetrics.ts:244-254 | No DEGRADED alert launches while the latest failure since the last recovery is the database's |
| LateLanding.LateLandingBreaksSpacing | src/api/queues/maintenanceMetrics.ts:162-178 | A concrete run in which the row of a failed create lands beside the row of the next alert, with no time between them |
| LateLanding.LateLandingAfterDrain | src/api/queues/maintenanceMetrics.ts:308-330 | A concrete run in which a notification appears after stop returned drained |
| AlertSinkObject.Sink.LaunchAlert | src/api/queues/maintenanceMetrics.ts:135-195 | Nothing when stopped or in flight; otherwise one tracked task under its identity |
| AlertSinkObject.Sink.SweepDegraded | src/api/queues/maintenanceMetrics.ts:239-264 | Opens the episode, then suppresses or launches |
| AlertSinkObject.Sink.SweepRecovered | src/api/queues/maintenanceMetrics.ts:266-282 | Clears the outage flag, closes an open episode, launches only then |
| AlertSinkObject.Sink.ExpiredComms | src/api/queues/maintenanceMetrics.ts:284-306 | Counts always, launches only for a positive total while not stopped |
| AlertSinkObject.Sink.LookupReturned | src/api/queues/maintenanceMetrics.ts:147-161 | A recent row suppresses this recipient, otherwise the write follows |
| AlertSinkObject.Sink.FindRecent | src/api/queues/maintenanceMetrics.ts:147-157 | True exactly if some row of the recipient and identity was sent at or after the bound |
| AlertSinkObject.Sink.LookupFailed | src/api/queues/maintenanceMetrics.ts:171-178 | A failed lookup or write counts as failed for this recipient only, and the loop goes on |
| AlertSinkObject.Sink.Finalize | src/api/queues/maintenanceMetrics.ts:190-193 | Releases the identity and its pending entry |
| AlertSinkObject.Sink.BeginStop | src/api/queues/maintenanceMetrics.ts:308-311 | Terminal first, then the snapshot |
| Shutdown.PhasesStartInLockedOrder | src/workerShutdown.ts:81-201 | Whatever hangs, rejects, throws or settles late, the phases start in the locked order and none is skipped |
| Shutdown.WholeLockedOrder | src/workerShutdown.ts:9-16 | The locked order: scheduler stop, sink stop, workers, queues, Prisma, join, each optional one only if present |
| Shutdown.QuitsStartInBetween | src/workerShutdown.ts:138-156 | A quit starts only after every worker close settled, and never after the phase timer fired or a socket was force-disconnected |
| Shutdown.SettledExactlyWhenTheySettle | src/workerShutdown.ts:111-183 | An operation counts as settled if and only if it settled: closes, quits, the sink stop either way, Prisma |
| Shutdown.EachPhaseKeepsItsBound | src/workerShutdown.ts:60-74 | No phase outlasts the bound given for it, and a phase timer fires exactly when that bound is reached |
| Shutdown.QuitsStartExactly | src/workerShutdown.ts:144-156 | Each owned connection, and no other, is quit if and only if every worker close settled before the phase timed out |
| Shutdown.ClosesStartWithTheirPhase | src/workerShutdown.ts:138-144 | Every worker is closed once the worker phase has started, none before |
| Shutdown.ElapsedIsBounded | src/workerShutdown.ts:60-74 | The shutdown takes at most the sum of its phase bounds |
| Shutdown.CoordinatorAlwaysAdvances | src/workerShutdown.ts:76-81 | Until it returns the clock, its timer, a queued microtask or its own code can always move, and each such move uses up a finite budget |
| Shutdown.TimerBeatsOnlyUnsettledWork | src/workerShutdown.ts:66-73 | Each phase timer, of the sink, the workers and Prisma, wins only at its deadline against work that has not settled |
| Shutdown.SummaryIsTruthful | src/workerShutdown.ts:203-209 | The returned summary says of each phase what happened: clean, timed out, rejected, drained, joined |
| ShutdownCoordinator.Coordinator.AfterSchedulerStop | src/workerShutdown.ts:89-97 | A rejected or thrown stop counts as not drained; the next phase starts either way |
| ShutdownCoordinator.Coordinator.AfterSinkRace | src/workerShutdown.ts:111-125 | Timeout, error or ok, from the race and the rejection flag |
| ShutdownCoordinator.Coordinator.AfterCloses | src/workerShutdown.ts:144-156 | Quits start only if the phase has not timed out |
| ShutdownCoordinator.Coordinator.AfterWorkerRace | src/workerShutdown.ts:159-169 | On a timeout the flag is set and every owned connection destroyed, in order |
| ShutdownCoordinator.Coordinator.WorkersSettle | src/workerShutdown.ts:138-156 | The race is won by the workers once every quit settled |
| ShutdownCoordinator.Coordinator.AfterCloseQueues | src/workerShutdown.ts:171-176 | The Prisma phase starts whatever closeQueues did |
| ShutdownCoordinator.Coordinator.AfterPrismaRace | src/workerShutdown.ts:180-193 | The Prisma outcome, then the join phase or the end |
| ShutdownCoordinator.Coordinator.AfterForceJoin | src/workerShutdown.ts:193-209 | A rejected join counts as not joined, and the summary is returned |
| RungClassification.ClassifiedOnMostSpecificRung | src/api/lib/ranking.ts:317-378 | A branch is classified on a rung if and only if it is active, its position is confirmed, it lies within the rung, and within no more specific one |
| RungClassification.AdmittedUpToTheLongestRung | src/api/lib/ranking.ts:690-712 | A ranker admits exactly the active, confirmed branches, each on its most specific rung by the profile's radius, up to and including the profile's longest rung |
| RungClassification.WideningNeverCoarsens | src/api/lib/ranking.ts:317-378 | A larger radius and more catchment targets lose no branch and never make its rung less specific |
| LadderProfiles.WiderProfileReachesFurther | src/api/lib/ladderProfiles.ts:50-66 | Along the profiles from tight to wide the radius and the longest rung never shrink |
| LadderProfiles.SparserSupplyReachesFurther | src/api/lib/ladderProfiles.ts:50-66 | From urban to rural the radius grows and the longest rung never shrinks |
| LadderProfiles.SparserSupplySoftensBands | src/api/lib/ladderProfiles.ts:70-79 | From urban to rural a rung never gets a less specific band |
| LadderProfiles.LegacyTierIsTheUrbanBand | src/api/lib/ladderProfiles.ts:110-114 | The legacy tier of a rung says what its urban band says, the two outer bands taken together |
| LadderProfiles.BandsFollowRungs | src/api/lib/ladderProfiles.ts:70-79 | A less specific rung never has a more specific proximity band |
| LadderWalk.StopsAtTheFirstReached | src/api/lib/ranking.ts:787-815 | The walk stops at the first rung whose running total reaches the smaller bound, or at the last |
| LadderWalk.RaisingBoundsExtends | src/api/lib/ranking.ts:801-814 | Raising the target or the cap only extends the list as a prefix |
| LadderWalk.TargetNeverTruncatesTheFirstRung | src/api/lib/ranking.ts:809-813 | Only the cap truncates the first rung |
| RungStitching.WalkRungs | src/api/lib/ranking.ts:787-817 | The stitch loop with its two length tests equals the walk, and counts the tiles of every rung |
| RungStitching.RungCountsAddUp | src/api/lib/ranking.ts:796-808 | The rung counts add up to the number of tiles |
| BranchRanking.RankBranchesV3 | src/api/lib/ranking.ts:686-818 | The loops return the first hardCap items of the joined sorted rungs as tiles, with the count of every rung; it fails exactly when popularity is asked for without its map |
| BranchRanking.CollectByRung | src/api/lib/ranking.ts:707-717 | The bucket loop files every admitted branch, in order, under its rung |
| BranchRanking.TiesShareTheId | src/api/lib/ranking.ts:720-756 | Every comparator ends in the branch id: only branches with one id tie |
| BranchRankingLaws.RankingIgnoresInputOrder | src/api/lib/ranking.ts:686-818 | With ids that identify branches, every permutation of the input gives the same list, under each intent and each sortBy |
| BranchRankingLaws.ListIsInPromisedOrder | src/api/lib/ranking.ts:719-785 | Rungs never go back along the list; within a rung sortBy decides if given, else the intent: distance, rating of merchants with three reviews, or popularity, then distance, name and id |
| BranchRankingLaws.JoinedContents | src/api/lib/ranking.ts:707-717 | The joined rungs hold exactly the admitted branches, each on its rung at its distance |
| BranchRankingLaws.EveryTileIsAnAdmittedBranch | src/api/lib/ranking.ts:796-808 | Every tile tells of an admitted branch: its ids, name, rung, tier, band and distance |
| BranchRankingLaws.RaisingBoundsAppendsTiles | src/api/lib/ranking.ts:801-814 | Raising the target or the cap only appends tiles |
| BranchRankingLaws.NearbyIsOnlyCapped | src/api/lib/ranking.ts:809-813 | The list opens with the whole NEARBY rung up to the cap; the target never cuts it |
| BranchRankingLaws.ShortListIsComplete | src/api/lib/ranking.ts:795-814 | A list shorter than both bounds has left out no admitted branch |
| BranchRankingLaws.WideningKeepsEveryTile | src/api/lib/ranking.ts:690-717 | A wider profile or more catchment targets, uncapped, drop no branch and make no rung or band less specific |
| MerchantRanking.RankMerchantsV2 | src/api/lib/ranking.ts:508-618 | The loops return the walk over the merchants' entries as tiles, with the count of every rung |
| MerchantRanking.CollectCandidates | src/api/lib/ranking.ts:517-528 | The candidate map keeps insertion order and holds each merchant's admitted branches |
| MerchantRanking.BuildEntries | src/api/lib/ranking.ts:530-547 | One entry per key of the candidate map, with the last merchant of that id and the selected context branch |
| MerchantRankingLaws.ListIsInPromisedOrder | src/api/lib/ranking.ts:557-577 | Rungs never go back, and within a rung the intent's order holds, two unknown distances being a tie |
| MerchantRankingLaws.OneTilePerMerchantOnItsBestBranch | src/api/lib/ranking.ts:453-470 | No merchant has two tiles, and each stands with its most specific, nearest, then lowest-id branch |
| MerchantRankingLaws.EveryTileIsABestBranch | src/api/lib/ranking.ts:592-606 | Every tile tells of its merchant's best branch: ids, name, rung, tier, band and distance |
| MerchantRankingLaws.RaisingBoundsAppendsTiles | src/api/lib/ranking.ts:611-614 | Raising the target or the cap only appends tiles |
| RankingRefinement.MerchantListReducesBranchList | src/api/lib/ranking.ts:508-818 | With LOCAL intent and bounds that never bite, the V2 list equals the V3 list reduced to each merchant's first tile, if and only if merchants that V2's comparator cannot separate were collected by name and then context branch id |
| RankingRefinement.MerchantListReducesBranchListWithoutTies | src/api/lib/ranking.ts:508-818 | The same equality outright when no two merchants on one rung tie |
| RankingRefinement.CoordinatelessShopsPartTheLists | src/api/lib/ranking.ts:496-506 | Two merchants without coordinates, collected against their names, for which the lists differ: NaN skips V2's name fallback |
| RankingRefinement.CollectedEntriesAreBest | src/api/lib/ranking.ts:453-470 | V2's entries are exactly the merchants' best branches |
| DemoDatabase.Database.SeedInsightsDemoFixture | prisma/insights-demo-fixture.ts:265-584 | Guards first, then one transaction: any refusal leaves the committed database unchanged, success commits the seeded state and reports 84 redemptions |
| DemoDatabase.Transaction.Run | prisma/insights-demo-fixture.ts:286-579 | The steps in source order, the first error ending them |
| DemoDatabase.Transaction.FindOrCreateAdmin | prisma/insights-demo-fixture.ts:336-387 | Accepts an existing login only as the demo identity, refreshes it, or creates it |
| DemoDatabase.Transaction.FindOrCreateBranches | prisma/insights-demo-fixture.ts:414-452 | The branch loop finds or creates each sentinel branch and refuses an ambiguous or real one |
| DemoDatabase.Transaction.FindOrCreateVouchers | prisma/insights-demo-fixture.ts:461-492 | The voucher loop, refusing a code owned by anyone else |
| DemoDatabase.Transaction.ReconcileRedemptions | prisma/insights-demo-fixture.ts:560-568 | Scoped delete, then recreate; fails on a referenced row or a taken code |
| DemoRedemptions.PlanRedemptions | prisma/insights-demo-fixture.ts:523-558 | The two planning loops produce the plan, cell by cell |
| DemoRedemptions.PlanIsOnDemoRows | prisma/insights-demo-fixture.ts:525-557 | Every planned row is test data on a given branch, voucher and user, and no two share a code |
| DemoRedemptions.EveryDaypartOfEveryDayOnce | prisma/insights-demo-fixture.ts:523-532 | Each of the 14 days has exactly one planned redemption within each part of the day |
| DemoRedemptions.MidHourIsTheMiddle | prisma/insights-demo-fixture.ts:202-204 | The hour planned for a part of the day is the whole hour at or just before its middle |
| DemoRedemptions.ValidationAndSavings | prisma/insights-demo-fixture.ts:530-557 | Every other planned row is validated, five minutes later and by some method, the others not at all; each saves what its voucher saves |
| DemoRedemptions.EveryMethodIsUsed | prisma/insights-demo-fixture.ts:535-536 | Every validation method occurs in the plan |
| DemoRedemptions.EveryoneTakesPart | prisma/insights-demo-fixture.ts:526-529 | Every demo branch, voucher and customer has a planned redemption |
| DemoRedemptions.CodesAreDistinct | prisma/insights-demo-fixture.ts:539-543 | Padded codes are equal exactly for equal sequence numbers, for all numbers |
| DemoRedemptions.CodeLength | prisma/insights-demo-fixture.ts:539-543 | Codes of up to five digits have eleven characters |
| DemoFixtureLaws.RealRowsUntouched | prisma/insights-demo-fixture.ts:29-48 | No merchant, branch, voucher or redemption that is not test data is added, changed or removed; other tables only grow, except for the demo login |
| DemoFixtureLaws.RerunIsAFixpoint | prisma/insights-demo-fixture.ts:224-229 | A rerun on the resulting state succeeds with the same summary and differs only in the login's password hash and the ids of the planned redemptions |
| DemoFixtureLaws.SeedRowsLeaves | prisma/insights-demo-fixture.ts:287-509 | After steps 1 to 4 every sentinel is settled on exactly one acceptable row and no redemption is touched |
| DemoFixtureAdmission.SeedSucceedsExactly | prisma/insights-demo-fixture.ts:292-568 | Seeding succeeds if and only if every collision check passes on the state found: merchant, login, branches, vouchers, references and codes |
| DemoFixtureRows.SeedSucceedsExactlyOnRows | prisma/insights-demo-fixture.ts:286-568 | The same on rows and columns: seeding succeeds iff one test merchant at most has the sentinel name, the login owns only that merchant, sentinel branches and vouchers are its test data, and no fixture redemption is referenced and no other one has a planned code |
| DemoFixtureRows.SeededRows | prisma/insights-demo-fixture.ts:287-509 | Afterwards each sentinel is carried by the one row of the summary and by no other, all of it usable test data under the given password; created rows look as specified |
| DemoFixtureRows.EveryPlannedCodeOnce | prisma/insights-demo-fixture.ts:521-562 | After a seeding each of the 84 codes is carried by exactly one row, a new one, on a demo branch, voucher and customer, saving what its voucher saves |
| DemoFixtureRows.OnlyFixtureRowsAreReplaced | prisma/insights-demo-fixture.ts:511-518 | The fixture's earlier redemptions are gone, every other one stays as it was, and every new one carries a planned code |
| DemoFixtureAdmission.SeedKeepsWellFormed | prisma/insights-demo-fixture.ts:287-579 | Fresh ids, unique columns and foreign keys hold afterwards as before |
| FindOrCreate.EnsureAllSucceedsExactly | prisma/insights-demo-fixture.ts:414-452 | A find-or-create pass succeeds exactly when every item is acceptable before it starts |
| FindOrCreate.EnsureAllSettles | prisma/insights-demo-fixture.ts:414-452 | It leaves each item on exactly one acceptable row and keeps every old row |
| UsageLedger.CapsHoldOverRuns | src/api/lib/googlePlaces.ts:198-219 | Over every run with a clock that never goes back, across month rollovers, attempts pass a daily or monthly cap only by those counted under another month, and there is at most one such attempt in a month; without one the caps hold outright |
| UsageLedger.BumpBalances | src/api/lib/googlePlaces.ts:198-208 | Counting keeps the month's total equal to the sum over days and over sources, and each day's total equal to the sum over its sources |
| UsageLedger.BooksAlwaysBalance | src/api/lib/googlePlaces.ts:198-208 | Over every run, with any clock, those sums agree in the file |
| UsageLedger.FileIsRightExactly | src/api/lib/googlePlaces.ts:198-208 | At any moment of a run the file says what went out in the month if and only if no attempt of the month was counted under another |
| UsageLedger.GateDecidesExactly | src/api/lib/googlePlaces.ts:210-219 | Over runs, a call is refused for the day if and only if the attempts counted on it have reached the daily cap, else for the month if and only if those counted in it have reached the monthly cap, and otherwise goes out |
| UsageLedger.CountingStaysInSync | src/api/lib/googlePlaces.ts:198-208 | The file says what really went out after a count if and only if its two clock readings fall in one month |
| UsageLedger.RefusedCallChangesNothing | src/api/lib/googleStaticMap.ts:186-188 | A refused call leaves the file and the attempts alone, and the daily refusal takes precedence |
| UsageLedger.StraddlingCountPassesTheCap | src/api/lib/googleStaticMap.ts:126-136 | A concrete run in which one count straddles a month's end and the daily cap is passed |
| UsageLedger.UsageFile.Admit | src/api/lib/googleStaticMap.ts:186-191 | Checks, then counts before the request goes out |
| StaticMapCache.HitIsTheLatestResponse | src/api/lib/googleStaticMap.ts:175-184 | With fetches interleaved in any way, a hit is the most recently completed response for its key, less than five minutes old, and changes nothing |
| StaticMapCache.HitsExactlyWhileFresh | src/api/lib/googleStaticMap.ts:175-223 | A call is a hit if and only if its key's latest response is less than five minutes old and was not evicted since; with fewer than 200 completed keys none is |
| StaticMapCache.CacheIsBoundedAndFetchesAreCounted | src/api/lib/googleStaticMap.ts:186-221 | In every run, with any clock: at most 200 entries under different keys, and one attempt counted per fetch started |
| StaticMapCache.FetchesStayWithinCaps | src/api/lib/googleStaticMap.ts:186-191 | However fetches interleave, those that went out stay within the caps as the gate alone keeps them |
| StaticMapCache.StoreEvictsExactly | src/api/lib/googleStaticMap.ts:216-221 | A store into a full cache loses exactly the oldest entry, even when it only refreshes another key, and every other key keeps its entry |
| StaticMapCache.ResponseIsStoredUnderItsKey | src/api/lib/googleStaticMap.ts:175-221 | A response is stored, for five minutes, under the key for which its fetch was started, however fetches interleave, and its fetch is over |
| StaticMapCache.PendingExactly | src/api/lib/googleStaticMap.ts:188-224 | The fetches in flight are exactly those started and not ended, each under its key |
| StaticMapCache.KeyIsTheNearestGridPoint | src/api/lib/googleStaticMap.ts:151-155 | A key names the grid point of five decimals nearest to the centre, latitude first |
| StaticMapCache.SharedKeysAreClose | src/api/lib/googleStaticMap.ts:151-155 | Requests that share a key ask for centres less than 0.00001 degrees apart in each coordinate |
| StaticMapCache.PutKeepsPlaces | src/api/lib/googleStaticMap.ts:216-221 | Setting a key that is there keeps its place in the order of eviction; a new key goes last |
| StaticMapCache.ResponseCache.Lookup | src/api/lib/googleStaticMap.ts:180-184 | The map lookup with the expiry test |
| StaticMapCache.ResponseCache.Populate | src/api/lib/googleStaticMap.ts:216-221 | Evicts the oldest entry of a full cache, then sets the key in place or at the end |
| Catchment.BucketedPassIsFullScan | prisma/seed-data/catchment-heuristic.ts:63-89 | For each source the country-bucketed chain yields what a scan over all targets yields |
| Catchment.ChosenAreTheBestThree | prisma/seed-data/catchment-heuristic.ts:78-89 | Three reachable targets, or all if fewer, by tier then distance, and none left over would have been better |
| Catchment.HeuristicGivesTheBestThree | prisma/seed-data/catchment-heuristic.ts:71-108 | After the heuristic a source has the edges it had and its best three targets, and no other; new ones are ranked from 1 |
| Catchment.HeuristicNeverAlters | prisma/seed-data/catchment-heuristic.ts:101-108 | The heuristic never changes or removes an existing edge and adds only non-curated ones |
| Catchment.SeedingTwiceIsSeedingOnce | prisma/seed-data/catchmentOverrides.ts:64-111 | Heuristic then curated is idempotent |
| Catchment.SourcesAndTargetsPartition | prisma/seed-data/catchment-heuristic.ts:23-24 | Towns and larger places are targets, all other localities sources |
| Catchment.CuratedRanksByLastListing | prisma/seed-data/catchmentOverrides.ts:64-107 | A pair that an override lists becomes a curated edge, promoted or new, with the rank of its position in its last listing |
| Catchment.CuratedLeavesOthers | prisma/seed-data/catchmentOverrides.ts:64-107 | A pair that no override lists stays as it was |
| Catchment.CuratedIsIdempotent | prisma/seed-data/catchmentOverrides.ts:64-111 | Writing the overrides twice is writing them once |
| Catchment.ReplacementFailsExactlyOnDuplicates | prisma/set-locality-catchment.ts:88-106 | The replacement fails if and only if two centres resolve to one locality. Either way the old edges of the source are gone and it has exactly the centres before the first repeated one, curated and ranked in order, which are all of them on success; other sources are untouched |
| Catchment.DryRunAndUnknownSourceWriteNothing | prisma/set-locality-catchment.ts:59-86 | A dry run or an unknown source changes no edge, and the source is reported missing if and only if no locality has its slug |
| Catchment.FailedReplacementLosesEdges | prisma/set-locality-catchment.ts:88-106 | A concrete replacement with a repeated centre that fails and loses the old edge to a third locality |
| Catchment.EdgeTable.SeedHeuristic | prisma/seed-data/catchment-heuristic.ts:51-108 | The batched inserts equal one insert of all planned rows |
| Catchment.EdgeTable.PlanEdges | prisma/seed-data/catchment-heuristic.ts:63-99 | The bucket, candidate and rank loops produce the planned rows |
| Catchment.EdgeTable.SeedCurated | prisma/seed-data/catchmentOverrides.ts:59-111 | The nested loops promote or create each resolved edge |
| Catchment.EdgeTable.SetLocalityCatchment | prisma/set-locality-catchment.ts:57-106 | Source check, dry run, delete, then ranked creates up to the first violation |
| Slugs.SlugifyIsIdempotent | prisma/scripts/build-locality-seed.ts:185-189 | Slugs consist of letters, digits and single inner dashes, and slugifying one again changes nothing |
| Slugs.SlugCharacters | prisma/scripts/build-locality-seed.ts:185-189 | Slugs are written in the lower-case Latin letters and the digits |
| Slugs.SlugifyKeepsLettersAndDigits | prisma/scripts/build-locality-seed.ts:185-189 | A slug has the letters and digits of the lowered name, all of them and in order |
| Slugs.WordsStayApart | prisma/scripts/build-locality-seed.ts:185-189 | What lies between two words of a name becomes exactly one dash |
| Slugs.RuntimeSlugsAreTheFirstRungs | src/api/lib/findOrCreateLocality.ts:63-68 | The runtime slugs are the ladder's first two rungs, the second if and only if the LAD is not empty |
| Slugs.CandidatesAreDistinct | prisma/scripts/build-locality-seed.ts:213-228 | No two rungs of one ladder offer the same slug |
| Slugs.EmittedSlugsAreUnique | prisma/scripts/build-locality-seed.ts:396-437 | Emitted slugs are pairwise distinct, each the first unused of its ladder, and the rung counts add up to the localities |
| Slugs.RungCountsAreExact | prisma/scripts/build-locality-seed.ts:414-418 | The summary counts exactly the slugs that are bare, carry the LAD, or carry LAD and country; the others carry a number |
| Slugs.EmissionFailsExactly | prisma/scripts/build-locality-seed.ts:213-228 | The run fails if and only if some locality finds its whole ladder taken |
| Slugs.ShortListsSucceed | prisma/scripts/build-locality-seed.ts:223-227 | A run of up to 101 localities never fails |
| Slugs.Generator.UniqueSlug | prisma/scripts/build-locality-seed.ts:213-228 | Returns and records the first unused candidate; the set grows by one |
| Slugs.Generator.BookedUnderItsRung | prisma/scripts/build-locality-seed.ts:415-418 | Comparing slugs books each one under the rung it came from |
| Slugs.Generator.EmitAll | prisma/scripts/build-locality-seed.ts:402-437 | The emission loop with its counters |

## Left out

- Redis, BullMQ, Prisma, Google, file-system and network behaviour: environment steps or parameters
  with only the contract the code relies on; liveness of foreign calls is not claimed.
- Scheduling below the step: each settlement, answer or timer arrives in a callback of its own, and
  the microtasks it queues run before the next one arrives. The shutdown model relies on this; the
  queue and alert models hold with it and without it, since they let every continuation run late.
- `isProducerInvalidatingError`: the message pattern is a boolean of the failed-add step.
- `sweepRun` counters, log lines and alert texts; the string keys of alerts are pairs of kind and sweep.
- The clock behind `sentAt` and the sink's own clock are one clock.
- Effects of the worker, queue and Prisma operations themselves; only their start and settlement count.
- Great-circle distance is an uninterpreted function and arithmetic is over reals: float rounding is not modelled.
- Names and ids of the rankers stand for their places in `localeCompare` order; ids that differ are
  taken to differ in that order.
- `supplyTier` is computed but the deprecated `classifyTier` / `rankMerchants` path is not modelled,
  nor is `computeRatingsByMerchant`.
- The numbers in the profile tables and the texts of the demo fixture's vouchers and branches are data; only the laws of order stated for them are proved.
- The order of insertion into a Map is spelled out as a sequence of keys beside the map.
- Ids of new database rows are fresh natural numbers from one counter; columns the fixture neither
  reads nor decides are dropped, first and last name of the login are one column.
- Deleting a fixture redemption detaches a review that points to it; reviews are not modelled.
- `hashPassword` and `validatePasswordPolicy` are parameters; the transaction's time limits are not modelled.
- DemoDatabase.Database.SeedInsightsDemoFixture: serialisation against other transactions is not modelled, because one transaction at a time is enough for what the source promises.
- UsageLedger.CapsHoldOverRuns: assumes an intact usage file, fixed caps and one process, because the code reads a damaged file as an empty month.
- API-key checks, response parsing and candidate confidence of `googlePlaces.ts`; a missing key ends a call before any modelled step.
- `toLowerCase` is any function that leaves lower-case letters, digits and dashes alone; locality
  names, population tiers and coordinates of the seed generator are not modelled.
- StaticMapCache.SharedKeysAreClose: `toFixed` rounds reals here, because the binary expansion of a float is not modelled.
- React, Next and Expo code, middleware, route plugins, configuration, scripts' argument parsing and reporting.
- Effective-location resolution and nearest-locality search, market scripts, backfills and taxonomy data.
