# Verification of Zugfolge's event-sourced and exact-integer logic

This project models, in Dafny 4.11, the parts of Zugfolge whose correctness is hard to see from one body: the
demand journal consumer, the search for a train through confirmed handovers, the daily restriction commands, the
population log, contract settlement, the live map's stream, and the exact algorithms of the art, population,
calibration and map tools. Every method is proved against a specification that says what it computes, and the
specifications are then proved to have the properties the repository relies on.

`dafny verify dfyconfig.toml` checks the whole project.

## How the modules belong together

| modules | what they model |
|---|---|
| `TextOrder`, `Sorting`, `Outcomes` | ordered texts, the stable sort of both languages with the laws the rest uses, optional values and rejections |
| `ConductorContext`, `ConductorHistory` | `resolveConductorRegion` and what it finds for a whole handover history |
| `DemandReceipts`, `DelayPropagation`, `DemandOfferHistory` | validating and ordering receipts, transporting them, forecasting, retaining services, replay boundaries |
| `DemandJournal`, `DemandProgress` | the journal with its checkpoint chain, the store, and one run of the consumer |
| `DemandRuns`, `DemandSafety` | what one run keeps, and safety over every interleaving of runs and journaling |
| `DemandSplit`, `DemandBothWays`, `DemandTimeZero`, `DemandCatchUp`, `DemandCatchUpState` | one catch-up step against two: what both read, the order at time zero, the boundaries, the published state and the kernel's inputs |
| `DemandExamples` | concrete journals for the two exceptions at time zero |
| `PopulationData` | saving and loading population corrections |
| `DailyStreams`, `DailyRestrictions`, `DailyCatalog`, `DailyReplay` | command streams over windows, the day's commands, the catalogue object with its cache, and what a replay leaves active |
| `DemandHash`, `DemandHashParser` | the canonical text that is hashed, and a reader that inverts it |
| `ContractSettlement` | report periods, aggregation, choice of the period, runs of settlements |
| `LivemapStream` | the bounded queue in front of the socket |
| `Checkerboard`, `ShelfPacking`, `Utf8`, `Cbor`, `CborRoundTrip` | the algorithms of `prepare.py` |
| `Apportionment`, `PopulationDemand`, `PopulationOrder`, `HourShares` | largest-remainder apportionment and its two uses |
| `Varints`, `MapDirectory`, `MapLayer` | the protobuf and PMTiles encoders of the map fixture, and readers that invert them |

## Assumptions

- Text is a sequence of numbers: UTF-16 units for JavaScript comparisons, bytes for byte-wise ones. Composite keys
  that the source joins with a NUL character are pairs.
- A hash is the value it is taken of. `DemandHashParser.CanonicalDeterminesValue` is the part of this that can be
  proved: values have the same hashed text exactly when they are equal up to key order.
- The database is a sequence or a map read under the world's mutex; a transaction changes it as a whole or not at
  all. The Rust kernels are unknown deterministic functions that may refuse.
- The demand consumer starts from a published checkpoint of the same pool. The theorems about whole runs and about
  catch-up assume what the world promises: whatever is journaled after a watermark happens after its safe time, and
  a train's offer is journaled before its receipts.
- The restriction generator keeps its contract: a restriction starts on or after its origin day and ends within
  three days of it. Instead of distinct ids it suffices that no id is active twice at once.

## Where a property holds only under a condition

- A confirmed receipt stays confirmed exactly when the regions' clock has left zero or nothing was confirmed yet
  (`DemandSafety.ConfirmedStay`): at time zero the source confirms no receipt, whatever the cursor held
  (`DemandExamples.ClockBackAtZeroUnconfirms` gives a checkpoint and a run that does so). Everything else that is
  claimed about whole runs holds with any clock.
- Catch-up in two steps applies the same things in the same order as one step exactly when
  `DemandCatchUp.KeepsOrder` holds (`DemandCatchUp.CatchUpIsIndependent`). It fails only when the first step runs
  at time zero and the second does not, in two ways. Either the cursor held confirmed receipts: the first step
  makes them pending again and the second applies them once more. Or the first step applies a population revision
  although a receipt or an offer of time zero was journaled before it: at zero revisions are due, receipts and
  offers are not (`DemandExamples.TimeZeroReorders` gives the journal and all three plans). Even then both ways end
  with the same published state (`DemandCatchUpState.CatchUpEndsAlike`).
- A vanished train is traced to its last region exactly when the search does not come back to that region
  (`ConductorHistory.VanishedTrainIsTraced`, with `ConductorHistory.RoundTripIsNotTraced` as the smallest input);
  a train that is still present is always found.
- The population query with an initial time is a suffix of the log exactly when nothing precedes that time or
  everything after it is newer than the revision already applied (`PopulationData.InitialAndLaterIsSuffix`, with
  `PopulationData.InitialQueryHasGap` as an input that has a gap).
- Receipts are put in one order only because the service ties a stop sequence to a stop
  (`DemandReceipts.OrderTellsApart`, `DemandReceipts.OrderNeedsTheService`).

## Model

| member | source | states |
|---|---|---|
| ConductorContext.ResolveRegion | apps/game-api/src/conductor-context.ts:74-132 | the loop returns what following receipts region by region gives, with each rejection in its place |
| ConductorContext.DeparturesAre | apps/game-api/src/conductor-context.ts:108-111 | the receipts looked at are exactly the train's finished ones from the given time on, latest first |
| ConductorContext.OnwardIsReleased | apps/game-api/src/conductor-context.ts:121-129 | a hop is taken only on a released receipt of this train, and only after the region has accepted the receipt that led to it |
| ConductorContext.FollowIsSound | apps/game-api/src/conductor-context.ts:86-131 | a region is only returned at the end of a chain of confirmed receipts that leaves no region twice |
| ConductorHistory.LatestIsLastDeparture | apps/game-api/src/conductor-context.ts:108-126 | the latest receipt of a region is the history's last departure from it, and unambiguous |
| ConductorHistory.RoomToVisit | apps/game-api/src/conductor-context.ts:88-89 | the bound by the number of bindings is never what stops the search |
| ConductorHistory.PresentTrainIsFound | apps/game-api/src/conductor-context.ts:86-131 | from any region of its history, at a time no later than its last departure there, a present train is found, even when the history revisits regions |
| ConductorHistory.VanishedTrainIsTraced | apps/game-api/src/conductor-context.ts:113-131 | a train that left the simulation is traced to its last region if and only if the search does not have to enter that region a second time |
| ConductorHistory.RoundTripIsNotTraced | apps/game-api/src/conductor-context.ts:86-131 | out and back again and gone: rejected from the start, found from after the first departure |
| DemandReceipts.OrderTellsApart | apps/game-api/src/demand-progress.ts:87-90 | on accepted receipts the sort key is a strict total order |
| DemandReceipts.OrderNeedsTheService | apps/game-api/src/demand-progress.ts:87-90 | without the service's stop binding two different receipts can have the same key |
| DemandReceipts.ValidateReceiptSet | apps/game-api/src/demand-progress.ts:92-113 | the three-table loop accepts exactly the sets whose receipts fit their services and pairwise agree, and returns them once each in order |
| DemandReceipts.ObjectionIsDisagreement | apps/game-api/src/demand-progress.ts:96-110 | the tables object to a receipt exactly when it does not fit or disagrees with an earlier one |
| DemandReceipts.ValidationIgnoresArrangement | apps/game-api/src/demand-progress.ts:92-113 | permuting or repeating receipts changes neither rejection nor result |
| DemandReceipts.ValidationIsIdempotent | apps/game-api/src/demand-progress.ts:92-113 | validating a validated set changes nothing |
| DemandReceipts.ProgressFromReceipts | apps/game-api/src/demand-progress.ts:72-85 | rejects exactly foreign, late or contradictory receipts, else builds the progress tables |
| DemandReceipts.ProgressIsLossless | apps/game-api/src/demand-progress.ts:72-85 | every receipt's time is in the tables, and nothing else is |
| DelayPropagation.ServicesWithConfirmedStops | apps/game-api/src/demand-progress.ts:116-132 | the loop over services computes the forecast of every service |
| DelayPropagation.ConfirmStops | apps/game-api/src/demand-progress.ts:118-130 | the running delay and last departure compute the recursive forecast |
| DelayPropagation.TimesOfStop | apps/game-api/src/demand-progress.ts:121-129 | confirmed times are copied; a forecast carries exactly the delay of the last confirmed event |
| DelayPropagation.ForecastsAreFeasible | apps/game-api/src/demand-progress.ts:125-127 | forecasts are never before schedule, arrivals after the previous departure, departures not before the arrival |
| DelayPropagation.ScheduleStands | apps/game-api/src/demand-progress.ts:116-132 | without receipts a strictly increasing schedule is its own forecast |
| DelayPropagation.ForecastIsIdempotent | apps/game-api/src/demand-progress.ts:116-132 | forecasting a forecast with the same receipts changes nothing |
| DelayPropagation.ForecastIsMonotone | apps/game-api/src/demand-progress.ts:116-132 | later confirmed times never make any time earlier |
| DelayPropagation.ReceiptIsCopied | apps/game-api/src/demand-progress.ts:118-127 | each receipt of a consistent set appears as its stop's time |
| DemandOfferHistory.RetainDemandOfferHistory | apps/game-api/src/demand-offer-history.ts:82-90 | the insertion-ordered table of the new services, extended by withdrawn ones |
| DemandOfferHistory.RetainFinds | apps/game-api/src/demand-offer-history.ts:82-90 | present trains carry the newest record, missing ones stay as cancelled, no other train appears |
| DemandOfferHistory.NoTrainDropsOut | apps/game-api/src/demand-offer-history.ts:82-90 | a train is retained if and only if it was retained or is offered |
| DemandOfferHistory.RetainListsTrainsOnce | apps/game-api/src/demand-offer-history.ts:82-90 | the retained services list each train once |
| DemandOfferHistory.DemandOfferBoundaries | apps/game-api/src/demand-offer-history.ts:101-121 | the loop groups the items sorted by time and sequence |
| DemandOfferHistory.GroupKeepsEverything | apps/game-api/src/demand-offer-history.ts:110-119 | every item is in exactly one boundary, in order, and receipt groups are maximal |
| DemandOfferHistory.BoundariesSplit | apps/game-api/src/demand-offer-history.ts:101-121 | the boundaries up to a time followed by those after it are the boundaries of all items |
| DemandOfferHistory.ArrangementDoesNotMatter | apps/game-api/src/demand-offer-history.ts:109 | with distinct sequences the order of the inputs does not matter |
| DemandJournal.DemandStore.LatestVerified | apps/game-api/src/demand-store.ts:66-85 | the cached answer is always that of a kernel replay of the last published checkpoint |
| DemandJournal.DemandStore.CommitCheckpoint | apps/game-api/src/demand-store.ts:87-130 | appends a checkpoint, repeats nothing, and changes nothing when it refuses |
| DemandJournal.CommitKeepsChain | apps/game-api/src/demand-store.ts:106-119 | sequences rise, revisions count up by one, time and window start never fall within a period, a period keeps its deployment, published time never falls |
| DemandJournal.RevisionIsPosition | apps/game-api/src/demand-store.ts:110-114 | over a whole journal the revision of a checkpoint is its position |
| DemandJournal.RepeatedCommitAppendsNothing | apps/game-api/src/demand-store.ts:108-109 | committing the same checkpoint again leaves the journal alone |
| DemandProgress.DemandProgressConsumer.Advance | apps/game-api/src/demand-progress.ts:155-337 | one transaction: either the specified checkpoints are appended, or nothing is |
| DemandProgress.MakePlan | apps/game-api/src/demand-progress.ts:169-290 | the checks and readings of a run, in the order of the source |
| DemandProgress.GatherReceipts | apps/game-api/src/demand-progress.ts:253-275 | reads the reports of known trains, notes their first sequence and validates the whole set |
| DemandProgress.ReplayBoundaries | apps/game-api/src/demand-progress.ts:296-315 | one checkpoint a boundary, each from the state the earlier ones left |
| DemandProgress.FinishRun | apps/game-api/src/demand-progress.ts:316-335 | publishes the final checkpoint, or returns the old one when nothing changed |
| DemandRuns.PlanSplitsReceipts | apps/game-api/src/demand-progress.ts:271-277 | the receipts a run knows are split by time into confirmed and pending ones, each once |
| DemandRuns.BoundariesAreEvents | apps/game-api/src/demand-progress.ts:296-302 | applying boundaries is applying their events one after the other |
| DemandRuns.AppliedOffers | apps/game-api/src/demand-progress.ts:284-300 | the due offers are applied exactly in the order of time and sequence |
| DemandRuns.AppliedUpdates | apps/game-api/src/demand-progress.ts:284-302 | the due population revisions are applied exactly in their order |
| DemandRuns.AppliedReceipts | apps/game-api/src/demand-progress.ts:284-297 | every newly confirmed receipt is applied exactly once |
| DemandRuns.ReplayCommits | apps/game-api/src/demand-progress.ts:296-315 | a replay appends only progress checkpoints, keeps the chain, and holds what its boundaries make of the start |
| DemandSafety.RunPublishes | apps/game-api/src/demand-progress.ts:316-335 | a run that succeeds leaves everything as it was or publishes the planned state at the new safe time |
| DemandSafety.ReceiptsAreConserved | apps/game-api/src/demand-progress.ts:271-277 | the receipts held afterwards are those held before and those read, none in both parts |
| DemandSafety.ConfirmedStay | apps/game-api/src/demand-progress.ts:276-277 | receipts only move from pending to confirmed if and only if the clock has left zero or none was confirmed |
| DemandSafety.ReceiptsAreAppliedOnce | apps/game-api/src/demand-progress.ts:278-297 | unless the clock is back at zero, confirmed receipts are those of before and the applied ones, each counted once |
| DemandSafety.OffersAreAppliedOnce | apps/game-api/src/demand-progress.ts:282-300 | each offer read or pending is applied now, once, or stays pending |
| DemandSafety.ServicesOfRun | apps/game-api/src/demand-progress.ts:298-300 | the retained services after a run are the due offers taken over in order |
| DemandSafety.TrainsAreKept | apps/game-api/src/demand-progress.ts:251-254 | exactly the trains known before or offered since are known, and no retained train is lost |
| DemandSafety.PublishedTracks | apps/game-api/src/demand-progress.ts:256-270 | every report of a known train up to the cursor is held by the published checkpoint |
| DemandSafety.RunsStaySound | apps/game-api/src/demand-progress.ts:155-337 | over every interleaving of runs and journaling, whatever the clock shows, each report of a known train is in exactly one of confirmed and pending |
| DemandSafety.RunsOnlyGrow | apps/game-api/src/demand-progress.ts:155-337 | over every such run the safe time never falls, no receipt is lost, no train drops out |
| DemandSafety.ConfirmedStayConfirmed | apps/game-api/src/demand-progress.ts:276-277 | over every run in which the clock never goes back to zero receipts only move from pending to confirmed |
| DemandSafety.ConfirmedAreTransportable | apps/game-api/src/demand-progress.ts:72-85 | when the cursor held receipts of this world only, what a plan confirms is of this world, in time and free of contradictions, so the final transport never fails |
| DemandExamples.ClockBackAtZeroUnconfirms | apps/game-api/src/demand-progress.ts:276-277 | a receipt confirmed at time one turns pending in a run at time zero |
| DemandSplit.BoundariesSplitByKind | apps/game-api/src/demand-offer-history.ts:101-121 | cutting receipts, offers and revisions at a time cuts the boundaries there |
| DemandSplit.RemainingRevisions | apps/game-api/src/demand-population-data.ts:118-139 | the revisions still to be applied after a step are those that take effect past its safe time |
| DemandSplit.OffersOfSecondStep | apps/game-api/src/demand-progress.ts:282-283 | offers carried over as pending and read later give what a single sorting gives |
| DemandTimeZero.BoundariesFromZero | apps/game-api/src/demand-offer-history.ts:101-121 | applying the revisions of time zero first gives the boundaries of one sorting if and only if no receipt or offer of time zero was journaled before one of them |
| DemandCatchUp.CatchUpIsIndependent | apps/game-api/src/demand-progress.ts:276-315 | going to one watermark and then to a later one applies the same boundaries in the same order as going straight if and only if the order is kept at time zero, and in any case leaves the same receipts, sequences and pending offers |
| DemandExamples.TimeZeroReorders | apps/game-api/src/demand-progress.ts:229-230 | a journal with a receipt and a later population revision of time zero: two steps apply the revision first, one step the receipt |
| DemandBothWays.PopulationOfRun | apps/game-api/src/demand-progress.ts:302 | the population after a run is the last revision it applied |
| DemandCatchUpState.RunEndsAsPlanned | apps/game-api/src/demand-progress.ts:316-335 | whether it publishes or finds nothing changed, a run ends with the planned state |
| DemandCatchUpState.CatchUpEndsAlike | apps/game-api/src/demand-progress.ts:276-335 | two steps always publish the same time, receipts, offers, population and forecast services as one |
| DemandCatchUpState.KernelIsToldTheSame | apps/game-api/src/demand-progress.ts:296-308 | when the order is kept, the boundary checkpoints of the two steps carry, one after the other, exactly the services, progress and population of those of the single run |
| PopulationData.PopulationLog.SavePopulationData | apps/game-api/src/demand-population-data.ts:47-114 | the answer to every save, appended if and only if newly accepted; at most 256 revisions stay newer than the checkpoint it saw |
| PopulationData.LoadPopulationDataHistory | apps/game-api/src/demand-population-data.ts:118-139 | on a log built by saves the loader's monotonicity check never fails |
| PopulationData.QueriedIsMonotone | apps/game-api/src/demand-population-data.ts:120-137 | the initial correction and the later ones rise in revision and time |
| PopulationData.LaterIsSuffix | apps/game-api/src/demand-population-data.ts:122-125 | without an initial time the query returns the newest entries of the basis without gap |
| PopulationData.InitialAndLaterIsSuffix | apps/game-api/src/demand-population-data.ts:120-131 | with an initial time it does so if and only if nothing past that time was already applied or nothing precedes it |
| PopulationData.FirstQueryIsSuffix | apps/game-api/src/demand-population-data.ts:91-98 | the query from the beginning, made before the first checkpoint, never has a gap |
| PopulationData.InitialQueryHasGap | apps/game-api/src/demand-population-data.ts:120-131 | three corrections of which the query with an initial time skips the middle one |
| PopulationData.Rehearse | apps/game-api/src/demand-population-data.ts:72-90 | replays all pending corrections and the new one, and refuses at the limit |
| PopulationData.MakeRoom | apps/game-api/src/demand-population-data.ts:91-102 | before the first checkpoint counts what each template would have to apply |
| PopulationData.ResendingAppendsNothing | apps/game-api/src/demand-population-data.ts:57-61 | a command saved before is accepted again without being appended, whatever was saved since |
| PopulationData.SavesKeepTheLogValid | apps/game-api/src/demand-population-data.ts:47-114 | over every sequence of saves each basis' revisions strictly increase and its times never decrease |
| DailyStreams.StreamIsUnique | apps/game-api/src/regional-simulation-scheduler.ts:22-31 | a window has only one complete, non-empty, strictly ascending stream |
| DailyStreams.MergeStreams | apps/game-api/src/daily-restriction-catalog.ts:197-211 | the merging loop computes the merge |
| DailyStreams.MergeIsStream | apps/game-api/src/daily-restriction-catalog.ts:197-211 | merging two streams gives the stream of both catalogues' commands, the second's first |
| DailyRestrictions.GoverningPolicyIsLatest | apps/game-api/src/daily-restriction-catalog.ts:91-138 | in whatever order policies were loaded, the started one with the latest start and highest version governs |
| DailyRestrictions.LookBackIsComplete | apps/game-api/src/daily-restriction-catalog.ts:167-181 | an instant carries exactly the activations and releases that any day's restrictions have there: two days of look-back miss nothing |
| DailyRestrictions.DayIsStream | apps/game-api/src/daily-restriction-catalog.ts:164-190 | a day's grouped and sorted commands are the stream of its part of the window |
| DailyCatalog.DailyRestrictionCommandCatalog.Day | apps/game-api/src/daily-restriction-catalog.ts:131-159 | a lookup gives what the generator gives now, with or without the cache, and keeps the day it looked up |
| DailyCatalog.DailyRestrictionCommandCatalog.Refresh | apps/game-api/src/daily-restriction-catalog.ts:85-108 | takes over sources and policies, rejects a repeated version without change, and keeps exactly the cached regions whose source and policies stayed |
| DailyCatalog.SurvivorsAreCurrent | apps/game-api/src/daily-restriction-catalog.ts:96-103 | what survives a refresh is what the generator would give now |
| DailyCatalog.LoadPolicies | apps/game-api/src/daily-restriction-catalog.ts:89-95 | accepts exactly unambiguous versions and sorts each world's policies |
| DailyCatalog.DailyRestrictionCommandCatalog.DailyBoundaries | apps/game-api/src/daily-restriction-catalog.ts:161-190 | the day loop yields the stream of restriction commands of the window |
| DailyCatalog.DailyRestrictionCommandCatalog.At | apps/game-api/src/daily-restriction-catalog.ts:192-195 | all commands of an instant, daily before timetable |
| DailyCatalog.DailyRestrictionCommandCatalog.DueBoundaries | apps/game-api/src/daily-restriction-catalog.ts:197-211 | the stream of the window whose every instant carries exactly what a lookup of that instant gives |
| DailyReplay.CutsDoNotMatter | apps/game-api/src/daily-restriction-catalog.ts:161-211 | however a span is cut into windows, the streams together are the span's own |
| DailyReplay.ReplayShowsTheDay | apps/game-api/src/daily-restriction-catalog.ts:161-190 | replayed from the beginning in any cut, exactly the restrictions with start at most t and end after t are active, with their effects |
| DailyReplay.ClearsThenActivations | apps/game-api/src/daily-restriction-catalog.ts:184-188 | with releases first, an id is active iff it is activated or was active and is not released |
| DailyReplay.MergedCarriesDaily | apps/game-api/src/daily-restriction-catalog.ts:192-211 | the merged stream may be replayed in place of the daily one |
| DemandHashParser.ParseInverts | apps/game-api/src/demand-store.ts:36-45 | a reader gets back from the canonical text the value with its members in key order |
| DemandHashParser.ParseEscaped | apps/game-api/src/demand-store.ts:38 | escaped strings, lone surrogates included, are read back |
| DemandHashParser.CanonicalDeterminesValue | apps/game-api/src/demand-store.ts:36-47 | two values have the same text if and only if they are equal up to key order |
| ContractSettlement.ReportPeriodIsItsDays | apps/game-api/src/contract-report-period.ts:4-18 | the days of a period are exactly its span |
| ContractSettlement.PeriodsMeet | apps/game-api/src/app.ts:1969-1983 | periods start with the contract, meet, and end with it |
| ContractSettlement.Aggregate | apps/game-api/src/app.ts:1990-2045 | accepts exactly valid reports within the safe counts and adds them up |
| ContractSettlement.TrainKmAreClose | apps/game-api/src/app.ts:2023-2046 | settled kilometres lie between the sum of the daily floors and that sum plus less than the number of days |
| ContractSettlement.PunctualityIsShare | apps/game-api/src/app.ts:2048 | punctuality is at most 10000 basis points, reached exactly when every run was punctual |
| ContractSettlement.SeatsAreLeast | apps/game-api/src/app.ts:2012-2016 | the promised seats are those of the worst day |
| ContractSettlement.NextPeriodIs | apps/game-api/src/app.ts:1971-1979 | the chosen period is the first unsettled one and is over |
| ContractSettlement.ContractOffice.Settle | apps/game-api/src/app.ts:1965-2055 | succeeds exactly when the next period is over and fully proven, and books just that settlement |
| ContractSettlement.RunsStayInStep | packages/economy/src/workflow.ts:623-670 | over every run of settlements a contract's periods are settled 0, 1, 2 and so on without gap, none before its end |
| ContractSettlement.SettledDaysAreDisjoint | apps/game-api/src/contract-report-period.ts:3-18 | different periods use different service days |
| ContractSettlement.SettledDaysAreAdjacent | apps/game-api/src/contract-report-period.ts:4-18 | consecutive periods leave no service day between them |
| ContractSettlement.AllDaysWhenAllSettled | apps/game-api/src/app.ts:1969-1984 | the settled days cover the contract exactly when all periods are settled |
| LivemapStream.Stream.Flush | apps/game-api/src/app.ts:2989-3002 | writes from the queue until it is empty or the socket asks to wait |
| LivemapStream.Stream.EnqueuePayload | apps/game-api/src/app.ts:3003-3012 | queues and flushes, or closes the stream when the queue is full |
| LivemapStream.Stream.OnDrain | apps/game-api/src/app.ts:2995-2998 | goes on writing when the socket drains |
| LivemapStream.Stream.CleanUp | apps/game-api/src/app.ts:2982-2988 | closes once and drops the queue |
| LivemapStream.Stream.ResetAndClose | apps/game-api/src/app.ts:3013-3017 | closes once with a reset |
| LivemapStream.EveryRunIsSound | apps/game-api/src/app.ts:2975-3040 | in every interleaving the written payloads are a prefix of the enqueued ones, written and queue are everything taken while open, and the queue is bounded |
| LivemapStream.ClosedStaysSilent | apps/game-api/src/app.ts:2982-3017 | after closing nothing is written, taken or ended again |
| LivemapStream.OverflowCloses | apps/game-api/src/app.ts:3003-3009 | a stream is given up exactly when a payload finds the queue full |
| LivemapStream.DrainEmpties | apps/game-api/src/app.ts:2989-3002 | a socket that keeps taking gets everything queued |
| Checkerboard.ClearCheckerboard | tools/art-atlas/prepare.py:148-169 | with four opaque light corners a pixel is cleared if and only if a walk over light pixels joins it to the border; every other pixel, and every other image, is unchanged |
| Checkerboard.ClosedHoldsBackground | tools/art-atlas/prepare.py:159-168 | a set that holds the border and the neighbours of its light pixels holds the whole background |
| ShelfPacking.Pack | tools/art-atlas/prepare.py:351-364 | every rectangle has its sprite's size and lies in the atlas, any two are two pixels apart |
| Utf8.DecodeInvertsEncode | tools/art-atlas/prepare.py:57-59 | decoding UTF-8 undoes encoding |
| Utf8.OnlyEncodingsDecode | tools/art-atlas/prepare.py:57-59 | nothing but encodings decodes |
| Cbor.ReadCbor | tools/art-atlas/prepare.py:40-77 | the recursive reader with its loops computes the specified reading and terminates |
| CborRoundTrip.RoundTrip | tools/art-atlas/prepare.py:40-77 | reading an encoding with anything around it gives its value and exactly its end |
| CborRoundTrip.OnlyEncodingsAreRead | tools/art-atlas/prepare.py:40-77 | whatever is read within the data is the encoding of some item with that value |
| Apportionment.Apportion | tools/population-demand/build_population_demand.py:248-253 | floors first, then one unit each in the order of remainder and id |
| Apportionment.PartsConserve | tools/population-demand/build_population_demand.py:251-254 | the parts add up to the total |
| Apportionment.PartsAreClose | tools/population-demand/build_population_demand.py:248-253 | each part is the floor of its exact share or one more, and never more without a remainder |
| Apportionment.PartsAreMonotone | tools/population-demand/build_population_demand.py:252-253 | a larger exact share never gets less |
| Apportionment.PartsAreOrderBlind | tools/population-demand/build_population_demand.py:252-253 | the parts do not depend on the order of the input |
| PopulationDemand.InReach | tools/population-demand/build_population_demand.py:227-241 | comparing the integer root with the radius is comparing the squares exactly |
| PopulationDemand.AllocatePopulation | tools/population-demand/build_population_demand.py:234-258 | the loop over settlements computes the specified allocation, or raises for a value out of bounds |
| PopulationDemand.PopulationIsConserved | tools/population-demand/build_population_demand.py:238-257 | every step keeps station population equal to included settlement population and loses no settlement |
| PopulationDemand.StationsHoldCoveredPopulation | tools/population-demand/build_population_demand.py:234-258 | station populations add up to the population of exactly the settlements within reach of a station |
| PopulationOrder.LargerWeightGetsNoLess | tools/population-demand/build_population_demand.py:246-253 | a station with a larger weight never gets less of a settlement |
| PopulationOrder.AllocationIsOrderBlind | tools/population-demand/build_population_demand.py:234-258 | listing settlements and stations in another order changes no allocation, no inclusion and no exclusion |
| HourShares.ExpandHours | tools/demand-calibration/run_native.py:50-63 | hours of one operating day fill distinct clock hours with their expanded counts, all others with zero |
| HourShares.ShareHours | tools/demand-calibration/run_native.py:64-69 | hourly shares add up to 10000, each is its floor or one more, larger hours never get less |
| Varints.Varint | apps/game-api/src/demand-map-fixture.ts:33-42 | the loop writes the base-128 form of exactly the safe naturals |
| Varints.ReadVarintInverts | apps/game-api/src/demand-map-fixture.ts:33-42 | a varint followed by anything is read back with what follows |
| Varints.ZigzagIsBijective | apps/game-api/src/demand-map-fixture.ts:53-55 | zigzag is a bijection between integers and naturals |
| Varints.ReadPackedInverts | apps/game-api/src/demand-map-fixture.ts:102-104 | packed numbers are read back |
| Varints.ReadMessageInverts | apps/game-api/src/demand-map-fixture.ts:44-51 | a message's fields are read back |
| MapDirectory.EncodeDirectory | apps/game-api/src/demand-map-fixture.ts:120-133 | the loop writes the four columns, and fails exactly for unsorted or unsafe ids and lengths |
| MapDirectory.DirectoryLocatesTiles | apps/game-api/src/demand-map-fixture.ts:120-192 | the directory decodes to the tile ids and lengths, and its implied offsets find each tile's bytes in the concatenation |
| MapLayer.ValueTable.Index | apps/game-api/src/demand-map-fixture.ts:82-89 | interning gives the place of a value and keeps the table free of duplicates |
| MapLayer.TagsFor | apps/game-api/src/demand-map-fixture.ts:94-96 | a feature's tags in the table as it grows |
| MapLayer.EncodeLayer | apps/game-api/src/demand-map-fixture.ts:78-111 | the loops write the specified layer |
| MapLayer.TagsDereference | apps/game-api/src/demand-map-fixture.ts:96 | tags lead back to the feature's own properties |
| MapLayer.LayerReadsBack | apps/game-api/src/demand-map-fixture.ts:78-111 | reading the layer back shows name, features with their properties and geometry, and values without duplicates |

## Left out

- Database access, routes, authentication, file, ZIP and PNG handling and network calls: no provable content.
- The Rust kernels and the `@zugfolge/*` packages: unknown functions with the stated contracts.
- Initialization of the demand consumer and pool seeding (demand-progress.ts:184-217): runs start from a published checkpoint of the same pool.
- A planning state and its diagram are two journal entries; the model has one entry at the diagram's sequence, so the check for a half-written planning commit does not appear.
- Shape checks of stored offers, cursors, receipts and regional rows (demand-progress.ts:37-69, 238-243; operational-passenger-stop.ts): these records are typed in the model.
- PopulationData.PopulationLog.SavePopulationData: source revisions are at least one by type; the source only finds a revision of zero when it reads it back.
- Size limit of a checkpoint (demand-store.ts:99) and the check that the world is active (demand-store.ts:102).
- DemandCatchUp.CatchUpIsIndependent: compares plans over one journal in which the sequence numbers of the first step's checkpoints are unused by the single run; kernel results are not compared, because the kernel sees one more publication in two steps.
- DemandProgress.DemandProgressConsumer.Advance: which of several receipt objections a rejected set raises is not distinguished.
- ConductorContext.ResolveRegion: handover records are typed, so the source's tests of raw JSON types do not appear.
- DemandHashParser.CanonicalDeterminesValue: negative zero, which JSON writes as zero, is not a separate number.
- Diagnostics of the restriction catalogue (daily-restriction-catalog.ts:145-156) and `validatePolicy`.
- DailyCatalog.DailyRestrictionCommandCatalog.Refresh: one step; two overlapping refreshes and a lazily read stream across a refresh are not modelled.
- DailyCatalog.DailyRestrictionCommandCatalog.DueBoundaries: yields the whole list instead of one element at a time.
- Tariffs of a settlement (bonus, penalties, 64-bit amounts): one unknown check; service days are numbers, and the quotient in the period count is exact.
- Varints.Varint: lengths of byte fields are unbounded naturals, a buffer of 2^53 bytes is not considered.
- MapLayer.EncodeLayer: numbers beyond the safe integers, for which the source raises, are written like any other.
- Projection of coordinates, tile numbering and compression of the map fixture; `crop_actor_cell` and other floating-point image code.
- `direct_connections` and the statistics beside the hour shares: counting without an invariant of its own.
