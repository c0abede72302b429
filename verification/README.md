# Derived-data publication and alerting, verified

A Dafny model of the backend's derived-data protocol: daily bars become indicator snapshots, snapshots
become a compact state timeline, the timeline feeds alert rules, and alert rules feed an outbox that is
delivered with retries. The model follows the code, transaction by transaction; a locked transaction is
one atomic step.

| modules | what they model |
|---|---|
| `Timeline`, `EventLog`, `LogRuns`, `LogHistory`, `LogTargets`, `StoredRows`, `Paging`, `StateRepository` | the event log: folding, suffix replacement, restatements, what new events and current rows say, paging |
| `Calendar`, `Recognition`, `Restart`, `Rebuild`, `Judgements`, `StateService`, `Subjects`, `KnownTargets` | the proven previous trading day, seeded daily recognition, what a row says of the signal, and which targets a day offers |
| `Averages`, `Momentum`, `Kdj`, `Requests`, `IndicatorLaws` | indicators: one-pass series against batch definitions, and laws that tie the values to the closes |
| `Snapshots`, `SnapshotService`, `SnapshotMeaning` | snapshot rows, their partial rebuild, and what they say |
| `Publication`, `PublicationTimeline`, `PublicationRuns`, `PublicationProgress`, `PublicationOutcomes`, `PublishedMeaning`, `AnalysisService` | one stream under source writes, configuration writes and materializations |
| `PublicationEdge`, `RestartEdge`, `CurrentRows`, `Witness` | where the published timeline or its current rows go wrong, exactly when, and concrete runs |
| `AlertReplay`, `AlertDesk`, `AlertRuns`, `AlertOutcomes`, `AlertService` | edge triggers, catch-up, edits, trigger identities, and what is notified when |
| `Delivery`, `DeliveryOutcomes`, `DeliveryService` | concurrent delivery, ambiguous commits, outcome recovery, and what a row tells of the replies |
| `Tokens` | refresh-token families |

Code that updates fields in place is a class or a method with loops, proved against a function on
values; the properties are then lemmas about that function over all inputs and all runs. Days are
integers, floats are reals, hashes are the values they hash.

What the proofs brought to light:

- A dirty date later than the capped latest bar makes `materialize` publish an empty full replacement.
  `EmptyReplacementWipes` says when that is wrong; `CurrentTimelineCanBeWiped` and
  `LostHistoryReadsAsCurrent` show three ordinary steps from any current publication to one that reads as
  current with its history lost; `WipedHistoryStaysLost` says that later partial publications do not repair
  it; `HistoryCanBeLost` is a concrete run. Snapshots are right even then.
- With the start at or before the latest bar no such case is left, because a row on any day implies a
  row on the latest bar day (`NothingWrittenMeansNoRows`).
- When the first rewritten snapshot day lies later than `start`, its predecessor may be at or after
  `start`; the anchors read there can come from events that the same publication invalidates. Every target
  known before `start` is offered on that day (`KnownIsOffered`), so none is forgotten; but the seeds can
  hold targets first seen on a deleted day. The published timeline is right exactly when the predecessor
  lies before `start` or that day offers every such target (`PublishedTimelineIsExact`).
  `RestartInventsTarget` is a concrete failing run: ten bars are published with KDJ(10,3,3) beside the
  default KDJ(9,3,3); days 9 and 10 are deleted while day 11 arrives; nine bars are too few for KDJ(10,3,3),
  whose target still gets a spurious UNKNOWN row.
- A partial publication never deletes current rows. Those of a clean stream are the from-scratch ones
  exactly when the last publication was full, wrote nothing, or met no current row of a target that is
  neither known before `start` nor offered on a rewritten day (`CleanRowsAreExact`). `StaleRowRemains` is a
  concrete run with the right timeline and a stale row.
- Automatic retries end only for outcomes that become durable (`RetryMeasure`,
  `LostAttemptsAreUnbounded`).
- A stream whose newest bar was deleted stays dirty: an open materialization ends current exactly when no
  bar later than the last one was ever announced (`OpenTaskEndsCurrent`).
- With period 1 the RSI remembers the last change alone: on closes that never fall it is 100 only after a
  rise, else 50 (`RsiOfRisingCloses`).
- An empty full batch moves the paging generation on every replay, since no current row reaches
  `through` (`ReplayIsSilent` gives the exact condition).

## Model

| member | source | states |
|---|---|---|
| `Timeline.TimelineIsRunLength` | backend/app/repositories/state_event.py:258-303 | each target's changes start with BASELINE, adjacent statuses differ, every kind is the one its status pair and edge proof allow, and an exact start day is claimed exactly by ENTER and EXIT |
| `Timeline.TimelineIsMinimal` | backend/app/repositories/state_event.py:258-303 | a target has exactly one change per maximal run of equal statuses |
| `Timeline.TimelineDecodes` | backend/app/repositories/state_event.py:166-198 | the last change at or before any observed day restores that day's status |
| `LogHistory.RunRepresents` | backend/app/repositories/state_event.py:200-393 | every run of proper batches leaves a log whose valid events are the folded history of the run, one row per day and target |
| `LogHistory.LogIsRunLength` | backend/app/repositories/state_event.py:258-303 | in every reachable log the valid events of each target are such a run-length encoding |
| `LogHistory.LogIsMinimal` | backend/app/repositories/state_event.py:258-303 | in every reachable log a target has one valid event per maximal run of equal statuses of its history |
| `LogHistory.LogDecodes` | backend/app/repositories/state_event.py:166-198 | in every reachable log the anchor query at any observed day returns an event with that day's status |
| `Timeline.CutChanges` | backend/app/repositories/state_event.py:235-257 | cutting the folded changes of a history at a day is folding the history cut at that day |
| `EventLog.RankOneIsLast` | backend/app/repositories/state_event.py:166-198 | the ranked anchor query returns the last valid change of the target up to the day |
| `EventLog.SeedsAreFacts` | backend/app/repositories/state_event.py:166-198 | the anchors read from the log are the facts of the represented history up to that day |
| `EventLog.PublishedTimeline` | backend/app/repositories/state_event.py:331-365 | after any accepted publication the valid timeline is the part before the window followed by the refolded batch |
| `EventLog.PublishKeepsWellFormed` | backend/app/repositories/state_event.py:230-365 | every publication keeps numbers increasing, valid events in day and target order and none past the current rows |
| `EventLog.SuffixRewrite` | backend/app/repositories/state_event.py:235-303 | rewriting a suffix from its anchors represents the old history before `start` followed by the batch |
| `EventLog.FullRebuild` | backend/app/repositories/state_event.py:245-393 | a full publication represents its own batch whatever the log held |
| `LogRuns.SuffixRewriteIsFullRebuild` | backend/app/repositories/state_event.py:200-393 | a suffix rewrite and one full publication of prefix plus suffix leave the same valid changes, and the same current rows when the suffix covers every known target |
| `LogRuns.ReplayIsSilent` | backend/app/repositories/state_event.py:323-365 | replaying a batch, under the same or any later source revision, writes no event and keeps the sequence; current rows change at most in their revision; the generation stays exactly when the current rows reach `through` |
| `LogRuns.LiveEdgesAnnouncedOnce` | backend/app/repositories/state_event.py:344-355 | over every run of publications whose non-empty batches reach `through`, two stored events of one target and day are never both live |
| `LogTargets.MaterializeKeepsReady` | backend/app/repositories/state_event.py:344-393 | every publication keeps each valid event at or before its target's current row, ENTER events active and live events unique |
| `LogTargets.MaterializeContinues` | backend/app/repositories/state_event.py:331-365 | events are never dropped, renumbered or revived, and new ones take higher numbers |
| `LogTargets.RowsMoveForward` | backend/app/repositories/state_event.py:366-393 | a current row stays where it is or jumps to the new watermark |
| `StoredRows.NewEventsAreLive` | backend/app/repositories/state_event.py:336-364 | after any accepted publication the events numbered past the old sequence are valid, of its revision, and live exactly when current rows exist and all lie before their day |
| `StoredRows.EnterIsAnnounced` | backend/app/repositories/state_event.py:336-364 | an ENTER change dated past every current row is among the alerts that consumers replay |
| `StoredRows.NewAlertsAreLateEnters` | backend/app/repositories/state_event.py:336-364 | over every run the alerts a publication adds are exactly the ENTER changes of its timeline dated past every current row before it |
| `StoredRows.EventsAreObservations` | backend/app/repositories/state_event.py:258-303 | over every run a valid event carries the status, edge and metadata that the history observed of its target on its day |
| `StoredRows.CurrentRowsShowLastRows` | backend/app/repositories/state_event.py:258-322 | over every run the current row of a published target shows its last observation, its revision, and the fact of its last valid event; other rows stay, or go with a full replacement |
| `Paging.ReadAll` | backend/app/api/indicator_state.py:124-172 | pages read while publications go on, with a window that may follow the latest day, are together every valid event of the first view's window exactly once, in sequence, unless the generation moved or the requests ran out before the events did |
| `Paging.GenerationKeepsLatest` | backend/app/repositories/state_event.py:323-330 | a publication that leaves the generation leaves the latest day that the default window is derived from |
| `Paging.RunKeepsLatest` | backend/app/api/indicator_state.py:128-138 | over any run of publications an unchanged generation keeps that day |
| `Paging.SelectAfter` | backend/app/repositories/state_event.py:396-428 | moving the keyset cursor to a returned row leaves exactly the rows behind it |
| `StateRepository.StateEventRepository.Publish` | backend/app/repositories/state_event.py:200-394 | the in-place publication yields the specified log and count, or changes nothing when the target day is stale |
| `StateRepository.StateEventRepository.FoldBatch` | backend/app/repositories/state_event.py:258-322 | the pass over the sorted batch yields the folded changes and the last row per target |
| `StateRepository.StateEventRepository.PreviousThrough` | backend/app/repositories/state_event.py:230-230 | the latest day of any current row |
| `Calendar.PreviousOpenIsProved` | backend/app/services/trading_calendar_service.py:72-91 | walking back gives p exactly when target and p are OPEN, p is earlier and every day between is recorded CLOSED |
| `Calendar.PreviousOpenDates` | backend/app/services/trading_calendar_service.py:39-93 | bisect plus forward gap scan equals the backward walk for every target |
| `Calendar.GapIsClosed` | backend/app/services/trading_calendar_service.py:83-91 | the forward scan accepts exactly the gaps whose days are all recorded CLOSED |
| `Restart.RestartYieldsSuffix` | backend/app/services/state_service.py:95-161 | recognition restarted from the anchors of the proven previous day yields exactly the suffix of the full recognition, UNKNOWN fill and transition flags included |
| `Restart.BlindSuffix` | backend/app/services/state_service.py:108-140 | from a first day whose predecessor is unproved or has no snapshot, two memos yield the same rows over the whole suffix exactly when that day offers every target that only one of them knows |
| `Restart.BlindRestartIsExact` | backend/app/services/state_service.py:108-161 | a restart at such a day yields the suffix of the full recognition exactly under that condition |
| `Rebuild.BlindSuffixIsExact` | backend/app/services/state_service.py:108-161 | the same for the seeds that `calculate` reads: anchors of a predecessor at or after `start`, or none |
| `Rebuild.IncrementalRebuild` | backend/app/services/state_service.py:95-365 | publishing the restarted rows leaves the log representing the from-scratch recognition of all snapshots when the predecessor of the first rewritten day lies before `start`, or that day offers every target that only the seeds or only the full run know |
| `Rebuild.AnchorsAgree` | backend/app/services/state_service.py:104-140 | anchors read at a predecessor before `start` are the anchors the publication folds from |
| `Rebuild.FullRecognition` | backend/app/services/state_service.py:141-365 | a full rebuild leaves the log representing the from-scratch recognition |
| `StateService.Recognize` | backend/app/services/state_service.py:129-344 | the loop over days and targets yields each row of the seeded recognition exactly once |
| `StateService.Observe` | backend/app/services/state_service.py:186-316 | the branch ladder of one target yields its specified observation and moves only its own edge bit |
| `StateService.FillMissing` | backend/app/services/state_service.py:317-341 | known targets that the day does not offer get UNKNOWN rows |
| `StateService.StateEngine.EvaluateState` | backend/app/states/engine.py:106-189 | refusals and missing snapshots are inactive with a reason; a transition needs an active edge that was not active before; the edge bit of that target alone is replaced |
| `Judgements.StatusIsSignal` | backend/app/services/state_service.py:186-341 | in every run from scratch an offered target is ACTIVE exactly when its predecessor is proved, it can be looked back on there and the evaluator calls it active, INACTIVE exactly when it calls it inactive, else UNKNOWN; an unoffered one is UNKNOWN |
| `Judgements.TransitionIsProven` | backend/app/services/state_service.py:186-316 | with a row on the proven predecessor a row is a transition exactly when the signal is active with an edge, that row is not ACTIVE, and the target is in edge mode or that row is INACTIVE |
| `Judgements.TransitionWithoutRow` | backend/app/states/engine.py:106-189 | without such a row it is one exactly in edge mode, when the looked-back reading was not active by its own previous values; edge bits of the process never decide |
| `Judgements.DetailIsReason` | backend/app/services/state_service.py:186-316 | an offered row carries both readings and prices it was evaluated on, or the one reason why it was not |
| `Averages.SmaSeries` | backend/app/indicators/ma.py:61-73 | the running-sum pass equals the batch average of every prefix |
| `Averages.ProjectedMaSeries` | backend/app/indicators/ma.py:88-103 | the running-sum projection equals the batch projection of every prefix |
| `Averages.ProjectionExtends` | backend/app/indicators/ma.py:23-40 | the projection is the plain average of the series extended by its own last close |
| `Averages.VarianceIdentity` | backend/app/indicators/boll.py:36-43 | mean squared deviation is mean of squares minus square of mean |
| `Averages.BollingerSeries` | backend/app/indicators/boll.py:69-101 | the sum-of-squares pass equals the batch bands of every prefix |
| `Averages.BandsEnclose` | backend/app/indicators/boll.py:36-51 | lower <= middle <= upper |
| `IndicatorLaws.SmaOfLine` | backend/app/indicators/ma.py:23-40 | on closes along a line the average lags half its period |
| `IndicatorLaws.SmaSlides` | backend/app/indicators/ma.py:61-73 | a new close moves the average by a period's share of the entering minus the leaving close |
| `IndicatorLaws.BandsAreDeviations` | backend/app/indicators/boll.py:36-51 | with a square root the bands lie evenly around the average at the multiple of the standard deviation |
| `Momentum.RsiSeries` | backend/app/indicators/rsi.py:56-83 | the single Wilder pass equals the batch RSI of every prefix |
| `Momentum.RsiInRange` | backend/app/indicators/rsi.py:14-46 | RSI lies in [0, 100] |
| `IndicatorLaws.RsiIsShare` | backend/app/indicators/rsi.py:14-46 | RSI is the share of the average gain in the average movement, 50 without any |
| `IndicatorLaws.RsiStep` | backend/app/indicators/rsi.py:14-46 | both averages take up a new rise or fall with weight one in the period |
| `IndicatorLaws.RsiSeed` | backend/app/indicators/rsi.py:14-46 | both start as the plain means of the first rises and falls |
| `IndicatorLaws.RsiMirrors` | backend/app/indicators/rsi.py:14-46 | turning the closes upside down turns the RSI around 50 |
| `IndicatorLaws.RsiOfRisingCloses` | backend/app/indicators/rsi.py:14-46 | on closes that never fall it is 100 exactly when a rise is remembered, which with period 1 only the last change is, else 50 |
| `IndicatorLaws.RsiOfFallingCloses` | backend/app/indicators/rsi.py:14-46 | on closes that never rise it is 0, or 50, under the mirrored condition |
| `Momentum.Ema` | backend/app/indicators/macd.py:14-25 | the seeded one-pass EMA equals its recursive definition at every index |
| `Momentum.EmaOfPrefix` | backend/app/indicators/macd.py:14-25 | an EMA value depends on no later close |
| `Momentum.MacdSeries` | backend/app/indicators/macd.py:84-131 | the series form equals the batch MACD of every prefix |
| `IndicatorLaws.EmaOfLine` | backend/app/indicators/macd.py:14-25 | on a line the seeded EMA lags half its period at every index |
| `IndicatorLaws.MacdOfLine` | backend/app/indicators/macd.py:28-81 | on a line both MACD lines stand at the difference of the two lags and the histogram at zero |
| `IndicatorLaws.SignalStep` | backend/app/indicators/macd.py:28-81 | the signal line moves two parts in signal + 1 of the way to the new difference, and the histogram is the gap |
| `Kdj.KdjSeries` | backend/app/indicators/kdj.py:73-121 | the monotone-deque pass equals the batch KDJ of every prefix and its deques pop at most twice per bar in all |
| `Kdj.HeadIsMaximum` | backend/app/indicators/kdj.py:87-105 | the head of the monotone deque is the maximum of its window |
| `Kdj.HeadIsMinimum` | backend/app/indicators/kdj.py:87-105 | the head of the deque over lows is the minimum of its window |
| `Kdj.KdjInRange` | backend/app/indicators/kdj.py:35-49 | for valid candles RSV, K and D lie in [0, 100] and J in [-200, 300] |
| `IndicatorLaws.KdjStep` | backend/app/indicators/kdj.py:11-60 | RSV places the close between the lowest low and the highest high of the period; K and D follow with their own weights from 50; J is 3K - 2D |
| `Requests.RequiredHistoryBars` | backend/app/indicators/parameters.py:281-310 | the result is the greatest need of any merged request, at least 1 |
| `Requests.CompleteWhenEnoughHistory` | backend/app/indicators/parameters.py:281-310 | all merged requests have complete last values exactly when the bar count reaches the required history |
| `Requests.SeriesForRequest` | backend/app/services/indicator_service.py:226-275 | every slot of a request's series holds the batch values of its prefix |
| `Requests.ValuesPersist` | backend/app/services/indicator_service.py:239-257 | a request that has values keeps having them as bars are added |
| `IndicatorLaws.KdjVariant` | backend/app/services/indicator_service.py:226-275 | the four fields of a KDJ variant follow from its candles and the variant of the bar before |
| `IndicatorLaws.RsiVariant` | backend/app/services/indicator_service.py:226-275 | the fields of an RSI variant are its value and averages, tied by the share |
| `IndicatorLaws.MacdVariant` | backend/app/services/indicator_service.py:226-275 | on a line the fields of a MACD variant stand at the difference of its lags |
| `IndicatorLaws.BundleVariant` | backend/app/services/indicator_service.py:226-275 | on a line every average of a bundle lags half its own period |
| `IndicatorLaws.ProjectedVariant` | backend/app/services/indicator_service.py:226-275 | a projected variant is the average of the closes with the last one repeated |
| `IndicatorLaws.BandVariant` | backend/app/services/indicator_service.py:226-275 | the fields of a band variant lie around the average at the multiple of the standard deviation |
| `Snapshots.EarlierRowsKeep` | backend/app/services/indicator_service.py:161-211 | bars that change only from a day on leave every earlier row, previous values and delta as they were |
| `Snapshots.SuffixRebuildIsFullRebuild` | backend/app/services/indicator_service.py:161-221 | deleting and rewriting rows from D gives the table of a full rebuild when bars changed only from D on |
| `Snapshots.RowsPersist` | backend/app/services/indicator_service.py:161-165 | once a type has a row, every later bar day has one |
| `SnapshotService.SnapshotRepository.RebuildHistory` | backend/app/services/indicator_service.py:119-224 | the window holds the from-scratch rows with the publication's mark, rows outside it are untouched, and the count is the number of rows in the window |
| `SnapshotService.GroupItems` | backend/app/services/indicator_service.py:157-165 | the series passes group exactly the items of every request by day and type |
| `SnapshotService.AddDay` | backend/app/services/indicator_service.py:172-209 | one day and type adds the from-scratch row if it is persisted and remembers the values for the next bar |
| `SnapshotService.EntriesMatch` | backend/app/services/indicator_service.py:191-195 | the remembered values are those of the bar before, so entries equal the from-scratch entries |
| `SnapshotMeaning.CurrentVariantsLink` | backend/app/services/indicator_service.py:172-211 | in every current published stream the previous values of a variant are those the table holds of the bar before, and value minus delta is the previous value |
| `SnapshotMeaning.CurrentVariantsExist` | backend/app/services/indicator_service.py:172-211 | in every current published stream a bar has a demanded variant, other than a bundle of averages, exactly when enough bars lie up to it |
| `SnapshotMeaning.RewrittenRowsReadAsRestated` | backend/app/services/alert_replay.py:18-27 | a rewritten row reads as restated to a value rule exactly when nothing was published before or its day lies at or before the last watermark |
| `Publication.CurrentSnapshotsAreFresh` | backend/app/services/analysis_control.py:122-130 | in every interleaving a published current stream was computed from a request set covering the configuration and its snapshots are those of a from-scratch computation over the present bars |
| `Publication.SourceKeepsSound` | market-data-hub/app/repositories/analysis_stream.py:44-80 | a source write keeps the watermark, demand and row invariants |
| `Publication.ConfigKeepsSound` | backend/app/services/analysis_control.py:45-60 | a configuration write keeps them |
| `Publication.MaterializeKeepsSound` | backend/app/services/analysis_service.py:53-139 | every materialization keeps them, whatever its plan |
| `Publication.CleanStreamsAreUpToDate` | backend/app/services/analysis_service.py:80-98 | a partial rebuild always starts at the dirty date; the branch that searches for a start is not reached |
| `PublicationOutcomes.PlanIsExact` | backend/app/services/analysis_service.py:53-98 | in every reachable state the plan follows from the stream row and the latest bar in reach alone: nothing, refusal, full, from the dirty date, or up to date |
| `PublicationOutcomes.OpenTaskEndsCurrent` | backend/app/services/analysis_service.py:80-139 | in every reachable state an open task over bars not behind the watermark ends current exactly when no later bar was ever announced |
| `PublicationOutcomes.DirtyDateIsEarliest` | market-data-hub/app/repositories/analysis_stream.py:44-80 | over every run the dirty date is the earliest day changed since the stream was last clean, and the revision and demand generation count the writes |
| `PublicationTimeline.CleanTimelineIsFresh` | backend/app/services/analysis_service.py:99-136 | in every interleaving whose partial rebuilds start at or before the latest bar, over open days and with seeds that suffice, a clean stream's log is the from-scratch timeline of the present snapshots |
| `PublishedMeaning.CleanStatusIsSignal` | backend/app/services/state_service.py:95-365 | in every interleaving with sound restarts the last event of a clean stream at a day that offers a target has the status that the evaluator gives on the present snapshots of that day and its proven predecessor |
| `PublishedMeaning.CleanActivesAreSignals` | backend/app/services/state_service.py:95-365 | every valid ACTIVE event of a clean stream stands on a day that offers its target and on which the evaluator calls it active |
| `PublishedMeaning.WorldIsTables` | backend/app/services/state_service.py:108-151 | recognition sees a day exactly when it has rows, the stored variants of the day, and the close of its bar |
| `PublicationTimeline.NothingWrittenMeansNoRows` | backend/app/services/analysis_service.py:122-127 | with start at or before the latest bar, an empty replacement happens only to an empty table |
| `PublicationTimeline.EmptyReplacementWipes` | backend/app/services/analysis_service.py:122-127 | with start after the latest bar the snapshots stay, no valid event remains, and the result is right exactly when the timeline was empty |
| `PublicationEdge.WipedHistoryStaysLost` | backend/app/services/analysis_service.py:80-136 | over every run whose rebuilds are partial and start at or after m, a log without valid events before m never regains one |
| `PublicationTimeline.ClippedRowsAreFull` | backend/app/services/state_service.py:108-155 | the bounded snapshot and bar queries return everything the recognition looks at, when the predecessor is proved or no snapshot lies on a closed day |
| `PublicationEdge.CurrentTimelineCanBeWiped` | backend/app/services/analysis_service.py:65-127 | from every reachable current publication, a new bar and a task capped at the published day are two allowed steps that wipe the timeline |
| `PublicationEdge.LostHistoryReadsAsCurrent` | backend/app/services/analysis_service.py:65-136 | a third step, the open task, then ends in a clean publication that reads as current, whose log holds nothing before the new bar and is not the from-scratch timeline |
| `Subjects.OfferedPersists` | backend/app/services/state_service.py:563-604 | in from-scratch rows a pair or variant offered on one day is offered on every later day that has rows |
| `Subjects.OnePairPerBundle` | backend/app/services/state_service.py:573-596 | a bundle offers one pair at most: its two periods in order, or the default pair a wider bundle contains |
| `Subjects.DefaultsAreDefault` | backend/app/indicators/parameters.py:20-62 | the variants calculated unasked are exactly the defaults of the six types |
| `KnownTargets.RunTargets` | backend/app/services/state_service.py:129-341 | a run gives a row to every target that its seeds know or that one of its days offers, and to no other |
| `RestartEdge.KnownIsOffered` | backend/app/services/state_service.py:563-604 | every target with an anchor before `start` is offered on the first rewritten day, whatever it is looked back on through |
| `RestartEdge.PublishedTimelineIsExact` | backend/app/services/state_service.py:95-365 | a partial materialization that writes rows over open days publishes the from-scratch timeline exactly when the predecessor of the first rewritten day lies before `start`, or that day offers every target whose anchor is read at the predecessor but that has none before `start` |
| `CurrentRows.RewrittenRowsAreExact` | backend/app/repositories/state_event.py:366-393 | after a sound suffix rewrite the current rows are the last rows of the whole history exactly when every target that had one is known before `start` or offered on a rewritten day |
| `CurrentRows.CleanRowsAreExact` | backend/app/services/analysis_service.py:99-136 | in every interleaving with sound restarts the current rows of a clean stream are the from-scratch ones, up to their revision, exactly when the last publication met that condition, was full or wrote nothing |
| `Witness.PlainOffersBySubject` | backend/app/services/state_service.py:563-604 | the concrete setting offers exactly the pairs and variants that the pairing code offers |
| `Witness.TenBarTimeline` | backend/app/services/analysis_service.py:53-139 | a concrete run to a current publication with a non-empty timeline, in which KDJ(10,3,3) is first seen on the tenth bar |
| `Witness.RestartInventsTarget` | market-data-hub/app/repositories/market_data.py:456-483 | a concrete run in which two deleted warm-up days end in a clean, current publication with a target that recognition from scratch does not know |
| `Witness.StaleRowRemains` | backend/app/repositories/state_event.py:366-393 | a concrete run of sound restarts, in which two closed days lose their bars, to a clean, current publication with the from-scratch timeline but a stale current row |
| `Witness.HistoryCanBeLost` | backend/app/services/analysis_service.py:65-136 | a concrete run to a clean, current publication that has lost its history |
| `PublicationProgress.WorkExists` | backend/app/services/analysis_service.py:99-127 | whatever the state and the task, a materialization has rows, days and observations to publish |
| `PublicationRuns.RebuildIsOneBatch` | backend/app/services/analysis_service.py:99-136 | to the log every rebuild is one accepted publication of a batch that carries each of its targets to `through` |
| `PublicationRuns.LiveEventsOnce` | backend/app/services/analysis_service.py:72-131 | in every interleaving two stored events of one target and day are never both live |
| `PublicationRuns.WatermarkOnlyAdvances` | backend/app/services/analysis_service.py:72-131 | in every interleaving the watermark never moves back and a planned rebuild is never refused by the state repository |
| `AnalysisService.AnalysisStream.Materialize` | backend/app/services/analysis_service.py:37-143 | the in-place method takes exactly the planned branch and leaves exactly the specified watermarks, rows and log |
| `AnalysisService.AnalysisStream.PublishRebuild` | backend/app/services/analysis_service.py:99-136 | snapshots, states and watermarks change together, or nothing does when the state repository refuses |
| `AnalysisService.AnalysisStream.MarkDemandChanged` | backend/app/services/analysis_control.py:45-60 | the demand generation advances with the configuration |
| `AnalysisService.AnalysisStream.InvalidateChanged` | market-data-hub/app/repositories/analysis_stream.py:44-80 | revision, earliest dirty day and latest bar day advance with the bars |
| `AnalysisService.RebuildStates` | backend/app/services/state_service.py:95-161 | the rows published for a window are those of recognition seeded at the proven predecessor |
| `AlertReplay.CatchUpSplits` | backend/app/services/alert_replay.py:105-152 | value catch-up over a range in one go or in two gives the same alerts and final status, and no half is refused when the whole is not |
| `AlertReplay.AlertsAreRisingEdges` | backend/app/alerts/evaluator.py:112-126 | value alerts are exactly the rising edges of the condition whose row is not restated |
| `AlertReplay.StatusIsLevel` | backend/app/alerts/evaluator.py:112-126 | the remembered status is the level of the condition at the last valued row |
| `AlertReplay.CatchUpIsExact` | backend/app/services/alert_replay.py:42-93 | a state catch-up alerts exactly the valid live ENTER events after the evaluated day; the cursor filter and the UNKNOWN skip lose none |
| `AlertRuns.CatchUpMissesNothing` | backend/app/services/alert_replay.py:42-104 | in every reachable state a state catch-up enqueues exactly the valid live ENTER events of its target dated after the last evaluated day |
| `AlertRuns.ScheduledDayIsExact` | backend/app/services/alert_service.py:430-484 | in every reachable state a scheduled evaluation for a published day past the evaluated one, with or without an observation, enqueues exactly those events and moves both cursors, unless the range is too long |
| `AlertOutcomes.ScheduledStatusIsLevel` | backend/app/services/alert_replay.py:42-104 | the same evaluation remembers whether the condition holds that day, or held at the last replayed event of known status; a range too long changes nothing |
| `AlertOutcomes.ScheduledValuesAreExact` | backend/app/services/alert_replay.py:105-161 | in every reachable state a scheduled evaluation of a value rule past its evaluated day notifies, in order, exactly the rising edges of its range that are not restated and remembers the last level; a range too long changes nothing |
| `AlertOutcomes.LateEnterIsNotified` | backend/app/services/alert_replay.py:42-93 | in every reachable state an ENTER that a publication dates past every current row and past the evaluated day is notified by the evaluation of that day |
| `AlertOutcomes.FirstEvaluationIsExact` | backend/app/services/alert_service.py:449-494 | the first evaluation of a version, or any later one of a dividend rule, notifies exactly when the condition holds and did not before |
| `AlertOutcomes.CorrectionIsSilent` | backend/app/services/alert_service.py:424-459 | a correction of the evaluated day only moves the status; an earlier day changes nothing |
| `AlertOutcomes.UnusableDayIsQuiet` | backend/app/services/alert_service.py:496-546 | a day without a usable observation is consumed silently when it is the published day, else ignored |
| `AlertOutcomes.DisabledRulesRest` | backend/app/services/alert_service.py:384-386 | a disabled rule is left as it is |
| `AlertOutcomes.EditedRuleFiresAgain` | backend/app/services/alert_service.py:207-226 | in every reachable state an edit of what an enabled rule watches makes the next satisfied evaluation notify once under a new version |
| `AlertOutcomes.IdleEditChangesNothing` | backend/app/services/alert_service.py:207-226 | an edit that changes nothing the rule watches changes nothing |
| `AlertRuns.NoEventTwice` | backend/app/services/alert_replay.py:51-93 | over every run, across rule versions and stream switches, no stored event is replayed twice |
| `AlertRuns.TriggerSequencesAscend` | backend/app/services/alert_service.py:548-564 | over every run trigger sequences strictly increase, so no identity repeats |
| `AlertRuns.DaysAscendWithinVersion` | backend/app/services/alert_service.py:424-478 | over every run scheduled notification days strictly increase within one rule version |
| `AlertRuns.CursorSurvives` | backend/app/services/alert_service.py:478-484 | publications keep every valid event at or below the cursor dated at or before the evaluated day |
| `AlertRuns.EditKeepsGood` | backend/app/services/alert_service.py:207-226 | edits and security switches keep all consumer invariants |
| `AlertRuns.EvaluationAdvances` | backend/app/services/alert_service.py:372-546 | a scheduled evaluation changes at most the status, or moves forward to its day with alerts in ascending order after the evaluated day |
| `AlertService.RuleBook.Update` | backend/app/services/alert_service.py:161-239 | an edit bumps the version on a changed signature, resets the instance, or drops it on a security switch |
| `AlertService.RuleBook.EnqueueTrigger` | backend/app/services/alert_service.py:548-572 | the next identity is past every identity of the rule and of its instance |
| `AlertService.RuleBook.Replay` | backend/app/services/alert_replay.py:30-161 | the catch-up loops enqueue the specified alerts, settle the status and move both cursors, or change nothing when refused |
| `AlertService.RuleBook.EvaluateRule` | backend/app/services/alert_service.py:372-494 | the method takes the specified branch of a scheduled evaluation |
| `AlertService.RuleBook.UnavailableObservation` | backend/app/services/alert_service.py:496-546 | a current published day without observation is consumed by catch-up or by moving the cursors, never by a reset |
| `Delivery.DurableRowFacts` | backend/app/services/notification_service.py:332-374 | over every run a durable PENDING row has no attempt, and a retry time means FAILED with fewer than five attempts |
| `DeliveryOutcomes.RowTellsLastReply` | backend/app/services/notification_service.py:332-374 | over every run of a deliverable row it is SENT exactly when the last recorded attempt was delivered, else FAILED with the code of its rejection and a retry time exactly when that was transient and fewer than five attempts are recorded |
| `DeliveryOutcomes.WaitsDouble` | backend/app/services/notification_service.py:332-374 | over every run the wait before an automatic retry is a minute at first and doubles with every attempt |
| `DeliveryOutcomes.AttemptsAreTimely` | backend/app/services/notification_service.py:160-201 | over every run a recorded automatic retry came at or after the retry time of the attempt before, an undispatched pending row was five minutes old, and nothing follows a delivery |
| `DeliveryOutcomes.SendsAreTimely` | backend/app/services/notification_service.py:160-268 | a message leaves exactly when its content allows and a worker claims the row in time |
| `DeliveryOutcomes.UndeliverableIsNeverSent` | backend/app/services/notification_service.py:160-268 | over every run a row with undeliverable content is never sent and fails without an attempt |
| `Delivery.SentIsAbsorbing` | backend/app/services/notification_service.py:160-201 | no step after SENT writes or sends |
| `Delivery.SentStaysSent` | backend/app/services/notification_service.py:160-268 | over every run a SENT row and its send count never change again |
| `Delivery.NoAttemptCountedTwice` | backend/app/services/notification_service.py:392-457 | over every run the attempt count is the number of durable outcomes and no delivery is recorded twice |
| `Delivery.ClaimTestIsExact` | backend/app/services/notification_service.py:309-316 | over every run the durable row equals a worker's baseline exactly when nothing became durable since its claim |
| `Delivery.RecoveryOutcome` | backend/app/services/notification_service.py:412-446 | for every reachable worker, reading or not and however its commit ends: the cached outcome is written, once, exactly when nothing became durable since the claim and the commit takes effect; otherwise the row stays, and after a change since the claim it is the row of the last recorded outcome |
| `Delivery.AutomaticRetriesEnd` | backend/app/services/notification_service.py:172-189 | over every run only the second to fifth recorded attempt can be an automatic retry of a failure |
| `Delivery.RetryMeasure` | backend/app/services/notification_service.py:332-374 | an automatic retry lowers the remaining attempts exactly when its outcome becomes durable |
| `Delivery.LostAttemptsAreUnbounded` | backend/app/services/notification_service.py:160-201 | from the enqueued row on, after one transient failure any number of recovery workers can send and die, with one attempt recorded |
| `DeliveryService.Outbox.DeliverExisting` | backend/app/services/notification_service.py:318-374 | one attempt yields SENT, or FAILED with exponential backoff while attempts remain |
| `DeliveryService.Outbox.CommitDelivery` | backend/app/services/notification_service.py:392-457 | the commit loop settles the row and the report as specified for every mix of lost, landed and interfering commits |
| `DeliveryService.Outbox.Deliver` | backend/app/services/notification_service.py:160-268 | dispatch, recovery and manual retry act exactly on eligible rows |
| `DeliveryService.TryIsRevisit` | backend/app/services/notification_service.py:412-446 | one turn of the commit loop is one step of the worker protocol |
| `Tokens.FamiliesAreChains` | backend/app/services/auth_service.py:230-248 | over every run each family is one chain of used tokens that name their replacement, ending in an unused one |
| `Tokens.OneLiveToken` | backend/app/services/auth_service.py:206-248 | over every run a family has at most one token that is neither used nor revoked |
| `Tokens.ReplayAndLogoutKill` | backend/app/services/auth_service.py:219-229 | presenting a spent token, a token of an inactive user, or any known token at logout revokes its whole family |
| `Tokens.DeadForever` | backend/app/services/auth_service.py:265-277 | once revoked a family never has a live token again, whatever follows |
| `Tokens.TokensStayOwned` | backend/app/services/auth_service.py:182-252 | over every run a family belongs to one user, a token is used only within its lifetime, and its replacement belongs to the same user and family |
| `Tokens.RefreshIsExact` | backend/app/services/auth_service.py:182-252 | after every run a spent or outlived token or an inactive user kills the family; any other token is used up for a live one of the same user with a lifetime of its own |
| `Tokens.AuthService.RefreshTokens` | backend/app/services/auth_service.py:182-252 | rotation succeeds exactly for an unspent token of an active user and leaves the new token as the live one |
| `Tokens.AuthService.LogOut` | backend/app/services/auth_service.py:255-277 | logout revokes the family of a known token and ignores unknown ones |
| `Tokens.AuthService.IssueTokens` | backend/app/services/auth_service.py:373-394 | a login opens a family with one token, or fails on a colliding token |
| `Tokens.AuthService.Revoke` | backend/app/services/auth_service.py:397-402 | no token of the family is left unrevoked, earlier revocation times stand, and nothing else of any session changes |

## Left out

- Floating-point rounding, NaN and infinity: values are reals, `fsum` is exact and the square root of the bands is an arbitrary function that is non-negative.
- State evaluators and the values a target reads: the evaluators and the projection of a day's rows to state targets are arbitrary functions; `Subjects` says only which targets a day offers, and what a target is looked back on through stays open.
- Parameter canonicalization from strings and aliases, and variant selection by key: a request is its canonical content.
- Snapshot materialization of the latest day only, and the read paths that merge adjustments.
- Calendar changes between publications: a run has one calendar.
- Bars that reach the table without an invalidation record: every bar change of a run is a source write.
- Interactive alert evaluation without a scheduled date, which has no date guard.
- Alert reads: whether a publication is current, and the value rows on offer, are inputs of each evaluation.
- Unique family identifiers: a login draws a family that no session has.
- Invitations, passwords, access tokens, notification texts, webhooks, watch tables, provider clients, job scheduling and the Redis task lock.
- Publication.SourceKeepsSound: takes the changed bars and the first changed day as given; the comparison of incoming with stored bars is not modelled.
- Calendar.PreviousOpenDates: the query's market filter is not modelled.
- Delivery.RecoveryOutcome: error text, content and the send time travel with the outcome and are not modelled.
- AlertReplay.CatchUpIsExact: events of one target are read in log order, which is the query's order by day and sequence for valid events.
