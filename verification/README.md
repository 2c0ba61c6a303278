# Market-data recorder: verified model

A Dafny model of the market-data recorder and the two components beside it, the migration engine and the
analysis arithmetic with its gap registry. `dafny verify dfyconfig.toml` checks everything.

The recorder takes frames from a source, archives each one raw, parses and normalizes it, drops duplicates,
checks sequence continuity, judges quality and persists what remains; any sink write may fail. A monitor runs
beside it, sharing its gap detector, heartbeat and state machine. A replay drives the same recorder from a
capture file on a clock of its own. The migration engine splits SQL files, checks their numbering, compares
checksums with a ledger and applies what is pending.

## How it is modelled

- An object that updates itself in the source is a class here (`Recorder`, `DuplicateDetector`, `GapDetector`,
  `Heartbeat`, `StateMachine`, `MonitorTask`, `BatchingSink`, `MigrationRunner`, `InMemoryGapRegistry`,
  `OrderedSink`, `ReplayClock`). Its methods are proved against a function of the value of its fields, and the
  lemmas about whole runs are about those functions.
- What the recorder cannot decide is an input: whether each sink call returns, what the clock reads at each
  place it is read, and the event ids generated. Statements quantify over all of these. `Drive` in
  `StoreOrdering.dfy` replaces the sink's answers by what the batching sink over its stores answers.
- The two tasks interleave at every sink call of the recorder, at every `on_gap` call of the monitor, and
  between checks; a schedule is any sequence of recorder and monitor steps (`Interleaving.dfy`).
- Times are integer microseconds, quantities, prices and latencies exact reals. A frame carries what parsing
  and normalizing its payload yields; hashes and digests are arbitrary functions or opaque values.
- `refused` in a state machine's value says that `TransitionError` was raised. `expired` in the cache, `found` in the
  monitor are bookkeeping the source does not keep.

| file | subject |
|---|---|
| `Recording.dfy` | the pipeline; `Accounts`, `Verdicts`, `Detection`, `Novelty`, `Deliveries`, `RecorderHealth` and `RawFirst` are about its runs |
| `Dedup.dfy`, `Gaps.dfy`, `DataQuality.dfy`, `RecorderStates.dfy` | its parts |
| `StoreSink.dfy`, `StoreOrdering.dfy` | the batching sink, alone and driven by the recorder |
| `LiveReplay.dfy`, `ClockSkew.dfy`, `Replaying.dfy`, `Reproduction.dfy`, `Capture.dfy`, `Clocks.dfy` | two-run statements, replay, capture files |
| `Monitoring.dfy`, `CheckOutcome.dfy`, `Interleaving.dfy`, `Suspensions.dfy`, `Completion.dfy`, `SilenceReporting.dfy`, `HiddenSilence.dfy` | the monitor, alone and interleaved |
| `SqlText.dfy`, `Migrations.dfy` | the migration engine |
| `Percentile.dfy`, `Registry.dfy` | latency percentiles, the gap registry |
| `Events.dfy`, `Sinks.dfy`, `DecimalText.dfy`, `Prelude.dfy` | shared values |

## Where the code and its documentation differ

The model follows the code.

- `services/market_data/gaps.py:121-124`: the reason text counts one message more than `missing_count`. The
  model uses the typed fields.
- `services/market_data/gaps.py:133`: silence is said to be checked by the recorder; the monitor does it.
- `services/market_data/monitor.py:205-212`: a recorder holding old data should not stay HEALTHY. A silence
  already reported is caught only by the staleness limit, so this holds exactly when that limit does not exceed
  the silence threshold (`HiddenSilence.HidesNothingExactly` over all runs; `HiddenSilence.SilenceCanHide` is a
  run that hides one).
- `services/market_data/quality.py:91-92`: a verdict is said to be the same live and replayed. It is exactly when
  the clock does not read before the receipt or the event is invalid anyway (`DataQuality.SameVerdictExactly`,
  `ClockSkew.SameExactlyWhenHarmless` over whole runs; `ClockSkew.SkewedClockShows` is a run that differs).
- `services/market_data/registry.py:47-57`: what overlaps a gap that leaves data missing must declare it. A gap once
  recovered and then retried, or closed again as partial, leaves data missing while its impact stays NONE
  (`Registry.NoImpactExactly`; `Registry.RetriedLosesImpact` is such a run).

## Model

| member | source | states |
|---|---|---|
| `Recording.Recorder.HandleFrame` | services/market_data/recorder.py:131-223 | one frame, with any of its sink calls raising: detectors, counters, state machine and sink calls end as the specification function `Handle` says |
| `Recording.Recorder.ProcessFrame` | services/market_data/recorder.py:162-223 | an archived frame: unparseable, control, not normalizable, or data |
| `Recording.Recorder.AcceptMarketEvents` | services/market_data/recorder.py:225-298 | the events of a frame in order, each dropped as a duplicate, or checked for a gap, judged and stamped with its raw id |
| `Recording.Recorder.AcceptEvent` | services/market_data/recorder.py:236-297 | one event of that loop |
| `Recording.Recorder.Persist` | services/market_data/recorder.py:193-223 | market write, then trader write, then the freshness check; a failed market write ends the frame, a failed trader write does not |
| `Recording.Recorder.CheckFreshness` | services/market_data/recorder.py:300-308 | degrades on a silent heartbeat, else restores HEALTHY from DEGRADED |
| `Recording.Recorder.Open` | services/market_data/recorder.py:120-123 | the four opening transitions; the first is the only one that can be refused |
| `Recording.Recorder.RunOver` | services/market_data/recorder.py:114-129 | a run raises exactly when opening is refused or the last flush fails; otherwise all frames are handled in order and flushed |
| `RecorderHealth.StateAfterFrame` | services/market_data/recorder.py:150-223 | the state after any frame handled while recording: DEGRADED exactly after a failed raw write, a failed write of accepted market events, or a frame overdue at the freshness check; a frame without data leaves the state alone |
| `RecorderHealth.BeatExactly` | services/market_data/gaps.py:212-214 | whatever fails in a run, the heartbeat last heard data at the receipt of the last frame and counted every frame |
| `Accounts.HandlingCalls` | services/market_data/recorder.py:137-220 | a frame makes its raw call first, and any other call only if that returned; every event then handed over references that raw frame |
| `Accounts.MetricsAreConserved` | services/market_data/recorder.py:131-298 | after any run with any failures: received, archived, parsed, invalid and control are the exact numbers of such frames; received = archived + raw failures; seen = duplicates + verdicts; market events written = verdicts exactly when no market write failed; gaps, trader events and failures match the calls made |
| `Verdicts.VerdictsAreCounted` | services/market_data/recorder.py:269-297 | after any run with any failures, each of the three verdict counters is the number of market events handed to the sink with that verdict |
| `Detection.RunsDetect` | services/market_data/recorder.py:131-298 | whatever fails in a run, its cache is that of the duplicate detector over the market records of all archived data frames; its gap positions and the gaps written are those of the gap detector over the records that repeat nothing; and exactly those are handed to the sink, in order, each judged at its own clock reading and referring to its raw frame |
| `Detection.WrittenGapsAreComplete` | services/market_data/recorder.py:249-257 | the gaps a run writes are complete for the events it hands to the sink, stream by stream |
| `Novelty.RunsHandOverExactly` | services/market_data/recorder.py:225-298 | whatever fails in a run, the market events handed over are, in order, those of the records that repeat nothing, each judged at its own clock reading and referring to its raw frame; told by the records alone |
| `Novelty.FirstIsNovel` | services/market_data/dedup.py:111-130 | a record whose stream and number, or stream and digest if it has no number, none before it had is handed over |
| `Novelty.RepeatsExactly` | services/market_data/dedup.py:111-130 | on receipts that never decrease, a record repeats exactly when one of the same stream and number, or digest, was accepted within the window and less than capacity records ago, whatever its other fields |
| `Novelty.FirstsAreHandedOver` | services/market_data/recorder.py:225-298 | in any run the first record of each stream and number, or digest, of the archived frames is handed to the sink |
| `Deliveries.RunsDeliver` | services/market_data/recorder.py:137-220 | whatever fails in a run, every frame received is handed over raw, once and in order; the trader events handed over are exactly the trader records of the archived data frames whose market write did not fail, in order, each referring to its raw frame |
| `RawFirst.OrderedSink.Write` | infrastructure/scripts/acceptance_m1_m2.py:84-102 | each write appends its markers, whether or not the inner write then fails; gaps and flushes leave none |
| `RawFirst.OrderedSink.RawFirstHolds` | infrastructure/scripts/acceptance_m1_m2.py:104-120 | true exactly on logs with a raw marker in which every event marker has a non-empty reference to a strictly earlier raw marker; the failures name a real offender |
| `RawFirst.EveryRunIsRawFirst` | services/market_data/recorder.py:137-160 | every recorder run passes that check exactly when it submitted a frame, whatever writes fail, and all its raw ids differ |
| `RawFirst.LogsExactly` | infrastructure/scripts/acceptance_m1_m2.py:84-102 | the log of any calls holds one raw marker per frame and one event marker per event handed over, in order, each with the id or reference it carries |
| `Sinks.RawIdsDiffer` | services/market_data/recorder.py:138-139 | equal raw ids were made from equal frame counts, whatever the receipt times, and from equal receipt times |
| `Sinks.RawIdReads` | services/market_data/recorder.py:138-139 | a raw id reads back as its count and its receipt time in microseconds, each a numeral without needless zeros |
| `LiveReplay.LiveEqualsReplay` | services/market_data/recorder.py:131-298 | two runs over the same frames, with sink calls ending alike, record the same events but for generated ids, and the same verdicts, gaps, counters and detector states, if each clock reads no earlier than a frame's receipt when its events are validated |
| `LiveReplay.SameHandle` | services/market_data/recorder.py:131-223 | one frame keeps two such runs the same |
| `LiveReplay.SameSignature` | services/market_data/replay.py:64-75 | runs that are the same up to ids have equal signatures |
| `LiveReplay.SignatureExactly` | services/market_data/replay.py:64-75 | two signatures are equal exactly when the market events of the market writes that returned, and the trader events of the trader writes that returned, agree in order in every field besides event id and raw reference |
| `LiveReplay.SameCallsExactly` | services/market_data/replay.py:64-75 | two call histories are the same up to ids exactly when they make the same kinds of calls, ending alike, with raw frames, gaps and events that agree in every field besides event id |
| `DataQuality.StatusIgnoresClock` | services/market_data/quality.py:88-129 | a verdict is the same at any two clock readings at or after the receipt, and INVALID at any earlier one |
| `DataQuality.SameVerdictExactly` | services/market_data/quality.py:88-129 | the verdict at a clock reading is the one at the receipt exactly when the clock does not read before the receipt, or the trade is empty, or the event late |
| `DataQuality.EarlyClockCondemns` | services/market_data/quality.py:116-118 | a sound mark price is INVALID to a clock one microsecond behind and VALID at its receipt |
| `DataQuality.StatusExactly` | services/market_data/quality.py:88-129 | INVALID exactly when an empty trade, a late or a future receipt is listed; else WARNING exactly when anything is; VALID exactly when nothing is |
| `DataQuality.DelaysExactly` | services/market_data/quality.py:99-114 | the late and the ahead finding are listed exactly when the receipt is that long after, or the venue time that far ahead of it and the event not late; for bounds that are not negative never both |
| `DataQuality.OthersExactly` | services/market_data/quality.py:95-129 | empty trades, receipts after the clock and spreads over a tenth of the mid are listed exactly when the quantity, the receipt and the two prices say so |
| `DataQuality.LateAndAhead` | services/market_data/quality.py:99-114 | a trade received ten minutes after its venue time is INVALID, one dated ten minutes ahead WARNING, under bounds of 300 s and 5 s |
| `ClockSkew.SameExactlyWhenHarmless` | services/market_data/recorder.py:131-298 | a live run and a replay of it, sink calls ending alike, record the same up to ids exactly when no event that repeats nothing was judged before its receipt, unless it is INVALID at any reading |
| `ClockSkew.SameDetectionsExactly` | services/market_data/recorder.py:225-298 | however their other sink calls end, two runs that archive the same frames hold the same duplicate cache and gap positions and write the same gaps; they hand over the same market events up to ids exactly when no event that repeats nothing was judged before its receipt, unless INVALID at any reading, the second run being judged on time |
| `ClockSkew.SkewedClockShows` | services/market_data/recorder.py:261-284 | one frame with one mark price, judged a microsecond early, does not replay as recorded |
| `Replaying.RunReplay` | services/market_data/replay.py:118-155 | a replay succeeds exactly on a non-empty session whose receipts never decrease, and is then the recorder run with the clock at each receipt |
| `Replaying.ReplayReproducesLive` | services/market_data/replay.py:97-148 | a replay has the counters, signature and gaps of the live run of the same frames, if no live sink call failed and the live clock never read before a receipt while validating; the replay meets that proviso by itself |
| `Reproduction.ReplayDetectsLive` | services/market_data/replay.py:97-148 | if every raw write of a live run returned, whatever else failed, its replay writes the same gaps, and hands over the same market events up to ids exactly when the live clock was harmless |
| `Reproduction.MonitoredRunReplays` | services/market_data/replay.py:97-148 | every finished interleaving of recorder and monitor has the counters, signature and gaps of its replay, if no sink call failed and the clock never read before a receipt while validating |
| `Replaying.ReplayIsDeterministic` | services/market_data/replay.py:157-191 | two replays of a session agree on counters and signature whatever ids they generate |
| `Replaying.ReplaySigns` | services/market_data/replay.py:64-75 | the signature of a replay has one entry for every market and trader event its counters say was written |
| `Replaying.VerifyDeterminism` | services/market_data/replay.py:157-191 | the comparison finds any replayable session identical, with as many events on either side as the counters say were written, and fails exactly on the others |
| `RecorderHealth.ReplayEndsHealthy` | services/market_data/replay.py:139-148 | a replay ends HEALTHY exactly when the heartbeat limit is not negative or no frame carries data |
| `Clocks.ReplayClock.SetEventTime` | libs/domain/clock.py:121-135 | a time before the current one is refused and changes nothing; any other becomes the current time |
| `Monitoring.MonitorTask.CheckOnce` | services/market_data/monitor.py:126-168 | one uninterrupted check: counters, reported silences, on_gap calls, result and state machine end as specified |
| `Monitoring.MonitorTask.StalestStream` | services/market_data/monitor.py:184-203 | the first of the streams heard longest ago |
| `Monitoring.StalestExactly` | services/market_data/monitor.py:184-203 | the stalest stream was heard longest ago, no stream before it in the order is as old, its age is the time since; there is none exactly when no stream was ever heard |
| `CheckOutcome.HealthyExactly` | services/market_data/monitor.py:94-96 | a check made while recording leaves HEALTHY exactly when the connection is not silent, no stream exceeds the staleness limit and no silence is new; it always leaves HEALTHY or DEGRADED |
| `CheckOutcome.CheckRecords` | services/market_data/monitor.py:126-168 | whatever the monitor remembers, a check passes on exactly the silences new to it, in order, remembers them, and lists them with the stalest stream and whether the connection is silent |
| `CheckOutcome.StateExactly` | services/market_data/monitor.py:205-233 | a check moves HEALTHY to DEGRADED exactly when the connection is silent, else a silence is new, else a stream is too old, the first of these being the reason; DEGRADED to HEALTHY exactly when nothing is wrong; and no other state |
| `CheckOutcome.UninterruptedIsWhole` | services/market_data/monitor.py:126-168 | a check suspended at each on_gap call and resumed with no recorder step in between is one whole check |
| `Monitoring.CheckReveals` | services/market_data/monitor.py:126-221 | whatever the monitor remembers, a check made while recording leaves HEALTHY only if no known stream is silent, if the staleness limit does not exceed the silence threshold |
| `HiddenSilence.HidesNothingExactly` | services/market_data/monitor.py:126-221 | over all sessions and schedules, no check leaves HEALTHY while a stream it knew was silent, exactly when the staleness limit does not exceed the silence threshold |
| `HiddenSilence.SilenceCanHide` | services/market_data/monitor.py:140-168 | with a laxer limit: a schedule of one mark price, a later control frame and two checks, the second leaving HEALTHY although the stream is silent |
| `Interleaving.MachineIsSteady` | services/market_data/monitor.py:205-221 | over every interleaving no undeclared transition is attempted, and from the start on the state is HEALTHY or DEGRADED |
| `Interleaving.MonitorDoesNotInterfere` | services/market_data/monitor.py:126-168 | over every interleaving the recorder has recorded, and stands, exactly as after as many steps with no monitor |
| `Suspensions.StepMakesOneCall` | services/market_data/recorder.py:131-298 | from one suspension to the next the recorder makes at most one sink call, its last act, and is suspended in it |
| `Suspensions.EveryCallIsAwaited` | services/market_data/recorder.py:114-298 | over every interleaving the recorder is suspended in the last sink call it made, if in any |
| `Completion.AloneFinishes` | services/market_data/recorder.py:114-129 | stepping from suspension to suspension ends with exactly what the uninterrupted run records |
| `Completion.CompletedRunsAreUninterrupted` | services/market_data/recorder.py:114-129 | every interleaving in which the recorder finished recorded exactly the uninterrupted run: detectors, counters and sink calls |
| `Completion.EnoughTicksFinish` | services/market_data/recorder.py:114-129 | with enough recorder steps every interleaving finishes, whatever the monitor does |
| `SilenceReporting.OnGapFiresExactlyOnce` | services/market_data/monitor.py:140-158 | over every interleaving on_gap is called at most once per stream and last-seen time, and between checks for exactly the silences some check found |
| `SilenceReporting.HealthyChecksHideNothing` | services/market_data/monitor.py:160-168 | over every interleaving, a check that ends leaving HEALTHY began with no stream silent, if the staleness limit does not exceed the silence threshold |
| `Dedup.DuplicateDetector.IsDuplicate` | services/market_data/dedup.py:111-130 | the answer, the cache and the three counters after one event |
| `Dedup.DuplicateDetector.ExpireBefore` | services/market_data/dedup.py:132-138 | drops from the front while the first entry is older than the window |
| `Dedup.CacheIsLongestSuffix` | services/market_data/dedup.py:111-138 | for non-decreasing receipts the cache is, in order, the longest suffix of the accepted events with at most capacity entries, none older than the window |
| `Dedup.NoneLongerFits` | services/market_data/dedup.py:126-138 | no suffix longer than the remembered one meets both bounds |
| `Dedup.DuplicateExactly` | services/market_data/dedup.py:118-124 | an event is called a duplicate exactly when its identity is in that suffix |
| `Dedup.RedeliveryIsRecognised` | services/market_data/dedup.py:111-130 | an event accepted within the window, with fewer than capacity accepted since, is recognised when it comes again |
| `Dedup.CacheIsSound` | services/market_data/dedup.py:111-146 | for any times: identities are distinct, at most capacity are tracked, they are the latest accepted events in order, and seen = duplicates + tracked + evicted + expired |
| `Gaps.GapDetector.Observe` | services/market_data/gaps.py:82-128 | the stream position and the report after one observation |
| `Gaps.GapDetector.CheckSilence` | services/market_data/gaps.py:130-162 | one open, suspected report per silent stream, in order of first appearance |
| `Gaps.ReportExactly` | services/market_data/gaps.py:108-128 | after any history, a report comes exactly when a number skips past its stream's highest; it names the skipped range and dates it from the stream's previous observation to this one |
| `Gaps.GapsAreComplete` | services/market_data/gaps.py:82-128 | after any interleaving, per stream: the last sequence is the maximum; reported intervals are separated and increasing; they hold exactly the integers between first and maximum that were never a running maximum |
| `Gaps.NeverObservedIsReportedOnce` | services/market_data/gaps.py:82-128 | a number between first and maximum that never arrived lies in exactly one reported interval |
| `Gaps.MissingIsConserved` | services/market_data/gaps.py:53-58 | the missing counts of a stream add up to the range less the strict advances |
| `Gaps.SilenceExactly` | services/market_data/gaps.py:130-162 | the reports of a silence check are exactly the silent streams, each once |
| `Gaps.QuietStreamsExactly` | services/market_data/gaps.py:82-162 | after any history a silence check reports exactly the streams whose last observation is further back than the threshold, each once, open, suspected and dated from that observation |
| `DataQuality.Validate` | services/market_data/quality.py:88-129 | status and findings of one event, findings in the order of the checks |
| `DataQuality.FindingsExactly` | services/market_data/quality.py:97-129 | each finding is listed exactly when what it names is so; a disqualifying one makes the event INVALID; VALID means no finding |
| `DataQuality.SpreadFinding` | services/market_data/quality.py:131-141 | a finding exactly when both sides are quoted with a positive mid and the spread exceeds a tenth of it |
| `RecorderStates.StateMachine.Transition` | services/market_data/state.py:117-132 | succeeds exactly on a declared transition, records it and trims the history; a refused one changes nothing |
| `RecorderStates.StateMachine.Degrade` | services/market_data/recorder.py:336-342 | degrades unless already degraded or not permitted |
| `RecorderStates.HistoryIsRecentPath` | services/market_data/state.py:117-132 | after any moves the kept history is exactly the last transitions taken up to the limit, chained, declared and ending in the current state |
| `RecorderStates.PathShape` | services/market_data/state.py:50-85 | on every path, recording is entered only through CONNECTING, CONNECTED, SUBSCRIBING, and nothing follows FAILED |
| `RecorderStates.EnteredExactly` | services/market_data/state.py:51-85 | the declared transitions by target: from which states each can be entered |
| `StoreSink.BatchingSink.WriteRawFrame` | services/market_data/store_sinks.py:185-208 | the payload object is written first; only then is the index row queued and a due flush made |
| `StoreSink.BatchingSink.WriteMarketEvents` | services/market_data/store_sinks.py:210-213 | events queued in order, age noted, due flush made |
| `StoreSink.BatchingSink.WriteTraderEvents` | services/market_data/store_sinks.py:215-218 | the same for trader events |
| `StoreSink.BatchingSink.FlushBatches` | services/market_data/store_sinks.py:255-295 | raw, market and trader batches in that order; a failing insert keeps its batch and all later ones |
| `StoreSink.BatchingSink.FlushIfItIsDue` | services/market_data/store_sinks.py:301-310 | flushes on a full batch or an old one |
| `StoreSink.RowsAreConserved` | services/market_data/store_sinks.py:185-310 | for any calls and failures, in each table the rows inserted followed by the rows pending are the events of all market calls, of all trader calls, and the frames of the raw calls whose object was written, in order |
| `StoreSink.FlushedRowsAreInserted` | services/market_data/store_sinks.py:255-295 | once a flush returns, all of those rows are inserted |
| `StoreSink.NormalWritesLeaveLittle` | services/market_data/store_sinks.py:297-310 | after a write that returns, fewer than batch_size rows are pending and none is as old as the limit at the due-check, on a clock that does not run backwards |
| `StoreSink.RowsAreDated` | services/market_data/store_sinks.py:185-218 | the time a pending row is taken to wait since is the clock reading of a call that handed it over |
| `StoreSink.EffectInOrder` | services/market_data/store_sinks.py:185-218 | no call of the sink puts a market or trader row before the object and index row it references, given that the events refer to frames whose raw write returned |
| `StoreOrdering.DriveIsTrue` | services/market_data/store_sinks.py:185-310 | when the recorder drives the batching sink, each call ends for the recorder exactly as the stores end it |
| `StoreOrdering.DrivenIsRun` | services/market_data/recorder.py:131-223 | the recorder driving the batching sink makes a run of the recorder over the same frames, so what holds of every run holds of it |
| `StoreOrdering.NoRowBeforeItsFrame` | services/market_data/store_sinks.py:185-310 | no market or trader row is ever inserted before both the object and the index row of its raw frame, whatever store operations fail, the last flush included |
| `StoreOrdering.DrivenRowsAreConserved` | services/market_data/store_sinks.py:185-310 | in each table of a driven run the rows inserted followed by the rows pending are exactly the market events and trader events the recorder handed over, and the frames received whose object was written, in order |
| `StoreOrdering.DrivenRowsAreInserted` | services/market_data/store_sinks.py:255-295 | once the last flush of a driven run returns, exactly those rows are inserted |
| `Capture.LoadSession` | services/market_data/capture.py:230-293 | frames, malformed lines, header and synthetic flag of a file, or its first error: a header misplaced or malformed, an envelope that raises, a venue time past year 9999 |
| `Capture.LinesReadExactly` | services/market_data/capture.py:230-293 | every readable line of a loaded file is one frame, in order: an enveloped one as recorded; a bare one a millisecond after its venue time if that is positive and not before the previous bare receipt, else a millisecond after that receipt, else at the fallback base |
| `Capture.SessionTellsLines` | services/market_data/capture.py:230-293 | the malformed numbers of a loaded session are, in order, exactly the unreadable lines and the envelopes that hold nothing; a header can only be the first line; receipts are synthetic exactly when some line is bare |
| `Capture.TimedBareSpan` | services/market_data/capture.py:352-372 | a bare file whose venue times are all positive and never decrease lasts exactly its last venue time less its first, if all or none are before the cutoff; else its last less the first past it, and a millisecond for each before |
| `Capture.ConstantsAreDates` | services/market_data/capture.py:155-174 | the fallback base, the cutoff and the latest receipt are the microseconds of their calendar dates |
| `Capture.AnchorLeadingFrames` | services/market_data/capture.py:296-332 | leading fallback frames are placed a millisecond apart before the first timed one |
| `Capture.AnchoringPlaces` | services/market_data/capture.py:318-331 | each of the leading frames stands before the first timed one by a millisecond for every frame from it to that one |
| `Capture.AnchoredSpan` | services/market_data/capture.py:296-307 | the session then lasts as long as its timed frames do and a millisecond more per leading frame; a file without a timed frame keeps its duration |
| `Capture.AnchoringKeeps` | services/market_data/capture.py:296-332 | re-anchoring keeps the length, payloads, monotonic readings and every frame from the first timed one on |
| `Capture.AnchoringIsIdempotent` | services/market_data/capture.py:296-332 | re-anchoring twice is re-anchoring once, on any list |
| `Capture.AnchoringKeepsOrder` | services/market_data/capture.py:296-332 | re-anchoring keeps non-decreasing receipts non-decreasing |
| `Capture.LoadKeepsPayloads` | services/market_data/capture.py:230-293 | a loaded session carries the payload of every readable line, once and in the order of the file |
| `Capture.RecordedFilesAreKept` | services/market_data/capture.py:230-332 | a file without bare frames loads with no synthetic receipt, and unless its first receipt is before the cutoff to exactly the frames of its envelopes, payloads and both clock readings |
| `Capture.BareFilesReplay` | services/market_data/capture.py:279-332 | a file of bare frames that loads, with any mix of venue times, has non-decreasing receipts, so its replay never moves the clock back |
| `SqlText.SplitStatements` | libs/storage/migrations.py:47-80 | the one-pass loop returns what removing comments outside strings, splitting at semicolons outside strings, trimming and dropping empties returns, for every text |
| `SqlText.StatementsAreWellFormed` | libs/storage/migrations.py:55-80 | no statement is empty, untrimmed or holds a top-level comment or semicolon; only the last can leave a string open, exactly when the text does |
| `SqlText.SplitIsNormalForm` | libs/storage/migrations.py:55-80 | joining the statements with semicolons and splitting again gives them back, for every text |
| `SqlText.PiecesJoinBack` | libs/storage/migrations.py:55-80 | splitting at top-level semicolons loses only those semicolons |
| `SqlText.TrimExactly` | libs/storage/migrations.py:55-80 | trimming takes the white space off both ends and nothing else |
| `SqlText.SpacesExactly` | libs/storage/migrations.py:55-80 | white space is exactly the 29 code points that `str.strip` removes |
| `Migrations.ChecksumIgnoresLineEndings` | libs/storage/migrations.py:95-102 | a text without carriage returns has the same checksum when checked out with CR LF |
| `Migrations.ChecksumTellsLines` | libs/storage/migrations.py:95-102 | for a hash without collisions, two texts have equal checksums exactly when they read the same line by line, CR LF, CR and LF each one line end |
| `Migrations.ChecksumTellsTexts` | libs/storage/migrations.py:95-102 | for such a hash, two texts without carriage returns have equal checksums exactly when they are the same text |
| `Migrations.Discover` | libs/storage/migrations.py:105-155 | the migrations of a directory, or the first of the five errors |
| `Migrations.DiscoveryExactly` | libs/storage/migrations.py:136-155 | accepted exactly when the directory exists, every visible file is numbered, there is one, and the versions in order are 001, 002, ... |
| `Migrations.DiscoveryErrors` | libs/storage/migrations.py:113-153 | any other directory is refused for, in this order: being missing, a file without a number, no numbered file, a number twice, and otherwise a number missing or out of order |
| `DecimalText.Pad3Exactly` | libs/storage/migrations.py:148-149 | an expected version is at least three digits that read back as its number, with no zero in front of more than three |
| `Migrations.MigrationRunner.Plan` | libs/storage/migrations.py:183-216 | the pending migrations, or why planning refuses |
| `Migrations.MigrationRunner.ExecuteAll` | libs/storage/migrations.py:231-237 | statements in order up to the first failure |
| `Migrations.MigrationRunner.ApplyOne` | libs/storage/migrations.py:230-239 | one migration: its statements, then its ledger row, or the failure between |
| `Migrations.MigrationRunner.Apply` | libs/storage/migrations.py:218-240 | ledger, execution log and result of an apply call with arbitrary failures |
| `Migrations.PlanExactly` | libs/storage/migrations.py:191-216 | against a ledger 001..k planning succeeds exactly when files 001..k are there with the recorded checksums, and then everything after k is pending |
| `Migrations.LedgerStaysSound` | libs/storage/migrations.py:218-240 | after any calls, failures and directory edits the ledger is exactly 001..k, and is the rows the execution log recorded, in order |
| `Migrations.RowsRecordFiles` | libs/storage/migrations.py:218-262 | every row recorded in any history was recorded by one call from one file of that call's directory: it holds the version, name and checksum of the file, and in that call all statements of the file had run right before it |
| `Migrations.LedgerRecordsFiles` | libs/storage/migrations.py:218-262 | row k of the ledger is numbered k + 1 and holds the name and checksum of a file some call applied |
| `Migrations.CallsExecuteExactly` | libs/storage/migrations.py:218-240 | in any history a refused or dry call changes nothing; any other executes the statements and rows of the files after the ledger, in order, up to the first call to execute that fails, and nothing else; it succeeds exactly when none fails |
| `Migrations.LedgerOnlyGrows` | libs/storage/migrations.py:218-240 | ledger rows are never changed or removed by later calls |
| `Migrations.PastPlanExactly` | libs/storage/migrations.py:183-216 | in any history a call gets past planning exactly when the directory is well numbered and still holds 001..k unchanged |
| `Migrations.RefusedExactly` | libs/storage/migrations.py:183-216 | over any history, a well-numbered directory is refused as modified exactly when one of its files 001..k differs in some line from the text that was applied, for a hash without collisions; as having lost files exactly when it has fewer than k and none differs |
| `Migrations.ApplyIsIdempotent` | libs/storage/migrations.py:218-240 | a successful apply repeated on the same directory executes and applies nothing |
| `Percentile.PercentilesAreOrdered` | services/market_data/acceptance.py:301-320 | min <= P(f) <= P(g) <= max for f <= g |
| `Percentile.Extremes` | services/market_data/acceptance.py:311-320 | P(0) is the minimum and P(1) the maximum |
| `Percentile.PercentileAt` | services/market_data/acceptance.py:311-320 | of n + 1 values P(k/n) is the k-th smallest, and between neighbouring ranks P moves linearly |
| `Percentile.PercentileDivides` | services/market_data/acceptance.py:311-320 | of n + 1 values, more than f * n are at most P(f), and more than n - f * n are at least P(f) |
| `Percentile.OrderDoesNotMatter` | services/market_data/acceptance.py:311-320 | samples with the same multiset have the same percentiles |
| `Percentile.OffsetMovesPercentile` | services/market_data/acceptance.py:301-320 | adding a constant to every value adds it to every percentile |
| `Percentile.Summarise` | services/market_data/acceptance.py:336-371 | count, extremes, four percentiles in order and the number of negatives of a stream |
| `Registry.InMemoryGapRegistry.RegisterGap` | services/market_data/registry.py:200-219 | registering an id again returns the stored gap and changes nothing |
| `Registry.InMemoryGapRegistry.CloseGap` | services/market_data/registry.py:221-256 | closes a registered gap; refuses an unknown id and a recovery that ends before it starts |
| `Registry.InMemoryGapRegistry.RecordAttempt` | services/market_data/registry.py:258-269 | counts an attempt and reopens the gap; refuses an unknown id |
| `Registry.Summarise` | services/market_data/registry.py:274-293 | counts by status and stream and the longest closed duration |
| `Registry.SummaryIsFaithful` | services/market_data/registry.py:143-158 | total = open + recovered + partial + unrecoverable = sum by stream; missing data is reported exactly when some gap leaves data missing; longest is the maximum closed duration |
| `Registry.RunIsSound` | services/market_data/registry.py:200-269 | after any operations ids are distinct and every RECOVERED gap ends at or after its start with impact NONE |
| `Registry.NoImpactExactly` | services/market_data/registry.py:221-269 | after any operations a gap has impact NONE exactly when it was once closed as recovered; it then leaves data missing exactly when its status is no longer RECOVERED |
| `Registry.HeldExactly` | services/market_data/registry.py:200-269 | after any operations a gap is held for exactly the ids ever reported, as first reported but for the end last given, the status and resolution last given, the attempts counted, and impact NONE once recovered |
| `Registry.RefusedExactly` | services/market_data/registry.py:221-269 | an operation is refused exactly when no gap was ever reported under its id, or it would close one as recovered before the start first reported |
| `Registry.RetriedLosesImpact` | services/market_data/registry.py:258-269 | a gap registered, recovered and retried leaves data missing with impact NONE |
| `Registry.GapsPersist` | services/market_data/registry.py:200-269 | no gap is ever removed, and its id, stream and start never change |

## Left out

- Class methods that are interrupted: `HandleFrame` and `CheckOnce` run without interruption, and the interleaving of the two tasks is modelled on the values of their objects, one stretch between suspensions at a time (`Completion.AloneFinishes` joins the two for the recorder).
- Sockets, object store, database clients, health checks, settings, logging and report rendering: input and output. A sink call is an operation that returns or raises, and an insert is atomic.
- JSON and the shape checks of a capture line, file names against their pattern, and the directory listing: lines, entries and payloads arrive already classified.
- `Recording.Recorder.HandleFrame`: does not model a `write_gap` that raises, or `normalize` raising anything but `NormalizationError`; neither is caught, and either ends the run.
- `Recording.Recorder.ProcessFrame`: `normalize` succeeds or raises `NormalizationError`; schema errors, which `services/market_data/recorder.py:180-188` does not catch, are not modelled.
- `Recording.Recorder.AcceptMarketEvents`: `write_gap` at `services/market_data/recorder.py:257` is taken to succeed.
- `Recording.Recorder.AcceptEvent`: the same.
- `Recording.Recorder.RunOver`: a run ended by the source, by `write_gap` or by an uncaught `normalize` error is not modelled.
- `Percentile.Summarise`: the summary of one stream, without mean, standard deviation or rounding to three places.
- `Capture.LoadSession`: lines arrive decoded and classified, and venue times as integers of milliseconds; JSON decoding, the shape checks, a missing file and the binary rounding of `services/market_data/capture.py:364` are not modelled.
- The batching sink's own gap table.
- `on_gap` raising, or being absent: the model takes it to be set and to return.
- Gap ids, the texts of findings and reasons, and source and venue names: enumerations or nothing stand for them. The registry takes the id as an argument.
- String keys joined with `:` or `/` are modelled as tuples, which supposes that asset names hold neither.
- SHA-256, `Decimal` contexts and floating point: hashes are arbitrary functions, arithmetic is exact.
- The content digest of an event: quantities of the two quote sides are not part of it, and no claim is made that it separates different quotes.
- `report_disconnect`, `Heartbeat.reset`, `open_gaps`, `SessionWriter`, the text of the first divergence, schema and user analysis, and the acceptance decisions: settled by reading one branch.
- Receipts of files that mix bare and enveloped frames: only bare frames advance the previous receipt, so no order is claimed.
- Time-based flushing in a quiet period: the due-check is reached only from writes.
- Edits to the directory while one apply call is running: the directory is read once per call.
- A ledger changed by anything but the runner: histories start from an empty ledger.
- The state machine's `on_transition` callback.
