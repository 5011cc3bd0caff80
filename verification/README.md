# Verified core of cutout

A Dafny model of the parts of the cutout ride recorder whose correctness spans many calls, with
proofs about every run of them.

**Ride recording** (`RideRecorder`, `RideRecording`, `RideProtocol`, `RideCommands`, `LocationLedger`,
`SpeculativeRoute`, `DurableLifecycle`, `DurableRoute`, `RideClock`, `RidePublication`, `RideReports`,
`RideAdmission`, `RideWitnesses`). The owner of the current ride keeps an in-memory projection beside a first-in-
first-out database worker. Lifecycle commands take a lease one at a time, queue durable work and publish after the
commit; an outcome that could not be observed forces a restoration. Location fixes are admitted against a speculative
recorder while their writes are pending. `RideRecordingApplication` is the owner, with the source's fields updated in
place; each of its methods is proved equal to a function on the owner's state, and `RideProtocol.Step` puts those
functions beside an explicit worker whose verdicts and lost replies are chosen freely. The theorems hold for every
sequence of events: command exclusivity and recovery, token fencing, exactly when and what a finished command
publishes, conservation of location writes and the truth of what is reported about them, the fate of every fix,
refinement of the durable recorder by the speculative one, agreement of lifecycle and of route with what is committed,
and the logical clock.

**Activity work queue** (`RideActivity`, `ActivityProgress`). Request fences, one worker slot, one replaceable
presentation and one terminal obligation.

**BTLE bridge and reconnect driver** (`ApplicationQuery`, `TransportWrite`, `QueryCompletion`, `Reconnect`,
`LinkWrites`, `LinkTimeline`). Fragmentation, native receipts that survive errors, deadlines and a dropped driver,
clock sampling, and aggregation over links.

**Capture writer** (`CaptureWriter`, `CaptureOutcomes`). The four-state writer slot and its transactional header
updates.

**Three algorithms**: the BMS voltage summary and the history it reads (`BatteryPage`, `BmsHistory`), the framing
behind the replay-decoder fingerprint (`DecoderFingerprint`) and binary-search rounding (`Rounding`).

Environment choices (what the worker does, whether a reply arrives, clock readings, transport outcomes) are
parameters of events and functions, so no clock, disk or radio appears in the model.

## Findings

Where an expected property does not hold of the code, the model keeps the code: a lemma says exactly when the property
holds, and another exhibits an input or a run in which it fails.

- Dropping a prepared transition after its storage work is queued leaves the owner ready while storage may move on
  (`DurableLifecycle.DroppedTransitionMayDisagree`, `RideWitnesses.DroppedTransitionDisagrees`); a dropped start is
  harmless to the current ride.
- Losing the answer to a stored location write keeps its point out of the projection, and no recovery is requested. Until
  the next restoration memory misses exactly the lost answers (`DurableRoute.CheckpointMissesLostAnswers`,
  `DurableRoute.LostAnswerHidesPoint`, `RideWitnesses.LostAnswerDisagrees`).
- A token outlives a finished transition or stop exactly when the generation has saturated
  (`RideCommands.OldTokensAreFenced`, `RideCommands.FenceHoldsBelowSaturation`, `RideWitnesses.SaturatedTokenSurvives`).
- The clock offset can grow at Resume, exactly when the recording is ahead of logical time
  (`RideClock.OffsetGrowsExactlyWhenAhead`, `RideClock.OffsetsGrowOnlyWhenAhead`, `RideWitnesses.OffsetCanGrow`).
- After Discard the speculative recorder keeps the points of cleared writes that had not settled
  (`SpeculativeRoute.DiscardKeepsSpeculation`, `RideWitnesses.DiscardLeavesSpeculation`); nothing uses them
  (`SpeculativeRoute.DiscardedRideAdmitsNothing`).
- `latest_request_id` is not monotone (`RideActivity.LatestRequestIdDecreases`, `RideActivity.LatestRequestIdCanDecrease`),
  and a projection can revive a presentation behind the terminal fence (`RideActivity.OnlyProjectionsRevive`,
  `RideActivity.ProjectionSelection`, `RideActivity.SharedIdentifierRevivesPresentation`).
- An overwriting metadata update that is refused while recording, or made after the writer was detached, leaves the
  retained metadata ahead of the accepted header (`CaptureWriter.AcceptedHeaderIsRetained`,
  `CaptureWriter.RefusedOverwriteBreaksAgreement`, `CaptureWriter.LateOverwriteBreaksAgreement`).
- The external loss of a link can be stamped before a slow write of the same link (`Reconnect.LinkRecordsAreOrdered`,
  `Reconnect.LossMayPrecedeSlowWrite`).
- An identity reported by several battery pages can retain more than seven readings, and its stabilized value then reads
  the oldest seven of them (`BmsHistory.WindowHoldsNewest`, `BmsHistory.WindowCanMissNewest`).
- Negative zero, and values that round to it, leave the rounding search without a match
  (`Rounding.OnlyNegativeZeroIsUnmatched`).

## Model

| member | source | states |
|---|---|---|
| RideRecorder.BatchIsRecorded | crates/cutout-ride-maps/src/recording.rs:1530-1615 | settling a batch that continues the route appends all of its points in order, within the live bound |
| RideRecorder.BatchIsCounted | crates/cutout-ride-maps/src/recording.rs:1583-1588 | and counts each of them, saturating |
| RideRecorder.BatchEnds | crates/cutout-ride-maps/src/recording.rs:1597-1601 | the route then ends with the batch's last sample, whatever was evicted |
| RideRecorder.OnlyOwnSamplesCount | crates/cutout-ride-maps/src/recording.rs:1544-1550 | samples admitted by another recording never change a recorder |
| RideRecorder.AdmittedIsRecordable | crates/cutout-ride-maps/src/recording.rs:1428-1457 | a sample the recorder admits is strictly newer than its baseline, and can be recorded if and only if the lifecycle settles samples |
| RideRecorder.ResumeFencesOlderSamples | crates/cutout-ride-maps/src/recording.rs:1255-1318 | a resume moves the clock to the latest known time and fences every sample from before it |
| RideRecorder.RestoredClockCoversRide | crates/cutout-ride-maps/src/recording.rs:828-889 | a restored clock covers creation, last event and route, and an active restored ride admits nothing older |
| RideRecorder.RestoredRideIsExact | crates/cutout-ride-maps/src/recording.rs:828-889 | a restored ride keeps the newest points, its clock is one of the times storage knows, and its last observation is the stored one exactly when that is plausible beside clock and route |
| RideRecorder.LifecycleIsTable | crates/cutout-ride-maps/src/lifecycle.rs:148-167 | every event has one target, every state its own set of events, and an ended ride never moves again under any events |
| RideRecording.RideRecordingApplication.constructor | crates/cutout-application/src/ride_recording.rs:118-152 | a new owner awaits restoration with nothing pending |
| RideRecording.RideRecordingApplication.BeginRestoreCommand | crates/cutout-application/src/ride_recording.rs:504-525 | a restoration needs no pending command, takes the lease and closes the owner to other work |
| RideRecording.RideRecordingApplication.BeginStartCommand | crates/cutout-application/src/ride_recording.rs:566-614 | a start needs a ready owner, no pending command and a startable lifecycle; a refusal after reservation spends the identifier only |
| RideRecording.RideRecordingApplication.BeginTransitionCommand | crates/cutout-application/src/ride_recording.rs:681-743 | a transition needs the current token and an allowed event, and carries the realigned stamp and offset |
| RideRecording.RideRecordingApplication.BeginStopCommand | crates/cutout-application/src/ride_recording.rs:836-871 | Stop takes the lease before its storage work exists |
| RideRecording.RideRecordingApplication.FinishRestoreCommand | crates/cutout-application/src/ride_recording.rs:530-559 | publishes the restored ride in one step, or leaves everything as it was on a storage error |
| RideRecording.RideRecordingApplication.FinishStartCommand | crates/cutout-application/src/ride_recording.rs:622-674 | publishes the new ride only for a committed active lifecycle; pending writes are kept |
| RideRecording.RideRecordingApplication.FinishTransitionCommand | crates/cutout-application/src/ride_recording.rs:750-829 | settles answered writes, then publishes on both recorders or demands recovery; Discard clears ride and queue |
| RideRecording.RideRecordingApplication.FinishStopCommand | crates/cutout-application/src/ride_recording.rs:878-955 | the same for Stop, updating the durable recorder in place first; RidePublication.StopIsPublished says when it publishes |
| RideRecording.RideRecordingApplication.PollLocationWrites | crates/cutout-application/src/ride_recording.rs:1533-1650 | the loop settles answered writes in order, stops at the first unanswered one and reports each; RideReports.PollReportsReplies says what it reports |
| RideRecording.RideRecordingApplication.RebuildAdmissionRecorder | crates/cutout-application/src/ride_recording.rs:1644-1648 | the speculative recorder is the durable one with every pending write replayed |
| RideRecording.RideRecordingApplication.AdmitLocation | crates/cutout-application/src/ride_recording.rs:1316-1442 | dispatch of one fix by readiness, ride, motion and the judging recorder |
| RideRecording.RideRecordingApplication.AdmitParkedLocation | crates/cutout-application/src/ride_recording.rs:1347-1382 | a parked fix settles behind the barrier and moves the observation clock only |
| RideRecording.RideRecordingApplication.AdmitClockOnlyLocation | crates/cutout-application/src/ride_recording.rs:1399-1437 | repeated values move the observation clock of an active recording only |
| RideRecording.RideRecordingApplication.QueueLocationWrite | crates/cutout-application/src/ride_recording.rs:1442-1529 | a recordable fix is queued below the bound of 64, and any refusal changes nothing |
| RideCommands.CommandsAreExclusive | crates/cutout-application/src/ride_recording.rs:260-276 | in every run at most one operation is held, it owns the pending command, a pending command always has someone to release it, and no old lease releases a newer command |
| RideCommands.FinishReleases | crates/cutout-application/src/ride_recording.rs:1674-1680 | a finished operation never finds its command taken over, and leaves it released or to its own lease |
| RideCommands.OnlyRestorationRecovers | crates/cutout-application/src/ride_recording.rs:1735-1741 | in every run, from an unknown outcome until a restoration succeeds the owner is not ready, prepares nothing but restorations and admits no fix |
| RideCommands.LostAnswerNeedsRecovery | crates/cutout-application/src/ride_recording.rs:992-1004 | in every run a lost answer to a start, transition or stop demands recovery |
| RidePublication.CommandsArePublished | crates/cutout-application/src/ride_recording.rs:530-955 | in every run a finished command publishes if and only if the worker committed exactly what was prepared (for a restoration any snapshot), the only other refusals being an exhausted counter; it then shows exactly that change and clock, is ready and has released the command, and otherwise shows what it showed |
| RidePublication.TransitionIsPublished | crates/cutout-application/src/ride_recording.rs:750-829 | the same for one transition from any refining owner, with the settled route kept and Discard clearing ride and queue |
| RidePublication.StopIsPublished | crates/cutout-application/src/ride_recording.rs:878-955 | the same for Stop: a committed Stop of the owned ride is always published as Stopped |
| RidePublication.StartIsPublished | crates/cutout-application/src/ride_recording.rs:622-674 | a start publishes if and only if an active ride was committed and a recording number is left, and then shows an empty route from its start time |
| RidePublication.RestorationIsPublished | crates/cutout-application/src/ride_recording.rs:530-559 | a restoration publishes every snapshot below the last generation and shows its ride or none |
| RidePublication.PreparesExactly | crates/cutout-application/src/ride_recording.rs:504-871 | a command is prepared if and only if the owner is idle, the token, lifecycle and phase allow it and the worker takes it, and preparing changes nothing but identifiers and phase |
| RidePublication.RefusalsAreOrdered | crates/cutout-application/src/ride_recording.rs:681-743 | which reason a refused transition is given, and that a refusal spends at most an identifier |
| RidePublication.StopIsSubmitted | crates/cutout-application/src/ride_recording.rs:878-930 | a prepared Stop is queued if and only if its music fence is met and the worker takes it, and is given up otherwise |
| RideCommands.StepMovesGeneration | crates/cutout-application/src/ride_recording.rs:807-811 | the generation advances by one, saturating, exactly with a publication |
| RideCommands.OldTokensAreFenced | crates/cutout-application/src/ride_recording.rs:688-695 | from any world below saturation, a token issued before a successful finish is refused, without effect, in every later world |
| RideCommands.FenceHoldsBelowSaturation | crates/cutout-application/src/ride_recording.rs:810-811 | a published transition or stop fences its own token if and only if the generation was not saturated, and a published Discard always does |
| RideWitnesses.SaturatedTokenSurvives | crates/cutout-application/src/ride_recording.rs:810-811 | an owner at the last generation whose published pause leaves the token it was prepared with valid |
| LocationLedger.DrainAnswersAll | crates/libcutout-persistence/src/storage.rs:3186-3196 | the barrier answers every ticket issued before it |
| LocationLedger.BarrierEmptiesQueue | crates/cutout-application/src/ride_recording.rs:1350-1356 | settling behind the barrier leaves no write pending |
| LocationLedger.SettleKeepsWaiting | crates/cutout-application/src/ride_recording.rs:1614-1643 | settlement neither loses, adds nor reorders a request |
| LocationLedger.WritesAreConserved | crates/cutout-application/src/ride_recording.rs:1448-1471 | in every run reported, settled and pending identifiers are strictly increasing and with the discarded ones are exactly those issued; at most 64 wait |
| LocationLedger.CheckpointReportsAll | crates/cutout-application/src/ride_recording.rs:1597-1604 | after a checkpoint every issued identifier is reported or discarded and nothing waits |
| RideReports.SettlementReportsFates | crates/cutout-application/src/ride_recording.rs:1614-1643 | a settlement reports, in order, the worker's reply to every write of the answered prefix, applied exactly if accepted and of this recording |
| RideReports.SettlementKeepsRest | crates/cutout-application/src/ride_recording.rs:1614-1621 | and keeps exactly the writes behind the first unanswered one waiting |
| RideReports.SettlementRecordsAccepted | crates/cutout-application/src/ride_recording.rs:1622-1634 | it records exactly the accepted writes of this recording and advances the revision once for each |
| RideReports.PollReportsReplies | crates/cutout-application/src/ride_recording.rs:1533-1643 | in every run a poll reports exactly the settled outcomes and the fates of the answered prefix; each carries the ride, point and sequence its caller was given and the worker's reply at its ticket, and an accepted write of the current recording, and no unaccepted one, is applied |
| RideReports.CheckpointReportsReplies | crates/cutout-application/src/ride_recording.rs:1597-1604 | in every run a checkpoint reports the reply to every waiting request |
| RideReports.OutcomesAreKept | crates/cutout-application/src/ride_recording.rs:1350-1356 | in every run a step that does not report keeps the settled outcomes and adds exactly the fates that a committed change or a barrier settles |
| RideReports.ReportAnswersRequest | crates/cutout-application/src/ride_recording.rs:1505-1529 | across any run, what a poll reports for an identifier is about the ride, point and sequence that its admission answered, and is the reply to the job queued then |
| SpeculativeRoute.AcceptedOwnWriteIsApplied | crates/cutout-application/src/ride_recording.rs:1622-1633 | a settled write is applied if and only if storage accepted it and this recording admitted it |
| SpeculativeRoute.SettlementAppendsAccepted | crates/cutout-application/src/ride_recording.rs:1614-1643 | settlement appends exactly the accepted writes of the answered prefix, in order, around rejected and lost ones |
| SpeculativeRoute.AdmittedFixIsQueued | crates/cutout-application/src/ride_recording.rs:1448-1471 | a fix that passes route policy is queued if and only if there is room and the worker takes it, and reported full if and only if 64 requests wait |
| RideAdmission.VerdictsAreExact | crates/cutout-ride-maps/src/recording.rs:59-92 | a fix is admitted if and only if it is in the active interval, precise, newer than the last observation and reachable from it; otherwise the verdict names the first rule it breaks |
| RideAdmission.BatchIsObserved | crates/cutout-ride-maps/src/recording.rs:1583-1615 | after a batch the clock and the last observation are those of its last sample, unless later ones were known |
| RideAdmission.FixesAreDecided | crates/cutout-application/src/ride_recording.rs:1316-1529 | in every run: exactly when a fix is queued, full, clock-only, parked, rejected or failed and why, with which identifier, point and sequence, and that all other answers change nothing beyond what the barrier settled |
| RideAdmission.ObservationFences | crates/cutout-application/src/ride_recording.rs:1374-1382 | after a parked or repeated fix no fix taken at or before it passes |
| SpeculativeRoute.TransitionCommutes | crates/cutout-application/src/ride_recording.rs:789-805 | applying a transition before or after pending samples settle gives the same recorder, up to the start of the active interval |
| SpeculativeRoute.SpeculationRefinesDurable | crates/cutout-application/src/ride_recording.rs:1515-1524 | in every reachable state with a ride the speculative route is the durable one followed by this recording's pending writes in order; lifecycle, recording and count agree |
| SpeculativeRoute.PollAppendsAccepted | crates/cutout-application/src/ride_recording.rs:1533-1536 | in every run a poll extends the route by exactly the accepted answered writes of this recording |
| SpeculativeRoute.DiscardKeepsSpeculation | crates/cutout-application/src/ride_recording.rs:818-826 | after a published Discard the two routes agree if and only if no write of this recording was still pending |
| SpeculativeRoute.DiscardedRideAdmitsNothing | crates/cutout-application/src/ride_recording.rs:1323-1324 | in every run from a published Discard until a start or restoration, every fix is refused without effect |
| RideWitnesses.DiscardLeavesSpeculation | crates/cutout-application/src/ride_recording.rs:818-826 | a reachable run in which a fix admitted behind a Discard outlives it in the speculation |
| DurableLifecycle.LifecycleAgreesWithStorage | crates/cutout-application/src/ride_recording.rs:750-829 | in every run without a dropped queued transition since the last restoration, a ready owner with no pending command shows the committed lifecycle of its ride |
| DurableLifecycle.RestorationIsCurrent | crates/cutout-application/src/ride_recording.rs:530-559 | in every run a successful restoration shows the committed lifecycle and no lifecycle work is left in the queue |
| DurableLifecycle.DroppedTransitionMayDisagree | crates/cutout-application/src/ride_recording.rs:266-276 | after dropping a queued transition, whatever else is queued, the owner stays ready and once the worker has caught up it agrees if and only if the worker did not commit another lifecycle for it |
| DurableLifecycle.NewestChangeDecides | crates/cutout-application/src/ride_recording.rs:266-276 | with one change at the end of the queue, its verdict alone decides agreement |
| RideWitnesses.DroppedTransitionDisagrees | crates/cutout-application/src/ride_recording.rs:266-276 | a reachable run in which a dropped pause commits behind a ready owner |
| DurableRoute.AnswerExtends | crates/libcutout-persistence/src/storage.rs:2569-2585 | answers arrive in ticket order, so each extends the accepted writes at their end |
| DurableRoute.RouteAgreesWithStorage | crates/libcutout-persistence/src/storage.rs:10344-10420 | in every run without a lost stored answer since the last restoration, the newest committed points are the route in memory followed by the accepted writes not yet settled |
| DurableRoute.CommittedPointsAreAccounted | crates/libcutout-persistence/src/storage.rs:10344-10420 | in every run, without exception, the committed points of the ride are those counted in memory, those answered and unsettled, and those whose answers were lost since the last restoration |
| DurableRoute.CheckpointMissesLostAnswers | crates/cutout-application/src/ride_recording.rs:1597-1604 | after every checkpoint memory misses exactly the lost answers, so the counts agree if and only if none was lost |
| DurableRoute.CheckpointedRouteIsStored | crates/cutout-application/src/ride_recording.rs:1597-1604 | after a checkpoint the route in memory is the committed one |
| DurableRoute.RestoredRouteIsStored | crates/cutout-application/src/ride_recording.rs:1844-1902 | in every run a successful restoration shows the committed route, whatever was lost before |
| DurableRoute.LostAnswerHidesPoint | crates/cutout-application/src/ride_recording.rs:1616-1634 | after one stored write is polled the routes are equal if and only if its answer was not lost; the owner stays ready |
| RideWitnesses.LostAnswerDisagrees | crates/cutout-application/src/ride_recording.rs:1616-1634 | a reachable run in which a lost answer leaves the routes apart and the owner ready |
| RideClock.ResumeRealigns | crates/cutout-application/src/ride_recording.rs:700-716 | Resume is stamped at the later of raw and recorded clock |
| RideClock.OffsetGrowsExactlyWhenAhead | crates/cutout-application/src/ride_recording.rs:705-712 | the offset grows at Resume if and only if the recording is ahead of logical time |
| RideClock.StampsFollowTheRide | crates/cutout-application/src/ride_recording.rs:700-738 | in every run the stamps of a ride never decrease while the raw clock runs forward between resumes; other changes keep the offset |
| RideClock.OffsetsGrowOnlyWhenAhead | crates/cutout-application/src/ride_recording.rs:700-712 | in every run the offset of a ride never grows if and only if no resume found the recording ahead of logical time |
| RideWitnesses.OffsetCanGrow | crates/cutout-application/src/ride_recording.rs:700-712 | a reachable run in which a fix ahead of the raw clock makes the offset grow |
| RideActivity.ActivityWorkQueue.AcceptRequest | crates/cutout-application/src/ride_activity.rs:193-203 | accepts exactly identifiers above the presentation and terminal fences, and moves only the presentation fence and the latest identifier |
| RideActivity.ActivityWorkQueue.AcceptPresentationRequest | crates/cutout-application/src/ride_activity.rs:207-251 | accepts above both fences unless a same-session telemetry time is not newer than the disconnect; a new session resets the disconnect and takes the session fence |
| RideActivity.ActivityWorkQueue.NoteSessionStart | crates/cutout-application/src/ride_activity.rs:254-270 | a newer payload of a pending start fulfils it, any other identity raises the session fence |
| RideActivity.ActivityWorkQueue.AcceptLifecycleRequest | crates/cutout-application/src/ride_activity.rs:273-335 | each of the four kinds is admitted against its own fence and moves that fence only, with the stated side effects |
| RideActivity.ActivityWorkQueue.EnqueueLifecycleProjection | crates/cutout-application/src/ride_activity.rs:338-352 | without interference, only the latest scene or transport request is selected and enqueued, and only the transport one may lower the latest identifier |
| RideActivity.ProjectionIsTwoSteps | crates/cutout-application/src/ride_activity.rs:338-352 | the call is its two locked sections one after the other |
| RideActivity.ActivityWorkQueue.PresentationUpdated | crates/cutout-application/src/ride_activity.rs:367-376 | the rendered telemetry time never goes back |
| RideActivity.ActivityWorkQueue.EnqueuePresentation | crates/cutout-application/src/ride_activity.rs:379-394 | the selected identifier runs on an idle worker or replaces the waiting presentation, others are stale |
| RideActivity.ActivityWorkQueue.EnqueueTerminal | crates/cutout-application/src/ride_activity.rs:397-429 | an effect whose identifier is neither the latest request nor the admitted terminal is rejected, otherwise it runs or waits as the obligation, keeping an earlier one, and clears the waiting presentation |
| RideActivity.ActivityWorkQueue.FinishWork | crates/cutout-application/src/ride_activity.rs:432-446 | the obligation first, then the presentation if still selected; ActivityProgress.RunCompletionGrants says exactly when each is granted |
| RideActivity.FencesAreMonotone | crates/cutout-application/src/ride_activity.rs:160-180 | presentation, terminal, scene, background and transport fences never go back in any run |
| RideActivity.LatestRequestIdDecreases | crates/cutout-application/src/ride_activity.rs:193-251 | for every state and step, the latest request identifier goes down if and only if an older observation is accepted or the latest transport request is selected late |
| RideActivity.LatestRequestIdRises | crates/cutout-application/src/ride_activity.rs:338-352 | over any stretch of any run without such a step it never goes back |
| RideActivity.LatestRequestIdCanDecrease | crates/cutout-application/src/ride_activity.rs:338-352 | a three-step run in which it goes down |
| RideActivity.TerminalFencesAccepts | crates/cutout-application/src/ride_activity.rs:193-219 | after an admitted Terminal no accept of an identifier up to it ever succeeds |
| RideActivity.TerminalFencesPresentations | crates/cutout-application/src/ride_activity.rs:379-446 | a presentation older than an admitted Terminal is never afterwards handed to the worker if its identifier is not shared with a projection |
| RideActivity.OnlyProjectionsRevive | crates/cutout-application/src/ride_activity.rs:338-446 | after an admitted Terminal an older presentation is handed over only if a projection has selected its identifier since, however the halves of projections interleave with other calls |
| RideActivity.ProjectionSelection | crates/cutout-application/src/ride_activity.rs:338-394 | a projection selects an identifier if and only if it is the latest transport request, or the latest scene request not below the latest identifier; its second half hands it over if and only if it is still selected and the worker is idle |
| RideActivity.SharedIdentifierRevivesPresentation | crates/cutout-application/src/ride_activity.rs:338-352 | a run in which a projection sharing the identifier revives a presentation |
| RideActivity.TelemetryAndDisconnectsAreOrdered | crates/cutout-application/src/ride_activity.rs:207-325 | within a session disconnects are no earlier than admitted telemetry and disconnects, and later telemetry is strictly newer |
| RideActivity.WorkerIsExclusive | crates/cutout-application/src/ride_activity.rs:379-446 | in every run an idle worker implies empty waiting slots, and outstanding grants equal occupancy |
| RideActivity.OnlyTheOccupantCompletes | crates/cutout-application/src/ride_activity.rs:432-446 | the worker slot changes hands only by completion of its occupant |
| RideActivity.ObligationIsPreserved | crates/cutout-application/src/ride_activity.rs:397-446 | a queued terminal effect survives every call and is handed over unaltered by the next completion, ahead of any presentation |
| RideActivity.TerminalIsRunOrRetained | crates/cutout-application/src/ride_activity.rs:397-429 | an admitted terminal effect runs, is retained, or yields to an earlier obligation |
| ActivityProgress.RunCompletionGrants | crates/cutout-application/src/ride_activity.rs:432-446 | in every run a completion grants the waiting presentation if and only if no obligation waits and it is still the latest request, grants the obligation first, and otherwise frees the worker |
| ActivityProgress.QueuedPresentationIsGranted | crates/cutout-application/src/ride_activity.rs:379-446 | in every run a presentation answered Queued is granted by the next completion unless it was replaced, cleared by a terminal effect or a disconnect, preceded by an obligation or unselected since |
| ActivityProgress.StrayCompletionIsIgnored | crates/cutout-application/src/ride_activity.rs:432-436 | a completion that is not the occupant's changes nothing and grants nothing |
| ActivityProgress.EnqueueExactly | crates/cutout-application/src/ride_activity.rs:379-394 | a presentation runs, replaces the waiting one or is rejected exactly by selection and worker |
| ActivityProgress.TerminalExactly | crates/cutout-application/src/ride_activity.rs:397-429 | a terminal effect is admitted exactly for the latest request or the admitted Terminal, and takes back the waiting presentation |
| ActivityProgress.FencesAreMaxima | crates/cutout-application/src/ride_activity.rs:193-335 | in every run each fence is the largest identifier admitted for it so far |
| ActivityProgress.ObservationsAreAccepted | crates/cutout-application/src/ride_activity.rs:193-251 | in every run an observation is accepted if and only if it exceeds all accepted ones and every admitted Terminal, and telemetry of a running session is newer than its disconnect |
| ActivityProgress.LifecycleRequestsAreAdmitted | crates/cutout-application/src/ride_activity.rs:273-335 | in every run a lifecycle request is admitted, flushed or rejected exactly by the largest identifiers of its kinds and the session |
| ActivityProgress.LifecycleRequestsTakeEffect | crates/cutout-application/src/ride_activity.rs:273-335 | what an admitted lifecycle request changes, field by field, and that a refused one changes nothing |
| ActivityProgress.SessionsBegin | crates/cutout-application/src/ride_activity.rs:207-251 | a presentation begins a session exactly when none is live for its platform and none is pending, and then takes the fence, the pending start and both clocks |
| ActivityProgress.SessionStartsAreNoted | crates/cutout-application/src/ride_activity.rs:254-269 | a session start moves the session fence exactly when it is new, newer and does not fulfil the pending start |
| ActivityProgress.RenderedIsLatest | crates/cutout-application/src/ride_activity.rs:367-376 | in every run the rendered telemetry time is the latest reported |
| TransportWrite.ChunksPartition | crates/cutout-btle/src/bridge.rs:1203-1216 | fragments are non-empty, fit the negotiated limit and concatenate to the payload |
| TransportWrite.ChunkCount | crates/cutout-btle/src/bridge.rs:1203-1216 | the number of fragments is the payload length divided by the limit, rounded up |
| TransportWrite.SubmitFragment | crates/cutout-btle/src/bridge.rs:1280-1349 | one fragment: admission, native call and settlement by completion or drop guard |
| TransportWrite.ProcessTransportWrite | crates/cutout-btle/src/bridge.rs:1183-1278 | the fragment loop computes the specified trace, of which QueryCompletion.QueryIsSentExactly says how far it gets |
| TransportWrite.WritesAreAccounted | crates/cutout-btle/src/bridge.rs:1217-1276 | captured writes are exactly the native successes in payload order, and at most one further call was made |
| TransportWrite.DeliveredBytesArePrefix | crates/cutout-btle/src/bridge.rs:1203-1276 | delivered bytes are a prefix of the payload, the whole exactly on completion, and no fragment exceeds the limit |
| TransportWrite.FragmentsMeetDeadline | crates/cutout-btle/src/bridge.rs:1222-1240 | every query fragment is submitted strictly before its deadline |
| TransportWrite.ReceiptsFollowGrammar | crates/cutout-btle/src/bridge.rs:1183-1349 | for every mix of outcomes receipts are Queued and Submitted per fragment, then nothing, Cancelled, Rejected or SubmissionUnknown; which receipts the session accepts is exact |
| TransportWrite.EvidenceIsSound | crates/cutout-protocols/src/session.rs:686-776 | the session's conclusion about a write matches what the transport may have sent |
| TransportWrite.FreshQueryEvidence | crates/cutout-protocols/src/session.rs:1307-1400 | a fresh query is called unsent only if no native call can have sent a byte |
| QueryCompletion.QueryIsSentExactly | crates/cutout-btle/src/bridge.rs:1203-1276 | for every fresh query of 1 to 32 fragments, fragment k is submitted if and only if it and all before it were admitted inside the window and all before it were taken before the deadline; the write is withdrawn at the first that is not, and a completed one awaits its response from its last settlement |
| QueryCompletion.TimelyQueryIsSent | crates/cutout-btle/src/bridge.rs:1203-1276 | with every answer Ok and every reading in time the whole payload is sent and the response awaited for 2000 ms from the last settlement |
| QueryCompletion.UntouchedIsKnownUnsent | crates/cutout-protocols/src/session.rs:1307-1400 | a fresh query of which nothing can have been sent is called known unsent |
| QueryCompletion.KnownUnsentIsNeverWrong | crates/cutout-protocols/src/session.rs:1322-1400 | for every sequence of receipts, late, repeated or contradictory, a query is called known unsent only if none of its receipts said that bytes may have been sent |
| QueryCompletion.PlainWriteStopsAtFailure | crates/cutout-btle/src/bridge.rs:1203-1276 | a write that is no query is never withdrawn and stops exactly at the first fragment the transport does not take |
| LinkWrites.DeliveredFragmentsAreCaptured | crates/cutout-btle/src/bridge.rs:1217-1276 | for every query and mix of outcomes the fragments delivered by the bridge are exactly the write records the link captures, with the same stamps and lengths, each counted |
| LinkWrites.CapturedBytesArePayload | crates/cutout-btle/src/bridge.rs:1203-1276 | a link captures at most the payload bytes, and all of them if and only if the write completes |
| Reconnect.DriveLink | crates/cutout-btle/src/bridge.rs:677-840 | the nested loops of one link, and the loss with the events the session emits for it, compute its specified records and report |
| Reconnect.ProcessOutputs | crates/cutout-btle/src/bridge.rs:1093-1180 | the output loop computes its specified effect |
| Reconnect.LinkRecordsAreOrdered | crates/cutout-btle/src/bridge.rs:565-581 | within a link records start at the link start, and for every script they run in order if and only if the link was not lost or the loss is stamped no earlier than the record before it |
| Reconnect.LossKeepsOrder | crates/cutout-btle/src/bridge.rs:753-763 | recording a loss keeps sorted records sorted if and only if one past the outer sample is not before the last of them |
| Reconnect.LossMayPrecedeSlowWrite | crates/cutout-btle/src/bridge.rs:916-966 | a script in which the loss is stamped before the slow write it follows |
| Reconnect.CaptureReconnecting | crates/cutout-btle/src/reconnect.rs:166-240 | the reconnect loop aggregates exactly the links driven, or reports the failure |
| Reconnect.LinksStayAfterStart | crates/cutout-btle/src/reconnect.rs:179-233 | every link has records, all at or after its start |
| Reconnect.LinksAreStrictlyOrdered | crates/cutout-btle/src/reconnect.rs:179-233 | all timestamps of a later link exceed all of an earlier one if and only if the earlier one did not reach the largest time |
| Reconnect.LinkTallies | crates/cutout-btle/src/bridge.rs:1093-1276 | a link's counters are its captured records and it issues exactly its commands |
| Reconnect.CommandsAreNotReplayed | crates/cutout-btle/src/reconnect.rs:182-237 | commands go out on the first link only and every link but the last was lost |
| Reconnect.TotalsAreTallied | crates/cutout-btle/src/report.rs:144-172 | merged counters are the saturated number of concatenated records |
| Reconnect.CaptureTotals | crates/cutout-btle/src/reconnect.rs:182-237 | the same for every whole capture |
| Reconnect.EventsAreConcatenated | crates/cutout-btle/src/report.rs:144-172 | the events of all links, those emitted at a loss included, are concatenated in order |
| Reconnect.ReconnectsIffLossCaptured | crates/cutout-btle/src/reconnect.rs:205-233 | the driver reconnects if and only if a loss was captured |
| LinkTimeline.LinkFollowsTimeline | crates/cutout-btle/src/bridge.rs:677-1276 | for every script a link captures exactly the records of a clock-free timeline, in order and at the time they happened, with every event, protocol write and notified byte reported, and its loss one past the last wake-up |
| LinkTimeline.EveryLossIsRetried | crates/cutout-btle/src/reconnect.rs:166-240 | a capture drives attempt after attempt while links are lost and stops only at a link that was not, at a failed reconnection or at the last attempt; a failed one was driven into the attempt whose error it reports |
| LinkTimeline.NextStartIsOnePast | crates/cutout-btle/src/reconnect.rs:207-233 | the next link starts one past the latest record of the link before it |
| LinkTimeline.CaptureTellsAll | crates/cutout-btle/src/report.rs:144-172 | the aggregate report of every capture is what its links told, joined in order |
| CaptureWriter.CaptureWriterService.SetStartMonotonicMs | crates/cutout-application/src/capture_writer.rs:313-328 | the origin is set once and only before recording |
| CaptureWriter.CaptureWriterService.UpdateMetadata | crates/cutout-application/src/capture_writer.rs:1031-1040 | offers the current metadata to a recording writer |
| CaptureWriter.CaptureWriterService.AddAdvertisedService | crates/cutout-application/src/capture_writer.rs:388-399 | overwrites first, then asks the writer |
| CaptureWriter.CaptureWriterService.AddGattFingerprint | crates/cutout-application/src/capture_writer.rs:401-412 | overwrites first, then asks the writer |
| CaptureWriter.CaptureWriterService.SetResolvedIdentity | crates/cutout-application/src/capture_writer.rs:414-427 | overwrites first, then asks the writer |
| CaptureWriter.CaptureWriterService.UpdateResolvedIdentity | crates/cutout-application/src/capture_writer.rs:429-481 | identity and evidence change together or not at all |
| CaptureWriter.CaptureWriterService.UpdateAnnotations | crates/cutout-application/src/capture_writer.rs:483-518 | annotations change only when the writer accepts them |
| CaptureWriter.CaptureWriterService.ReconcileCaptureIdentity | crates/cutout-application/src/capture_writer.rs:270-311 | identity follows one bound connection attempt; CaptureOutcomes says what each change leaves and answers |
| CaptureWriter.CaptureWriterService.Start | crates/cutout-application/src/capture_writer.rs:736-802 | ready becomes recording or completes with the failure |
| CaptureWriter.CaptureWriterService.FinishLocked | crates/cutout-application/src/capture_writer.rs:943-968 | recording becomes complete through a detached writer, anything else is unchanged |
| CaptureWriter.IngressFollowsSlot | crates/cutout-application/src/capture_writer.rs:854-866 | in every run, at rest the location ingress exists exactly while recording |
| CaptureWriter.AcceptedHeaderIsRetained | crates/cutout-application/src/capture_writer.rs:388-517 | in every run, with the halves of overwriting updates interleaved freely, the accepted header has been the retained metadata all along if and only if every overwriting step was made before a header existed, changed nothing, or was accepted in the same call while recording |
| CaptureWriter.LifecycleMovesForward | crates/cutout-application/src/capture_writer.rs:736-968 | slot, terminal result, origin and binding never go back |
| CaptureWriter.RefusedUpdateChangesNothing | crates/cutout-application/src/capture_writer.rs:429-517 | a refused or over-capacity transactional update changes nothing |
| CaptureWriter.AdmittedIdentityIsPublished | crates/cutout-application/src/capture_writer.rs:429-481 | an admitted identity and its evidence are in the header after all earlier entries |
| CaptureWriter.ForeignAttemptIsIgnored | crates/cutout-application/src/capture_writer.rs:270-311 | in every run an attempt other than the bound one changes nothing |
| CaptureWriter.OverwriteAgreement | crates/cutout-application/src/capture_writer.rs:1031-1040 | in every slot an overwriting update keeps agreement if and only if there is no header yet, it changes nothing, or the recording writer accepts it |
| CaptureWriter.OverwriteIsTwoSteps | crates/cutout-application/src/capture_writer.rs:388-427 | an overwriting call is the replacement of its field followed by the offer of the current metadata |
| CaptureWriter.StepAgreement | crates/cutout-application/src/capture_writer.rs:388-517 | the same for every call: transactional updates, start and finish always keep agreement |
| CaptureWriter.AcceptedUpdateRestoresAgreement | crates/cutout-application/src/capture_writer.rs:1031-1040 | any header the recording writer accepts restores agreement |
| CaptureWriter.RefusedOverwriteBreaksAgreement | crates/cutout-application/src/capture_writer.rs:414-427 | a run in which a refused overwrite loses agreement while recording |
| CaptureWriter.LateOverwriteBreaksAgreement | crates/cutout-application/src/capture_writer.rs:1031-1040 | a run in which an overwrite after completion loses it with no writer involved |
| CaptureOutcomes.IdentityUpdateExactly | crates/cutout-application/src/capture_writer.rs:429-481 | an identity update is refused if and only if the capture is over, its evidence does not fit or a recording writer does not accept what is new in it, and a refused one changes nothing |
| CaptureOutcomes.IdentityIsPublished | crates/cutout-application/src/capture_writer.rs:429-481 | an identity update that is not refused leaves exactly that identity, and its evidence appended once, in the metadata, and in the header of a recording if and only if it changes something or the header agreed before |
| CaptureOutcomes.RefusalReasons | crates/cutout-application/src/capture_writer.rs:429-517 | which reason a refused identity or annotation update is given |
| CaptureOutcomes.AnnotationUpdateExactly | crates/cutout-application/src/capture_writer.rs:483-517 | annotations are replaced if and only if that is allowed, fits and is not refused by the writer, and the header follows in the same way |
| CaptureOutcomes.ReconcileAnswers | crates/cutout-application/src/capture_writer.rs:270-311 | a reconciliation answers nothing if and only if the attempt is foreign, the change is unresolved, or an unbound change is an invalidation, and what then becomes of the binding |
| CaptureOutcomes.ResolvedIsPublished | crates/cutout-application/src/capture_writer.rs:270-311 | the bound attempt publishes the identity it resolved with its evidence |
| CaptureOutcomes.InvalidationRevokes | crates/cutout-application/src/capture_writer.rs:299-307 | an invalidation of the bound attempt is refused exactly like an update and otherwise leaves the revoked identity in metadata and header, annotations unchanged |
| CaptureOutcomes.OverwritesChangeOneField | crates/cutout-application/src/capture_writer.rs:388-427 | an overwriting update changes its own field only, within its bound |
| CaptureOutcomes.OverwriteAnswers | crates/cutout-application/src/capture_writer.rs:1031-1040 | what an overwriting update is answered in each slot |
| CaptureOutcomes.StartExactly | crates/cutout-application/src/capture_writer.rs:736-802 | a start takes effect exactly at rest, ready and with an origin, and records the retained metadata as the header |
| CaptureOutcomes.FinishStoresResult | crates/cutout-application/src/capture_writer.rs:943-968 | finishing a recording stores exactly the writer's result |
| CaptureOutcomes.FinishAnswers | crates/cutout-application/src/capture_writer.rs:943-968 | a finish with nothing to do says why, and a completed one the same for ever |
| CaptureOutcomes.OriginIsFirst | crates/cutout-application/src/capture_writer.rs:313-328 | in every run the origin is the first one offered while ready |
| BatteryPage.StabilizedVoltage | crates/cutout-core/src/battery_page.rs:212-220 | computes the median of the first seven samples padded with the first |
| BatteryPage.MedianIsCentral | crates/cutout-core/src/battery_page.rs:212-220 | it is a reading with at most three readings on either side |
| BatteryPage.CentralReadingIsUnique | crates/cutout-core/src/battery_page.rs:212-220 | no other reading is as central |
| BatteryPage.MajorityIsMedian | crates/cutout-core/src/battery_page.rs:212-220 | a value held by four of the seven slots is the result |
| BatteryPage.SelectionBoundsMedian | crates/cutout-core/src/battery_page.rs:212-220 | the result lies within the range of any four slots |
| BatteryPage.ThreeCorruptSamplesCannotMoveMedianOutside | crates/cutout-core/src/battery_page.rs:212-220 | changing any three slots keeps it within the range of the others |
| BatteryPage.FirstReadingHoldsUntilFifth | crates/cutout-core/src/battery_page.rs:212-220 | the first sample is reported until a fifth arrives |
| BatteryPage.Merge | crates/cutout-core/src/battery_page.rs:140-180 | one readback extends the history of exactly the identities it reports |
| BatteryPage.SlotsAreIdentities | crates/cutout-core/src/battery_page.rs:148-163 | a page reports an identity if and only if a slot holds it and it fits 16 bits, with that slot's voltage, and a pack position exactly when that is known and fits |
| BatteryPage.Collect | crates/cutout-core/src/battery_page.rs:137-186 | every identity's samples are exactly its timestamped readings in order |
| BatteryPage.Extremes | crates/cutout-core/src/battery_page.rs:186-200 | true extremes with ties to the smallest index |
| BatteryPage.Summarize | crates/cutout-core/src/battery_page.rs:137-209 | one entry per identity with a reading, true extremes, non-negative saturated spread |
| BmsHistory.BmsTelemetryState.ObserveReadback | crates/cutout-core/src/session_state.rs:915-970 | after any readback the history is exactly the newest seven readbacks of every page since the BMS was last unavailable, in arrival order |
| BmsHistory.BmsTelemetryState.ObservationSummary | crates/cutout-core/src/session_state.rs:898-901 | the summary lists exactly the identities read in those readbacks |
| BmsHistory.HistoryIsRecent | crates/cutout-core/src/session_state.rs:924-970 | over every sequence of readbacks, evicting the oldest of a full page retains exactly the entries with fewer than seven later ones of their page |
| BmsHistory.OnlyCellPagesAreRetained | crates/cutout-core/src/session_state.rs:924-970 | over every sequence of readbacks only timestamped cell pages are retained, each as the newest entry, and anything else leaves or, when unavailable, forgets the history |
| BmsHistory.PageKeepsNewestSeven | crates/cutout-core/src/session_state.rs:940-961 | of every page exactly its newest seven readbacks are retained, or all of them |
| BmsHistory.IdentityReadsNewestPages | crates/cutout-core/src/session_state.rs:898-901 | an identity reported by one page has exactly the readings of the newest seven readbacks of that page |
| BmsHistory.StabilizedOverNewestSeven | crates/cutout-core/src/session_state.rs:898-901 | an identity that one page reports every time retains its newest seven readings, at most seven, and its stabilized value is one of them with at most three window slots on either side |
| BmsHistory.WindowHoldsNewest | crates/cutout-core/src/battery_page.rs:212-220 | for every sequence of readbacks and every identity the stabilized value reads the oldest seven retained readings, which are the newest seven if at most seven are retained and, readings being distinct, only then |
| BmsHistory.WindowCanMissNewest | crates/cutout-core/src/session_state.rs:940-961 | an identity reported by more than seven pages, whose window misses the newest readings |
| DecoderFingerprint.FeedDigest | crates/cutout-protocols/build.rs:85-104 | the loop feeds the domain and then the framed inputs in order |
| DecoderFingerprint.BigEndianDigit | crates/cutout-protocols/build.rs:92-102 | lengths are written with the most significant byte first |
| DecoderFingerprint.DecodeEncode | crates/cutout-protocols/build.rs:85-104 | a decoder recovers every list of inputs from the stream |
| DecoderFingerprint.DigestInputIsInjective | crates/cutout-protocols/build.rs:44-46 | two lists give the same digest input if and only if they are equal |
| DecoderFingerprint.ExtensionAddsInputs | crates/cutout-protocols/build.rs:85-104 | a stream extended by frames has the inputs extended by theirs |
| DecoderFingerprint.WorkspacesAreDistinguished | crates/cutout-protocols/build.rs:47-104 | two workspaces give the same digest input if and only if names and contents are the same |
| Rounding.RoundToI32 | crates/cutout-application/src/location.rs:195-220 | the search returns the nearest integer, saturated, and zero for every value without a match |
| Rounding.RoundsToNearest | crates/cutout-application/src/location.rs:195-220 | no integer is nearer, and ties go away from zero |
| Rounding.RoundingIsOddAndMonotone | crates/cutout-application/src/location.rs:195-220 | rounding is odd, monotone and exact on integers |
| Rounding.OnlyNegativeZeroIsUnmatched | crates/cutout-application/src/location.rs:205-220 | the search ends without a match exactly for values rounded to negative zero |

## Left out

- Ride recording without a database: every write settles at once, so only easy statements would be added.
- Segments, distance, durations, telemetry freshness and the implied-speed check of the recorder: a point carries them as one opaque context, and the verdict of the speed check and "repeats the last point" are inputs of a fix.
- Vehicle association, wheel-motion history and moving-time checkpoints: a fix carries the motion verdict, and a durable observation checkpoint is an input with its three outcomes.
- Restoration with an automatic recovery policy (crates/cutout-application/src/ride_recording/recovery.rs): it changes the owner's state directly when it resumes, saves, discards or replaces the restored ride, publishes up to three generations under one command identifier, and shows a retained pause as Paused while storage holds Interrupted. The runs here restore without it, so agreement with storage is not stated for a ride it has recovered.
- Verified-connection admission (crates/cutout-application/src/ride_recording/verified_connection.rs): it also changes the owner's state directly and publishes once for every mutation of one admission, and is not part of the runs.
- Music history: its policy epochs are not modelled and the Stop fence is one of three inputs.
- The snapshot inside a settled outcome and most fields of a published snapshot: projections of modelled state.
- What the worker commits: a lifecycle commit may reach any lifecycle, which includes the real transition rules; errors other than a lost or late reply are taken to mean that nothing was committed.
- The poll inside a finishing transition is one step with the finish, as its ordering needs; a call interleaved between the two is not modelled.
- LifecycleAgreesWithStorage: excludes runs that drop a queued transition since the last restoration, because agreement then depends on the worker (DroppedTransitionMayDisagree states how).
- RouteAgreesWithStorage: excludes a ride with a stored write whose answer was lost since the last restoration, because the code then hides the point (CommittedPointsAreAccounted has no such exception).
- StampsFollowTheRide: the stamps are those of one ride between a start or restoration and the next, because neither resets the offset.
- Locking: a step of the activity queue is one locked section, and an overwriting metadata update is also given as its two locked sections; every other public call is one step.
- Activity queue: renewal of stale presentations and the snapshot predicates at the top of the file are pure one-liners.
- Bridge: logging, decode classification, endpoint selection, stream export and the identity observer; a wake-up's protocol outputs are inputs.
- MergeSessionReport: merges the counters that the reconnect driver reads; telemetry, firmware, settings, diagnostics and identity fields are left out, because they are plain copies or extensions.
- Capture writer: settings observations, the record and location streams, publication to history and file export; the number of reserved annotation slots is an input.
- BMS current and temperature summaries and the latest readback of every page: iterator expressions with easy statements.
- Fingerprint: the hash function and the collection of input files.
- Location: normalization and freshness of phone locations.
