/** What becomes of a location fix: exactly when each answer is given, and what it leaves behind. */
module RideAdmission {
  import opened Prelude
  import opened RideRecorder
  import opened RideRecording
  import opened RideProtocol
  import opened RideCommands
  import opened LocationLedger
  import opened SpeculativeRoute
  import opened RideReports

  // ---------------------------------------------------------------------------------------------
  // Route policy
  // ---------------------------------------------------------------------------------------------

  predicate Timely(r: Recorder, sample: Sample) {
    r.activeStartedAt.None? || r.activeStartedAt.value <= sample.at
  }

  predicate Precise(sample: Sample) {
    sample.accuracyMm.None? || sample.accuracyMm.value <= MAX_ACCURACY_MM
  }

  predicate Newer(r: Recorder, sample: Sample) {
    r.latest.None? || r.latest.value.at < sample.at
  }

  /** Route policy: in the active interval, precise, newer than the last observation and reachable from it. */
  predicate Passes(r: Recorder, fix: Fix) {
    && r.generation.Some? && Timely(r, fix.sample) && Precise(fix.sample)
    && Newer(r, fix.sample) && (r.latest.Some? ==> !fix.jump)
  }

  /** The verdict names the first rule a fix breaks; a fix that breaks none is admitted as it is. */
  lemma VerdictsAreExact(r: Recorder, fix: Fix)
    ensures var (verdict, admitted) := AdmitFix(r, fix);
            && (admitted.Some? <==> Passes(r, fix)) && (verdict.Accepted? <==> Passes(r, fix))
            && (admitted.Some? ==>
                  admitted.value == Admitted(Point(fix.sample, fix.context), r.generation.value))
            && (verdict.AccuracyTooLow? <==> r.generation.Some? && Timely(r, fix.sample) && !Precise(fix.sample))
            && (verdict.Duplicate? <==>
                  r.generation.Some? && Timely(r, fix.sample) && Precise(fix.sample) && r.latest == Some(fix.sample))
            && (verdict.UnrealisticJump? <==>
                  && r.generation.Some? && Timely(r, fix.sample) && Precise(fix.sample) && Newer(r, fix.sample)
                  && r.latest.Some? && fix.jump)
  {
  }

  /** After a continuing batch the last sample is the observation, unless a newer one was already known. */
  lemma {:induction false} BatchIsObserved(r: Recorder, samples: seq<Admitted>)
    requires Anchored(r) && Continues(r, samples) && samples != []
    ensures var (r', last) := (RecordAll(r, samples), samples[|samples| - 1].point.sample);
            && r'.lastMonotonic == Max(r.lastMonotonic, last.at)
            && r'.latest == (if Newer(r, last) then Some(last) else r.latest)
    decreases |samples|
  {
    FirstIsRecorded(r, samples);
    if |samples| == 1 {
      assert RecordAll(r, samples) == Record(r, samples[0]);
    } else {
      BatchIsObserved(Record(r, samples[0]), samples[1..]);
    }
  }

  // ---------------------------------------------------------------------------------------------
  // Answers
  // ---------------------------------------------------------------------------------------------

  /** Only the observation clocks move, by one revision, and the speculation restarts from there. */
  predicate Observes(s: RecordingState, s': RecordingState, sample: Sample) {
    && s' == s.(recorder := s'.recorder, admissionRecorder := s'.recorder, revision := SaturatingAdd(s.revision, 1))
    && s'.recorder == s.recorder.(latest := Some(sample), lastMonotonic := Max(s.recorder.lastMonotonic, sample.at))
  }

  /** A live fix that repeats the last point of a route with nothing pending. */
  predicate MerelyRepeats(s: RecordingState, fix: Fix) {
    fix.sample.live && fix.repeats && |s.pending| == 0 && |s.recorder.points| > 0
  }

  /** A ready owner of a ride is asked to store this fix. */
  predicate Stores(s: RecordingState, fix: Fix) {
    Passes(Judge(s), fix) && !MerelyRepeats(s, fix)
  }

  /** The ride was started and neither discarded nor imported. */
  predicate TakesSamples(state: Option<Lifecycle>) {
    state.Some? && state.value !in {Draft, Discarded, Imported}
  }

  /** Why a fix that passes is neither stored nor observed: the first reason in this order. */
  function MovingError(s: RecordingState, fix: Fix, storage: Storage): Error {
    if MerelyRepeats(s, fix) then
      if s.recorder.pointCount == 0 then InvalidTransition
      else if storage.checkpoint.CheckpointFailed? then StorageFailed
      else StaleCommand
    else if s.nextLocationRequestId == U64_MAX then CommandIdExhausted
    else if !TakesSamples(s.recorder.state) then InvalidTransition
    else StorageFailed
  }

  predicate MovingDecides(s: RecordingState, s': RecordingState, fix: Fix, storage: Storage, r: LocationAdmission) {
    && (r.Rejected? <==> !Passes(Judge(s), fix))
    && (r.Rejected? ==> r.reason == AdmitFix(Judge(s), fix).0)
    && (r.Queued? <==>
          && Stores(s, fix) && s.nextLocationRequestId < U64_MAX && TakesSamples(s.recorder.state)
          && Load(s) < MAX_PENDING_LOCATION_WRITES && storage.ticket.Some?)
    && (r.Queued? ==> r == Queued(s.nextLocationRequestId, Point(fix.sample, fix.context),
                                  SaturatingAdd(s.recorder.pointCount, |OwnPending(s)|)))
    && (r.QueueFull? <==>
          && Stores(s, fix) && s.nextLocationRequestId < U64_MAX && TakesSamples(s.recorder.state)
          && Load(s) >= MAX_PENDING_LOCATION_WRITES)
    && (r.ClockOnly? <==>
          && Passes(s.recorder, fix) && MerelyRepeats(s, fix) && s.recorder.pointCount > 0
          && storage.checkpoint.Applied? && s.recorder.state == Some(Active))
    && (r.ClockOnly? ==> Observes(s, s', fix.sample))
    && (!r.Queued? && !r.ClockOnly? ==> s' == s)
    && (r.Failed? ==> r.error == MovingError(s, fix, storage)) && !r.ParkedFix? && !r.MotionHistoryRetired?
  }

  lemma SpeculationIsCounted(s: RecordingState, next: nat)
    requires Refines(s, next) && s.rideId.Some?
    ensures s.admissionRecorder.pointCount == SaturatingAdd(s.recorder.pointCount, |OwnPending(s)|)
    ensures s.admissionRecorder.state == s.recorder.state && Judge(s).generation == s.recorder.generation
    ensures Anchored(s.admissionRecorder) && s.admissionRecorder.generation == s.recorder.generation
  {
    OnlyOwnSamplesCount(s.recorder, SamplesOf(s.pending));
    BatchIsCounted(s.recorder, OwnPending(s));
    BatchKeepsAnchor(s.recorder, SamplesOf(s.pending));
  }

  /** With nothing pending the two recorders show the same route. */
  lemma IdleRecordersAgree(s: RecordingState, next: nat)
    requires Refines(s, next) && s.rideId.Some? && s.pending == []
    ensures s.admissionRecorder.points == s.recorder.points
  {
    assert RecordAll(s.recorder, []) == s.recorder;
  }

  lemma StartedTakesSamples(state: Option<Lifecycle>)
    ensures SettlesSamples(state) <==> TakesSamples(state)
  {
    match state {
      case None =>
      case Some(lifecycle) =>
        match lifecycle {
          case Active | Paused | Interrupted | Stopped | Saved =>
          case Draft | Discarded | Imported =>
        }
    }
  }

  lemma MovingIsDecided(s: RecordingState, next: nat, fix: Fix, storage: Storage)
    requires Refines(s, next) && s.rideId.Some?
    ensures var (s', r) := AdmitMoving(s, s.rideId.value, fix, storage); MovingDecides(s, s', fix, storage, r)
  {
    VerdictsAreExact(Judge(s), fix);
    SpeculationIsCounted(s, next);
    StartedTakesSamples(s.recorder.state);
    if s.pending == [] {
      IdleRecordersAgree(s, next);
    }
    if Passes(Judge(s), fix) {
      AdmittedIsRecordable(Judge(s), fix.sample, fix.jump, fix.context);
    }
  }

  /** The owner as a parked fix finds it behind its barrier. */
  function Behind(s: RecordingState, answers: map<nat, Reply>): RecordingState {
    if s.pending == [] then s else Settle(s, answers)
  }

  predicate ParkedDecides(s: RecordingState, s': RecordingState, fix: Fix, storage: Storage, r: LocationAdmission) {
    var s1 := Behind(s, storage.answers);
    if s.pending != [] && !storage.barrier then s' == s && r == Failed(StorageFailed)
    else
      && (r.ParkedFix? <==>
            && s1.recorder.state == Some(Active) && fix.sample.live && Passes(s1.recorder, fix)
            && storage.checkpoint.Applied?)
      && (r.ParkedFix? ==> Observes(s1, s', fix.sample))
      && (!r.ParkedFix? ==> s' == s1)
      && (r.Rejected? <==>
            s1.recorder.state != Some(Active) || !fix.sample.live || !Passes(s1.recorder, fix))
      && (r.Failed? ==> r.error == if storage.checkpoint.PointChanged? then StaleCommand else StorageFailed)
      && (r.ParkedFix? || r.Rejected? || r.Failed?)
  }

  lemma ParkedIsDecided(s: RecordingState, fix: Fix, storage: Storage)
    ensures var (s', r) := AdmitParked(s, fix, storage); ParkedDecides(s, s', fix, storage, r)
  {
    VerdictsAreExact(Behind(s, storage.answers).recorder, fix);
  }

  /** Whatever clock moved, no fix taken at or before it passes afterwards. */
  lemma ObservationFences(s: RecordingState, s': RecordingState, sample: Sample, later: Fix)
    requires Observes(s, s', sample) && Passes(Judge(s'), later)
    ensures sample.at < later.sample.at
  {
  }

  // ---------------------------------------------------------------------------------------------
  // Every run
  // ---------------------------------------------------------------------------------------------

  /** The answer to a fix and the owner it leaves, as the owner it found decides them. */
  predicate Decides(s: RecordingState, s': RecordingState, fix: Fix, storage: Storage, r: LocationAdmission) {
    if !s.phase.Ready? then
      s' == s && r == Failed(if s.phase.AwaitingRestore? then NotRestored else NeedsRecovery)
    else if s.rideId.None? then s' == s && r == Failed(NoActiveRide)
    else if fix.motion.Retired? then s' == s && r == MotionHistoryRetired
    else if fix.motion.Parked? then ParkedDecides(s, s', fix, storage, r)
    else MovingDecides(s, s', fix, storage, r)
  }

  lemma AdmissionIsDecided(s: RecordingState, next: nat, fix: Fix, storage: Storage)
    requires Refines(s, next)
    ensures var (s', r) := Admit(s, fix, storage); Decides(s, s', fix, storage, r)
  {
    if s.phase.Ready? && s.rideId.Some? {
      if fix.motion.Parked? {
        ParkedIsDecided(s, fix, storage);
      } else if fix.motion.Moving? {
        MovingIsDecided(s, next, fix, storage);
      }
    }
  }

  /** The storage an admission meets, with every earlier write answered when it waited at the barrier. */
  predicate MeetsStorage(w: World, e: Event, storage: Storage)
    requires e.AdmitLocation?
  {
    && storage.barrier == e.barrier && storage.checkpoint == e.checkpoint
    && (storage.ticket.Some? <==> e.accepted)
    && (Waits(w.state, e.fix) && e.barrier ==> Settle(w.state, storage.answers).pending == [])
    && Grows(w.worker.replies, storage.answers)
  }

  lemma AdmissionMeetsStorage(w: World, e: Event)
    requires Issued(w) && e.AdmitLocation?
    ensures MeetsStorage(w, e, StorageFor(Waited(w, e), e))
  {
    BarrierEmptiesQueue(w, e.choices);
    DrainGrows(w.worker, e.choices);
  }

  /**
   In every run every fix is answered by these rules. A moving fix is queued exactly when it passes route policy,
   does not merely repeat the last point, the ride still settles samples and there is room, and its sequence counts
   the durable points and the pending ones of this recording. A parked or repeated one moves only the observation
   clock. Every other answer changes nothing beyond what the barrier settled.
   */
  lemma FixesAreDecided(run: seq<Event>, e: Event)
    requires e.AdmitLocation?
    ensures var w := Run(NEW_WORLD, run);
            var storage := StorageFor(Waited(w, e), e);
            && Step(w, e).1.Decided? && MeetsStorage(w, e, storage)
            && Decides(w.state, Step(w, e).0.state, e.fix, storage, Step(w, e).1.admission)
  {
    ReachableRefines(run);
    var w := Run(NEW_WORLD, run);
    AdmissionMeetsStorage(w, e);
    StepIsAdmission(w, e);
    AdmissionIsDecided(w.state, w.nextRecording, e.fix, StorageFor(Waited(w, e), e));
  }
}
