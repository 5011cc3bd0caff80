/**
 The speculative recorder refines the durable one: in every reachable state it is the durable
 recorder followed by the writes of this recording that are still pending.
 */
module SpeculativeRoute {
  import opened Prelude
  import opened RideRecorder
  import opened RideRecording
  import opened RideProtocol
  import opened RideCommands
  import opened LocationLedger

  /** Equal up to the start of the active interval, which Resume stamps separately on each recorder. */
  predicate Alike(a: Recorder, b: Recorder) {
    a.(activeStartedAt := None) == b.(activeStartedAt := None)
  }

  // ---------------------------------------------------------------------------------------------
  // Transitions commute with pending samples
  // ---------------------------------------------------------------------------------------------

  lemma {:induction false} RecordAllAlike(a: Recorder, b: Recorder, samples: seq<Admitted>)
    requires Alike(a, b)
    ensures Alike(RecordAll(a, samples), RecordAll(b, samples))
    decreases |samples|
  {
    if samples != [] {
      RecordAllAlike(Record(a, samples[0]), Record(b, samples[0]), samples[1..]);
    }
  }

  lemma ApplyAlike(a: Recorder, b: Recorder, previous: Lifecycle, next: Lifecycle, at: U64)
    requires Alike(a, b)
    ensures var (a', b') := (ApplyTransition(a, previous, next, at), ApplyTransition(b, previous, next, at));
            (a'.Some? <==> b'.Some?) && (a'.Some? ==> Alike(a'.value, b'.value))
  {
  }

  lemma RecordCommutes(r: Recorder, sample: Admitted, previous: Lifecycle, next: Lifecycle, at: U64)
    requires ApplyTransition(r, previous, next, at).Some?
    requires r.generation == Some(sample.generation) ==> SettlesSamples(Some(previous)) && SettlesSamples(Some(next))
    ensures var applied := ApplyTransition(Record(r, sample), previous, next, at);
            applied.Some? && Alike(applied.value, Record(ApplyTransition(r, previous, next, at).value, sample))
  {
  }

  /** Whether the samples settle before or after the transition makes no difference to the route. */
  lemma {:induction false} TransitionCommutes(
    r: Recorder, samples: seq<Admitted>, previous: Lifecycle, next: Lifecycle, at: U64)
    requires ApplyTransition(r, previous, next, at).Some?
    requires Own(r, samples) != [] ==> SettlesSamples(Some(previous)) && SettlesSamples(Some(next))
    ensures var applied := ApplyTransition(RecordAll(r, samples), previous, next, at);
            applied.Some? && Alike(applied.value, RecordAll(ApplyTransition(r, previous, next, at).value, samples))
    decreases |samples|
  {
    if samples != [] {
      var r1 := Record(r, samples[0]);
      RecordCommutes(r, samples[0], previous, next, at);
      OwnDependsOnGeneration(r, r1, samples[1..]);
      TransitionCommutes(r1, samples[1..], previous, next, at);
      var t := ApplyTransition(r, previous, next, at).value;
      RecordAllAlike(ApplyTransition(r1, previous, next, at).value, Record(t, samples[0]), samples[1..]);
    }
  }

  // ---------------------------------------------------------------------------------------------
  // The invariant
  // ---------------------------------------------------------------------------------------------

  function OwnPending(s: RecordingState): seq<Admitted> {
    Own(s.recorder, SamplesOf(s.pending))
  }

  /** Recording numbers in use are below the next one. */
  predicate Numbers(s: RecordingState, next: nat) {
    && (s.recorder.generation.Some? ==> s.recorder.generation.value < next)
    && (forall i | 0 <= i < |s.pending| :: s.pending[i].admitted.generation < next)
  }

  /** Pending writes of this recording belong to the current ride. */
  predicate SameRide(s: RecordingState) {
    forall i | 0 <= i < |s.pending| ::
      s.recorder.generation == Some(s.pending[i].admitted.generation) ==> s.rideId == Some(s.pending[i].ride)
  }

  /** The durable side: pending writes of this recording continue its route in order. */
  predicate Orderly(s: RecordingState, next: nat) {
    Numbers(s, next) && SameRide(s) && Anchored(s.recorder) && Continues(s.recorder, OwnPending(s))
  }

  /** The speculative side. A discarded ride keeps its speculation only until the next settlement. */
  predicate Speculates(s: RecordingState) {
    s.rideId.Some? ==> Alike(s.admissionRecorder, RecordAll(s.recorder, SamplesOf(s.pending)))
  }

  predicate Refines(s: RecordingState, next: nat) {
    Orderly(s, next) && Speculates(s)
  }

  // ---------------------------------------------------------------------------------------------
  // Settlement
  // ---------------------------------------------------------------------------------------------

  lemma ContinuesTail(r: Recorder, samples: seq<Admitted>)
    requires Continues(r, samples) && samples != []
    ensures Continues(r, samples[1..])
  {
  }

  /** An accepted write of this recording is always applied, and no other write ever is. */
  lemma AcceptedOwnWriteIsApplied(s: RecordingState, next: nat, result: Reply)
    requires Orderly(s, next) && s.pending != []
    ensures Applies(s, s.pending[0], result) <==>
            result == Stored(Accepted) && s.recorder.generation == Some(s.pending[0].admitted.generation)
  {
    if s.recorder.generation == Some(s.pending[0].admitted.generation) {
      assert SamplesOf(s.pending)[0] == s.pending[0].admitted;
      FirstIsRecorded(s.recorder, OwnPending(s));
    }
  }

  lemma SettleFirstIsOrderly(s: RecordingState, next: nat, result: Reply)
    requires Orderly(s, next) && s.pending != []
    ensures Orderly(SettleFirst(s, result), next)
  {
    var s' := SettleFirst(s, result);
    var first, rest := s.pending[0], SamplesOf(s.pending[1..]);
    assert SamplesOf(s.pending) == [first.admitted] + rest;
    AcceptedOwnWriteIsApplied(s, next, result);
    RecordKeepsAnchor(s.recorder, first.admitted);
    OwnDependsOnGeneration(s.recorder, s'.recorder, rest);
    if s.recorder.generation == Some(first.admitted.generation) {
      assert OwnPending(s) == [first.admitted] + Own(s.recorder, rest);
      assert OwnPending(s)[1..] == Own(s.recorder, rest);
      FirstIsRecorded(s.recorder, OwnPending(s));
      ContinuesTail(s.recorder, OwnPending(s));
    } else {
      assert OwnPending(s) == Own(s.recorder, rest);
    }
  }

  lemma {:induction false} SettleReadyIsOrderly(s: RecordingState, next: nat, answers: map<nat, Reply>)
    requires Orderly(s, next)
    ensures Orderly(SettleReady(s, answers), next)
    decreases |s.pending|
  {
    if s.pending != [] && s.pending[0].ticket in answers {
      SettleFirstIsOrderly(s, next, answers[s.pending[0].ticket]);
      SettleReadyIsOrderly(SettleFirst(s, answers[s.pending[0].ticket]), next, answers);
    }
  }

  lemma SettleRefines(s: RecordingState, next: nat, answers: map<nat, Reply>)
    requires Orderly(s, next)
    ensures Refines(Settle(s, answers), next)
  {
    SettleReadyIsOrderly(s, next, answers);
  }

  /** The answered prefix of the queue, reduced to the accepted writes of one recording. */
  function AcceptedWrites(generation: Option<nat>, pending: seq<PendingLocation>, answers: map<nat, Reply>)
    : seq<Admitted>
  {
    if pending == [] || pending[0].ticket !in answers then []
    else
      (if answers[pending[0].ticket] == Stored(Accepted) && generation == Some(pending[0].admitted.generation)
       then [pending[0].admitted] else []) + AcceptedWrites(generation, pending[1..], answers)
  }

  /**
   What a settlement does to the route: exactly the accepted writes of this recording in the
   answered prefix are appended, in submission order, whatever was rejected or lost between them.
   */
  lemma {:induction false} SettlementAppendsAccepted(s: RecordingState, next: nat, answers: map<nat, Reply>)
    requires Orderly(s, next)
    ensures var accepted := AcceptedWrites(s.recorder.generation, s.pending, answers);
            SettleReady(s, answers).recorder.points == Tail(s.recorder.points + PointsOf(accepted))
    decreases |s.pending|
  {
    if s.pending == [] || s.pending[0].ticket !in answers {
      assert s.recorder.points + PointsOf([]) == s.recorder.points;
    } else {
      var result := answers[s.pending[0].ticket];
      var s1 := SettleFirst(s, result);
      var rest := AcceptedWrites(s.recorder.generation, s.pending[1..], answers);
      AcceptedOwnWriteIsApplied(s, next, result);
      SettleFirstIsOrderly(s, next, result);
      SettlementAppendsAccepted(s1, next, answers);
      if Applies(s, s.pending[0], result) {
        var first := s.pending[0].admitted;
        assert ([first] + rest)[1..] == rest;
        RouteExtends(s.recorder.points, first.point, PointsOf(rest));
      } else {
        assert [] + rest == rest;
      }
    }
  }

  // ---------------------------------------------------------------------------------------------
  // Admission
  // ---------------------------------------------------------------------------------------------

  lemma {:induction false} SamplesOfAppend(pending: seq<PendingLocation>, last: PendingLocation)
    ensures SamplesOf(pending + [last]) == SamplesOf(pending) + [last.admitted]
  {
    if pending == [] {
      assert pending + [last] == [last];
      assert SamplesOf([last]) == [last.admitted] + SamplesOf([]);
    } else {
      SamplesOfAppend(pending[1..], last);
      assert (pending + [last])[1..] == pending[1..] + [last];
    }
  }

  lemma IncreasingAppend(samples: seq<Admitted>, last: Admitted)
    requires Increasing(samples)
    requires samples != [] ==> samples[|samples| - 1].point.sample.at < last.point.sample.at
    ensures Increasing(samples + [last])
  {
    var all := samples + [last];
    forall i, j | 0 <= i < j < |all|
      ensures all[i].point.sample.at < all[j].point.sample.at
    {
      if j == |samples| && i < |samples| - 1 {
        assert samples[i].point.sample.at < samples[|samples| - 1].point.sample.at;
      }
    }
  }

  /** A sample that the speculative recorder records continues the batch. */
  lemma ContinuesAppend(r: Recorder, samples: seq<Admitted>, last: Admitted)
    requires Anchored(r) && Continues(r, samples)
    requires Records(RecordAll(r, samples), last)
    ensures Continues(r, samples + [last])
  {
    BatchKeepsAnchor(r, samples);
    if samples == [] {
      assert samples + [last] == [last];
    } else {
      BatchEnds(r, samples);
      IncreasingAppend(samples, last);
      assert AllOf(r.generation, samples + [last]);
    }
  }

  lemma QueueWriteRefines(s: RecordingState, next: nat, ride: nat, admitted: Admitted, storage: Storage)
    requires Refines(s, next) && s.rideId == Some(ride)
    ensures Refines(QueueWrite(s, ride, admitted, storage).0, next)
  {
    var (s', r) := QueueWrite(s, ride, admitted, storage);
    if r.Queued? {
      var samples := SamplesOf(s.pending);
      var last := s'.pending[|s.pending|];
      SamplesOfAppend(s.pending, last);
      OnlyOwnSamplesCount(s.recorder, samples);
      BatchKeepsAnchor(s.recorder, samples);
      OwnOfAppend(s.recorder, samples, admitted);
      ContinuesAppend(s.recorder, OwnPending(s), admitted);
      RecordAllAppend(s.recorder, samples, admitted);
    }
  }

  lemma ObservedRefines(s: RecordingState, next: nat, fix: Fix)
    requires Refines(s, next) && s.pending == [] && AdmitFix(s.recorder, fix).1.Some?
    ensures Refines(Observed(s, fix.sample), next)
  {
  }

  lemma AdmitParkedRefines(s: RecordingState, next: nat, fix: Fix, storage: Storage)
    requires Refines(s, next)
    requires storage.barrier && s.pending != [] ==> Settle(s, storage.answers).pending == []
    ensures Refines(AdmitParked(s, fix, storage).0, next)
  {
    SettleRefines(s, next, storage.answers);
    if s.pending == [] || storage.barrier {
      var s1 := if s.pending == [] then s else Settle(s, storage.answers);
      if AdmitFix(s1.recorder, fix).1.Some? {
        ObservedRefines(s1, next, fix);
      }
    }
  }

  lemma AdmitRefines(s: RecordingState, next: nat, fix: Fix, storage: Storage)
    requires Refines(s, next)
    requires storage.barrier && Waits(s, fix) ==> Settle(s, storage.answers).pending == []
    ensures Refines(Admit(s, fix, storage).0, next)
  {
    if s.phase.Ready? && s.rideId.Some? {
      if fix.motion.Parked? {
        AdmitParkedRefines(s, next, fix, storage);
      } else if fix.motion.Moving? {
        var admitted := AdmitFix(Judge(s), fix).1;
        if admitted.Some? && IsClockOnly(s, fix) {
          ObservedRefines(s, next, fix);
        } else if admitted.Some? {
          QueueWriteRefines(s, next, s.rideId.value, admitted.value, storage);
        }
      }
    }
  }

  /**
   A moving fix that passes route policy on the judging recorder is never refused by the recorder
   afterwards: it is queued exactly when there is room and the worker takes it.
   */
  lemma AdmittedFixIsQueued(s: RecordingState, next: nat, fix: Fix, storage: Storage)
    requires Refines(s, next) && s.phase.Ready? && s.rideId.Some? && fix.motion.Moving?
    requires AdmitFix(Judge(s), fix).1.Some? && !IsClockOnly(s, fix)
    requires SettlesSamples(s.recorder.state) && s.nextLocationRequestId < U64_MAX
    ensures var r := Admit(s, fix, storage).1;
            && (r.QueueFull? <==> Load(s) >= MAX_PENDING_LOCATION_WRITES)
            && (r.Queued? <==> Load(s) < MAX_PENDING_LOCATION_WRITES && storage.ticket.Some?)
  {
    BatchKeepsAnchor(s.recorder, SamplesOf(s.pending));
    AdmittedIsRecordable(Judge(s), fix.sample, fix.jump, fix.context);
  }

  // ---------------------------------------------------------------------------------------------
  // Lifecycle commands
  // ---------------------------------------------------------------------------------------------

  lemma {:induction false} NoneOwn(r: Recorder, pending: seq<PendingLocation>)
    requires forall i | 0 <= i < |pending| :: r.generation != Some(pending[i].admitted.generation)
    ensures Own(r, SamplesOf(pending)) == []
  {
    if pending != [] {
      NoneOwn(r, pending[1..]);
      assert SamplesOf(pending)[1..] == SamplesOf(pending[1..]);
    }
  }

  /** A recorder with a new number, or none, owns no pending write. */
  lemma NewRecordingRefines(s: RecordingState, next: nat)
    requires forall i | 0 <= i < |s.pending| :: s.pending[i].admitted.generation < next
    requires s.recorder.generation == None || s.recorder.generation == Some(next)
    requires Anchored(s.recorder) && s.admissionRecorder == s.recorder
    ensures Refines(s, next + 1) && (s.recorder.generation.None? ==> Refines(s, next))
  {
    NoneOwn(s.recorder, s.pending);
    OnlyOwnSamplesCount(s.recorder, SamplesOf(s.pending));
  }

  lemma RestoredIsAnchored(lifecycle: Lifecycle, ride: StoredRide, generation: Option<nat>)
    ensures Anchored(RestoreRecorder(lifecycle, ride, generation))
  {
  }

  lemma FinishRestoreRefines(w: World, h: Held, reply: Reply)
    requires Refines(w.state, w.nextRecording) && h.op.PreparedRestore?
    ensures var w' := FinishHeldRestore(w, h, reply).0; Refines(w'.state, w'.nextRecording)
  {
    var (s, r) := FinishRestore(w.state, h.op.id, reply, NextRecording(w));
    if r.Ok? {
      if reply.restored.Some? {
        RestoredIsAnchored(reply.restored.value.lifecycle, reply.restored.value.ride, NextRecording(w));
      }
      NewRecordingRefines(s, w.nextRecording);
    }
  }

  lemma StartedIsNew(s: RecordingState, id: U64, at: U64, reply: Reply, generation: Option<nat>)
    requires FinishStart(s, id, at, reply, generation).1.Ok?
    ensures var s' := FinishStart(s, id, at, reply, generation).0;
            && s'.recorder.generation == generation && generation.Some? && s'.recorder.points == []
            && s'.admissionRecorder == s'.recorder && s'.pending == s.pending
  {
  }

  lemma FinishStartRefines(w: World, h: Held, reply: Reply)
    requires Refines(w.state, w.nextRecording) && h.op.PreparedStart?
    ensures var w' := FinishHeldStart(w, h, reply).0; Refines(w'.state, w'.nextRecording)
  {
    var (s, r) := FinishStart(w.state, h.op.id, h.op.startAt, reply, NextRecording(w));
    if r.Ok? {
      StartedIsNew(w.state, h.op.id, h.op.startAt, reply, NextRecording(w));
      NewRecordingRefines(s, w.nextRecording);
    } else {
      assert SameRoute(w.state, s);
    }
  }

  /** A prepared transition is one the lifecycle allows. */
  predicate Lawful(op: Operation) {
    && (op.PreparedTransition? ==> Transition(op.previous, op.event) == Some(op.next))
    && (op.PreparedStop? ==> Transition(op.previous, Stop) == Some(op.next))
  }

  predicate AllLawful(w: World) {
    forall id | id in w.held :: Lawful(w.held[id].op)
  }

  lemma OnlyDiscardUnsettles(previous: Lifecycle, event: RideEvent)
    requires SettlesSamples(Some(previous)) && Transition(previous, event).Some? && !event.Discard?
    ensures SettlesSamples(Transition(previous, event))
  {
  }

  /** Applying one lawful transition to both recorders keeps the refinement, and both agree on whether it applies. */
  lemma TransitionRefines(s: RecordingState, next: nat, previous: Lifecycle, event: RideEvent, at: U64, offset: U64)
    requires Refines(s, next) && s.rideId.Some? && Transition(previous, event).Some?
    ensures var target := Transition(previous, event).value;
            var recorder := ApplyTransition(s.recorder, previous, target, at);
            var admission := ApplyTransition(s.admissionRecorder, previous, target, at);
            && (recorder.Some? <==> admission.Some?)
            && (recorder.Some? && !event.Discard? ==> Refines(Apply(s, recorder.value, admission.value, offset), next))
  {
    var target := Transition(previous, event).value;
    var recorder := ApplyTransition(s.recorder, previous, target, at);
    var admission := ApplyTransition(s.admissionRecorder, previous, target, at);
    var samples := SamplesOf(s.pending);
    BatchKeepsAnchor(s.recorder, samples);
    RecordAllKeepsInterval(s.recorder, samples);
    ApplyAlike(s.admissionRecorder, RecordAll(s.recorder, samples), previous, target, at);
    if recorder.Some? && !event.Discard? {
      if SettlesSamples(Some(previous)) {
        OnlyDiscardUnsettles(previous, event);
      }
      TransitionCommutes(s.recorder, samples, previous, target, at);
      OwnDependsOnGeneration(s.recorder, recorder.value, samples);
      assert Alike(admission.value, RecordAll(recorder.value, samples));
    }
  }

  lemma {:induction false} RecordAllKeepsInterval(r: Recorder, samples: seq<Admitted>)
    ensures RecordAll(r, samples).interval == r.interval && RecordAll(r, samples).state == r.state
    decreases |samples|
  {
    if samples != [] {
      RecordAllKeepsInterval(Record(r, samples[0]), samples[1..]);
    }
  }

  /** Discard clears the queue, so nothing is left to refine. */
  lemma DiscardRefines(s: RecordingState, next: nat, previous: Lifecycle, at: U64)
    requires Refines(s, next)
    ensures var recorder := ApplyTransition(s.recorder, previous, Discarded, at);
            recorder.Some? ==> Orderly(s.(recorder := recorder.value, rideId := None, pending := []), next)
  {
  }

  predicate SameRoute(s: RecordingState, t: RecordingState) {
    && s.recorder == t.recorder && s.admissionRecorder == t.admissionRecorder
    && s.rideId == t.rideId && s.pending == t.pending
  }

  lemma SameRouteRefines(s: RecordingState, t: RecordingState, next: nat)
    requires Refines(s, next) && SameRoute(s, t)
    ensures Refines(t, next)
  {
  }

  /** The owner after a committed answer, given the state its poll left. */
  lemma SettledTransitionRefines(
      s: RecordingState, s1: RecordingState, next: nat, op: Operation, reply: Reply, answers: map<nat, Reply>)
    requires s1 == Settle(s, answers) && Refines(s1, next) && op.PreparedTransition? && Lawful(op) && reply.Committed?
    ensures Refines(FinishTransition(s, op, reply, answers).0, next)
  {
    var s' := FinishTransition(s, op, reply, answers).0;
    if s1.pendingCommandId != Some(op.id) || Disagrees(s1, op.ride, op.next, reply) {
      SameRouteRefines(s1, s', next);
    } else {
      TransitionRefines(s1, next, op.previous, op.event, op.at, op.offset);
      var recorder := ApplyTransition(s1.recorder, op.previous, op.next, op.at);
      if recorder.None? {
        SameRouteRefines(s1, s', next);
      } else if op.event.Discard? {
        DiscardRefines(s1, next, op.previous, op.at);
      }
    }
  }

  lemma FinishTransitionRefines(s: RecordingState, next: nat, op: Operation, reply: Reply, answers: map<nat, Reply>)
    requires Refines(s, next) && op.PreparedTransition? && Lawful(op)
    ensures Refines(FinishTransition(s, op, reply, answers).0, next)
  {
    if reply.Committed? {
      SettleRefines(s, next, answers);
      SettledTransitionRefines(s, Settle(s, answers), next, op, reply, answers);
    } else {
      SameRouteRefines(s, FinishTransition(s, op, reply, answers).0, next);
    }
  }

  lemma FinishStopRefines(s: RecordingState, next: nat, op: Operation, reply: Reply, answers: map<nat, Reply>)
    requires Refines(s, next) && op.PreparedStop? && Lawful(op)
    ensures Refines(FinishStop(s, op, reply, answers).0, next)
  {
    if reply.Committed? {
      var s1 := Settle(s, answers);
      SettleRefines(s, next, answers);
      if s1.pendingCommandId == Some(op.id) && !Disagrees(s1, op.ride, op.next, reply) {
        TransitionRefines(s1, next, op.previous, Stop, op.at, op.offset);
      }
    }
  }

  // ---------------------------------------------------------------------------------------------
  // Every run
  // ---------------------------------------------------------------------------------------------

  lemma FinishHeldTransitionRefines(w: World, h: Held, reply: Reply)
    requires Refines(w.state, w.nextRecording) && h.op.PreparedTransition? && Lawful(h.op)
    ensures var w' := FinishHeldTransition(w, h, reply).0; Refines(w'.state, w'.nextRecording)
  {
    FinishTransitionRefines(w.state, w.nextRecording, h.op, reply, w.worker.replies);
  }

  lemma FinishHeldStopRefines(w: World, h: Held, reply: Reply)
    requires Refines(w.state, w.nextRecording) && h.op.PreparedStop? && Lawful(h.op)
    ensures var w' := FinishHeldStop(w, h, reply).0; Refines(w'.state, w'.nextRecording)
  {
    FinishStopRefines(w.state, w.nextRecording, h.op, reply, w.worker.replies);
  }

  lemma FinishRefines(w: World, h: Held, reply: Reply)
    requires Refines(w.state, w.nextRecording) && Lawful(h.op)
    ensures var w' := FinishHeld(w, h, reply).0; Refines(w'.state, w'.nextRecording)
  {
    match h.op {
      case PreparedRestore(_, _) => FinishRestoreRefines(w, h, reply);
      case PreparedStart(_, _, _) => FinishStartRefines(w, h, reply);
      case PreparedTransition(_, _, _, _, _, _, _, _) => FinishHeldTransitionRefines(w, h, reply);
      case PreparedStop(_, _, _, _, _, _) => FinishHeldStopRefines(w, h, reply);
    }
  }

  lemma StepIsLawful(w: World, e: Event)
    requires AllLawful(w)
    ensures AllLawful(Step(w, e).0)
  {
    if e.Finish? && e.id in w.held && Answer(w, w.held[e.id], e.givesUp).Some? {
      FinishKeepsOthers(w, w.held[e.id], Answer(w, w.held[e.id], e.givesUp).value);
    }
  }

  lemma FinishKeepsOthers(w: World, h: Held, reply: Reply)
    ensures FinishHeld(w, h, reply).0.held == w.held - {h.op.id}
  {
  }

  lemma AdmitStepRefines(w: World, e: Event)
    requires Refines(w.state, w.nextRecording) && Issued(w) && e.AdmitLocation?
    ensures var w' := Step(w, e).0; Refines(w'.state, w'.nextRecording)
  {
    BarrierEmptiesQueue(w, e.choices);
    AdmitRefines(w.state, w.nextRecording, e.fix, StorageFor(Waited(w, e), e));
  }

  /** Preparing, submitting, dropping and worker steps leave the route alone. */
  lemma OthersKeepRoute(w: World, e: Event)
    requires IsQuiet(e) || e.WorkerRuns?
    ensures SameRoute(w.state, Step(w, e).0.state) && Step(w, e).0.nextRecording == w.nextRecording
  {
    if !e.WorkerRuns? {
      QuietIsFramed(w, e);
    }
  }

  lemma PollRefines(w: World)
    requires Refines(w.state, w.nextRecording)
    ensures var w' := StepPoll(w).0; Refines(w'.state, w'.nextRecording)
  {
    SettleRefines(w.state, w.nextRecording, w.worker.replies);
  }

  lemma StepRefines(w: World, e: Event)
    requires Refines(w.state, w.nextRecording) && AllLawful(w) && Issued(w)
    ensures var w' := Step(w, e).0; Refines(w'.state, w'.nextRecording)
  {
    if e.Finish? {
      if e.id in w.held && Answer(w, w.held[e.id], e.givesUp).Some? {
        FinishRefines(w, w.held[e.id], Answer(w, w.held[e.id], e.givesUp).value);
      }
    } else if e.PollWrites? {
      PollRefines(w);
    } else if e.CheckpointWrites? {
      PollRefines(w.(worker := Drain(w.worker, e.choices)));
    } else if e.AdmitLocation? {
      AdmitStepRefines(w, e);
    } else {
      OthersKeepRoute(w, e);
    }
  }

  lemma {:induction false} RunRefines(w: World, run: seq<Event>)
    requires Refines(w.state, w.nextRecording) && AllLawful(w) && Issued(w)
    ensures var w' := Run(w, run); Refines(w'.state, w'.nextRecording) && AllLawful(w') && Issued(w')
    decreases |run|
  {
    if run != [] {
      StepRefines(w, run[0]);
      StepIsLawful(w, run[0]);
      StepIsIssued(w, run[0]);
      RunRefines(Step(w, run[0]).0, run[1..]);
    }
  }

  lemma ReachableRefines(run: seq<Event>)
    ensures var w := Run(NEW_WORLD, run); Refines(w.state, w.nextRecording) && AllLawful(w) && Issued(w)
  {
    RunRefines(NEW_WORLD, run);
  }

  /**
   In every reachable state with a ride, the speculative route is the durable route followed by
   the pending writes of this recording in submission order, within the live bound; lifecycle,
   recording and point count agree as well. Writes that outlived a restoration or an earlier ride
   take no part.
   */
  lemma SpeculationRefinesDurable(run: seq<Event>)
    ensures var s := Run(NEW_WORLD, run).state;
            s.rideId.Some? ==>
              && s.admissionRecorder.points == Tail(s.recorder.points + PointsOf(OwnPending(s)))
              && s.admissionRecorder.pointCount == SaturatingAdd(s.recorder.pointCount, |OwnPending(s)|)
              && s.admissionRecorder.state == s.recorder.state
              && s.admissionRecorder.generation == s.recorder.generation
              && Continues(s.recorder, OwnPending(s))
  {
    ReachableRefines(run);
    var s := Run(NEW_WORLD, run).state;
    if s.rideId.Some? {
      var samples := SamplesOf(s.pending);
      OnlyOwnSamplesCount(s.recorder, samples);
      BatchIsRecorded(s.recorder, OwnPending(s));
      BatchIsCounted(s.recorder, OwnPending(s));
      BatchKeepsAnchor(s.recorder, OwnPending(s));
    }
  }

  // ---------------------------------------------------------------------------------------------
  // After Discard
  // ---------------------------------------------------------------------------------------------

  /** The two routes differ exactly while writes of this recording are pending. */
  lemma SpeculationIsAhead(s: RecordingState, next: nat)
    requires Refines(s, next) && s.rideId.Some?
    ensures s.admissionRecorder.points == s.recorder.points <==> OwnPending(s) == []
  {
    var own := OwnPending(s);
    OnlyOwnSamplesCount(s.recorder, SamplesOf(s.pending));
    if own != [] {
      BatchEnds(s.recorder, own);
    }
  }

  /**
   Discard clears the pending writes and not the speculation: afterwards the two routes agree exactly when
   no write of this recording was still pending once the answered ones had settled.
   */
  lemma DiscardKeepsSpeculation(
      s: RecordingState, next: nat, op: Operation, reply: Reply, answers: map<nat, Reply>)
    requires Refines(s, next) && s.rideId.Some? && op.PreparedTransition? && op.event.Discard?
    requires FinishTransition(s, op, reply, answers).1.Ok?
    ensures var s' := FinishTransition(s, op, reply, answers).0;
            && s'.rideId.None? && s'.pending == []
            && (s'.admissionRecorder.points == s'.recorder.points <==> OwnPending(Settle(s, answers)) == [])
  {
    SettleRefines(s, next, answers);
    SettleReadyKeepsCommands(s, answers);
    SpeculationIsAhead(Settle(s, answers), next);
  }

  /** This step publishes a started or restored ride. */
  predicate Replaces(w: World, e: Event) {
    && e.Finish? && e.id in w.held && (w.held[e.id].op.PreparedRestore? || w.held[e.id].op.PreparedStart?)
    && Publishes(w, e)
  }

  predicate NeverReplaced(w: World, run: seq<Event>)
    decreases |run|
  {
    run == [] || (!Replaces(w, run[0]) && NeverReplaced(Step(w, run[0]).0, run[1..]))
  }

  lemma FinishChangeStaysRideless(s: RecordingState, op: Operation, reply: Reply, answers: map<nat, Reply>)
    requires s.rideId.None?
    ensures op.PreparedTransition? ==> FinishTransition(s, op, reply, answers).0.rideId.None?
    ensures op.PreparedStop? ==> FinishStop(s, op, reply, answers).0.rideId.None?
  {
    SettleReadyKeepsCommands(s, answers);
  }

  lemma FinishStaysRideless(w: World, h: Held, reply: Reply)
    requires w.state.rideId.None?
    requires h.op.PreparedRestore? || h.op.PreparedStart? ==> FinishHeld(w, h, reply).1.publication.Err?
    ensures FinishHeld(w, h, reply).0.state.rideId.None?
  {
    FinishChangeStaysRideless(w.state, h.op, reply, w.worker.replies);
  }

  lemma StepStaysRideless(w: World, e: Event)
    requires w.state.rideId.None? && !Replaces(w, e)
    ensures Step(w, e).0.state.rideId.None?
    ensures e.AdmitLocation? ==> Step(w, e).0 == w && Step(w, e).1.admission.Failed?
  {
    if e.Finish? {
      if e.id in w.held && Answer(w, w.held[e.id], e.givesUp).Some? {
        FinishStaysRideless(w, w.held[e.id], Answer(w, w.held[e.id], e.givesUp).value);
      }
    } else if e.PollWrites? {
      SettleReadyKeepsCommands(w.state, w.worker.replies);
    } else if e.CheckpointWrites? {
      SettleReadyKeepsCommands(w.state, Drain(w.worker, e.choices).replies);
    } else if !e.AdmitLocation? {
      OthersKeepRoute(w, e);
    }
  }

  lemma {:induction false} RunStaysRideless(w: World, run: seq<Event>)
    requires w.state.rideId.None? && NeverReplaced(w, run)
    ensures Run(w, run).state.rideId.None?
    decreases |run|
  {
    if run != [] {
      StepStaysRideless(w, run[0]);
      RunStaysRideless(Step(w, run[0]).0, run[1..]);
    }
  }

  /**
   From a published Discard until a start or a restoration replaces the recorder, every fix is refused
   without effect in every run, so the speculation left behind is never used.
   */
  lemma DiscardedRideAdmitsNothing(w: World, finish: Event, run: seq<Event>, fix: Event)
    requires finish.Finish? && finish.id in w.held && Publishes(w, finish)
    requires w.held[finish.id].op.PreparedTransition? && w.held[finish.id].op.event.Discard?
    requires NeverReplaced(Step(w, finish).0, run) && fix.AdmitLocation?
    ensures var w' := Run(Step(w, finish).0, run);
            Step(w', fix).0 == w' && Step(w', fix).1.admission.Failed?
  {
    var w1 := Step(w, finish).0;
    RunStaysRideless(w1, run);
    StepStaysRideless(Run(w1, run), fix);
  }

  /** A poll here appends exactly the accepted writes of this recording in the answered prefix. */
  predicate PollExtends(w: World) {
    var accepted := AcceptedWrites(w.state.recorder.generation, w.state.pending, w.worker.replies);
    StepPoll(w).0.state.recorder.points == Tail(w.state.recorder.points + PointsOf(accepted))
  }

  lemma PollExtendsRoute(w: World)
    requires Orderly(w.state, w.nextRecording)
    ensures PollExtends(w)
  {
    SettlementAppendsAccepted(w.state, w.nextRecording, w.worker.replies);
  }

  /**
   In every run, a poll appends to the durable route exactly the accepted writes of this recording
   among the answered prefix of the queue.
   */
  lemma PollAppendsAccepted(run: seq<Event>)
    ensures PollExtends(Run(NEW_WORLD, run))
  {
    ReachableRefines(run);
    PollExtendsRoute(Run(NEW_WORLD, run));
  }
}
