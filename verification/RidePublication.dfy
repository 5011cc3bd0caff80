/** Exactly when a finished command is published, and what it then shows. */
module RidePublication {
  import opened Prelude
  import opened RideRecorder
  import opened RideRecording
  import opened RideProtocol
  import opened RideCommands
  import opened LocationLedger
  import opened SpeculativeRoute
  import opened DurableLifecycle

  // ---------------------------------------------------------------------------------------------
  // A held operation still fits the owner
  // ---------------------------------------------------------------------------------------------

  /** The lifecycle has not moved since the operation was prepared. */
  predicate StillFits(s: RecordingState, op: Operation) {
    match op
    case PreparedRestore(_, _) => true
    case PreparedStart(_, _, _) => AllowsStart(s.recorder.state)
    case PreparedTransition(_, ride, _, previous, _, _, _, _) =>
      s.rideId == Some(ride) && s.recorder.state == Some(previous)
    case PreparedStop(_, ride, previous, _, _, _) => s.rideId == Some(ride) && s.recorder.state == Some(previous)
  }

  /** An interval is open only while the ride is active or once it was discarded while active. */
  predicate OpenInterval(r: Recorder) {
    r.activeStartedAt.Some? ==> r.state == Some(Active) || r.state == Some(Discarded)
  }

  predicate AllFit(w: World) {
    && OpenInterval(w.state.recorder)
    && forall id | id in w.held :: StillFits(w.state, w.held[id].op)
  }

  lemma SameLifecycleFits(w: World, v: World)
    requires AllFit(w) && v.state.rideId == w.state.rideId && v.state.recorder.state == w.state.recorder.state
    requires v.state.recorder.activeStartedAt == w.state.recorder.activeStartedAt
    requires forall id | id in v.held :: id in w.held && v.held[id].op == w.held[id].op
    ensures AllFit(v)
  {
    forall id | id in v.held
      ensures StillFits(v.state, v.held[id].op)
    {
      assert StillFits(w.state, w.held[id].op);
    }
  }

  lemma RestoreFits(w: World, accepted: bool)
    requires AllFit(w)
    ensures AllFit(StepRestore(w, accepted).0)
  {
    var v := StepRestore(w, accepted).0;
    forall id | id in v.held
      ensures StillFits(v.state, v.held[id].op)
    {
      assert id in w.held ==> StillFits(w.state, w.held[id].op);
    }
  }

  lemma StartFits(w: World, at: U64, accepted: bool)
    requires AllFit(w)
    ensures AllFit(StepStart(w, at, accepted).0)
  {
    var v := StepStart(w, at, accepted).0;
    forall id | id in v.held
      ensures StillFits(v.state, v.held[id].op)
    {
      assert id in w.held ==> StillFits(w.state, w.held[id].op);
    }
  }

  lemma ChangeFits(w: World, token: Token, event: RideEvent, at: U64, accepted: bool)
    requires AllFit(w)
    ensures AllFit(StepChange(w, token, event, at, accepted).0)
  {
    var v := StepChange(w, token, event, at, accepted).0;
    forall id | id in v.held
      ensures StillFits(v.state, v.held[id].op)
    {
      assert id in w.held ==> StillFits(w.state, w.held[id].op);
    }
  }

  lemma StopFits(w: World, token: Token, at: U64)
    requires AllFit(w)
    ensures AllFit(StepStop(w, token, at).0)
  {
    var v := StepStop(w, token, at).0;
    forall id | id in v.held
      ensures StillFits(v.state, v.held[id].op)
    {
      assert id in w.held ==> StillFits(w.state, w.held[id].op);
    }
  }

  lemma SubmitFits(w: World, id: U64, fence: MusicFence)
    requires AllFit(w)
    ensures AllFit(StepSubmitStop(w, id, fence).0)
  {
    SameLifecycleFits(w, StepSubmitStop(w, id, fence).0);
  }

  lemma DropFits(w: World, id: U64)
    requires AllFit(w)
    ensures AllFit(StepDropOperation(w, id)) && AllFit(StepDropGuard(w, id))
  {
    SameLifecycleFits(w, StepDropOperation(w, id));
    SameLifecycleFits(w, StepDropGuard(w, id));
  }

  lemma ApplyKeepsInterval(r: Recorder, previous: Lifecycle, event: RideEvent, at: U64)
    requires OpenInterval(r) && Transition(previous, event).Some?
    ensures var applied := ApplyTransition(r, previous, Transition(previous, event).value, at);
            applied.Some? ==> OpenInterval(applied.value)
  {
  }

  lemma FinishTransitionKeepsInterval(s: RecordingState, op: Operation, reply: Reply, answers: map<nat, Reply>)
    requires op.PreparedTransition? && Lawful(op) && OpenInterval(s.recorder)
    ensures OpenInterval(FinishTransition(s, op, reply, answers).0.recorder)
  {
    SettleKeepsTiming(s, answers);
    SettleKeepsLifecycle(s, answers);
    ApplyKeepsInterval(Settle(s, answers).recorder, op.previous, op.event, op.at);
  }

  lemma FinishStopKeepsInterval(s: RecordingState, op: Operation, reply: Reply, answers: map<nat, Reply>)
    requires op.PreparedStop? && Lawful(op) && OpenInterval(s.recorder)
    ensures OpenInterval(FinishStop(s, op, reply, answers).0.recorder)
  {
    SettleKeepsTiming(s, answers);
    SettleKeepsLifecycle(s, answers);
    ApplyKeepsInterval(Settle(s, answers).recorder, op.previous, Stop, op.at);
  }

  lemma FinishNewKeepsInterval(s: RecordingState, id: U64, at: U64, reply: Reply, generation: Option<nat>)
    requires OpenInterval(s.recorder)
    ensures OpenInterval(FinishRestore(s, id, reply, generation).0.recorder)
    ensures OpenInterval(FinishStart(s, id, at, reply, generation).0.recorder)
  {
  }

  lemma FinishKeepsInterval(w: World, h: Held, reply: Reply)
    requires Lawful(h.op) && OpenInterval(w.state.recorder)
    ensures OpenInterval(FinishHeld(w, h, reply).0.state.recorder)
  {
    match h.op {
      case PreparedTransition(_, _, _, _, _, _, _, _) =>
        FinishTransitionKeepsInterval(w.state, h.op, reply, w.worker.replies);
      case PreparedStop(_, _, _, _, _, _) => FinishStopKeepsInterval(w.state, h.op, reply, w.worker.replies);
      case PreparedRestore(_, _) => FinishNewKeepsInterval(w.state, h.op.id, 0, reply, NextRecording(w));
      case PreparedStart(_, at, _) => FinishNewKeepsInterval(w.state, h.op.id, at, reply, NextRecording(w));
    }
  }

  lemma {:induction false} SettleKeepsTiming(s: RecordingState, answers: map<nat, Reply>)
    ensures var r := SettleReady(s, answers).recorder;
            && r.interval == s.recorder.interval && r.createdAt == s.recorder.createdAt
            && r.generation == s.recorder.generation && s.recorder.lastMonotonic <= r.lastMonotonic
            && r.activeStartedAt == s.recorder.activeStartedAt
    ensures SettleReady(s, answers).epochOffset == s.epochOffset
    decreases |s.pending|
  {
    if s.pending != [] && s.pending[0].ticket in answers {
      SettleKeepsTiming(SettleFirst(s, answers[s.pending[0].ticket]), answers);
    }
  }

  lemma AdmitKeepsInterval(s: RecordingState, fix: Fix, storage: Storage)
    ensures Admit(s, fix, storage).0.recorder.activeStartedAt == s.recorder.activeStartedAt
  {
    SettleKeepsTiming(s, storage.answers);
  }

  lemma FinishFits(w: World, id: U64, givesUp: bool)
    requires AllFit(w) && Exclusive(w) && AllLawful(w)
    ensures AllFit(StepFinish(w, id, givesUp).0)
  {
    if id in w.held && Answer(w, w.held[id], givesUp).Some? {
      OnlyOneHeld(w, id);
      assert Owned(w.state, id, w.held[id]);
      FinishReleases(w, w.held[id], Answer(w, w.held[id], givesUp).value);
      FinishKeepsInterval(w, w.held[id], Answer(w, w.held[id], givesUp).value);
      assert w.held - {id} == map[];
    }
  }

  lemma PollFits(w: World)
    requires AllFit(w)
    ensures AllFit(StepPoll(w).0)
  {
    SettleKeepsLifecycle(w.state, w.worker.replies);
    SettleKeepsTiming(w.state, w.worker.replies);
    SameLifecycleFits(w, StepPoll(w).0);
  }

  lemma AdmitFits(w: World, e: Event)
    requires AllFit(w) && e.AdmitLocation?
    ensures AllFit(StepAdmit(w, e).0)
  {
    AdmitKeepsLifecycle(w.state, e.fix, StorageFor(Waited(w, e), e));
    AdmitKeepsInterval(w.state, e.fix, StorageFor(Waited(w, e), e));
    SameLifecycleFits(w, StepAdmit(w, e).0);
  }

  lemma StepFits(w: World, e: Event)
    requires AllFit(w) && Exclusive(w) && AllLawful(w)
    ensures AllFit(Step(w, e).0)
  {
    match e {
      case Restore(accepted) => RestoreFits(w, accepted);
      case StartRide(at, accepted) => StartFits(w, at, accepted);
      case ChangeRide(token, event, at, accepted) => ChangeFits(w, token, event, at, accepted);
      case StopRide(token, at) => StopFits(w, token, at);
      case SubmitStop(id, fence) => SubmitFits(w, id, fence);
      case DropOperation(id) => DropFits(w, id);
      case DropGuard(id) => DropFits(w, id);
      case Finish(id, givesUp) => FinishFits(w, id, givesUp);
      case WorkerRuns(choice) => SameLifecycleFits(w, w.(worker := RunJob(w.worker, choice)));
      case PollWrites => PollFits(w);
      case CheckpointWrites(choices) => PollFits(w.(worker := Drain(w.worker, choices)));
      case AdmitLocation(_, _, _, _, _) => AdmitFits(w, e);
    }
  }

  lemma {:induction false} RunFits(w: World, run: seq<Event>)
    requires AllFit(w) && Exclusive(w) && AllLawful(w)
    ensures AllFit(Run(w, run))
    decreases |run|
  {
    if run != [] {
      StepFits(w, run[0]);
      StepIsExclusive(w, run[0]);
      StepIsLawful(w, run[0]);
      RunFits(Step(w, run[0]).0, run[1..]);
    }
  }

  // ---------------------------------------------------------------------------------------------
  // Transitions and stops
  // ---------------------------------------------------------------------------------------------

  /** The worker committed exactly the change that was prepared. */
  predicate AsPrepared(op: Operation, reply: Reply)
    requires op.PreparedTransition? || op.PreparedStop?
  {
    reply == Committed(op.ride, op.next)
  }

  /** The recorder cannot count another active interval. */
  predicate OutOfIntervals(s: RecordingState, op: Operation)
    requires op.PreparedTransition? || op.PreparedStop?
  {
    Reopens(op) && s.recorder.interval == U64_MAX
  }

  /** A paused or interrupted ride becomes active again. */
  predicate Reopens(op: Operation)
    requires op.PreparedTransition? || op.PreparedStop?
  {
    op.next == Active && (op.previous == Paused || op.previous == Interrupted)
  }

  /** A ride that was over already is saved or discarded. */
  predicate Closes(op: Operation)
    requires op.PreparedTransition? || op.PreparedStop?
  {
    (op.previous == Stopped || op.previous == Interrupted) && (op.next == Saved || op.next == Discarded)
  }

  /** The recorder takes the change: its stamp never runs backwards, and its route is left alone. */
  predicate TakesChange(r: Recorder, r': Recorder, op: Operation)
    requires op.PreparedTransition? || op.PreparedStop?
  {
    && r' == r.(state := Some(op.next), interval := r'.interval, lastMonotonic := r'.lastMonotonic,
                activeStartedAt := r'.activeStartedAt)
    && r'.interval == r.interval + (if Reopens(op) then 1 else 0)
    && r'.lastMonotonic
       == (if Closes(op) then r.lastMonotonic else Max(op.at, Max(r.createdAt, r.lastMonotonic)))
    && r'.activeStartedAt
       == (if Reopens(op) then Some(r'.lastMonotonic)
           else if op.next.Active? || op.next.Discarded? then r.activeStartedAt
           else None)
  }

  /** From the settled owner `s`: it shows the committed change, is ready and has released the command. */
  predicate ShowsChange(s: RecordingState, s': RecordingState, op: Operation, p: Publication)
    requires op.PreparedTransition? || op.PreparedStop?
  {
    var discards := op.PreparedTransition? && op.event.Discard?;
    && s'.phase.Ready? && s'.pendingCommandId.None? && TakesChange(s.recorder, s'.recorder, op)
    && s'.admissionRecorder.state == Some(op.next)
    && s'.rideId == (if discards then None else Some(op.ride)) && s'.pending == (if discards then [] else s.pending)
    && s'.epochOffset == op.offset && s'.settled == s.settled
    && s'.generation == SaturatingAdd(s.generation, 1) && s'.revision == SaturatingAdd(s.revision, 1)
    && p == Publication(Some(op.ride), s'.revision, s'.generation, Some(op.next))
  }

  /** What the owner is left with when the change is not published. */
  predicate WithholdsChange(s: RecordingState, s': RecordingState, reply: Reply) {
    && s'.pendingCommandId.None? && s'.rideId == s.rideId && s'.recorder.state == s.recorder.state
    && s'.generation == s.generation && s'.epochOffset == s.epochOffset
    && (s'.phase.Ready? <==> !reply.Committed? && !reply.Unknown?)
    && (!s'.phase.Ready? ==> s'.phase.RecoveryRequired?)
  }

  /** Both recorders take the prepared change, unless the intervals are used up. */
  lemma BothApply(s: RecordingState, next: nat, op: Operation)
    requires Refines(s, next) && Lawful(op) && (op.PreparedTransition? || op.PreparedStop?) && StillFits(s, op)
    ensures ApplyTransition(s.recorder, op.previous, op.next, op.at).Some? <==> !OutOfIntervals(s, op)
    ensures ApplyTransition(s.admissionRecorder, op.previous, op.next, op.at).Some? <==> !OutOfIntervals(s, op)
  {
    TransitionRefines(s, next, op.previous, if op.PreparedStop? then Stop else op.event, op.at, op.offset);
  }

  lemma ChangeIsTaken(r: Recorder, op: Operation)
    requires op.PreparedTransition? || op.PreparedStop?
    requires OpenInterval(r) && Lawful(op) && ApplyTransition(r, op.previous, op.next, op.at).Some?
    ensures TakesChange(r, ApplyTransition(r, op.previous, op.next, op.at).value, op)
  {
  }

  /** The owner between its settlement and its publication. */
  predicate Settled(s: RecordingState, s1: RecordingState, answers: map<nat, Reply>, next: nat, op: Operation) {
    && s1 == Settle(s, answers) && Refines(s1, next) && OpenInterval(s1.recorder) && StillFits(s1, op)
    && s1.pendingCommandId == Some(op.id) && s1.phase.Ready? && s1.rideId == s.rideId
    && s1.recorder.state == s.recorder.state && s1.recorder.interval == s.recorder.interval
    && s1.generation == s.generation && s1.epochOffset == s.epochOffset
  }

  lemma SettlementFits(s: RecordingState, next: nat, op: Operation, answers: map<nat, Reply>)
    requires Refines(s, next) && OpenInterval(s.recorder) && StillFits(s, op)
    requires s.pendingCommandId == Some(op.id) && s.phase.Ready?
    ensures Settled(s, Settle(s, answers), answers, next, op)
  {
    SettleRefines(s, next, answers);
    SettleReadyKeepsCommands(s, answers);
    SettleKeepsLifecycle(s, answers);
    SettleKeepsTiming(s, answers);
  }

  lemma SettledTransitionIsPublished(
      s: RecordingState, s1: RecordingState, next: nat, op: Operation, reply: Reply, answers: map<nat, Reply>)
    requires op.PreparedTransition? && Lawful(op) && Settled(s, s1, answers, next, op) && reply.Committed?
    ensures var (s', r) := FinishTransition(s, op, reply, answers);
            && (r.Ok? <==> AsPrepared(op, reply) && !OutOfIntervals(s, op))
            && (r.Ok? ==> ShowsChange(s1, s', op, r.value))
            && (r.Err? ==> WithholdsChange(s, s', reply))
  {
    BothApply(s1, next, op);
    if !OutOfIntervals(s1, op) {
      ChangeIsTaken(s1.recorder, op);
    }
  }

  lemma TransitionIsPublished(s: RecordingState, next: nat, op: Operation, reply: Reply, answers: map<nat, Reply>)
    requires Refines(s, next) && op.PreparedTransition? && Lawful(op) && StillFits(s, op) && OpenInterval(s.recorder)
    requires s.pendingCommandId == Some(op.id) && s.phase.Ready?
    ensures var (s', r) := FinishTransition(s, op, reply, answers);
            && (r.Ok? <==> AsPrepared(op, reply) && !OutOfIntervals(s, op))
            && (r.Ok? ==> ShowsChange(Settle(s, answers), s', op, r.value))
            && (r.Err? ==> WithholdsChange(s, s', reply))
  {
    if reply.Committed? {
      SettlementFits(s, next, op, answers);
      SettledTransitionIsPublished(s, Settle(s, answers), next, op, reply, answers);
    }
  }

  lemma SettledStopIsPublished(
      s: RecordingState, s1: RecordingState, next: nat, op: Operation, reply: Reply, answers: map<nat, Reply>)
    requires op.PreparedStop? && Lawful(op) && Settled(s, s1, answers, next, op) && reply.Committed?
    ensures var (s', r) := FinishStop(s, op, reply, answers);
            && (r.Ok? <==> AsPrepared(op, reply))
            && (r.Ok? ==> ShowsChange(s1, s', op, r.value))
            && (r.Err? ==> WithholdsChange(s, s', reply))
  {
    BothApply(s1, next, op);
    ChangeIsTaken(s1.recorder, op);
  }

  lemma StopIsPublished(s: RecordingState, next: nat, op: Operation, reply: Reply, answers: map<nat, Reply>)
    requires Refines(s, next) && op.PreparedStop? && Lawful(op) && StillFits(s, op) && OpenInterval(s.recorder)
    requires s.pendingCommandId == Some(op.id) && s.phase.Ready?
    ensures var (s', r) := FinishStop(s, op, reply, answers);
            && (r.Ok? <==> AsPrepared(op, reply))
            && (r.Ok? ==> ShowsChange(Settle(s, answers), s', op, r.value))
            && (r.Err? ==> WithholdsChange(s, s', reply))
  {
    if reply.Committed? {
      SettlementFits(s, next, op, answers);
      SettledStopIsPublished(s, Settle(s, answers), next, op, reply, answers);
    }
  }

  // ---------------------------------------------------------------------------------------------
  // Starts and restorations
  // ---------------------------------------------------------------------------------------------

  /** The owner shows a new active ride that begins at `at` with an empty route. */
  predicate ShowsStart(
      s: RecordingState, s': RecordingState, at: U64, ride: nat, generation: Option<nat>, p: Publication)
  {
    && s'.phase.Ready? && s'.pendingCommandId.None? && s'.rideId == Some(ride)
    && s'.recorder == Recorder(Some(Active), generation, 0, at, at, Some(at), None, [], 0)
    && s'.admissionRecorder == s'.recorder
    && s'.generation == SaturatingAdd(s.generation, 1) && s'.revision == SaturatingAdd(s.revision, 1)
    && s'.pending == s.pending && s'.settled == s.settled && s'.epochOffset == s.epochOffset
    && p == Publication(Some(ride), s'.revision, s'.generation, Some(Active))
  }

  lemma StartIsPublished(s: RecordingState, id: U64, at: U64, reply: Reply, generation: Option<nat>)
    requires s.pendingCommandId == Some(id) && s.phase.Ready? && AllowsStart(s.recorder.state)
    ensures var (s', r) := FinishStart(s, id, at, reply, generation);
            && (r.Ok? <==> reply.Committed? && reply.lifecycle.Active? && generation.Some?)
            && (r.Ok? ==> ShowsStart(s, s', at, reply.ride, generation, r.value))
            && (r.Err? ==> WithholdsChange(s, s', reply) && s'.recorder == s.recorder)
  {
  }

  /** The owner shows the ride of the snapshot, or none. */
  predicate ShowsRestored(
      s: RecordingState, s': RecordingState, shown: Option<RestoredRide>, generation: Option<nat>, p: Publication)
  {
    && s'.phase.Ready? && s'.pendingCommandId.None?
    && s'.rideId == (if shown.Some? then Some(shown.value.id) else None)
    && s'.recorder.state == (if shown.Some? then Some(shown.value.lifecycle) else None)
    && s'.admissionRecorder == s'.recorder
    && (shown.Some? ==> s'.recorder == RestoreRecorder(shown.value.lifecycle, shown.value.ride, generation))
    && (shown.None? ==> s'.recorder == EMPTY)
    && s'.generation == SaturatingAdd(s.generation, 1) && s'.revision == SaturatingAdd(s.revision, 1)
    && s'.pending == s.pending && s'.settled == s.settled && s'.epochOffset == s.epochOffset
    && p == Publication(s'.rideId, s'.revision, s'.generation, s'.recorder.state)
  }

  lemma RestorationIsPublished(s: RecordingState, id: U64, reply: Reply, generation: Option<nat>)
    requires s.pendingCommandId == Some(id) && s.phase.AwaitingRestore?
    ensures var (s', r) := FinishRestore(s, id, reply, generation);
            && (r.Ok? <==> reply.Snapshot? && s.generation < U64_MAX)
            && (r.Ok? ==> ShowsRestored(s, s', reply.restored, generation, r.value))
            && (r.Err? && reply.Snapshot? ==> s' == s.(pendingCommandId := None, phase := RecoveryRequired))
            && (r.Err? && !reply.Snapshot? ==> s' == s)
  {
  }

  // ---------------------------------------------------------------------------------------------
  // Every run
  // ---------------------------------------------------------------------------------------------

  /** Finishing `h` with this answer publishes exactly when the answer is the one prepared for. */
  predicate PublishesExactly(w: World, h: Held, reply: Reply) {
    var (w', r) := FinishHeld(w, h, reply);
    && r.Finished?
    && match h.op
       case PreparedRestore(_, _) =>
         && (r.publication.Ok? <==> reply.Snapshot? && w.state.generation < U64_MAX)
         && (r.publication.Ok? ==>
               ShowsRestored(w.state, w'.state, reply.restored, NextRecording(w), r.publication.value))
       case PreparedStart(_, at, _) =>
         && (r.publication.Ok? <==> reply.Committed? && reply.lifecycle.Active? && w.nextRecording < U64_MAX)
         && (r.publication.Ok? ==>
               ShowsStart(w.state, w'.state, at, reply.ride, Some(w.nextRecording), r.publication.value))
         && (r.publication.Err? ==> WithholdsChange(w.state, w'.state, reply))
       case _ =>
         && (r.publication.Ok? <==> AsPrepared(h.op, reply) && !OutOfIntervals(w.state, h.op))
         && (r.publication.Ok? ==>
               ShowsChange(Settle(w.state, w.worker.replies), w'.state, h.op, r.publication.value))
         && (r.publication.Err? ==> WithholdsChange(w.state, w'.state, reply))
  }

  lemma FinishPublishesExactly(w: World, id: U64, reply: Reply)
    requires Exclusive(w) && AllFit(w) && AllLawful(w) && Refines(w.state, w.nextRecording) && id in w.held
    ensures PublishesExactly(w, w.held[id], reply)
  {
    var h := w.held[id];
    assert Owned(w.state, id, h) && StillFits(w.state, h.op) && Lawful(h.op);
    match h.op {
      case PreparedRestore(_, _) => RestorationIsPublished(w.state, id, reply, NextRecording(w));
      case PreparedStart(_, at, _) => StartIsPublished(w.state, id, at, reply, NextRecording(w));
      case PreparedTransition(_, _, _, _, _, _, _, _) =>
        TransitionIsPublished(w.state, w.nextRecording, h.op, reply, w.worker.replies);
      case PreparedStop(_, _, _, _, _, _) =>
        StopIsPublished(w.state, w.nextRecording, h.op, reply, w.worker.replies);
    }
  }

  /**
   In every run, finishing a held operation whose answer has arrived publishes if and only if the worker
   committed what was prepared (for a transition or stop: its ride and its lifecycle; for a start: an
   active ride; for a restoration: any snapshot), the only other refusals being an exhausted counter. It
   then shows exactly that, stays ready and releases the command; otherwise it shows what it showed.
   */
  lemma CommandsArePublished(run: seq<Event>, id: U64, givesUp: bool)
    requires id in Run(NEW_WORLD, run).held
    requires Answer(Run(NEW_WORLD, run), Run(NEW_WORLD, run).held[id], givesUp).Some?
    ensures var w := Run(NEW_WORLD, run);
            var reply := Answer(w, w.held[id], givesUp).value;
            && StepFinish(w, id, givesUp) == FinishHeld(w, w.held[id], reply)
            && PublishesExactly(w, w.held[id], reply)
  {
    RunIsExclusive(NEW_WORLD, run);
    RunFits(NEW_WORLD, run);
    ReachableRefines(run);
    var w := Run(NEW_WORLD, run);
    FinishPublishesExactly(w, id, Answer(w, w.held[id], givesUp).value);
  }

  // ---------------------------------------------------------------------------------------------
  // Preparing
  // ---------------------------------------------------------------------------------------------

  predicate IdleOwner(s: RecordingState) {
    s.pendingCommandId.None? && s.nextCommandId < U64_MAX
  }

  /** A ride that is not over, or was imported, cannot be replaced by a new one. */
  predicate Blocks(state: Option<Lifecycle>) {
    state.Some? && state.value in {Draft, Active, Paused, Imported}
  }

  lemma BlocksStart(state: Option<Lifecycle>)
    ensures AllowsStart(state) <==> !Blocks(state)
  {
    match state {
      case None =>
      case Some(lifecycle) =>
        match lifecycle {
          case Stopped | Interrupted | Saved | Discarded =>
          case Draft | Active | Paused | Imported =>
        }
    }
  }

  /** The token is current and the lifecycle allows the event. */
  predicate Permits(s: RecordingState, token: Token, event: RideEvent) {
    && s.phase.Ready? && s.rideId == Some(token.ride) && s.generation == token.generation
    && s.recorder.state.Some? && Transition(s.recorder.state.value, event).Some?
  }

  /** The identifiers and the phase are all that preparing changes. */
  predicate Prepares(s: RecordingState, s': RecordingState, op: Operation) {
    && op.id == s.nextCommandId && s'.nextCommandId == s.nextCommandId + 1
    && s' == s.(nextCommandId := s'.nextCommandId, pendingCommandId := Some(op.id), phase := s'.phase)
    && s'.phase == (if op.PreparedRestore? then AwaitingRestore else s.phase)
  }

  /** A command is prepared exactly when the owner is idle, the command is allowed and the worker takes it. */
  lemma PreparesExactly(s: RecordingState, token: Token, event: RideEvent, at: U64, ticket: Option<nat>)
    ensures var (s', r) := BeginRestore(s, ticket);
            && (r.Ok? <==> IdleOwner(s) && ticket.Some?)
            && (r.Ok? ==> Prepares(s, s', r.value) && r.value == PreparedRestore(r.value.id, ticket.value))
    ensures var (s', r) := BeginStart(s, at, ticket);
            && (r.Ok? <==> IdleOwner(s) && s.phase.Ready? && !Blocks(s.recorder.state) && ticket.Some?)
            && (r.Ok? ==> Prepares(s, s', r.value) && r.value == PreparedStart(r.value.id, at, ticket.value))
    ensures var (s', r) := BeginTransition(s, token, event, at, ticket);
            && (r.Ok? <==> IdleOwner(s) && Permits(s, token, event) && ticket.Some?)
            && (r.Ok? ==>
                  && Prepares(s, s', r.value) && r.value.PreparedTransition? && r.value.event == event
                  && r.value.ride == token.ride && StillFits(s, r.value) && Lawful(r.value)
                  && r.value.ticket == ticket.value)
    ensures var (s', r) := BeginStop(s, token, at);
            && (r.Ok? <==> IdleOwner(s) && Permits(s, token, Stop))
            && (r.Ok? ==>
                  && Prepares(s, s', r.value) && r.value.PreparedStop?
                  && r.value.ride == token.ride && StillFits(s, r.value) && Lawful(r.value))
  {
    BlocksStart(s.recorder.state);
  }

  /** A refused command is told the first reason, in this order, and spends at most an identifier. */
  lemma RefusalsAreOrdered(s: RecordingState, token: Token, event: RideEvent, at: U64, ticket: Option<nat>)
    ensures var (s', r) := BeginTransition(s, token, event, at, ticket);
            && s' == s.(nextCommandId := s'.nextCommandId, pendingCommandId := s'.pendingCommandId)
            && (r == Err(NotRestored) <==> s.phase.AwaitingRestore?)
            && (r == Err(NeedsRecovery) <==> s.phase.RecoveryRequired?)
            && (r == Err(CommandPending) <==> s.phase.Ready? && s.pendingCommandId.Some?)
            && (r == Err(StaleCommand) <==>
                  && s.phase.Ready? && s.pendingCommandId.None?
                  && (s.rideId != Some(token.ride) || s.generation != token.generation))
            && (r == Err(CommandIdExhausted) <==>
                  s.pendingCommandId.None? && Permits(s, token, event) && s.nextCommandId == U64_MAX)
            && (r == Err(StorageFailed) <==> IdleOwner(s) && Permits(s, token, event) && ticket.None?)
            && (r.Err? ==> s'.pendingCommandId == s.pendingCommandId)
            && (s'.nextCommandId > s.nextCommandId <==> IdleOwner(s) && Permits(s, token, event))
  {
  }

  /** Submitting a prepared Stop: an unmet fence or a refusing queue gives it up, otherwise its change is queued. */
  lemma StopIsSubmitted(w: World, id: U64, fence: MusicFence)
    requires Exclusive(w) && id in w.held && w.held[id].op.PreparedStop? && w.held[id].ticket.None?
    ensures var (w', r) := StepSubmitStop(w, id, fence);
            && (fence.Queues? <==> id in w'.held)
            && (fence.Queues? ==>
                  && w'.state == w.state && w'.held[id] == w.held[id].(ticket := Some(w.worker.nextTicket))
                  && |w'.worker.queue| == |w.worker.queue| + 1
                  && w'.worker.queue[|w.worker.queue|]
                     == Job(w.worker.nextTicket, ChangeLifecycle(w.held[id].op.ride, Stop)))
            && (!fence.Queues? ==> w'.worker == w.worker && id in w'.leases && w'.state.phase.Ready?)
            && (fence.FenceFails? ==> w'.state == w.state && r == Finished(Err(MusicIncomplete)))
            && (fence.QueueRefuses? ==> w'.state.pendingCommandId.None? && r == Finished(Err(StorageFailed)))
  {
    assert Owned(w.state, id, w.held[id]);
  }
}
