/**
 The ride-recording owner: command admission, publication of durable outcomes, and location
 admission against a speculative recorder. Answers of the database worker are parameters here;
 the worker itself is in `RideProtocol`.
 */
module RideRecording {
  import opened Prelude
  import opened RideRecorder

  const MAX_PENDING_LOCATION_WRITES := 64

  datatype Phase = AwaitingRestore | Ready | RecoveryRequired

  datatype Error =
    | NotRestored
    | NeedsRecovery
    | CommandPending
    | NoActiveRide
    | StaleCommand
    | InvalidTransition
    | CommandIdExhausted
    | StorageFailed
    | MusicIncomplete

  datatype Result<+T> = Ok(value: T) | Err(error: Error)

  datatype RestoredRide = RestoredRide(id: nat, lifecycle: Lifecycle, ride: StoredRide)

  /** Answer of the worker. `Refused` committed nothing; after `Unknown` the command may have committed. */
  datatype Reply =
    | Committed(ride: nat, lifecycle: Lifecycle)
    | Snapshot(restored: Option<RestoredRide>)
    | Stored(admission: Admission)
    | Refused
    | Unknown

  datatype PendingLocation = PendingLocation(
    requestId: nat, ride: nat, admitted: Admitted, sequence: nat, ticket: nat)

  datatype WriteOutcome = WriteOutcome(
    requestId: nat, ride: nat, point: Point, sequence: nat, result: Reply, applied: bool)

  /** A prepared command; `id` is its lease and `ticket` the place of its storage work. */
  datatype Operation =
    | PreparedRestore(id: U64, ticket: nat)
    | PreparedStart(id: U64, startAt: U64, ticket: nat)
    | PreparedTransition(
        id: U64, ride: nat, event: RideEvent, previous: Lifecycle, next: Lifecycle, at: U64, offset: U64, ticket: nat)
    | PreparedStop(id: U64, ride: nat, previous: Lifecycle, next: Lifecycle, at: U64, offset: U64)

  datatype Token = Token(ride: nat, generation: nat)

  datatype Publication = Publication(ride: Option<nat>, revision: nat, generation: nat, lifecycle: Option<Lifecycle>)

  datatype RecordingState = RecordingState(
    recorder: Recorder,
    admissionRecorder: Recorder,
    rideId: Option<nat>,
    revision: U64,
    generation: U64,
    epochOffset: U64,
    pending: seq<PendingLocation>,
    settled: seq<WriteOutcome>,
    nextLocationRequestId: U64,
    nextCommandId: U64,
    pendingCommandId: Option<U64>,
    phase: Phase)

  const INITIAL := RecordingState(EMPTY, EMPTY, None, 0, 0, 0, [], [], 1, 1, None, AwaitingRestore)

  function Publish(s: RecordingState): Publication {
    Publication(s.rideId, s.revision, s.generation, s.recorder.state)
  }

  function RequireReady(s: RecordingState): Option<Error> {
    match s.phase
    case Ready => None
    case AwaitingRestore => Some(NotRestored)
    case RecoveryRequired => Some(NeedsRecovery)
  }

  // ---------------------------------------------------------------------------------------------
  // Commands
  // ---------------------------------------------------------------------------------------------

  /** An identifier is spent even when the command it was reserved for is then refused. */
  function Reserve(s: RecordingState): (RecordingState, Option<U64>) {
    if s.nextCommandId == U64_MAX then (s, None)
    else (s.(nextCommandId := s.nextCommandId + 1), Some(s.nextCommandId))
  }

  function BeginRestore(s: RecordingState, ticket: Option<nat>): (RecordingState, Result<Operation>) {
    if s.pendingCommandId.Some? then (s, Err(CommandPending))
    else
      var (s1, id) := Reserve(s);
      if id.None? then (s1, Err(CommandIdExhausted))
      else if ticket.None? then (s1, Err(StorageFailed))
      else (s1.(pendingCommandId := id, phase := AwaitingRestore), Ok(PreparedRestore(id.value, ticket.value)))
  }

  function BeginStart(s: RecordingState, at: U64, ticket: Option<nat>): (RecordingState, Result<Operation>) {
    if RequireReady(s).Some? then (s, Err(RequireReady(s).value))
    else if s.pendingCommandId.Some? then (s, Err(CommandPending))
    else if !AllowsStart(s.recorder.state) then (s, Err(InvalidTransition))
    else
      var (s1, id) := Reserve(s);
      if id.None? then (s1, Err(CommandIdExhausted))
      else if ticket.None? then (s1, Err(StorageFailed))
      else (s1.(pendingCommandId := id), Ok(PreparedStart(id.value, at, ticket.value)))
  }

  /** Guards shared by every command on the current ride. */
  function CheckToken(s: RecordingState, token: Token, event: RideEvent): Result<Lifecycle> {
    if RequireReady(s).Some? then Err(RequireReady(s).value)
    else if s.pendingCommandId.Some? then Err(CommandPending)
    else if s.rideId != Some(token.ride) || s.generation != token.generation then Err(StaleCommand)
    else if s.recorder.state.None? then Err(InvalidTransition)
    else
      var next := Transition(s.recorder.state.value, event);
      if next.None? then Err(InvalidTransition) else Ok(next.value)
  }

  /** Resuming realigns the process clock with the recorded timeline. */
  function EpochOffset(s: RecordingState, event: RideEvent, at: U64): U64 {
    if event.Resume? && s.recorder.state.Some? && s.recorder.state.value in {Interrupted, Paused}
    then SaturatingSub(s.recorder.lastMonotonic, at)
    else s.epochOffset
  }

  function BeginTransition(s: RecordingState, token: Token, event: RideEvent, at: U64, ticket: Option<nat>)
    : (RecordingState, Result<Operation>)
  {
    var next := CheckToken(s, token, event);
    if next.Err? then (s, Err(next.error))
    else if s.recorder.state.None? then (s, Err(InvalidTransition))
    else
      var offset := EpochOffset(s, event, at);
      var (s1, id) := Reserve(s);
      if id.None? then (s1, Err(CommandIdExhausted))
      else if ticket.None? then (s1, Err(StorageFailed))
      else (s1.(pendingCommandId := id),
            Ok(PreparedTransition(id.value, token.ride, event, s.recorder.state.value, next.value,
                                  SaturatingAdd(at, offset), offset, ticket.value)))
  }

  /** Stop reserves its command first; its storage work is queued only behind the music fence. */
  function BeginStop(s: RecordingState, token: Token, at: U64): (RecordingState, Result<Operation>) {
    var next := CheckToken(s, token, Stop);
    if next.Err? then (s, Err(next.error))
    else if s.recorder.state.None? then (s, Err(InvalidTransition))
    else
      var (s1, id) := Reserve(s);
      if id.None? then (s1, Err(CommandIdExhausted))
      else (s1.(pendingCommandId := id),
            Ok(PreparedStop(id.value, token.ride, s.recorder.state.value, next.value,
                            SaturatingAdd(at, s.epochOffset), s.epochOffset)))
  }

  /** Dropping a lease releases only the command it was issued for. */
  function ReleaseLease(s: RecordingState, id: U64): RecordingState {
    if s.pendingCommandId == Some(id) then s.(pendingCommandId := None) else s
  }

  function CommandStorageError(s: RecordingState, id: U64, reply: Reply): RecordingState {
    if s.pendingCommandId != Some(id) then s
    else s.(pendingCommandId := None, phase := if reply.Unknown? then RecoveryRequired else s.phase)
  }

  function Recover(s: RecordingState): RecordingState {
    s.(pendingCommandId := None, phase := RecoveryRequired)
  }

  function FinishRestore(s: RecordingState, id: U64, reply: Reply, generation: Option<nat>)
    : (RecordingState, Result<Publication>)
  {
    if !reply.Snapshot? then (s, Err(StorageFailed))
    else if s.pendingCommandId != Some(id) then (s, Err(StaleCommand))
    else if s.generation == U64_MAX then (Recover(s), Err(CommandIdExhausted))
    else
      var recorder :=
        if reply.restored.None? then EMPTY
        else RestoreRecorder(reply.restored.value.lifecycle, reply.restored.value.ride, generation);
      var s1 := s.(recorder := recorder,
                   admissionRecorder := recorder,
                   rideId := if reply.restored.None? then None else Some(reply.restored.value.id),
                   revision := SaturatingAdd(s.revision, 1),
                   generation := SaturatingAdd(s.generation, 1),
                   pendingCommandId := None,
                   phase := Ready);
      (s1, Ok(Publish(s1)))
  }

  function FinishStart(s: RecordingState, id: U64, at: U64, reply: Reply, generation: Option<nat>)
    : (RecordingState, Result<Publication>)
  {
    if !reply.Committed? then (CommandStorageError(s, id, reply), Err(StorageFailed))
    else if s.pendingCommandId != Some(id) then (s, Err(StaleCommand))
    else if !reply.lifecycle.Active? then (Recover(s), Err(InvalidTransition))
    else
      var recorder := StartRecorder(s.recorder, at, generation);
      if recorder.None? then (Recover(s), Err(InvalidTransition))
      else
        var s1 := s.(recorder := recorder.value,
                     admissionRecorder := recorder.value,
                     rideId := Some(reply.ride),
                     revision := SaturatingAdd(s.revision, 1),
                     generation := SaturatingAdd(s.generation, 1),
                     pendingCommandId := None);
        (s1, Ok(Publish(s1)))
  }

  /** Storage answered for another ride or reached another lifecycle than the one requested. */
  predicate Disagrees(s: RecordingState, ride: nat, next: Lifecycle, reply: Reply)
    requires reply.Committed?
  {
    s.rideId != Some(ride) || reply.ride != ride || reply.lifecycle != next
  }

  function FinishTransition(s: RecordingState, op: Operation, reply: Reply, answers: map<nat, Reply>)
    : (RecordingState, Result<Publication>)
    requires op.PreparedTransition?
  {
    if !reply.Committed? then (CommandStorageError(s, op.id, reply), Err(StorageFailed))
    else
      var s1 := Settle(s, answers);
      if s1.pendingCommandId != Some(op.id) then (s1.(settled := []), Err(StaleCommand))
      else if Disagrees(s1, op.ride, op.next, reply) then (Recover(s1), Err(StaleCommand))
      else
        var recorder := ApplyTransition(s1.recorder, op.previous, op.next, op.at);
        var admission := ApplyTransition(s1.admissionRecorder, op.previous, op.next, op.at);
        if recorder.None? || admission.None? then (Recover(s1), Err(InvalidTransition))
        else
          var s2 := Apply(s1, recorder.value, admission.value, op.offset);
          (if op.event.Discard? then s2.(rideId := None, pending := []) else s2, Ok(Publish(s2)))
  }

  function Apply(s: RecordingState, recorder: Recorder, admission: Recorder, offset: U64): RecordingState {
    s.(recorder := recorder,
       admissionRecorder := admission,
       epochOffset := offset,
       revision := SaturatingAdd(s.revision, 1),
       generation := SaturatingAdd(s.generation, 1),
       pendingCommandId := None)
  }

  /** Stop updates the durable recorder in place before it tries the speculative one. */
  function FinishStop(s: RecordingState, op: Operation, reply: Reply, answers: map<nat, Reply>)
    : (RecordingState, Result<Publication>)
    requires op.PreparedStop?
  {
    if !reply.Committed? then (CommandStorageError(s, op.id, reply), Err(StorageFailed))
    else
      var s1 := Settle(s, answers);
      if s1.pendingCommandId != Some(op.id) then (s1.(settled := []), Err(StaleCommand))
      else if Disagrees(s1, op.ride, op.next, reply) then (Recover(s1), Err(StaleCommand))
      else
        var recorder := ApplyTransition(s1.recorder, op.previous, op.next, op.at);
        if recorder.None? then (Recover(s1), Err(InvalidTransition))
        else
          var admission := ApplyTransition(s1.admissionRecorder, op.previous, op.next, op.at);
          if admission.None? then (Recover(s1.(recorder := recorder.value)), Err(InvalidTransition))
          else
            var s2 := Apply(s1, recorder.value, admission.value, op.offset);
            (s2, Ok(Publish(s2)))
  }

  // ---------------------------------------------------------------------------------------------
  // Location writes
  // ---------------------------------------------------------------------------------------------

  function SamplesOf(pending: seq<PendingLocation>): seq<Admitted> {
    if pending == [] then [] else [pending[0].admitted] + SamplesOf(pending[1..])
  }

  /** A write is applied when storage accepted it, it belongs to the current ride and it still fits the route. */
  predicate Applies(s: RecordingState, p: PendingLocation, result: Reply) {
    result.Stored? && result.admission.Accepted? && s.rideId == Some(p.ride) && Records(s.recorder, p.admitted)
  }

  function Outcome(s: RecordingState, p: PendingLocation, result: Reply): WriteOutcome {
    WriteOutcome(p.requestId, p.ride, p.admitted.point, p.sequence, result, Applies(s, p, result))
  }

  /** Moves the oldest pending write to the settled outcomes. */
  function SettleFirst(s: RecordingState, result: Reply): RecordingState
    requires s.pending != []
  {
    var p := s.pending[0];
    var applied := Applies(s, p, result);
    s.(pending := s.pending[1..],
       settled := s.settled + [Outcome(s, p, result)],
       recorder := if applied then Record(s.recorder, p.admitted) else s.recorder,
       revision := if applied then SaturatingAdd(s.revision, 1) else s.revision)
  }

  /** Settles answered writes in order and stops at the first unanswered one. */
  function SettleReady(s: RecordingState, answers: map<nat, Reply>): RecordingState
    decreases |s.pending|
  {
    if s.pending == [] || s.pending[0].ticket !in answers then s
    else SettleReady(SettleFirst(s, answers[s.pending[0].ticket]), answers)
  }

  function Rebuild(s: RecordingState): RecordingState {
    s.(admissionRecorder := RecordAll(s.recorder, SamplesOf(s.pending)))
  }

  function Settle(s: RecordingState, answers: map<nat, Reply>): RecordingState {
    Rebuild(SettleReady(s, answers))
  }

  function Poll(s: RecordingState, answers: map<nat, Reply>): (RecordingState, seq<WriteOutcome>) {
    var s1 := Settle(s, answers);
    (s1.(settled := []), s1.settled)
  }

  // ---------------------------------------------------------------------------------------------
  // Location admission
  // ---------------------------------------------------------------------------------------------

  /** What wheel telemetry says about the time of a fix. */
  datatype Motion = Retired | Parked | Moving

  /**
   One provider fix with the verdicts of geometry and telemetry the model does not compute:
   `jump` is the implied-speed check and `repeats` says that the fix repeats the last point.
   */
  datatype Fix = Fix(sample: Sample, context: nat, jump: bool, repeats: bool, motion: Motion)

  datatype Checkpoint = Applied | PointChanged | CheckpointFailed

  /** Storage as seen by one admission: the barrier, what is answered behind it, and the new write's ticket. */
  datatype Storage = Storage(barrier: bool, answers: map<nat, Reply>, checkpoint: Checkpoint, ticket: Option<nat>)

  datatype LocationAdmission =
    | Queued(requestId: nat, point: Point, sequence: nat)
    | ClockOnly
    | ParkedFix
    | MotionHistoryRetired
    | QueueFull
    | Rejected(reason: Admission)
    | Failed(error: Error)

  function AdmitFix(r: Recorder, fix: Fix): (Admission, Option<Admitted>) {
    AdmitSample(r, fix.sample, fix.jump, fix.context)
  }

  function Observed(s: RecordingState, sample: Sample): RecordingState {
    var recorder := Observe(s.recorder, sample);
    s.(recorder := recorder, admissionRecorder := recorder, revision := SaturatingAdd(s.revision, 1))
  }

  /** A parked fix first settles every queued write and then moves only the observation clock. */
  function AdmitParked(s: RecordingState, fix: Fix, storage: Storage): (RecordingState, LocationAdmission) {
    if s.pending != [] && !storage.barrier then (s, Failed(StorageFailed))
    else
      var s1 := if s.pending == [] then s else Settle(s, storage.answers);
      if s1.recorder.state != Some(Active) || !fix.sample.live then (s1, Rejected(OutOfOrder))
      else if AdmitFix(s1.recorder, fix).1.None? then (s1, Rejected(AdmitFix(s1.recorder, fix).0))
      else
        match storage.checkpoint
        case CheckpointFailed => (s1, Failed(StorageFailed))
        case PointChanged => (s1, Failed(StaleCommand))
        case Applied => (Observed(s1, fix.sample), ParkedFix)
  }

  /** Repeated live values move the observation clock of an active recording. */
  function AdmitClockOnly(s: RecordingState, fix: Fix, storage: Storage): (RecordingState, LocationAdmission) {
    if s.recorder.pointCount == 0 then (s, Failed(InvalidTransition))
    else
      match storage.checkpoint
      case CheckpointFailed => (s, Failed(StorageFailed))
      case PointChanged => (s, Failed(StaleCommand))
      case Applied =>
        if s.recorder.state != Some(Active) then (s, Failed(StaleCommand))
        else (Observed(s, fix.sample), ClockOnly)
  }

  function QueueWrite(s: RecordingState, ride: nat, admitted: Admitted, storage: Storage)
    : (RecordingState, LocationAdmission)
  {
    if s.nextLocationRequestId == U64_MAX then (s, Failed(CommandIdExhausted))
    else if !Records(s.admissionRecorder, admitted) then (s, Failed(InvalidTransition))
    else if |s.pending| + |s.settled| >= MAX_PENDING_LOCATION_WRITES then (s, QueueFull)
    else if storage.ticket.None? then (s, Failed(StorageFailed))
    else
      var id, sequence := s.nextLocationRequestId, s.admissionRecorder.pointCount;
      (s.(nextLocationRequestId := id + 1,
          admissionRecorder := Record(s.admissionRecorder, admitted),
          pending := s.pending + [PendingLocation(id, ride, admitted, sequence, storage.ticket.value)]),
       Queued(id, admitted.point, sequence))
  }

  /** The recorder that decides: the durable one while nothing is queued, else the speculative one. */
  function Judge(s: RecordingState): Recorder {
    if s.pending == [] then s.recorder else s.admissionRecorder
  }

  predicate IsClockOnly(s: RecordingState, fix: Fix) {
    s.pending == [] && fix.sample.live && fix.repeats && s.recorder.points != []
  }

  function AdmitMoving(s: RecordingState, ride: nat, fix: Fix, storage: Storage)
    : (RecordingState, LocationAdmission)
  {
    var (verdict, admitted) := AdmitFix(Judge(s), fix);
    if admitted.None? then (s, Rejected(verdict))
    else if IsClockOnly(s, fix) then AdmitClockOnly(s, fix, storage)
    else QueueWrite(s, ride, admitted.value, storage)
  }

  function Admit(s: RecordingState, fix: Fix, storage: Storage): (RecordingState, LocationAdmission) {
    if RequireReady(s).Some? then (s, Failed(RequireReady(s).value))
    else if s.rideId.None? then (s, Failed(NoActiveRide))
    else
      match fix.motion
      case Retired => (s, MotionHistoryRetired)
      case Parked => AdmitParked(s, fix, storage)
      case Moving => AdmitMoving(s, s.rideId.value, fix, storage)
  }

  // ---------------------------------------------------------------------------------------------
  // The owner
  // ---------------------------------------------------------------------------------------------

  class RideRecordingApplication {
    var recorder: Recorder
    var admissionRecorder: Recorder
    var rideId: Option<nat>
    var revision: U64
    var generation: U64
    var epochOffset: U64
    var pendingLocations: seq<PendingLocation>
    var settledLocations: seq<WriteOutcome>
    var nextLocationRequestId: U64
    var nextCommandId: U64
    var pendingCommandId: Option<U64>
    var phase: Phase

    function View(): RecordingState
      reads this
    {
      RecordingState(recorder, admissionRecorder, rideId, revision, generation, epochOffset, pendingLocations,
                     settledLocations, nextLocationRequestId, nextCommandId, pendingCommandId, phase)
    }

    constructor ()
      ensures View() == INITIAL
    {
      recorder, admissionRecorder, rideId := EMPTY, EMPTY, None;
      revision, generation, epochOffset := 0, 0, 0;
      pendingLocations, settledLocations := [], [];
      nextLocationRequestId, nextCommandId, pendingCommandId, phase := 1, 1, None, AwaitingRestore;
    }

    method ReserveCommandId() returns (id: Option<U64>)
      modifies this`nextCommandId
      ensures (View(), id) == Reserve(old(View()))
    {
      if nextCommandId == U64_MAX {
        return None;
      }
      id := Some(nextCommandId);
      nextCommandId := nextCommandId + 1;
    }

    method BeginRestoreCommand(ticket: Option<nat>) returns (r: Result<Operation>)
      modifies this
      ensures (View(), r) == BeginRestore(old(View()), ticket)
    {
      if pendingCommandId.Some? {
        return Err(CommandPending);
      }
      var id := ReserveCommandId();
      if id.None? {
        return Err(CommandIdExhausted);
      }
      if ticket.None? {
        return Err(StorageFailed);
      }
      pendingCommandId := id;
      phase := AwaitingRestore;
      return Ok(PreparedRestore(id.value, ticket.value));
    }

    method BeginStartCommand(at: U64, ticket: Option<nat>) returns (r: Result<Operation>)
      modifies this
      ensures (View(), r) == BeginStart(old(View()), at, ticket)
    {
      if !phase.Ready? {
        return Err(if phase.AwaitingRestore? then NotRestored else NeedsRecovery);
      }
      if pendingCommandId.Some? {
        return Err(CommandPending);
      }
      if !AllowsStart(recorder.state) {
        return Err(InvalidTransition);
      }
      var id := ReserveCommandId();
      if id.None? {
        return Err(CommandIdExhausted);
      }
      if ticket.None? {
        return Err(StorageFailed);
      }
      pendingCommandId := id;
      return Ok(PreparedStart(id.value, at, ticket.value));
    }

    method BeginTransitionCommand(token: Token, event: RideEvent, at: U64, ticket: Option<nat>)
      returns (r: Result<Operation>)
      modifies this
      ensures (View(), r) == BeginTransition(old(View()), token, event, at, ticket)
    {
      if !phase.Ready? {
        return Err(if phase.AwaitingRestore? then NotRestored else NeedsRecovery);
      }
      if pendingCommandId.Some? {
        return Err(CommandPending);
      }
      if rideId != Some(token.ride) || generation != token.generation {
        return Err(StaleCommand);
      }
      if recorder.state.None? || Transition(recorder.state.value, event).None? {
        return Err(InvalidTransition);
      }
      var previous := recorder.state.value;
      var offset := epochOffset;
      if event.Resume? && (previous.Interrupted? || previous.Paused?) {
        offset := SaturatingSub(recorder.lastMonotonic, at);
      }
      var id := ReserveCommandId();
      if id.None? {
        return Err(CommandIdExhausted);
      }
      if ticket.None? {
        return Err(StorageFailed);
      }
      pendingCommandId := id;
      return Ok(PreparedTransition(id.value, token.ride, event, previous, Transition(previous, event).value,
                                   SaturatingAdd(at, offset), offset, ticket.value));
    }

    method BeginStopCommand(token: Token, at: U64) returns (r: Result<Operation>)
      modifies this
      ensures (View(), r) == BeginStop(old(View()), token, at)
    {
      if !phase.Ready? {
        return Err(if phase.AwaitingRestore? then NotRestored else NeedsRecovery);
      }
      if pendingCommandId.Some? {
        return Err(CommandPending);
      }
      if rideId != Some(token.ride) || generation != token.generation {
        return Err(StaleCommand);
      }
      if recorder.state.None? || Transition(recorder.state.value, Stop).None? {
        return Err(InvalidTransition);
      }
      var id := ReserveCommandId();
      if id.None? {
        return Err(CommandIdExhausted);
      }
      pendingCommandId := id;
      return Ok(PreparedStop(id.value, token.ride, recorder.state.value, Transition(recorder.state.value, Stop).value,
                             SaturatingAdd(at, epochOffset), epochOffset));
    }

    method FailCommand(id: U64, reply: Reply)
      modifies this`pendingCommandId, this`phase
      ensures View() == CommandStorageError(old(View()), id, reply)
    {
      if pendingCommandId == Some(id) {
        pendingCommandId := None;
        if reply.Unknown? {
          phase := RecoveryRequired;
        }
      }
    }

    method RequireRecovery()
      modifies this`pendingCommandId, this`phase
      ensures View() == Recover(old(View()))
    {
      phase, pendingCommandId := RecoveryRequired, None;
    }

    method PublishTransition(durable: Recorder, speculative: Recorder, offset: U64)
      modifies this
      ensures View() == Apply(old(View()), durable, speculative, offset)
    {
      recorder, admissionRecorder := durable, speculative;
      epochOffset := offset;
      revision := SaturatingAdd(revision, 1);
      generation := SaturatingAdd(generation, 1);
      pendingCommandId := None;
    }

    method FinishRestoreCommand(id: U64, reply: Reply, recordingId: Option<nat>) returns (r: Result<Publication>)
      modifies this
      ensures (View(), r) == FinishRestore(old(View()), id, reply, recordingId)
    {
      if !reply.Snapshot? {
        return Err(StorageFailed);
      }
      if pendingCommandId != Some(id) {
        return Err(StaleCommand);
      }
      if generation == U64_MAX {
        RequireRecovery();
        return Err(CommandIdExhausted);
      }
      match reply.restored {
        case None => recorder, rideId := EMPTY, None;
        case Some(ride) => recorder, rideId := RestoreRecorder(ride.lifecycle, ride.ride, recordingId), Some(ride.id);
      }
      admissionRecorder := recorder;
      revision := SaturatingAdd(revision, 1);
      generation := SaturatingAdd(generation, 1);
      phase, pendingCommandId := Ready, None;
      return Ok(Publish(View()));
    }

    method FinishStartCommand(id: U64, at: U64, reply: Reply, recordingId: Option<nat>) returns (r: Result<Publication>)
      modifies this
      ensures (View(), r) == FinishStart(old(View()), id, at, reply, recordingId)
    {
      if !reply.Committed? {
        FailCommand(id, reply);
        return Err(StorageFailed);
      }
      if pendingCommandId != Some(id) {
        return Err(StaleCommand);
      }
      var started := StartRecorder(recorder, at, recordingId);
      if !reply.lifecycle.Active? || started.None? {
        RequireRecovery();
        return Err(InvalidTransition);
      }
      recorder := started.value;
      admissionRecorder := recorder;
      rideId := Some(reply.ride);
      revision := SaturatingAdd(revision, 1);
      generation := SaturatingAdd(generation, 1);
      pendingCommandId := None;
      return Ok(Publish(View()));
    }

    method FinishTransitionCommand(op: Operation, reply: Reply, answers: map<nat, Reply>)
      returns (r: Result<Publication>)
      requires op.PreparedTransition?
      modifies this
      ensures (View(), r) == FinishTransition(old(View()), op, reply, answers)
    {
      if !reply.Committed? {
        FailCommand(op.id, reply);
        return Err(StorageFailed);
      }
      var outcomes := PollLocationWrites(answers);
      if pendingCommandId != Some(op.id) {
        return Err(StaleCommand);
      }
      settledLocations := settledLocations + outcomes;
      assert settledLocations == outcomes;
      if rideId != Some(op.ride) || reply.ride != op.ride || reply.lifecycle != op.next {
        RequireRecovery();
        return Err(StaleCommand);
      }
      var durable := ApplyTransition(recorder, op.previous, op.next, op.at);
      var speculative := ApplyTransition(admissionRecorder, op.previous, op.next, op.at);
      if durable.None? || speculative.None? {
        RequireRecovery();
        return Err(InvalidTransition);
      }
      PublishTransition(durable.value, speculative.value, op.offset);
      r := Ok(Publish(View()));
      if op.event.Discard? {
        rideId := None;
        pendingLocations := [];
      }
    }

    method FinishStopCommand(op: Operation, reply: Reply, answers: map<nat, Reply>)
      returns (r: Result<Publication>)
      requires op.PreparedStop?
      modifies this
      ensures (View(), r) == FinishStop(old(View()), op, reply, answers)
    {
      if !reply.Committed? {
        FailCommand(op.id, reply);
        return Err(StorageFailed);
      }
      var outcomes := PollLocationWrites(answers);
      if pendingCommandId != Some(op.id) {
        return Err(StaleCommand);
      }
      settledLocations := settledLocations + outcomes;
      assert settledLocations == outcomes;
      if rideId != Some(op.ride) || reply.ride != op.ride || reply.lifecycle != op.next {
        RequireRecovery();
        return Err(StaleCommand);
      }
      var durable := ApplyTransition(recorder, op.previous, op.next, op.at);
      if durable.None? {
        RequireRecovery();
        return Err(InvalidTransition);
      }
      recorder := durable.value;
      var speculative := ApplyTransition(admissionRecorder, op.previous, op.next, op.at);
      if speculative.None? {
        RequireRecovery();
        return Err(InvalidTransition);
      }
      PublishTransition(recorder, speculative.value, op.offset);
      return Ok(Publish(View()));
    }

    method PollLocationWrites(answers: map<nat, Reply>) returns (outcomes: seq<WriteOutcome>)
      modifies this
      ensures (View(), outcomes) == Poll(old(View()), answers)
    {
      outcomes := settledLocations;
      settledLocations := [];
      ghost var goal := SettleReady(old(View()), answers);
      while pendingLocations != [] && pendingLocations[0].ticket in answers
        invariant settledLocations == []
        invariant SettleReady(View().(settled := outcomes), answers) == goal
        decreases |pendingLocations|
      {
        var pending := pendingLocations[0];
        var result := answers[pending.ticket];
        pendingLocations := pendingLocations[1..];
        var applied := false;
        if result.Stored? && result.admission.Accepted? && rideId == Some(pending.ride) {
          applied := Records(recorder, pending.admitted);
          if applied {
            recorder := Record(recorder, pending.admitted);
            revision := SaturatingAdd(revision, 1);
          }
        }
        outcomes := outcomes + [WriteOutcome(pending.requestId, pending.ride, pending.admitted.point,
                                             pending.sequence, result, applied)];
      }
      RebuildAdmissionRecorder();
    }

    /** Replays the writes still pending on the durable recorder. */
    method RebuildAdmissionRecorder()
      modifies this`admissionRecorder
      ensures View() == Rebuild(old(View()))
    {
      var rebuilt := recorder;
      for i := 0 to |pendingLocations|
        invariant RecordAll(rebuilt, SamplesOf(pendingLocations[i..]))
               == RecordAll(recorder, SamplesOf(pendingLocations))
      {
        assert pendingLocations[i..][1..] == pendingLocations[i + 1..];
        rebuilt := Record(rebuilt, pendingLocations[i].admitted);
      }
      admissionRecorder := rebuilt;
    }

    /** Moves the observation clock of the durable recorder and restarts the speculative one from it. */
    method ObserveFix(sample: Sample)
      modifies this
      ensures View() == Observed(old(View()), sample)
    {
      recorder := Observe(recorder, sample);
      admissionRecorder := recorder;
      revision := SaturatingAdd(revision, 1);
    }

    method AdmitLocation(fix: Fix, storage: Storage) returns (r: LocationAdmission)
      modifies this
      ensures (View(), r) == Admit(old(View()), fix, storage)
    {
      if !phase.Ready? {
        return Failed(if phase.AwaitingRestore? then NotRestored else NeedsRecovery);
      }
      if rideId.None? {
        return Failed(NoActiveRide);
      }
      if fix.motion.Retired? {
        return MotionHistoryRetired;
      }
      if fix.motion.Parked? {
        r := AdmitParkedLocation(fix, storage);
        return;
      }
      var (verdict, admitted) :=
        AdmitFix(if pendingLocations == [] then recorder else admissionRecorder, fix);
      if admitted.None? {
        return Rejected(verdict);
      }
      if pendingLocations == [] && fix.sample.live && fix.repeats && recorder.points != [] {
        r := AdmitClockOnlyLocation(fix, storage);
        return;
      }
      r := QueueLocationWrite(rideId.value, admitted.value, storage);
    }

    method AdmitParkedLocation(fix: Fix, storage: Storage) returns (r: LocationAdmission)
      modifies this
      ensures (View(), r) == AdmitParked(old(View()), fix, storage)
    {
      if pendingLocations != [] {
        if !storage.barrier {
          return Failed(StorageFailed);
        }
        var outcomes := PollLocationWrites(storage.answers);
        settledLocations := settledLocations + outcomes;
        assert settledLocations == outcomes;
      }
      if recorder.state != Some(Active) || !fix.sample.live {
        return Rejected(OutOfOrder);
      }
      var (verdict, admitted) := AdmitFix(recorder, fix);
      if admitted.None? {
        return Rejected(verdict);
      }
      match storage.checkpoint {
        case CheckpointFailed => return Failed(StorageFailed);
        case PointChanged => return Failed(StaleCommand);
        case Applied =>
      }
      ObserveFix(fix.sample);
      return ParkedFix;
    }

    method AdmitClockOnlyLocation(fix: Fix, storage: Storage) returns (r: LocationAdmission)
      modifies this
      ensures (View(), r) == AdmitClockOnly(old(View()), fix, storage)
    {
      if recorder.pointCount == 0 {
        return Failed(InvalidTransition);
      }
      match storage.checkpoint {
        case CheckpointFailed => return Failed(StorageFailed);
        case PointChanged => return Failed(StaleCommand);
        case Applied =>
      }
      if recorder.state != Some(Active) {
        return Failed(StaleCommand);
      }
      ObserveFix(fix.sample);
      return ClockOnly;
    }

    method QueueLocationWrite(ride: nat, admitted: Admitted, storage: Storage) returns (r: LocationAdmission)
      modifies this
      ensures (View(), r) == QueueWrite(old(View()), ride, admitted, storage)
    {
      var sequence := admissionRecorder.pointCount;
      var requestId := nextLocationRequestId;
      if requestId == U64_MAX {
        return Failed(CommandIdExhausted);
      }
      if !Records(admissionRecorder, admitted) {
        return Failed(InvalidTransition);
      }
      if |pendingLocations| + |settledLocations| >= MAX_PENDING_LOCATION_WRITES {
        return QueueFull;
      }
      if storage.ticket.None? {
        return Failed(StorageFailed);
      }
      nextLocationRequestId := requestId + 1;
      admissionRecorder := Record(admissionRecorder, admitted);
      pendingLocations := pendingLocations +
        [PendingLocation(requestId, ride, admitted, sequence, storage.ticket.value)];
      return Queued(requestId, admitted.point, sequence);
    }
  }
}
