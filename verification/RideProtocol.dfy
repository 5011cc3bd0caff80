/**
 The recording owner beside its first-in-first-out database worker. A `World` holds the owner's
 state, the prepared operations and leases that callers still hold, and the worker; an `Event` is
 one public call or one step of the worker. Every choice of the environment is in the event, so
 a statement about all event sequences is a statement about all runs.
 */
module RideProtocol {
  import opened Prelude
  import opened RideRecorder
  import opened RideRecording

  // ---------------------------------------------------------------------------------------------
  // The database worker
  // ---------------------------------------------------------------------------------------------

  datatype Command =
    | CreateRide
    | ChangeLifecycle(ride: nat, event: RideEvent)
    | ReadSnapshot
    | WriteLocation(ride: nat, point: Point)

  datatype Job = Job(ticket: nat, command: Command)

  /**
   `rides` and `routes` hold what is committed. `unheard` is history: for every ride, how many writes
   were stored and had their answer lost since the last restoration.
   */
  datatype Worker = Worker(
    queue: seq<Job>,
    replies: map<nat, Reply>,
    rides: map<nat, Lifecycle>,
    routes: map<nat, seq<Point>>,
    nextRide: nat,
    nextTicket: nat,
    unheard: multiset<nat>)

  /** What the database does with a command; a verdict that does not fit the command declines it. */
  datatype Verdict =
    | Declines
    | Commits(lifecycle: Lifecycle)
    | Shows(shown: Option<nat>, ride: StoredRide)
    | Stores(admission: Admission)

  /** A lost reply hides the verdict from the caller and not from the database. */
  datatype Choice = Choice(verdict: Verdict, lost: bool)

  function Route(w: Worker, ride: nat): seq<Point> {
    if ride in w.routes then w.routes[ride] else []
  }

  function Counted(route: seq<Point>): U64 {
    if |route| <= U64_MAX then |route| else U64_MAX
  }

  /** The effect of a command on the database, and its answer. */
  function Execute(w: Worker, command: Command, verdict: Verdict): (Worker, Reply) {
    match command
    case CreateRide =>
      var ride := w.nextRide;
      if verdict.Commits?
      then (w.(rides := w.rides[ride := verdict.lifecycle], nextRide := ride + 1), Committed(ride, verdict.lifecycle))
      else (w, Refused)
    case ChangeLifecycle(ride, _) =>
      if verdict.Commits? && ride in w.rides
      then (w.(rides := w.rides[ride := verdict.lifecycle]), Committed(ride, verdict.lifecycle))
      else (w, Refused)
    case ReadSnapshot =>
      if !verdict.Shows? then (w, Refused)
      else if verdict.shown.None? || verdict.shown.value !in w.rides then (w, Snapshot(None))
      else
        var ride := verdict.shown.value;
        var shown := verdict.ride.(points := Route(w, ride), pointCount := Counted(Route(w, ride)));
        (w, Snapshot(Some(RestoredRide(ride, w.rides[ride], shown))))
    case WriteLocation(ride, point) =>
      if !verdict.Stores? || ride !in w.rides then (w, Refused)
      else if !verdict.admission.Accepted? then (w, Stored(verdict.admission))
      else (w.(routes := w.routes[ride := Route(w, ride) + [point]]), Stored(Accepted))
  }

  function Enqueue(w: Worker, command: Command): Worker {
    w.(queue := w.queue + [Job(w.nextTicket, command)], nextTicket := w.nextTicket + 1)
  }

  /** The worker runs the oldest job. */
  function RunJob(w: Worker, choice: Choice): Worker {
    if w.queue == [] then w
    else
      var job := w.queue[0];
      var (w', reply) := Execute(w, job.command, choice.verdict);
      w'.(queue := w.queue[1..],
          replies := w.replies[job.ticket := if choice.lost then Unknown else reply],
          unheard := if choice.lost && job.command.WriteLocation? && reply == Stored(Accepted)
                     then w.unheard + multiset{job.command.ride} else w.unheard)
  }

  /** A barrier returns when every job queued before it has run. */
  function Drain(w: Worker, choices: seq<Choice>): Worker
    decreases |w.queue|
  {
    if w.queue == [] then w
    else if choices == [] then Drain(RunJob(w, Choice(Declines, false)), [])
    else Drain(RunJob(w, choices[0]), choices[1..])
  }

  // ---------------------------------------------------------------------------------------------
  // The world
  // ---------------------------------------------------------------------------------------------

  /** A prepared operation in a caller's hands, with the raw and the recorded clock it was prepared at. */
  datatype Held = Held(op: Operation, raw: U64, clock: U64, ticket: Option<nat>)

  /** A published lifecycle change: the clocks it was prepared at, its logical stamp and offset. */
  datatype Stamp = Stamp(raw: U64, clock: U64, at: U64, offset: U64, event: RideEvent)

  /**
   `leases` are the guards of finished calls that are still to be dropped; `nextRecording` numbers
   recordings across the process. The last five fields are history: request identifiers handed
   to callers, identifiers cleared by Discard, whether a queued transition was dropped since the
   last restoration, the stamps published for the current ride, and what was said of each queued fix.
   */
  datatype World = World(
    state: RecordingState,
    held: map<nat, Held>,
    leases: set<nat>,
    worker: Worker,
    nextRecording: nat,
    reported: seq<nat>,
    discarded: set<nat>,
    disowned: bool,
    stamps: seq<Stamp>,
    issued: map<nat, Issue>)

  /** What a caller was told when its fix was queued, the place of its write and the recording it was made in. */
  datatype Issue = Issue(ride: nat, point: Point, sequence: nat, ticket: nat, recording: Option<nat>)

  datatype MusicFence = FenceFails | QueueRefuses | Queues

  datatype Event =
    | Restore(accepted: bool)
    | StartRide(at: U64, accepted: bool)
    | ChangeRide(token: Token, event: RideEvent, at: U64, accepted: bool)
    | StopRide(token: Token, at: U64)
    | SubmitStop(id: U64, fence: MusicFence)
    | Finish(id: U64, givesUp: bool)
    | DropOperation(id: U64)
    | DropGuard(id: U64)
    | WorkerRuns(choice: Choice)
    | PollWrites
    | CheckpointWrites(choices: seq<Choice>)
    | AdmitLocation(fix: Fix, accepted: bool, barrier: bool, choices: seq<Choice>, checkpoint: Checkpoint)

  datatype Reaction =
    | Silent
    | Prepared(operation: Result<Operation>)
    | Finished(publication: Result<Publication>)
    | Reported(outcomes: seq<WriteOutcome>)
    | Decided(admission: LocationAdmission)

  const NEW_WORLD :=
    World(INITIAL, map[], {}, Worker([], map[], map[], map[], 0, 0, multiset{}), 1, [], {}, false, [], map[])

  function Ticket(w: World, accepted: bool): Option<nat> {
    if accepted then Some(w.worker.nextTicket) else None
  }

  /** Hands a prepared operation to the caller and its storage work to the worker. */
  function Hold(w: World, s: RecordingState, op: Operation, raw: U64, command: Command): World {
    w.(state := s,
       held := w.held[op.id := Held(op, raw, w.state.recorder.lastMonotonic, Some(w.worker.nextTicket))],
       worker := Enqueue(w.worker, command))
  }

  function StepRestore(w: World, accepted: bool): (World, Reaction) {
    var (s, r) := BeginRestore(w.state, Ticket(w, accepted));
    (if r.Ok? then Hold(w, s, r.value, 0, ReadSnapshot) else w.(state := s), Prepared(r))
  }

  function StepStart(w: World, at: U64, accepted: bool): (World, Reaction) {
    var (s, r) := BeginStart(w.state, at, Ticket(w, accepted));
    (if r.Ok? then Hold(w, s, r.value, at, CreateRide) else w.(state := s), Prepared(r))
  }

  function StepChange(w: World, token: Token, event: RideEvent, at: U64, accepted: bool): (World, Reaction) {
    var (s, r) := BeginTransition(w.state, token, event, at, Ticket(w, accepted));
    (if r.Ok? then Hold(w, s, r.value, at, ChangeLifecycle(token.ride, event)) else w.(state := s), Prepared(r))
  }

  function StepStop(w: World, token: Token, at: U64): (World, Reaction) {
    var (s, r) := BeginStop(w.state, token, at);
    (if r.Ok? then
       w.(state := s, held := w.held[r.value.id := Held(r.value, at, w.state.recorder.lastMonotonic, None)])
     else w.(state := s), Prepared(r))
  }

  /** The call returns; its lease guard is dropped by a later event. */
  function Consume(w: World, id: U64, s: RecordingState): World {
    w.(state := s, held := w.held - {id}, leases := w.leases + {id})
  }

  function StepSubmitStop(w: World, id: U64, fence: MusicFence): (World, Reaction) {
    if id !in w.held || !w.held[id].op.PreparedStop? || w.held[id].ticket.Some? then (w, Silent)
    else
      var h := w.held[id];
      match fence
      case FenceFails => (Consume(w, id, w.state), Finished(Err(MusicIncomplete)))
      case QueueRefuses => (Consume(w, id, CommandStorageError(w.state, id, Refused)), Finished(Err(StorageFailed)))
      case Queues =>
        (w.(held := w.held[id := h.(ticket := Some(w.worker.nextTicket))],
            worker := Enqueue(w.worker, ChangeLifecycle(h.op.ride, Stop))), Silent)
  }

  function NextRecording(w: World): Option<nat> {
    if w.nextRecording < U64_MAX then Some(w.nextRecording) else None
  }

  /** A recorder that was started or restored has taken the next recording number. */
  function Numbered(w: World, r: Result<Publication>, s: RecordingState): World {
    if r.Ok? && s.recorder.generation.Some? then w.(nextRecording := w.nextRecording + 1, stamps := [])
    else if r.Ok? then w.(stamps := [])
    else w
  }

  function Stamped(w: World, h: Held, event: RideEvent, r: Result<Publication>): World
    requires h.op.PreparedTransition? || h.op.PreparedStop?
  {
    if r.Ok? then w.(stamps := w.stamps + [Stamp(h.raw, h.clock, h.op.at, h.op.offset, event)]) else w
  }

  function PendingIds(pending: seq<PendingLocation>): seq<nat> {
    if pending == [] then [] else [pending[0].requestId] + PendingIds(pending[1..])
  }

  function OutcomeIds(outcomes: seq<WriteOutcome>): seq<nat> {
    if outcomes == [] then [] else [outcomes[0].requestId] + OutcomeIds(outcomes[1..])
  }

  function IdSet(ids: seq<nat>): set<nat> {
    set id | id in ids
  }

  /** Discard clears the writes that are still pending. */
  function Cleared(w: World, s: RecordingState): World {
    w.(discarded := w.discarded + IdSet(PendingIds(s.pending)))
  }

  /** A restoration has read every write of its ride. */
  function Reread(w: Worker, ride: Option<nat>): Worker {
    if ride.Some? then w.(unheard := w.unheard[ride.value := 0]) else w
  }

  function FinishHeldRestore(w: World, h: Held, reply: Reply): (World, Reaction)
    requires h.op.PreparedRestore?
  {
    var (s, r) := FinishRestore(w.state, h.op.id, reply, NextRecording(w));
    var w1 := Numbered(Consume(w, h.op.id, s), r, s);
    (if r.Ok? then w1.(disowned := false, worker := Reread(w.worker, s.rideId)) else w1, Finished(r))
  }

  function FinishHeldStart(w: World, h: Held, reply: Reply): (World, Reaction)
    requires h.op.PreparedStart?
  {
    var (s, r) := FinishStart(w.state, h.op.id, h.op.startAt, reply, NextRecording(w));
    (Numbered(Consume(w, h.op.id, s), r, s), Finished(r))
  }

  function FinishHeldTransition(w: World, h: Held, reply: Reply): (World, Reaction)
    requires h.op.PreparedTransition?
  {
    var (s, r) := FinishTransition(w.state, h.op, reply, w.worker.replies);
    var w1 := Stamped(Consume(w, h.op.id, s), h, h.op.event, r);
    (if r.Ok? && h.op.event.Discard? then Cleared(w1, Settle(w.state, w.worker.replies)) else w1, Finished(r))
  }

  function FinishHeldStop(w: World, h: Held, reply: Reply): (World, Reaction)
    requires h.op.PreparedStop?
  {
    var (s, r) := FinishStop(w.state, h.op, reply, w.worker.replies);
    (Stamped(Consume(w, h.op.id, s), h, Stop, r), Finished(r))
  }

  function FinishHeld(w: World, h: Held, reply: Reply): (World, Reaction) {
    match h.op
    case PreparedRestore(_, _) => FinishHeldRestore(w, h, reply)
    case PreparedStart(_, _, _) => FinishHeldStart(w, h, reply)
    case PreparedTransition(_, _, _, _, _, _, _, _) => FinishHeldTransition(w, h, reply)
    case PreparedStop(_, _, _, _, _, _) => FinishHeldStop(w, h, reply)
  }

  /** The answer a finishing call sees: it waits for its ticket, or the reply channel is gone. */
  function Answer(w: World, h: Held, givesUp: bool): Option<Reply> {
    if h.ticket.None? then None
    else if givesUp then Some(Unknown)
    else if h.ticket.value in w.worker.replies then Some(w.worker.replies[h.ticket.value])
    else None
  }

  /** `reply` is an answer that a call holding `h` can see. */
  predicate CanSee(w: World, h: Held, reply: Reply) {
    && h.ticket.Some?
    && (reply == Unknown || (h.ticket.value in w.worker.replies && reply == w.worker.replies[h.ticket.value]))
  }

  function StepFinish(w: World, id: U64, givesUp: bool): (World, Reaction) {
    if id !in w.held then (w, Silent)
    else
      var answer := Answer(w, w.held[id], givesUp);
      if answer.None? then (w, Silent) else FinishHeld(w, w.held[id], answer.value)
  }

  /** A Stop that has been submitted is inside its blocking call and cannot be dropped. */
  predicate Droppable(h: Held) {
    !(h.op.PreparedStop? && h.ticket.Some?)
  }

  function StepDropOperation(w: World, id: U64): World {
    if id !in w.held || !Droppable(w.held[id]) then w
    else w.(state := ReleaseLease(w.state, id),
            held := w.held - {id},
            disowned := w.disowned || w.held[id].op.PreparedTransition?)
  }

  function StepDropGuard(w: World, id: U64): World {
    if id !in w.leases then w
    else w.(state := ReleaseLease(w.state, id), leases := w.leases - {id})
  }

  /** A checkpoint waits for the worker and then polls. */
  function Checkpointed(w: World, choices: seq<Choice>): World {
    StepPoll(w.(worker := Drain(w.worker, choices))).0
  }

  function StepPoll(w: World): (World, Reaction) {
    var (s, outcomes) := Poll(w.state, w.worker.replies);
    (w.(state := s, reported := w.reported + OutcomeIds(outcomes)), Reported(outcomes))
  }

  /** A parked fix waits for the barrier exactly when writes are pending. */
  predicate Waits(s: RecordingState, fix: Fix) {
    s.phase.Ready? && s.rideId.Some? && fix.motion.Parked? && s.pending != []
  }

  /** The world as an admission finds it behind its barrier. */
  function Waited(w: World, e: Event): World
    requires e.AdmitLocation?
  {
    if Waits(w.state, e.fix) && e.barrier then w.(worker := Drain(w.worker, e.choices)) else w
  }

  function StorageFor(w: World, e: Event): Storage
    requires e.AdmitLocation?
  {
    Storage(e.barrier, w.worker.replies, e.checkpoint, Ticket(w, e.accepted))
  }

  /** Admits one fix and hands a queued write to the worker. */
  function AdmitNow(w: World, fix: Fix, storage: Storage): (World, Reaction) {
    var (s, r) := Admit(w.state, fix, storage);
    (if r.Queued? && w.state.rideId.Some?
     then w.(state := s,
             worker := Enqueue(w.worker, WriteLocation(w.state.rideId.value, r.point)),
             issued := w.issued[r.requestId := Issue(w.state.rideId.value, r.point, r.sequence,
                                                     w.worker.nextTicket, w.state.recorder.generation)])
     else w.(state := s), Decided(r))
  }

  function StepAdmit(w: World, e: Event): (World, Reaction)
    requires e.AdmitLocation?
  {
    var w1 := Waited(w, e);
    AdmitNow(w1, e.fix, StorageFor(w1, e))
  }

  function Step(w: World, e: Event): (World, Reaction) {
    match e
    case Restore(accepted) => StepRestore(w, accepted)
    case StartRide(at, accepted) => StepStart(w, at, accepted)
    case ChangeRide(token, event, at, accepted) => StepChange(w, token, event, at, accepted)
    case StopRide(token, at) => StepStop(w, token, at)
    case SubmitStop(id, fence) => StepSubmitStop(w, id, fence)
    case Finish(id, givesUp) => StepFinish(w, id, givesUp)
    case DropOperation(id) => (StepDropOperation(w, id), Silent)
    case DropGuard(id) => (StepDropGuard(w, id), Silent)
    case WorkerRuns(choice) => (w.(worker := RunJob(w.worker, choice)), Silent)
    case PollWrites => StepPoll(w)
    case CheckpointWrites(choices) => StepPoll(w.(worker := Drain(w.worker, choices)))
    case AdmitLocation(_, _, _, _, _) => StepAdmit(w, e)
  }

  function Run(w: World, run: seq<Event>): World
    decreases |run|
  {
    if run == [] then w else Run(Step(w, run[0]).0, run[1..])
  }
}
