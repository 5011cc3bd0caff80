/** The lifecycle in memory agrees with the committed one, across lost replies and restorations. */
module DurableLifecycle {
  import opened Prelude
  import opened RideRecorder
  import opened RideRecording
  import opened RideProtocol
  import opened RideCommands
  import opened LocationLedger

  /** The owned ride is stored with the lifecycle the owner shows. */
  predicate Matches(s: RecordingState, rides: map<nat, Lifecycle>) {
    s.rideId.Some? ==> s.rideId.value in rides && s.recorder.state == Some(rides[s.rideId.value])
  }

  predicate Agrees(w: World) {
    Matches(w.state, w.worker.rides)
  }

  predicate IsLifecycle(job: Job) {
    job.command.CreateRide? || job.command.ChangeLifecycle?
  }

  /** Queued lifecycle changes, if any, all carry this ticket. */
  predicate OnlyChange(queue: seq<Job>, ticket: Option<nat>) {
    forall i | 0 <= i < |queue| :: queue[i].command.ChangeLifecycle? ==> ticket == Some(queue[i].ticket)
  }

  /** A committed answer tells the truth about the database. */
  predicate Truthful(w: Worker, ticket: nat) {
    ticket in w.replies && w.replies[ticket].Committed? ==>
      w.replies[ticket].ride in w.rides && w.rides[w.replies[ticket].ride] == w.replies[ticket].lifecycle
  }

  /** Queued lifecycle work is older than the snapshot, and an answered snapshot is current. */
  predicate Current(w: Worker, ticket: nat) {
    && (forall i | 0 <= i < |w.queue| :: IsLifecycle(w.queue[i]) ==> w.queue[i].ticket < ticket)
    && (ticket in w.replies && w.replies[ticket].Snapshot? && w.replies[ticket].restored.Some? ==>
          var ride := w.replies[ticket].restored.value;
          ride.id in w.rides && w.rides[ride.id] == ride.lifecycle)
  }

  /** The answer is in and is one after which the owner stays ready without publishing, or is not in yet. */
  predicate Uncommitted(w: Worker, ticket: nat) {
    ticket !in w.replies || (!w.replies[ticket].Committed? && !w.replies[ticket].Unknown?)
  }

  predicate Changes(h: Held) {
    (h.op.PreparedTransition? || h.op.PreparedStop?) && h.ticket.Some?
  }

  /** What a ready owner knows about the database while it holds `h`. */
  predicate Follows(w: Worker, s: RecordingState, h: Held) {
    if Changes(h) then
      && OnlyChange(w.queue, h.ticket) && h.ticket.value < w.nextTicket
      && Truthful(w, h.ticket.value)
      && (Uncommitted(w, h.ticket.value) ==> Matches(s, w.rides))
    else
      && OnlyChange(w.queue, None) && Matches(s, w.rides)
      && (h.ticket.Some? ==> h.ticket.value < w.nextTicket && Truthful(w, h.ticket.value))
  }

  /** The durable side of every reachable world. */
  predicate Durable(w: World) {
    && (forall id | id in w.held && w.held[id].op.PreparedRestore? ::
          w.held[id].ticket.Some? && w.held[id].ticket.value < w.worker.nextTicket
          && Current(w.worker, w.held[id].ticket.value))
    && (w.state.phase.Ready? && !w.disowned ==>
          && (forall id | id in w.held :: Follows(w.worker, w.state, w.held[id]))
          && (w.held == map[] ==> OnlyChange(w.worker.queue, None) && Agrees(w)))
  }

  // ---------------------------------------------------------------------------------------------
  // Steps of the worker
  // ---------------------------------------------------------------------------------------------

  lemma RunJobIsCurrent(w: Worker, choice: Choice, ticket: nat)
    requires InOrder(w) && Current(w, ticket)
    ensures Current(RunJob(w, choice), ticket)
  {
    if w.queue != [] {
      var w' := RunJob(w, choice);
      assert forall i | 0 <= i < |w'.queue| :: w'.queue[i] == w.queue[i + 1];
    }
  }

  lemma RunJobFollows(w: Worker, choice: Choice, s: RecordingState, h: Held)
    requires InOrder(w) && Follows(w, s, h)
    ensures Follows(RunJob(w, choice), s, h)
  {
    if w.queue != [] {
      var w' := RunJob(w, choice);
      assert forall i | 0 <= i < |w'.queue| :: w'.queue[i] == w.queue[i + 1];
      assert w.queue[0].ticket !in w.replies;
    }
  }

  lemma RunJobMatches(w: Worker, choice: Choice, s: RecordingState)
    requires InOrder(w) && OnlyChange(w.queue, None) && Matches(s, w.rides)
    ensures OnlyChange(RunJob(w, choice).queue, None) && Matches(s, RunJob(w, choice).rides)
  {
    if w.queue != [] {
      var w' := RunJob(w, choice);
      assert forall i | 0 <= i < |w'.queue| :: w'.queue[i] == w.queue[i + 1];
    }
  }

  lemma WorkerIsDurable(w: World, choice: Choice)
    requires InOrder(w.worker) && Durable(w)
    ensures Durable(w.(worker := RunJob(w.worker, choice)))
  {
    var w' := w.(worker := RunJob(w.worker, choice));
    forall id | id in w.held
      ensures w.held[id].op.PreparedRestore? ==> Current(w'.worker, w.held[id].ticket.value)
      ensures w.state.phase.Ready? && !w.disowned ==> Follows(w'.worker, w.state, w.held[id])
    {
      if w.held[id].op.PreparedRestore? {
        RunJobIsCurrent(w.worker, choice, w.held[id].ticket.value);
      }
      if w.state.phase.Ready? && !w.disowned {
        RunJobFollows(w.worker, choice, w.state, w.held[id]);
      }
    }
    if w.state.phase.Ready? && !w.disowned && w.held == map[] {
      RunJobMatches(w.worker, choice, w.state);
    }
  }

  lemma {:induction false} DrainIsDurable(w: World, choices: seq<Choice>)
    requires InOrder(w.worker) && Durable(w)
    ensures Durable(w.(worker := Drain(w.worker, choices)))
    decreases |w.worker.queue|
  {
    if w.worker.queue != [] {
      var choice := if choices == [] then Choice(Declines, false) else choices[0];
      WorkerIsDurable(w, choice);
      RunJobIsInOrder(w.worker, choice);
      DrainIsDurable(w.(worker := RunJob(w.worker, choice)), if choices == [] then [] else choices[1..]);
    }
  }

  // ---------------------------------------------------------------------------------------------
  // Location calls do not touch the lifecycle
  // ---------------------------------------------------------------------------------------------

  predicate SameLifecycle(s: RecordingState, t: RecordingState) {
    s.rideId == t.rideId && s.recorder.state == t.recorder.state && s.phase == t.phase
  }

  lemma {:induction false} SettleKeepsLifecycle(s: RecordingState, answers: map<nat, Reply>)
    ensures SameLifecycle(s, SettleReady(s, answers))
    decreases |s.pending|
  {
    if s.pending != [] && s.pending[0].ticket in answers {
      SettleKeepsLifecycle(SettleFirst(s, answers[s.pending[0].ticket]), answers);
    }
  }

  lemma AdmitKeepsLifecycle(s: RecordingState, fix: Fix, storage: Storage)
    ensures SameLifecycle(s, Admit(s, fix, storage).0)
  {
    SettleKeepsLifecycle(s, storage.answers);
  }

  lemma SameLifecycleIsDurable(w: World, s: RecordingState)
    requires Durable(w) && SameLifecycle(w.state, s)
    ensures Durable(w.(state := s))
  {
    var w' := w.(state := s);
    assert forall id | id in w'.held :: Follows(w.worker, w.state, w.held[id]) ==> Follows(w'.worker, s, w'.held[id]);
  }

  /** Durability looks at nothing but these parts of the world. */
  lemma DurableDependsOn(w: World, v: World)
    requires Durable(w) && w.state == v.state && w.held == v.held && w.worker == v.worker && w.disowned == v.disowned
    ensures Durable(v)
  {
  }

  lemma WriteIsDurable(w: World, ride: nat, point: Point)
    requires Durable(w)
    ensures Durable(w.(worker := Enqueue(w.worker, WriteLocation(ride, point))))
  {
    var w' := w.(worker := Enqueue(w.worker, WriteLocation(ride, point)));
    forall id | id in w.held
      ensures w.held[id].op.PreparedRestore? ==> Current(w'.worker, w.held[id].ticket.value)
      ensures w.state.phase.Ready? && !w.disowned ==> Follows(w'.worker, w.state, w.held[id])
    {
      assert w'.held[id] == w.held[id];
    }
  }

  lemma PollIsDurable(w: World)
    requires Durable(w)
    ensures Durable(StepPoll(w).0)
  {
    SettleKeepsLifecycle(w.state, w.worker.replies);
    SameLifecycleIsDurable(w, StepPoll(w).0.state);
    DurableDependsOn(w.(state := StepPoll(w).0.state), StepPoll(w).0);
  }

  lemma AdmitIsDurable(w: World, e: Event)
    requires InOrder(w.worker) && Durable(w) && e.AdmitLocation?
    ensures Durable(Step(w, e).0)
  {
    DrainIsDurable(w, e.choices);
    var w1 := Waited(w, e);
    var storage := StorageFor(w1, e);
    AdmitKeepsLifecycle(w.state, e.fix, storage);
    var w2 := w1.(state := Admit(w.state, e.fix, storage).0);
    SameLifecycleIsDurable(w1, w2.state);
    var r := Admit(w.state, e.fix, storage).1;
    if r.Queued? && w.state.rideId.Some? {
      WriteIsDurable(w2, w.state.rideId.value, r.point);
    }
  }

  // ---------------------------------------------------------------------------------------------
  // Commands
  // ---------------------------------------------------------------------------------------------

  lemma BeginRestoreIsDurable(w: World, e: Event)
    requires InOrder(w.worker) && Durable(w) && Exclusive(w) && e.Restore?
    ensures Durable(Step(w, e).0)
  {
    var (w', r) := StepRestore(w, e.accepted);
    if r.operation.Ok? {
      assert w.held == map[];
      assert Current(w'.worker, w.worker.nextTicket);
    } else {
      SameLifecycleIsDurable(w, w'.state);
    }
  }

  /** A ready owner with nothing held takes on one operation. */
  lemma HoldIsDurable(w: World, s: RecordingState, op: Operation, raw: U64, command: Command)
    requires InOrder(w.worker) && Durable(w) && w.held == map[] && w.state.phase.Ready? && SameLifecycle(w.state, s)
    requires (op.PreparedStart? && command.CreateRide?) || (op.PreparedTransition? && command.ChangeLifecycle?)
    ensures Durable(Hold(w, s, op, raw, command))
  {
    var w' := Hold(w, s, op, raw, command);
    var h := w'.held[op.id];
    assert w'.held == map[op.id := h];
    assert w.worker.nextTicket !in w.worker.replies;
    if !w.disowned {
      EnqueuedChange(w.worker, command);
      assert Follows(w'.worker, s, h);
    }
  }

  lemma EnqueuedChange(w: Worker, command: Command)
    requires OnlyChange(w.queue, None)
    ensures OnlyChange(Enqueue(w, command).queue, if command.ChangeLifecycle? then Some(w.nextTicket) else None)
  {
  }

  lemma BeginStartIsDurable(w: World, e: Event)
    requires InOrder(w.worker) && Durable(w) && Exclusive(w) && e.StartRide?
    ensures Durable(Step(w, e).0)
  {
    var (s, r) := BeginStart(w.state, e.at, Ticket(w, e.accepted));
    if r.Ok? {
      assert w.held == map[];
      HoldIsDurable(w, s, r.value, e.at, CreateRide);
    } else {
      SameLifecycleIsDurable(w, s);
    }
  }

  lemma BeginChangeIsDurable(w: World, e: Event)
    requires InOrder(w.worker) && Durable(w) && Exclusive(w) && e.ChangeRide?
    ensures Durable(Step(w, e).0)
  {
    var (s, r) := BeginTransition(w.state, e.token, e.event, e.at, Ticket(w, e.accepted));
    if r.Ok? {
      assert w.held == map[];
      HoldIsDurable(w, s, r.value, e.at, ChangeLifecycle(e.token.ride, e.event));
    } else {
      SameLifecycleIsDurable(w, s);
    }
  }

  lemma BeginStopIsDurable(w: World, e: Event)
    requires InOrder(w.worker) && Durable(w) && Exclusive(w) && e.StopRide?
    ensures Durable(Step(w, e).0)
  {
    var (w', r) := StepStop(w, e.token, e.at);
    if r.operation.Ok? {
      assert w.held == map[];
    } else {
      SameLifecycleIsDurable(w, w'.state);
    }
  }

  /** A stop that holds the command hands its change to the worker. */
  lemma SubmittedIsDurable(w: World, id: U64)
    requires InOrder(w.worker) && Durable(w) && w.state.phase.Ready? && id in w.held && w.held == map[id := w.held[id]]
    requires w.held[id].op.PreparedStop? && w.held[id].ticket.None?
    ensures Durable(StepSubmitStop(w, id, Queues).0)
  {
    assert w.worker.nextTicket !in w.worker.replies;
    assert !w.disowned ==> Follows(w.worker, w.state, w.held[id]);
  }

  lemma SubmitIsDurable(w: World, id: U64, fence: MusicFence)
    requires InOrder(w.worker) && Durable(w) && Exclusive(w)
    ensures Durable(StepSubmitStop(w, id, fence).0)
  {
    if id in w.held && w.held[id].op.PreparedStop? && w.held[id].ticket.None? {
      OnlyOneHeld(w, id);
      assert Owned(w.state, id, w.held[id]);
      if fence.Queues? {
        SubmittedIsDurable(w, id);
      } else {
        assert !w.disowned ==> Follows(w.worker, w.state, w.held[id]);
        assert w.held - {id} == map[];
        SettledIsDurable(StepSubmitStop(w, id, fence).0);
      }
    }
  }

  lemma DropIsDurable(w: World, id: U64)
    requires Durable(w) && Exclusive(w)
    ensures Durable(StepDropOperation(w, id)) && Durable(StepDropGuard(w, id))
  {
    if id in w.held {
      OnlyOneHeld(w, id);
      assert Owned(w.state, id, w.held[id]);
      assert w.held - {id} == map[];
    }
    var w' := StepDropGuard(w, id);
    SameLifecycleIsDurable(w, w'.state);
    DurableDependsOn(w.(state := w'.state), w');
  }

  /** With nothing held, a world is durable when a ready owner agrees. */
  lemma SettledIsDurable(w: World)
    requires w.held == map[]
    requires w.state.phase.Ready? && !w.disowned ==> OnlyChange(w.worker.queue, None) && Agrees(w)
    ensures Durable(w)
  {
  }

  lemma FinishRestoreIsDurable(w: World, id: U64, reply: Reply)
    requires InOrder(w.worker) && Durable(w) && Exclusive(w) && id in w.held && w.held[id].op.PreparedRestore?
    requires CanSee(w, w.held[id], reply)
    ensures var (w', r) := FinishHeldRestore(w, w.held[id], reply);
            && Durable(w')
            && (r.publication.Ok? ==>
                  w'.state.phase.Ready? && !w'.disowned && Agrees(w') && OnlyChange(w'.worker.queue, None))
  {
    OnlyOneHeld(w, id);
    assert Owned(w.state, id, w.held[id]);
    var (w', r) := FinishHeldRestore(w, w.held[id], reply);
    assert w'.held == map[];
    SettledIsDurable(w');
  }

  lemma FinishStartIsDurable(w: World, id: U64, reply: Reply)
    requires InOrder(w.worker) && Durable(w) && Exclusive(w) && id in w.held && w.held[id].op.PreparedStart?
    requires CanSee(w, w.held[id], reply)
    ensures Durable(FinishHeldStart(w, w.held[id], reply).0)
  {
    OnlyOneHeld(w, id);
    assert Owned(w.state, id, w.held[id]);
    var (w', r) := FinishHeldStart(w, w.held[id], reply);
    assert w'.held == map[];
    SettledIsDurable(w');
  }

  /** What a finished transition or stop leaves behind. */
  predicate Published(s: RecordingState, s': RecordingState, reply: Reply) {
    || s'.phase.RecoveryRequired?
    || (SameLifecycle(s, s') && !reply.Committed? && !reply.Unknown?)
    || (reply.Committed? && s'.rideId.None?)
    || (reply.Committed? && s'.rideId == Some(reply.ride) && s'.recorder.state == Some(reply.lifecycle))
  }

  lemma FinishTransitionPublishes(s: RecordingState, op: Operation, reply: Reply, answers: map<nat, Reply>)
    requires op.PreparedTransition? && s.pendingCommandId == Some(op.id)
    ensures Published(s, FinishTransition(s, op, reply, answers).0, reply)
  {
    SettleReadyKeepsCommands(s, answers);
    SettleKeepsLifecycle(s, answers);
  }

  lemma FinishStopPublishes(s: RecordingState, op: Operation, reply: Reply, answers: map<nat, Reply>)
    requires op.PreparedStop? && s.pendingCommandId == Some(op.id)
    ensures Published(s, FinishStop(s, op, reply, answers).0, reply)
  {
    SettleReadyKeepsCommands(s, answers);
    SettleKeepsLifecycle(s, answers);
  }

  lemma FinishChangeIsDurable(w: World, id: U64, reply: Reply)
    requires InOrder(w.worker) && Durable(w) && Exclusive(w) && id in w.held && Changes(w.held[id])
    requires CanSee(w, w.held[id], reply)
    ensures Durable(FinishHeld(w, w.held[id], reply).0)
  {
    OnlyOneHeld(w, id);
    var h := w.held[id];
    assert Owned(w.state, id, h);
    if h.op.PreparedTransition? {
      FinishTransitionPublishes(w.state, h.op, reply, w.worker.replies);
    } else {
      FinishStopPublishes(w.state, h.op, reply, w.worker.replies);
    }
    FinishKeepsWorker(w, h, reply);
    var w' := FinishHeld(w, h, reply).0;
    assert w'.held == map[];
    SettledIsDurable(w');
  }

  lemma FinishKeepsWorker(w: World, h: Held, reply: Reply)
    requires Changes(h)
    ensures var w' := FinishHeld(w, h, reply).0;
            && w'.held == w.held - {h.op.id} && w'.worker == w.worker && w'.disowned == w.disowned
            && w'.state == (if h.op.PreparedTransition? then FinishTransition(w.state, h.op, reply, w.worker.replies).0
                            else FinishStop(w.state, h.op, reply, w.worker.replies).0)
  {
  }

  lemma FinishIsDurable(w: World, id: U64, givesUp: bool)
    requires InOrder(w.worker) && Durable(w) && Exclusive(w)
    ensures Durable(StepFinish(w, id, givesUp).0)
  {
    if id in w.held && Answer(w, w.held[id], givesUp).Some? {
      var reply := Answer(w, w.held[id], givesUp).value;
      assert Owned(w.state, id, w.held[id]);
      match w.held[id].op {
        case PreparedRestore(_, _) => FinishRestoreIsDurable(w, id, reply);
        case PreparedStart(_, _, _) => FinishStartIsDurable(w, id, reply);
        case PreparedTransition(_, _, _, _, _, _, _, _) => FinishChangeIsDurable(w, id, reply);
        case PreparedStop(_, _, _, _, _, _) => FinishChangeIsDurable(w, id, reply);
      }
    }
  }

  lemma StepIsDurable(w: World, e: Event)
    requires InOrder(w.worker) && Durable(w) && Exclusive(w)
    ensures Durable(Step(w, e).0)
  {
    match e {
      case Finish(id, givesUp) => FinishIsDurable(w, id, givesUp);
      case SubmitStop(id, fence) => SubmitIsDurable(w, id, fence);
      case DropOperation(id) => DropIsDurable(w, id);
      case DropGuard(id) => DropIsDurable(w, id);
      case WorkerRuns(choice) => WorkerIsDurable(w, choice);
      case PollWrites => PollIsDurable(w);
      case CheckpointWrites(choices) =>
        DrainIsDurable(w, choices);
        PollIsDurable(w.(worker := Drain(w.worker, choices)));
      case AdmitLocation(_, _, _, _, _) => AdmitIsDurable(w, e);
      case Restore(_) => BeginRestoreIsDurable(w, e);
      case StartRide(_, _) => BeginStartIsDurable(w, e);
      case ChangeRide(_, _, _, _) => BeginChangeIsDurable(w, e);
      case StopRide(_, _) => BeginStopIsDurable(w, e);
    }
  }

  lemma {:induction false} RunIsDurable(w: World, run: seq<Event>)
    requires Issued(w) && Durable(w) && Exclusive(w)
    ensures Issued(Run(w, run)) && Durable(Run(w, run)) && Exclusive(Run(w, run))
    decreases |run|
  {
    if run != [] {
      StepIsDurable(w, run[0]);
      StepIsExclusive(w, run[0]);
      StepIsIssued(w, run[0]);
      RunIsDurable(Step(w, run[0]).0, run[1..]);
    }
  }

  // ---------------------------------------------------------------------------------------------
  // Agreement
  // ---------------------------------------------------------------------------------------------

  /**
   In every run, whatever the worker declines, commits or answers too late: whenever the owner is
   ready with no command pending, and no queued transition was dropped since the last restoration,
   the lifecycle it shows for its ride is the committed one.
   */
  lemma LifecycleAgreesWithStorage(run: seq<Event>)
    ensures var w := Run(NEW_WORLD, run);
            w.state.phase.Ready? && w.state.pendingCommandId.None? && !w.disowned ==> Agrees(w)
  {
    RunIsDurable(NEW_WORLD, run);
    var w := Run(NEW_WORLD, run);
    if w.state.pendingCommandId.None? {
      assert w.held == map[];
    }
  }

  /**
   A restoration that succeeds is current in every run, also after dropped transitions and unknown
   outcomes: no lifecycle work is left in the queue and the restored lifecycle is the committed one.
   */
  lemma RestorationIsCurrent(run: seq<Event>, e: Event)
    requires Restores(Run(NEW_WORLD, run), e)
    ensures var w' := Step(Run(NEW_WORLD, run), e).0;
            w'.state.phase.Ready? && !w'.disowned && Agrees(w') && OnlyChange(w'.worker.queue, None)
  {
    RunIsDurable(NEW_WORLD, run);
    var w := Run(NEW_WORLD, run);
    RestoresAnswered(w, e);
    FinishRestoreIsDurable(w, e.id, w.worker.replies[w.held[e.id].ticket.value]);
  }

  function VerdictAt(choices: seq<Choice>, i: nat): Verdict {
    if i < |choices| then choices[i].verdict else Declines
  }

  /** This verdict commits another lifecycle than the one shown. */
  predicate Departs(verdict: Verdict, s: RecordingState) {
    verdict.Commits? && Some(verdict.lifecycle) != s.recorder.state
  }

  /** The newest job changes the current ride and no older one changes any. */
  predicate EndsInChange(queue: seq<Job>, ride: nat) {
    && queue != []
    && (forall i | 0 <= i < |queue| - 1 :: !queue[i].command.ChangeLifecycle?)
    && queue[|queue| - 1].command.ChangeLifecycle? && queue[|queue| - 1].command.ride == ride
  }

  lemma OlderJobMatches(w: Worker, choice: Choice, s: RecordingState)
    requires InOrder(w) && Matches(s, w.rides) && w.queue != [] && !w.queue[0].command.ChangeLifecycle?
    ensures Matches(s, RunJob(w, choice).rides)
  {
  }

  lemma ChangeJobMatches(w: Worker, choice: Choice, s: RecordingState)
    requires Matches(s, w.rides) && |w.queue| == 1 && s.rideId.Some? && EndsInChange(w.queue, s.rideId.value)
    ensures Matches(s, RunJob(w, choice).rides) <==> !Departs(choice.verdict, s)
    ensures RunJob(w, choice).queue == []
  {
  }

  /** Once the queue has run, the newest change alone decides agreement. */
  lemma {:induction false} NewestChangeDecides(w: Worker, choices: seq<Choice>, s: RecordingState)
    requires InOrder(w) && Matches(s, w.rides) && s.rideId.Some? && EndsInChange(w.queue, s.rideId.value)
    ensures Matches(s, Drain(w, choices).rides) <==> !Departs(VerdictAt(choices, |w.queue| - 1), s)
    decreases |w.queue|
  {
    var choice := if choices == [] then Choice(Declines, false) else choices[0];
    var rest := if choices == [] then [] else choices[1..];
    var w1 := RunJob(w, choice);
    if |w.queue| == 1 {
      ChangeJobMatches(w, choice, s);
      assert Drain(w1, rest) == w1;
    } else {
      OlderJobMatches(w, choice, s);
      RunJobIsInOrder(w, choice);
      assert w1.queue == w.queue[1..];
      NewestChangeDecides(w1, rest, s);
      assert VerdictAt(rest, |w.queue| - 2) == VerdictAt(choices, |w.queue| - 1);
    }
  }

  /** The world after a transition was prepared and its operation dropped. */
  lemma DroppedTransition(w: World, token: Token, event: RideEvent, at: U64)
    requires Exclusive(w) && Durable(w) && !w.disowned
    requires CheckToken(w.state, token, event).Ok? && w.state.nextCommandId < U64_MAX
    ensures var w1 := Step(w, ChangeRide(token, event, at, true)).0;
            var w2 := Step(w1, DropOperation(w.state.nextCommandId)).0;
            && w2.state.phase.Ready? && w2.state.pendingCommandId.None? && w2.state.rideId == Some(token.ride)
            && w2.worker == Enqueue(w.worker, ChangeLifecycle(token.ride, event)) && w2.disowned
            && w2.state.recorder == w.state.recorder && Agrees(w2) && EndsInChange(w2.worker.queue, token.ride)
  {
    assert w.held == map[];
    assert OnlyChange(w.worker.queue, None) && Agrees(w);
  }

  /**
   Dropping a queued transition releases the command without entering recovery, so the owner stays
   ready. Whatever else is queued, once the worker has caught up the owner agrees with storage exactly
   when the worker did not commit another lifecycle for the dropped transition.
   */
  lemma DroppedTransitionMayDisagree(w: World, token: Token, event: RideEvent, at: U64, choices: seq<Choice>)
    requires Exclusive(w) && Durable(w) && Issued(w) && !w.disowned
    requires CheckToken(w.state, token, event).Ok? && w.state.nextCommandId < U64_MAX
    ensures var w1 := Step(w, ChangeRide(token, event, at, true)).0;
            var w2 := Step(w1, DropOperation(w.state.nextCommandId)).0;
            && w2.state.phase.Ready? && w2.state.pendingCommandId.None?
            && (Agrees(w2.(worker := Drain(w2.worker, choices)))
                <==> !Departs(VerdictAt(choices, |w.worker.queue|), w.state))
  {
    DroppedTransition(w, token, event, at);
    var w1 := Step(w, ChangeRide(token, event, at, true)).0;
    var w2 := Step(w1, DropOperation(w.state.nextCommandId)).0;
    EnqueueIsInOrder(w.worker, ChangeLifecycle(token.ride, event));
    NewestChangeDecides(w2.worker, choices, w2.state);
  }
}
