/** Command exclusivity, recovery and token fencing over every run. */
module RideCommands {
  import opened Prelude
  import opened RideRecorder
  import opened RideRecording
  import opened RideProtocol

  // ---------------------------------------------------------------------------------------------
  // One command at a time
  // ---------------------------------------------------------------------------------------------

  /** A held operation owns the pending command, and the phase matches its kind. */
  predicate Owned(s: RecordingState, id: nat, h: Held) {
    && s.pendingCommandId == Some(id) && h.op.id == id && id < s.nextCommandId
    && (if h.op.PreparedRestore? then s.phase.AwaitingRestore? else s.phase.Ready?)
    && (h.ticket.None? ==> h.op.PreparedStop?)
  }

  predicate Exclusive(w: World) {
    && (forall id | id in w.held :: Owned(w.state, id, w.held[id]))
    && (forall id | id in w.leases :: id < w.state.nextCommandId && id !in w.held)
    && (w.state.pendingCommandId.Some? ==>
          w.state.pendingCommandId.value in w.held || w.state.pendingCommandId.value in w.leases)
  }

  /** Only the command fields matter to exclusivity. */
  predicate SameCommands(s: RecordingState, t: RecordingState) {
    s.pendingCommandId == t.pendingCommandId && s.nextCommandId == t.nextCommandId && s.phase == t.phase
  }

  lemma {:induction false} SettleReadyKeepsCommands(s: RecordingState, answers: map<nat, Reply>)
    ensures SameCommands(s, SettleReady(s, answers))
    ensures SettleReady(s, answers).rideId == s.rideId
    ensures SettleReady(s, answers).generation == s.generation
    decreases |s.pending|
  {
    if s.pending != [] && s.pending[0].ticket in answers {
      SettleReadyKeepsCommands(SettleFirst(s, answers[s.pending[0].ticket]), answers);
    }
  }

  lemma AdmitKeepsCommands(s: RecordingState, fix: Fix, storage: Storage)
    ensures SameCommands(s, Admit(s, fix, storage).0)
    ensures Admit(s, fix, storage).0.generation == s.generation
  {
    SettleReadyKeepsCommands(s, storage.answers);
  }

  /** The operation and its command are given up, unless a failed restoration leaves that to its lease. */
  predicate Released(s: RecordingState, s': RecordingState, id: nat) {
    s'.nextCommandId == s.nextCommandId && (s'.pendingCommandId == None || s'.pendingCommandId == Some(id))
  }

  lemma FinishTransitionReleases(s: RecordingState, op: Operation, reply: Reply, answers: map<nat, Reply>)
    requires op.PreparedTransition? && s.pendingCommandId == Some(op.id)
    ensures Released(s, FinishTransition(s, op, reply, answers).0, op.id)
  {
    SettleReadyKeepsCommands(s, answers);
  }

  lemma FinishStopReleases(s: RecordingState, op: Operation, reply: Reply, answers: map<nat, Reply>)
    requires op.PreparedStop? && s.pendingCommandId == Some(op.id)
    ensures Released(s, FinishStop(s, op, reply, answers).0, op.id)
  {
    SettleReadyKeepsCommands(s, answers);
  }

  /** A finished operation finds its command still its own, and gives it up. */
  lemma FinishReleases(w: World, h: Held, reply: Reply)
    requires Exclusive(w) && h.op.id in w.held && w.held[h.op.id] == h
    ensures var w' := FinishHeld(w, h, reply).0;
            && w'.held == w.held - {h.op.id} && w'.leases == w.leases + {h.op.id}
            && Released(w.state, w'.state, h.op.id)
  {
    assert Owned(w.state, h.op.id, h);
    match h.op {
      case PreparedTransition(_, _, _, _, _, _, _, _) =>
        FinishTransitionReleases(w.state, h.op, reply, w.worker.replies);
      case PreparedStop(_, _, _, _, _, _) => FinishStopReleases(w.state, h.op, reply, w.worker.replies);
      case PreparedStart(_, _, _) =>
      case PreparedRestore(_, _) =>
    }
  }

  lemma OnlyOneHeld(w: World, id: nat)
    requires Exclusive(w) && id in w.held
    ensures w.held == map[id := w.held[id]]
  {
    forall other | other in w.held
      ensures other == id
    {
      assert Owned(w.state, other, w.held[other]) && Owned(w.state, id, w.held[id]);
    }
  }

  lemma FinishIsExclusive(w: World, id: U64, givesUp: bool)
    requires Exclusive(w)
    ensures Exclusive(StepFinish(w, id, givesUp).0)
  {
    if id in w.held {
      OnlyOneHeld(w, id);
      var answer := Answer(w, w.held[id], givesUp);
      if answer.Some? {
        FinishReleases(w, w.held[id], answer.value);
      }
    }
  }

  lemma SubmitIsExclusive(w: World, id: U64, fence: MusicFence)
    requires Exclusive(w)
    ensures Exclusive(StepSubmitStop(w, id, fence).0)
  {
    if id in w.held {
      OnlyOneHeld(w, id);
    }
  }

  lemma DropIsExclusive(w: World, id: U64)
    requires Exclusive(w)
    ensures Exclusive(StepDropOperation(w, id)) && Exclusive(StepDropGuard(w, id))
  {
    if id in w.held {
      OnlyOneHeld(w, id);
    }
    if id in w.leases && w.state.pendingCommandId == Some(id) {
      assert w.held == map[];
    }
  }

  /** A refused command may have spent an identifier. */
  lemma RefusedIsExclusive(w: World, s: RecordingState)
    requires Exclusive(w) && s.pendingCommandId == w.state.pendingCommandId && s.phase == w.state.phase
    requires w.state.nextCommandId <= s.nextCommandId
    ensures Exclusive(w.(state := s))
  {
    forall id | id in w.held
      ensures Owned(s, id, w.held[id])
    {
      assert Owned(w.state, id, w.held[id]);
    }
  }

  /** An idle owner takes on one operation under the identifier it reserved. */
  lemma TakenIsExclusive(w: World, v: World, h: Held)
    requires Exclusive(w) && w.state.pendingCommandId.None? && h.op.id == w.state.nextCommandId
    requires v.held == w.held[h.op.id := h] && v.leases == w.leases && Owned(v.state, h.op.id, h)
    requires w.state.nextCommandId <= v.state.nextCommandId
    ensures Exclusive(v)
  {
    assert w.held == map[];
  }

  lemma RestoreIsExclusive(w: World, accepted: bool)
    requires Exclusive(w)
    ensures Exclusive(StepRestore(w, accepted).0)
  {
    var (s, r) := BeginRestore(w.state, Ticket(w, accepted));
    if r.Ok? {
      var v := StepRestore(w, accepted).0;
      TakenIsExclusive(w, v, v.held[r.value.id]);
    } else {
      RefusedIsExclusive(w, s);
    }
  }

  lemma StartIsExclusive(w: World, at: U64, accepted: bool)
    requires Exclusive(w)
    ensures Exclusive(StepStart(w, at, accepted).0)
  {
    var (s, r) := BeginStart(w.state, at, Ticket(w, accepted));
    if r.Ok? {
      var v := StepStart(w, at, accepted).0;
      TakenIsExclusive(w, v, v.held[r.value.id]);
    } else {
      RefusedIsExclusive(w, s);
    }
  }

  lemma ChangeIsExclusive(w: World, token: Token, event: RideEvent, at: U64, accepted: bool)
    requires Exclusive(w)
    ensures Exclusive(StepChange(w, token, event, at, accepted).0)
  {
    var (s, r) := BeginTransition(w.state, token, event, at, Ticket(w, accepted));
    if r.Ok? {
      var v := StepChange(w, token, event, at, accepted).0;
      TakenIsExclusive(w, v, v.held[r.value.id]);
    } else {
      RefusedIsExclusive(w, s);
    }
  }

  lemma StopIsExclusive(w: World, token: Token, at: U64)
    requires Exclusive(w)
    ensures Exclusive(StepStop(w, token, at).0)
  {
    var (s, r) := BeginStop(w.state, token, at);
    if r.Ok? {
      var v := StepStop(w, token, at).0;
      TakenIsExclusive(w, v, v.held[r.value.id]);
    } else {
      RefusedIsExclusive(w, s);
    }
  }

  lemma SameCommandsIsExclusive(w: World, v: World)
    requires Exclusive(w) && SameCommands(w.state, v.state) && v.held == w.held && v.leases == w.leases
    ensures Exclusive(v)
  {
    forall id | id in v.held
      ensures Owned(v.state, id, v.held[id])
    {
      assert Owned(w.state, id, w.held[id]);
    }
  }

  lemma PollIsExclusive(w: World)
    requires Exclusive(w)
    ensures Exclusive(StepPoll(w).0)
  {
    SettleReadyKeepsCommands(w.state, w.worker.replies);
    SameCommandsIsExclusive(w, StepPoll(w).0);
  }

  lemma AdmitIsExclusive(w: World, e: Event)
    requires Exclusive(w) && e.AdmitLocation?
    ensures Exclusive(StepAdmit(w, e).0)
  {
    AdmitKeepsCommands(w.state, e.fix, StorageFor(Waited(w, e), e));
    SameCommandsIsExclusive(w, StepAdmit(w, e).0);
  }

  lemma StepIsExclusive(w: World, e: Event)
    requires Exclusive(w)
    ensures Exclusive(Step(w, e).0)
  {
    match e {
      case Finish(id, givesUp) => FinishIsExclusive(w, id, givesUp);
      case SubmitStop(id, fence) => SubmitIsExclusive(w, id, fence);
      case DropOperation(id) => DropIsExclusive(w, id);
      case DropGuard(id) => DropIsExclusive(w, id);
      case WorkerRuns(choice) => SameCommandsIsExclusive(w, w.(worker := RunJob(w.worker, choice)));
      case PollWrites => PollIsExclusive(w);
      case CheckpointWrites(choices) => PollIsExclusive(w.(worker := Drain(w.worker, choices)));
      case AdmitLocation(_, _, _, _, _) => AdmitIsExclusive(w, e);
      case Restore(accepted) => RestoreIsExclusive(w, accepted);
      case StartRide(at, accepted) => StartIsExclusive(w, at, accepted);
      case ChangeRide(token, event, at, accepted) => ChangeIsExclusive(w, token, event, at, accepted);
      case StopRide(token, at) => StopIsExclusive(w, token, at);
    }
  }

  // ---------------------------------------------------------------------------------------------
  // What preparing, submitting and dropping leave alone
  // ---------------------------------------------------------------------------------------------

  predicate IsQuiet(e: Event) {
    !e.Finish? && !e.PollWrites? && !e.CheckpointWrites? && !e.AdmitLocation? && !e.WorkerRuns?
  }

  /** Only the command fields of the owner differ, and no history was written. */
  predicate Framed(w: World, v: World) {
    && v.state == w.state.(nextCommandId := v.state.nextCommandId, pendingCommandId := v.state.pendingCommandId,
                           phase := v.state.phase)
    && v.nextRecording == w.nextRecording && v.reported == w.reported && v.discarded == w.discarded
    && v.stamps == w.stamps && v.issued == w.issued && v.worker.replies == w.worker.replies
  }

  lemma RestoreIsFramed(w: World, accepted: bool)
    ensures Framed(w, StepRestore(w, accepted).0)
  {
  }

  lemma StartIsFramed(w: World, at: U64, accepted: bool)
    ensures Framed(w, StepStart(w, at, accepted).0)
  {
  }

  lemma ChangeIsFramed(w: World, token: Token, event: RideEvent, at: U64, accepted: bool)
    ensures Framed(w, StepChange(w, token, event, at, accepted).0)
  {
  }

  lemma StopIsFramed(w: World, token: Token, at: U64)
    ensures Framed(w, StepStop(w, token, at).0)
  {
  }

  lemma SubmitIsFramed(w: World, id: U64, fence: MusicFence)
    ensures Framed(w, StepSubmitStop(w, id, fence).0)
  {
  }

  lemma DropIsFramed(w: World, id: U64)
    ensures Framed(w, StepDropOperation(w, id)) && Framed(w, StepDropGuard(w, id))
  {
  }

  lemma QuietIsFramed(w: World, e: Event)
    requires IsQuiet(e)
    ensures Framed(w, Step(w, e).0)
  {
    match e {
      case Restore(accepted) => RestoreIsFramed(w, accepted);
      case StartRide(at, accepted) => StartIsFramed(w, at, accepted);
      case ChangeRide(token, event, at, accepted) => ChangeIsFramed(w, token, event, at, accepted);
      case StopRide(token, at) => StopIsFramed(w, token, at);
      case SubmitStop(id, fence) => SubmitIsFramed(w, id, fence);
      case DropOperation(id) => DropIsFramed(w, id);
      case DropGuard(id) => DropIsFramed(w, id);
    }
  }

  lemma {:induction false} RunIsExclusive(w: World, run: seq<Event>)
    requires Exclusive(w)
    ensures Exclusive(Run(w, run))
    decreases |run|
  {
    if run != [] {
      StepIsExclusive(w, run[0]);
      RunIsExclusive(Step(w, run[0]).0, run[1..]);
    }
  }

  /**
   In every run at most one operation is held, it owns the pending command, and a pending command
   always has an operation or a lease that will release it. Dropping a finished call's guard never
   takes the command away from a held operation.
   */
  lemma CommandsAreExclusive(run: seq<Event>, id: U64)
    ensures var w := Run(NEW_WORLD, run);
            && Exclusive(w) && |w.held| <= 1
            && (forall h | h in w.held :: StepDropGuard(w, id).state.pendingCommandId == Some(h))
  {
    RunIsExclusive(NEW_WORLD, run);
    var w := Run(NEW_WORLD, run);
    DropIsExclusive(w, id);
    if h :| h in w.held {
      OnlyOneHeld(w, h);
    }
  }

  // ---------------------------------------------------------------------------------------------
  // Recovery
  // ---------------------------------------------------------------------------------------------

  /** This step is a restoration that succeeds. */
  predicate Restores(w: World, e: Event) {
    && e.Finish? && e.id in w.held && w.held[e.id].op.PreparedRestore?
    && Step(w, e).1.Finished? && Step(w, e).1.publication.Ok?
  }

  /** A successful restoration read its snapshot at its own ticket. */
  lemma RestoresAnswered(w: World, e: Event)
    requires Exclusive(w) && Restores(w, e)
    ensures var h := w.held[e.id];
            && h.ticket.Some? && h.ticket.value in w.worker.replies
            && Step(w, e) == FinishHeldRestore(w, h, w.worker.replies[h.ticket.value])
  {
    assert Owned(w.state, e.id, w.held[e.id]);
  }

  predicate NeverRestores(w: World, run: seq<Event>)
    decreases |run|
  {
    run == [] || (!Restores(w, run[0]) && NeverRestores(Step(w, run[0]).0, run[1..]))
  }

  lemma StepStaysUnready(w: World, e: Event)
    requires Exclusive(w) && !w.state.phase.Ready? && !Restores(w, e)
    ensures !Step(w, e).0.state.phase.Ready?
  {
    match e {
      case Finish(id, givesUp) =>
        if id in w.held {
          assert Owned(w.state, id, w.held[id]);
        }
      case PollWrites => SettleReadyKeepsCommands(w.state, w.worker.replies);
      case CheckpointWrites(choices) => SettleReadyKeepsCommands(w.state, Drain(w.worker, choices).replies);
      case _ =>
    }
  }

  lemma {:induction false} UnreadyUntilRestored(w: World, run: seq<Event>)
    requires Exclusive(w) && !w.state.phase.Ready? && NeverRestores(w, run)
    ensures !Run(w, run).state.phase.Ready?
    decreases |run|
  {
    if run != [] {
      StepIsExclusive(w, run[0]);
      StepStaysUnready(w, run[0]);
      UnreadyUntilRestored(Step(w, run[0]).0, run[1..]);
    }
  }

  /** An unready owner prepares no command but a restoration, and admits no fix. */
  predicate OnlyRestores(w: World, e: Event) {
    var (w', r) := Step(w, e);
    && (r.Prepared? && r.operation.Ok? ==> r.operation.value.PreparedRestore?)
    && (r.Decided? ==> r.admission.Failed? && w' == w)
  }

  lemma UnreadyRefuses(w: World, e: Event)
    requires !w.state.phase.Ready?
    ensures OnlyRestores(w, e)
  {
  }

  /**
   Once an outcome is unknown, only a successful restoration makes the owner ready again; until
   then every other command and every fix is refused.
   */
  lemma OnlyRestorationRecovers(before: seq<Event>, after: seq<Event>, e: Event)
    requires Run(NEW_WORLD, before).state.phase.RecoveryRequired?
    requires NeverRestores(Run(NEW_WORLD, before), after)
    ensures var w := Run(Run(NEW_WORLD, before), after);
            !w.state.phase.Ready? && OnlyRestores(w, e)
  {
    RunIsExclusive(NEW_WORLD, before);
    UnreadyUntilRestored(Run(NEW_WORLD, before), after);
    UnreadyRefuses(Run(Run(NEW_WORLD, before), after), e);
  }

  /** A lost answer to a start, transition or stop does lead to recovery. */
  lemma LostAnswerNeedsRecovery(run: seq<Event>, id: U64)
    requires var w := Run(NEW_WORLD, run);
             id in w.held && !w.held[id].op.PreparedRestore? && w.held[id].ticket.Some?
    ensures var w' := Step(Run(NEW_WORLD, run), Finish(id, true)).0;
            w'.state.phase.RecoveryRequired? && w'.state.pendingCommandId.None?
  {
    RunIsExclusive(NEW_WORLD, run);
    var w := Run(NEW_WORLD, run);
    assert Owned(w.state, id, w.held[id]);
  }

  // ---------------------------------------------------------------------------------------------
  // Tokens
  // ---------------------------------------------------------------------------------------------

  predicate Publishes(w: World, e: Event) {
    Step(w, e).1.Finished? && Step(w, e).1.publication.Ok?
  }

  /** The generation moves exactly with a publication. */
  predicate Moves(s: RecordingState, s': RecordingState, r: Result<Publication>) {
    s'.generation == if r.Ok? then SaturatingAdd(s.generation, 1) else s.generation
  }

  lemma FinishTransitionMoves(s: RecordingState, op: Operation, reply: Reply, answers: map<nat, Reply>)
    requires op.PreparedTransition?
    ensures var (s', r) := FinishTransition(s, op, reply, answers); Moves(s, s', r)
  {
    SettleReadyKeepsCommands(s, answers);
  }

  lemma FinishStopMoves(s: RecordingState, op: Operation, reply: Reply, answers: map<nat, Reply>)
    requires op.PreparedStop?
    ensures var (s', r) := FinishStop(s, op, reply, answers); Moves(s, s', r)
  {
    SettleReadyKeepsCommands(s, answers);
  }

  lemma FinishMovesGeneration(w: World, h: Held, reply: Reply)
    ensures var (w', r) := FinishHeld(w, h, reply); r.Finished? && Moves(w.state, w'.state, r.publication)
  {
    match h.op {
      case PreparedTransition(_, _, _, _, _, _, _, _) => FinishTransitionMoves(w.state, h.op, reply, w.worker.replies);
      case PreparedStop(_, _, _, _, _, _) => FinishStopMoves(w.state, h.op, reply, w.worker.replies);
      case PreparedStart(_, _, _) =>
      case PreparedRestore(_, _) =>
    }
  }

  lemma OthersKeepGeneration(w: World, e: Event)
    requires !e.Finish?
    ensures Step(w, e).0.state.generation == w.state.generation && !Publishes(w, e)
  {
    match e {
      case PollWrites => SettleReadyKeepsCommands(w.state, w.worker.replies);
      case CheckpointWrites(choices) => SettleReadyKeepsCommands(w.state, Drain(w.worker, choices).replies);
      case AdmitLocation(fix, accepted, barrier, choices, checkpoint) =>
        AdmitKeepsCommands(w.state, fix, StorageFor(Waited(w, e), e));
      case _ =>
    }
  }

  /** The generation never decreases, and a successful finish moves it unless it is saturated. */
  lemma StepMovesGeneration(w: World, e: Event)
    ensures Step(w, e).0.state.generation ==
            if Publishes(w, e) then SaturatingAdd(w.state.generation, 1) else w.state.generation
  {
    if e.Finish? {
      if e.id in w.held && Answer(w, w.held[e.id], e.givesUp).Some? {
        FinishMovesGeneration(w, w.held[e.id], Answer(w, w.held[e.id], e.givesUp).value);
      }
    } else {
      OthersKeepGeneration(w, e);
    }
  }

  lemma {:induction false} GenerationRises(w: World, run: seq<Event>)
    ensures w.state.generation <= Run(w, run).state.generation
    decreases |run|
  {
    if run != [] {
      StepMovesGeneration(w, run[0]);
      GenerationRises(Step(w, run[0]).0, run[1..]);
    }
  }

  /**
   A token issued before a successful finish is refused for ever after it, for every command,
   as long as the generation had not saturated.
   */
  lemma OldTokensAreFenced(
      w: World, finish: Event, run: seq<Event>, token: Token, event: RideEvent, at: U64, accepted: bool)
    requires Publishes(w, finish) && w.state.generation < U64_MAX && token.generation <= w.state.generation
    ensures var later := Run(Step(w, finish).0, run);
            && StepChange(later, token, event, at, accepted).1.operation.Err?
            && StepChange(later, token, event, at, accepted).0 == later
            && StepStop(later, token, at).1.operation.Err?
            && StepStop(later, token, at).0 == later
  {
    StepMovesGeneration(w, finish);
    GenerationRises(Step(w, finish).0, run);
  }

  /** No command with this token is admitted as current. */
  predicate Fenced(s: RecordingState, token: Token) {
    forall event :: CheckToken(s, token, event) == Err(StaleCommand)
  }

  lemma PublishedChangeFences(s: RecordingState, s': RecordingState, token: Token, discards: bool)
    requires s'.phase.Ready? && s'.pendingCommandId.None? && token.generation == s.generation
    requires s'.generation == SaturatingAdd(s.generation, 1)
    requires s'.rideId == if discards then None else Some(token.ride)
    ensures Fenced(s', token) <==> discards || s.generation < U64_MAX
  {
    if !discards && s.generation == U64_MAX {
      assert CheckToken(s', token, Pause) != Err(StaleCommand);
    }
  }

  /** What a published transition or stop leaves for the token check. */
  lemma FinishedChange(w: World, id: U64, givesUp: bool)
    requires Exclusive(w) && id in w.held && Publishes(w, Finish(id, givesUp))
    requires w.held[id].op.PreparedTransition? || w.held[id].op.PreparedStop?
    ensures var s' := Step(w, Finish(id, givesUp)).0.state;
            var op := w.held[id].op;
            var discards := op.PreparedTransition? && op.event.Discard?;
            && s'.phase.Ready? && s'.pendingCommandId.None?
            && s'.generation == SaturatingAdd(w.state.generation, 1)
            && s'.rideId == (if discards then None else Some(op.ride))
  {
    SettleReadyKeepsCommands(w.state, w.worker.replies);
    assert Owned(w.state, id, w.held[id]);
  }

  /**
   A published transition or stop fences its own token exactly below saturation of the generation, and a
   published Discard always does.
   */
  lemma FenceHoldsBelowSaturation(w: World, id: U64, givesUp: bool)
    requires Exclusive(w) && id in w.held && Publishes(w, Finish(id, givesUp))
    requires w.held[id].op.PreparedTransition? || w.held[id].op.PreparedStop?
    ensures var op := w.held[id].op;
            var discards := op.PreparedTransition? && op.event.Discard?;
            Fenced(Step(w, Finish(id, givesUp)).0.state, Token(op.ride, w.state.generation))
            <==> discards || w.state.generation < U64_MAX
  {
    var op := w.held[id].op;
    FinishedChange(w, id, givesUp);
    PublishedChangeFences(w.state, Step(w, Finish(id, givesUp)).0.state, Token(op.ride, w.state.generation),
                          op.PreparedTransition? && op.event.Discard?);
  }
}
