/** Conservation of location writes: every queued request is reported once, in order, or discarded. */
module LocationLedger {
  import opened Prelude
  import opened RideRecorder
  import opened RideRecording
  import opened RideProtocol
  import opened RideCommands

  // ---------------------------------------------------------------------------------------------
  // The worker is first in, first out
  // ---------------------------------------------------------------------------------------------

  /** Tickets below the queue are answered, the queue holds the rest in order. */
  ghost predicate InOrder(w: Worker) {
    && |w.queue| <= w.nextTicket
    && (forall i | 0 <= i < |w.queue| :: w.queue[i].ticket == w.nextTicket - |w.queue| + i)
    && (forall t: nat :: t in w.replies <==> t < w.nextTicket - |w.queue|)
    && (forall ride | ride in w.rides :: ride < w.nextRide)
  }

  lemma RunJobIsInOrder(w: Worker, choice: Choice)
    requires InOrder(w)
    ensures InOrder(RunJob(w, choice)) && RunJob(w, choice).nextTicket == w.nextTicket
  {
    if w.queue != [] {
      var w' := RunJob(w, choice);
      assert forall i | 0 <= i < |w'.queue| :: w'.queue[i] == w.queue[i + 1];
    }
  }

  lemma EnqueueIsInOrder(w: Worker, command: Command)
    requires InOrder(w)
    ensures InOrder(Enqueue(w, command))
  {
  }

  /** A barrier answers every ticket issued before it. */
  lemma {:induction false} DrainAnswersAll(w: Worker, choices: seq<Choice>)
    requires InOrder(w)
    ensures var w' := Drain(w, choices);
            InOrder(w') && w'.queue == [] && w'.nextTicket == w.nextTicket
    ensures forall t: nat | t < w.nextTicket :: t in Drain(w, choices).replies
    decreases |w.queue|
  {
    if w.queue != [] {
      var choice := if choices == [] then Choice(Declines, false) else choices[0];
      RunJobIsInOrder(w, choice);
      DrainAnswersAll(RunJob(w, choice), if choices == [] then [] else choices[1..]);
    }
  }

  predicate Below(pending: seq<PendingLocation>, limit: nat) {
    forall i | 0 <= i < |pending| :: pending[i].ticket < limit
  }

  ghost predicate Issued(w: World) {
    InOrder(w.worker) && Below(w.state.pending, w.worker.nextTicket)
  }

  lemma {:induction false} SettleKeepsBelow(s: RecordingState, answers: map<nat, Reply>, limit: nat)
    requires Below(s.pending, limit)
    ensures Below(SettleReady(s, answers).pending, limit)
    decreases |s.pending|
  {
    if s.pending != [] && s.pending[0].ticket in answers {
      SettleKeepsBelow(SettleFirst(s, answers[s.pending[0].ticket]), answers, limit);
    }
  }

  lemma {:induction false} SettlesAllAnswered(s: RecordingState, answers: map<nat, Reply>)
    requires forall i | 0 <= i < |s.pending| :: s.pending[i].ticket in answers
    ensures SettleReady(s, answers).pending == []
    decreases |s.pending|
  {
    if s.pending != [] {
      SettlesAllAnswered(SettleFirst(s, answers[s.pending[0].ticket]), answers);
    }
  }

  /** The barrier of a parked fix leaves no write pending. */
  lemma BarrierEmptiesQueue(w: World, choices: seq<Choice>)
    requires Issued(w)
    ensures Settle(w.state, Drain(w.worker, choices).replies).pending == []
  {
    DrainAnswersAll(w.worker, choices);
    SettlesAllAnswered(w.state, Drain(w.worker, choices).replies);
  }

  lemma AdmitKeepsBelow(s: RecordingState, fix: Fix, storage: Storage, limit: nat)
    requires Below(s.pending, limit) && (storage.ticket.Some? ==> storage.ticket.value == limit)
    ensures var (s', r) := Admit(s, fix, storage);
            && (r.Queued? ==> s.rideId.Some?)
            && Below(s'.pending, if r.Queued? then limit + 1 else limit)
  {
    SettleKeepsBelow(s, storage.answers, limit);
  }

  lemma AdmitIsIssued(w: World, e: Event)
    requires Issued(w) && e.AdmitLocation?
    ensures Issued(Step(w, e).0)
  {
    DrainAnswersAll(w.worker, e.choices);
    AdmitKeepsBelow(w.state, e.fix, StorageFor(Waited(w, e), e), w.worker.nextTicket);
  }

  lemma FinishTransitionKeepsBelow(s: RecordingState, op: Operation, reply: Reply, answers: map<nat, Reply>, limit: nat)
    requires op.PreparedTransition? && Below(s.pending, limit)
    ensures Below(FinishTransition(s, op, reply, answers).0.pending, limit)
  {
    SettleKeepsBelow(s, answers, limit);
  }

  lemma FinishStopKeepsBelow(s: RecordingState, op: Operation, reply: Reply, answers: map<nat, Reply>, limit: nat)
    requires op.PreparedStop? && Below(s.pending, limit)
    ensures Below(FinishStop(s, op, reply, answers).0.pending, limit)
  {
    SettleKeepsBelow(s, answers, limit);
  }

  lemma FinishIsIssued(w: World, h: Held, reply: Reply)
    requires Issued(w)
    ensures Issued(FinishHeld(w, h, reply).0)
  {
    match h.op {
      case PreparedTransition(_, _, _, _, _, _, _, _) =>
        FinishTransitionKeepsBelow(w.state, h.op, reply, w.worker.replies, w.worker.nextTicket);
      case PreparedStop(_, _, _, _, _, _) =>
        FinishStopKeepsBelow(w.state, h.op, reply, w.worker.replies, w.worker.nextTicket);
      case PreparedStart(_, _, _) =>
      case PreparedRestore(_, _) =>
    }
  }

  lemma FinishStepIsIssued(w: World, e: Event)
    requires Issued(w) && e.Finish?
    ensures Issued(Step(w, e).0)
  {
    if e.id in w.held && Answer(w, w.held[e.id], e.givesUp).Some? {
      FinishIsIssued(w, w.held[e.id], Answer(w, w.held[e.id], e.givesUp).value);
    }
  }

  lemma PollIsIssued(w: World)
    requires Issued(w)
    ensures Issued(StepPoll(w).0)
  {
    SettleKeepsBelow(w.state, w.worker.replies, w.worker.nextTicket);
  }

  predicate SameWrites(w: World, v: World) {
    && v.state.pending == w.state.pending && v.state.settled == w.state.settled
    && v.state.nextLocationRequestId == w.state.nextLocationRequestId
    && v.reported == w.reported && v.discarded == w.discarded
  }

  /** Preparing, submitting and dropping leave the location writes alone. */
  lemma QuietKeepsWrites(w: World, e: Event)
    requires IsQuiet(e)
    ensures SameWrites(w, Step(w, e).0)
  {
    QuietIsFramed(w, e);
  }

  lemma QuietIsInOrder(w: World, e: Event)
    requires IsQuiet(e) && InOrder(w.worker)
    ensures InOrder(Step(w, e).0.worker) && w.worker.nextTicket <= Step(w, e).0.worker.nextTicket
  {
    match e {
      case Restore(_) => EnqueueIsInOrder(w.worker, ReadSnapshot);
      case StartRide(_, _) => EnqueueIsInOrder(w.worker, CreateRide);
      case ChangeRide(token, event, _, _) => EnqueueIsInOrder(w.worker, ChangeLifecycle(token.ride, event));
      case SubmitStop(id, _) =>
        if id in w.held && w.held[id].op.PreparedStop? {
          EnqueueIsInOrder(w.worker, ChangeLifecycle(w.held[id].op.ride, Stop));
        }
      case _ =>
    }
  }

  lemma StepIsIssued(w: World, e: Event)
    requires Issued(w)
    ensures Issued(Step(w, e).0)
  {
    if e.WorkerRuns? {
      RunJobIsInOrder(w.worker, e.choice);
    } else if e.PollWrites? {
      PollIsIssued(w);
    } else if e.CheckpointWrites? {
      DrainAnswersAll(w.worker, e.choices);
      PollIsIssued(w.(worker := Drain(w.worker, e.choices)));
    } else if e.AdmitLocation? {
      AdmitIsIssued(w, e);
    } else if e.Finish? {
      FinishStepIsIssued(w, e);
    } else {
      QuietKeepsWrites(w, e);
      QuietIsInOrder(w, e);
    }
  }

  // ---------------------------------------------------------------------------------------------
  // The ledger
  // ---------------------------------------------------------------------------------------------

  predicate Ascending(ids: seq<nat>) {
    forall i, j | 0 <= i < j < |ids| :: ids[i] < ids[j]
  }

  /** Every identifier below `next` is listed once, in order, or was discarded. */
  ghost predicate Accounted(ids: seq<nat>, discarded: set<nat>, next: nat) {
    && Ascending(ids)
    && (forall id | id in ids :: 1 <= id < next && id !in discarded)
    && (forall id | id in discarded :: 1 <= id < next)
    && (forall id | 1 <= id < next :: id in ids || id in discarded)
  }

  lemma AccountedAppend(ids: seq<nat>, discarded: set<nat>, next: nat)
    requires Accounted(ids, discarded, next) && 1 <= next
    ensures Accounted(ids + [next], discarded, next + 1)
  {
    var all := ids + [next];
    forall i, j | 0 <= i < j < |all|
      ensures all[i] < all[j]
    {
      assert i < |ids| && ids[i] in ids;
    }
  }

  lemma AccountedSplit(kept: seq<nat>, cleared: seq<nat>, discarded: set<nat>, next: nat)
    requires Accounted(kept + cleared, discarded, next)
    ensures Accounted(kept, discarded + IdSet(cleared), next)
  {
    var all := kept + cleared;
    assert forall i | 0 <= i < |kept| :: all[i] == kept[i];
    assert forall j | 0 <= j < |cleared| :: all[|kept| + j] == cleared[j];
    forall id | id in kept
      ensures id in all && id !in cleared
    {
      var i :| 0 <= i < |kept| && kept[i] == id;
      assert all[i] == id;
    }
    forall id | id in cleared
      ensures id in all
    {
    }
  }

  lemma {:induction false} OutcomeIdsAppend(a: seq<WriteOutcome>, b: seq<WriteOutcome>)
    ensures OutcomeIds(a + b) == OutcomeIds(a) + OutcomeIds(b)
  {
    if a == [] {
      assert a + b == b;
    } else {
      OutcomeIdsAppend(a[1..], b);
      assert (a + b)[1..] == a[1..] + b;
    }
  }

  lemma {:induction false} PendingIdsAppend(a: seq<PendingLocation>, last: PendingLocation)
    ensures PendingIds(a + [last]) == PendingIds(a) + [last.requestId]
  {
    if a == [] {
      assert a + [last] == [last];
      assert PendingIds([last]) == [last.requestId] + PendingIds([]);
    } else {
      PendingIdsAppend(a[1..], last);
      assert (a + [last])[1..] == a[1..] + [last];
    }
  }

  /** Requests waiting inside the owner, oldest first. */
  function Waiting(s: RecordingState): seq<nat> {
    OutcomeIds(s.settled) + PendingIds(s.pending)
  }

  function Load(s: RecordingState): nat {
    |s.pending| + |s.settled|
  }

  /** Settling moves requests from pending to settled without losing, adding or reordering any. */
  lemma {:induction false} SettleKeepsWaiting(s: RecordingState, answers: map<nat, Reply>)
    ensures var s' := SettleReady(s, answers);
            Waiting(s') == Waiting(s) && Load(s') == Load(s) && s'.nextLocationRequestId == s.nextLocationRequestId
    decreases |s.pending|
  {
    if s.pending != [] && s.pending[0].ticket in answers {
      var result := answers[s.pending[0].ticket];
      var s1 := SettleFirst(s, result);
      OutcomeIdsAppend(s.settled, [Outcome(s, s.pending[0], result)]);
      assert OutcomeIds([Outcome(s, s.pending[0], result)]) == [s.pending[0].requestId] + OutcomeIds([]);
      assert Waiting(s1) == OutcomeIds(s.settled) + [s.pending[0].requestId] + PendingIds(s.pending[1..]);
      SettleKeepsWaiting(s1, answers);
    }
  }

  function Ledger(w: World): seq<nat> {
    w.reported + Waiting(w.state)
  }

  ghost predicate Conserved(w: World) {
    && Accounted(Ledger(w), w.discarded, w.state.nextLocationRequestId)
    && w.state.nextLocationRequestId >= 1
    && Load(w.state) <= MAX_PENDING_LOCATION_WRITES
  }

  lemma QueueWriteExtends(s: RecordingState, ride: nat, admitted: Admitted, storage: Storage)
    ensures var (s', r) := QueueWrite(s, ride, admitted, storage);
            if r.Queued? then
              && Waiting(s') == Waiting(s) + [s.nextLocationRequestId] && Load(s') == Load(s) + 1
              && s'.nextLocationRequestId == s.nextLocationRequestId + 1 && Load(s') <= MAX_PENDING_LOCATION_WRITES
            else s' == s
  {
    var (s', r) := QueueWrite(s, ride, admitted, storage);
    if r.Queued? {
      PendingIdsAppend(s.pending, s'.pending[|s.pending|]);
    }
  }

  lemma AdmitParkedKeeps(s: RecordingState, fix: Fix, storage: Storage)
    ensures var (s', r) := AdmitParked(s, fix, storage);
            && !r.Queued? && Waiting(s') == Waiting(s) && Load(s') == Load(s)
            && s'.nextLocationRequestId == s.nextLocationRequestId
  {
    SettleKeepsWaiting(s, storage.answers);
    ParkedLists(s, fix, storage);
  }

  predicate SameLists(s: RecordingState, t: RecordingState) {
    s.pending == t.pending && s.settled == t.settled && s.nextLocationRequestId == t.nextLocationRequestId
  }

  lemma ParkedLists(s: RecordingState, fix: Fix, storage: Storage)
    ensures var (s', r) := AdmitParked(s, fix, storage);
            !r.Queued? && (SameLists(s, s') || SameLists(SettleReady(s, storage.answers), s'))
  {
  }

  /** What an admission does to the requests inside the owner. */
  lemma AdmitExtends(s: RecordingState, fix: Fix, storage: Storage)
    ensures var (s', r) := Admit(s, fix, storage);
            if r.Queued? then
              && Waiting(s') == Waiting(s) + [s.nextLocationRequestId]
              && s'.nextLocationRequestId == s.nextLocationRequestId + 1 && Load(s') <= MAX_PENDING_LOCATION_WRITES
            else
              Waiting(s') == Waiting(s) && Load(s') == Load(s) && s'.nextLocationRequestId == s.nextLocationRequestId
  {
    if s.phase.Ready? && s.rideId.Some? {
      if fix.motion.Parked? {
        AdmitParkedKeeps(s, fix, storage);
      } else if fix.motion.Moving? {
        var admitted := AdmitFix(Judge(s), fix).1;
        if admitted.Some? && !IsClockOnly(s, fix) {
          QueueWriteExtends(s, s.rideId.value, admitted.value, storage);
        }
      }
    }
  }

  lemma AdmitIsConserved(w: World, e: Event)
    requires Conserved(w) && e.AdmitLocation?
    ensures Conserved(Step(w, e).0)
  {
    AdmitExtends(w.state, e.fix, StorageFor(Waited(w, e), e));
    AccountedAppend(Ledger(w), w.discarded, w.state.nextLocationRequestId);
    assert w.reported + (Waiting(w.state) + [w.state.nextLocationRequestId])
        == w.reported + Waiting(w.state) + [w.state.nextLocationRequestId];
  }

  lemma PollIsConserved(w: World)
    requires Conserved(w)
    ensures Conserved(StepPoll(w).0)
  {
    SettleKeepsWaiting(w.state, w.worker.replies);
    var w' := StepPoll(w).0;
    assert Ledger(w') == Ledger(w);
  }

  /** The state keeps its requests, or discards the pending ones. */
  lemma FinishTransitionKeepsWaiting(s: RecordingState, op: Operation, reply: Reply, answers: map<nat, Reply>)
    requires op.PreparedTransition? && s.pendingCommandId == Some(op.id)
    ensures var (s', r) := FinishTransition(s, op, reply, answers);
            && s'.nextLocationRequestId == s.nextLocationRequestId && Load(s') <= Load(s)
            && (if r.Ok? && op.event.Discard?
                then Waiting(s') + PendingIds(Settle(s, answers).pending) == Waiting(s)
                else Waiting(s') == Waiting(s))
  {
    SettleKeepsWaiting(s, answers);
    SettleReadyKeepsCommands(s, answers);
  }

  lemma FinishStopKeepsWaiting(s: RecordingState, op: Operation, reply: Reply, answers: map<nat, Reply>)
    requires op.PreparedStop? && s.pendingCommandId == Some(op.id)
    ensures var s' := FinishStop(s, op, reply, answers).0;
            s'.nextLocationRequestId == s.nextLocationRequestId && Load(s') <= Load(s) && Waiting(s') == Waiting(s)
  {
    SettleKeepsWaiting(s, answers);
    SettleReadyKeepsCommands(s, answers);
  }

  lemma FinishTransitionIsConserved(w: World, h: Held, reply: Reply)
    requires Conserved(w) && w.state.pendingCommandId == Some(h.op.id) && h.op.PreparedTransition?
    ensures Conserved(FinishHeldTransition(w, h, reply).0)
  {
    FinishTransitionKeepsWaiting(w.state, h.op, reply, w.worker.replies);
    var (w', r) := FinishHeldTransition(w, h, reply);
    if r.publication.Ok? && h.op.event.Discard? {
      var cleared := PendingIds(Settle(w.state, w.worker.replies).pending);
      assert Ledger(w') + cleared == Ledger(w);
      AccountedSplit(Ledger(w'), cleared, w.discarded, w.state.nextLocationRequestId);
    }
  }

  lemma FinishIsConserved(w: World, h: Held, reply: Reply)
    requires Conserved(w) && w.state.pendingCommandId == Some(h.op.id)
    ensures Conserved(FinishHeld(w, h, reply).0)
  {
    match h.op {
      case PreparedTransition(_, _, _, _, _, _, _, _) => FinishTransitionIsConserved(w, h, reply);
      case PreparedStop(_, _, _, _, _, _) => FinishStopKeepsWaiting(w.state, h.op, reply, w.worker.replies);
      case PreparedStart(_, _, _) =>
      case PreparedRestore(_, _) =>
    }
  }

  lemma FinishStepIsConserved(w: World, e: Event)
    requires Conserved(w) && Exclusive(w) && e.Finish?
    ensures Conserved(Step(w, e).0)
  {
    if e.id in w.held && Answer(w, w.held[e.id], e.givesUp).Some? {
      assert Owned(w.state, e.id, w.held[e.id]);
      FinishIsConserved(w, w.held[e.id], Answer(w, w.held[e.id], e.givesUp).value);
    }
  }

  lemma StepIsConserved(w: World, e: Event)
    requires Conserved(w) && Exclusive(w)
    ensures Conserved(Step(w, e).0)
  {
    if e.PollWrites? {
      PollIsConserved(w);
    } else if e.CheckpointWrites? {
      PollIsConserved(w.(worker := Drain(w.worker, e.choices)));
    } else if e.AdmitLocation? {
      AdmitIsConserved(w, e);
    } else if e.Finish? {
      FinishStepIsConserved(w, e);
    } else if !e.WorkerRuns? {
      QuietKeepsWrites(w, e);
    }
  }

  lemma {:induction false} RunIsConserved(w: World, run: seq<Event>)
    requires Conserved(w) && Exclusive(w) && Issued(w)
    ensures Conserved(Run(w, run)) && Exclusive(Run(w, run)) && Issued(Run(w, run))
    decreases |run|
  {
    if run != [] {
      StepIsConserved(w, run[0]);
      StepIsExclusive(w, run[0]);
      StepIsIssued(w, run[0]);
      RunIsConserved(Step(w, run[0]).0, run[1..]);
    }
  }

  /**
   In every run the identifiers reported so far, then the settled and the pending ones, are
   strictly increasing, and with the discarded ones they are exactly the identifiers issued: none
   is lost, repeated or overtaken. At most 64 requests wait inside the owner.
   */
  lemma WritesAreConserved(run: seq<Event>)
    ensures var w := Run(NEW_WORLD, run);
            && Accounted(w.reported + OutcomeIds(w.state.settled) + PendingIds(w.state.pending),
                         w.discarded, w.state.nextLocationRequestId)
            && |w.state.pending| + |w.state.settled| <= MAX_PENDING_LOCATION_WRITES
  {
    ReachableIsConserved(run);
    var w := Run(NEW_WORLD, run);
    assert Ledger(w) == w.reported + OutcomeIds(w.state.settled) + PendingIds(w.state.pending);
  }

  lemma ReachableIsConserved(run: seq<Event>)
    ensures var w := Run(NEW_WORLD, run); Conserved(w) && Issued(w)
  {
    assert Ledger(NEW_WORLD) == [];
    RunIsConserved(NEW_WORLD, run);
  }

  /** Every issued identifier is reported or discarded, and nothing waits. */
  ghost predicate AllReported(w: World) {
    && Accounted(w.reported, w.discarded, w.state.nextLocationRequestId)
    && w.state.pending == [] && w.state.settled == []
  }

  lemma CheckpointEmpties(w: World, choices: seq<Choice>)
    requires Issued(w) && Conserved(w)
    ensures AllReported(Checkpointed(w, choices))
  {
    BarrierEmptiesQueue(w, choices);
    PollIsConserved(w.(worker := Drain(w.worker, choices)));
    assert Ledger(Checkpointed(w, choices)) == Checkpointed(w, choices).reported;
  }

  /** A checkpoint reports everything, in every run. */
  lemma CheckpointReportsAll(run: seq<Event>, choices: seq<Choice>)
    ensures AllReported(Checkpointed(Run(NEW_WORLD, run), choices))
  {
    ReachableIsConserved(run);
    CheckpointEmpties(Run(NEW_WORLD, run), choices);
  }
}
