/** What a caller is told about a queued write: the worker's reply to that write, and whether it reached the route. */
module RideReports {
  import opened Prelude
  import opened RideRecorder
  import opened RideRecording
  import opened RideProtocol
  import opened RideCommands
  import opened LocationLedger
  import opened SpeculativeRoute

  // ---------------------------------------------------------------------------------------------
  // One settlement
  // ---------------------------------------------------------------------------------------------

  /** The fate of an answered write while `generation` is being recorded. */
  function Fate(generation: Option<nat>, p: PendingLocation, reply: Reply): WriteOutcome {
    WriteOutcome(p.requestId, p.ride, p.admitted.point, p.sequence, reply,
                 reply == Stored(Accepted) && generation == Some(p.admitted.generation))
  }

  /** How many writes are answered before the first unanswered one. */
  function Answered(pending: seq<PendingLocation>, answers: map<nat, Reply>): (n: nat)
    ensures n <= |pending| && (n < |pending| ==> pending[n].ticket !in answers)
    ensures forall i | 0 <= i < n :: pending[i].ticket in answers
  {
    if pending == [] || pending[0].ticket !in answers then 0 else 1 + Answered(pending[1..], answers)
  }

  /** The fates of the answered prefix, in order. */
  function Fates(generation: Option<nat>, pending: seq<PendingLocation>, answers: map<nat, Reply>)
    : seq<WriteOutcome>
  {
    seq(Answered(pending, answers),
        i requires 0 <= i < Answered(pending, answers) => Fate(generation, pending[i], answers[pending[i].ticket]))
  }

  lemma FatesUnfold(generation: Option<nat>, pending: seq<PendingLocation>, answers: map<nat, Reply>)
    requires pending != [] && pending[0].ticket in answers
    ensures Fates(generation, pending, answers)
         == [Fate(generation, pending[0], answers[pending[0].ticket])] + Fates(generation, pending[1..], answers)
  {
  }

  lemma FirstFate(s: RecordingState, next: nat, result: Reply)
    requires Orderly(s, next) && s.pending != []
    ensures var s1 := SettleFirst(s, result);
            && s1.settled == s.settled + [Fate(s.recorder.generation, s.pending[0], result)]
            && s1.recorder.generation == s.recorder.generation && Orderly(s1, next)
  {
    AcceptedOwnWriteIsApplied(s, next, result);
    SettleFirstIsOrderly(s, next, result);
  }

  lemma Regrouped(a: seq<WriteOutcome>, b: seq<WriteOutcome>, c: seq<WriteOutcome>)
    ensures a + b + c == a + (b + c)
  {
  }

  /** A settlement reports the fate of every write in the answered prefix. */
  lemma {:induction false} SettlementReportsFates(s: RecordingState, next: nat, answers: map<nat, Reply>)
    requires Orderly(s, next)
    ensures SettleReady(s, answers).settled == s.settled + Fates(s.recorder.generation, s.pending, answers)
    decreases |s.pending|
  {
    if s.pending != [] && s.pending[0].ticket in answers {
      var result := answers[s.pending[0].ticket];
      FirstFate(s, next, result);
      SettlementReportsFates(SettleFirst(s, result), next, answers);
      FatesUnfold(s.recorder.generation, s.pending, answers);
      Regrouped(s.settled, [Fate(s.recorder.generation, s.pending[0], result)],
                Fates(s.recorder.generation, s.pending[1..], answers));
    } else {
      assert Fates(s.recorder.generation, s.pending, answers) == [];
    }
  }

  /** And it keeps every other write waiting. */
  lemma {:induction false} SettlementKeepsRest(s: RecordingState, answers: map<nat, Reply>)
    ensures SettleReady(s, answers).pending == s.pending[Answered(s.pending, answers)..]
    decreases |s.pending|
  {
    if s.pending != [] && s.pending[0].ticket in answers {
      SettlementKeepsRest(SettleFirst(s, answers[s.pending[0].ticket]), answers);
    }
  }

  /** The oldest write alone, if it was accepted and is of this recording. */
  function AcceptedFirst(generation: Option<nat>, p: PendingLocation, reply: Reply): seq<Admitted> {
    if reply == Stored(Accepted) && generation == Some(p.admitted.generation) then [p.admitted] else []
  }

  lemma FirstIsAccepted(s: RecordingState, next: nat, reply: Reply)
    requires Orderly(s, next) && s.pending != []
    ensures var (s1, first) := (SettleFirst(s, reply), AcceptedFirst(s.recorder.generation, s.pending[0], reply));
            s1.recorder == RecordAll(s.recorder, first) && s1.revision == SaturatingAdd(s.revision, |first|)
  {
    AcceptedOwnWriteIsApplied(s, next, reply);
    if Applies(s, s.pending[0], reply) {
      assert RecordAll(s.recorder, [s.pending[0].admitted])
          == RecordAll(Record(s.recorder, s.pending[0].admitted), []);
    }
  }

  lemma RecordsFirst(r: Recorder, first: seq<Admitted>, rest: seq<Admitted>)
    requires |first| <= 1
    ensures RecordAll(r, first + rest) == RecordAll(RecordAll(r, first), rest)
  {
    if first == [] {
      assert first + rest == rest;
    } else {
      assert (first + rest)[1..] == rest && first[1..] == [];
    }
  }

  /** A settlement records the accepted writes of this recording, and each of them is one revision. */
  lemma {:induction false} SettlementRecordsAccepted(s: RecordingState, next: nat, answers: map<nat, Reply>)
    requires Orderly(s, next)
    ensures var s' := SettleReady(s, answers);
            var accepted := AcceptedWrites(s.recorder.generation, s.pending, answers);
            s'.recorder == RecordAll(s.recorder, accepted) && s'.revision == SaturatingAdd(s.revision, |accepted|)
    decreases |s.pending|
  {
    if s.pending != [] && s.pending[0].ticket in answers {
      var reply := answers[s.pending[0].ticket];
      FirstFate(s, next, reply);
      FirstIsAccepted(s, next, reply);
      SettlementRecordsAccepted(SettleFirst(s, reply), next, answers);
      RecordsFirst(s.recorder, AcceptedFirst(s.recorder.generation, s.pending[0], reply),
                   AcceptedWrites(s.recorder.generation, s.pending[1..], answers));
    }
  }

  // ---------------------------------------------------------------------------------------------
  // The trace of a request
  // ---------------------------------------------------------------------------------------------

  /** The pending write is the one its caller was told about. */
  predicate Follows(issued: map<nat, Issue>, p: PendingLocation) {
    && p.requestId in issued
    && issued[p.requestId] == Issue(p.ride, p.admitted.point, p.sequence, p.ticket, Some(p.admitted.generation))
  }

  /**
   The outcome is of the write its caller was told about and carries the worker's reply to it. Only an accepted
   write is applied, and an accepted write of the recording `generation` is.
   */
  predicate Truthful(issued: map<nat, Issue>, replies: map<nat, Reply>, generation: Option<nat>, o: WriteOutcome) {
    && o.requestId in issued
    && var i := issued[o.requestId];
       && o.ride == i.ride && o.point == i.point && o.sequence == i.sequence
       && i.ticket in replies && o.result == replies[i.ticket]
       && (o.applied ==> o.result == Stored(Accepted))
       && (generation.Some? && generation == i.recording ==> (o.applied <==> o.result == Stored(Accepted)))
  }

  predicate AllFollow(issued: map<nat, Issue>, pending: seq<PendingLocation>) {
    forall k | 0 <= k < |pending| :: Follows(issued, pending[k])
  }

  predicate AllTruthful(
      issued: map<nat, Issue>, replies: map<nat, Reply>, generation: Option<nat>, outcomes: seq<WriteOutcome>)
  {
    forall k | 0 <= k < |outcomes| :: Truthful(issued, replies, generation, outcomes[k])
  }

  /** Requests are numbered below the next identifier, recordings below the next recording. */
  predicate WellNumbered(issued: map<nat, Issue>, nextRequest: nat, nextRecording: nat) {
    forall id | id in issued ::
      id < nextRequest && (issued[id].recording.Some? ==> issued[id].recording.value < nextRecording)
  }

  predicate TracedState(s: RecordingState, issued: map<nat, Issue>, replies: map<nat, Reply>) {
    && AllFollow(issued, s.pending)
    && AllTruthful(issued, replies, s.recorder.generation, s.settled)
  }

  predicate Traced(w: World) {
    && TracedState(w.state, w.issued, w.worker.replies)
    && WellNumbered(w.issued, w.state.nextLocationRequestId, w.nextRecording)
  }

  /** Replies are permanent. */
  predicate Grows(a: map<nat, Reply>, b: map<nat, Reply>) {
    forall t | t in a :: t in b && b[t] == a[t]
  }

  lemma RunJobGrows(w: Worker, choice: Choice)
    requires InOrder(w)
    ensures Grows(w.replies, RunJob(w, choice).replies)
  {
    if w.queue != [] {
      assert w.queue[0].ticket !in w.replies;
    }
  }

  lemma {:induction false} DrainGrows(w: Worker, choices: seq<Choice>)
    requires InOrder(w)
    ensures Grows(w.replies, Drain(w, choices).replies)
    decreases |w.queue|
  {
    if w.queue != [] {
      var choice := if choices == [] then Choice(Declines, false) else choices[0];
      RunJobIsInOrder(w, choice);
      RunJobGrows(w, choice);
      DrainGrows(RunJob(w, choice), if choices == [] then [] else choices[1..]);
    }
  }

  lemma GrowingKeepsTrace(s: RecordingState, issued: map<nat, Issue>, replies: map<nat, Reply>, more: map<nat, Reply>)
    requires TracedState(s, issued, replies) && Grows(replies, more)
    ensures TracedState(s, issued, more)
  {
  }

  /** The fates of writes their callers know about are truthful. */
  lemma FatesAreTruthful(
      issued: map<nat, Issue>, generation: Option<nat>, pending: seq<PendingLocation>, answers: map<nat, Reply>)
    requires AllFollow(issued, pending)
    ensures AllTruthful(issued, answers, generation, Fates(generation, pending, answers))
  {
    var fates := Fates(generation, pending, answers);
    forall k | 0 <= k < |fates|
      ensures Truthful(issued, answers, generation, fates[k])
    {
      assert Follows(issued, pending[k]);
    }
  }

  lemma SettleKeepsTrace(s: RecordingState, next: nat, issued: map<nat, Issue>, answers: map<nat, Reply>)
    requires Orderly(s, next) && TracedState(s, issued, answers)
    ensures TracedState(SettleReady(s, answers), issued, answers)
    ensures SettleReady(s, answers).recorder.generation == s.recorder.generation
    ensures SettleReady(s, answers).nextLocationRequestId == s.nextLocationRequestId
  {
    SettlementReportsFates(s, next, answers);
    SettlementKeepsRest(s, answers);
    SettlementRecordsAccepted(s, next, answers);
    FatesAreTruthful(issued, s.recorder.generation, s.pending, answers);
    BatchKeepsAnchor(s.recorder, AcceptedWrites(s.recorder.generation, s.pending, answers));
    SettleKeepsWaiting(s, answers);
  }

  // ---------------------------------------------------------------------------------------------
  // Every step keeps the trace
  // ---------------------------------------------------------------------------------------------

  predicate SameTrace(s: RecordingState, t: RecordingState) {
    SameLists(s, t) && s.recorder.generation == t.recorder.generation
  }

  /** The requests are those of the state, or of its settlement, or those but the cleared ones. */
  predicate Leaves(s: RecordingState, s1: RecordingState, t: RecordingState) {
    || SameTrace(s, t) || SameTrace(s1, t) || SameTrace(s1.(pending := []), t)
    || SameTrace(s1.(settled := []), t)
  }

  lemma LeavesKeepsTrace(
      s: RecordingState, t: RecordingState, next: nat, issued: map<nat, Issue>, answers: map<nat, Reply>)
    requires Orderly(s, next) && TracedState(s, issued, answers) && Leaves(s, SettleReady(s, answers), t)
    ensures TracedState(t, issued, answers) && t.nextLocationRequestId == s.nextLocationRequestId
  {
    SettleKeepsTrace(s, next, issued, answers);
  }

  lemma FinishTransitionLeaves(s: RecordingState, op: Operation, reply: Reply, answers: map<nat, Reply>)
    requires op.PreparedTransition?
    ensures Leaves(s, SettleReady(s, answers), FinishTransition(s, op, reply, answers).0)
  {
  }

  lemma FinishStopLeaves(s: RecordingState, op: Operation, reply: Reply, answers: map<nat, Reply>)
    requires op.PreparedStop?
    ensures Leaves(s, SettleReady(s, answers), FinishStop(s, op, reply, answers).0)
  {
  }

  lemma ParkedLeaves(s: RecordingState, fix: Fix, storage: Storage)
    ensures Leaves(s, SettleReady(s, storage.answers), AdmitParked(s, fix, storage).0)
  {
  }

  lemma MovingKeeps(s: RecordingState, ride: nat, fix: Fix, storage: Storage)
    ensures var (s', r) := AdmitMoving(s, ride, fix, storage); !r.Queued? ==> SameTrace(s, s')
  {
  }

  lemma AdmitLeaves(s: RecordingState, fix: Fix, storage: Storage)
    ensures var (s', r) := Admit(s, fix, storage); !r.Queued? ==> Leaves(s, SettleReady(s, storage.answers), s')
  {
    if s.phase.Ready? && s.rideId.Some? {
      ParkedLeaves(s, fix, storage);
      MovingKeeps(s, s.rideId.value, fix, storage);
    }
  }

  lemma FinishTransitionIsTraced(w: World, h: Held, reply: Reply)
    requires Traced(w) && Orderly(w.state, w.nextRecording) && h.op.PreparedTransition?
    ensures Traced(FinishHeldTransition(w, h, reply).0)
  {
    FinishTransitionLeaves(w.state, h.op, reply, w.worker.replies);
    LeavesKeepsTrace(w.state, FinishTransition(w.state, h.op, reply, w.worker.replies).0, w.nextRecording,
                     w.issued, w.worker.replies);
  }

  lemma FinishStopIsTraced(w: World, h: Held, reply: Reply)
    requires Traced(w) && Orderly(w.state, w.nextRecording) && h.op.PreparedStop?
    ensures Traced(FinishHeldStop(w, h, reply).0)
  {
    FinishStopLeaves(w.state, h.op, reply, w.worker.replies);
    LeavesKeepsTrace(w.state, FinishStop(w.state, h.op, reply, w.worker.replies).0, w.nextRecording,
                     w.issued, w.worker.replies);
  }

  /** A new recording owns no earlier request. */
  lemma NewRecordingIsTraced(w: World, s: RecordingState)
    requires Traced(w) && SameLists(w.state, s)
    requires s.recorder.generation == w.state.recorder.generation || s.recorder.generation.None?
             || s.recorder.generation.value >= w.nextRecording
    ensures TracedState(s, w.issued, w.worker.replies)
  {
    forall k | 0 <= k < |s.settled|
      ensures Truthful(w.issued, w.worker.replies, s.recorder.generation, s.settled[k])
    {
      assert Truthful(w.issued, w.worker.replies, w.state.recorder.generation, w.state.settled[k]);
    }
  }

  lemma FinishRestoreIsTraced(w: World, h: Held, reply: Reply)
    requires Traced(w) && h.op.PreparedRestore?
    ensures Traced(FinishHeldRestore(w, h, reply).0)
  {
    NewRecordingIsTraced(w, FinishRestore(w.state, h.op.id, reply, NextRecording(w)).0);
  }

  lemma FinishStartIsTraced(w: World, h: Held, reply: Reply)
    requires Traced(w) && h.op.PreparedStart?
    ensures Traced(FinishHeldStart(w, h, reply).0)
  {
    NewRecordingIsTraced(w, FinishStart(w.state, h.op.id, h.op.startAt, reply, NextRecording(w)).0);
  }

  lemma FinishStepIsTraced(w: World, e: Event)
    requires Traced(w) && Orderly(w.state, w.nextRecording) && e.Finish?
    ensures Traced(Step(w, e).0)
  {
    if e.id in w.held && Answer(w, w.held[e.id], e.givesUp).Some? {
      var h, reply := w.held[e.id], Answer(w, w.held[e.id], e.givesUp).value;
      match h.op {
        case PreparedTransition(_, _, _, _, _, _, _, _) => FinishTransitionIsTraced(w, h, reply);
        case PreparedStop(_, _, _, _, _, _) => FinishStopIsTraced(w, h, reply);
        case PreparedRestore(_, _) => FinishRestoreIsTraced(w, h, reply);
        case PreparedStart(_, _, _) => FinishStartIsTraced(w, h, reply);
      }
    }
  }

  lemma PollIsTraced(w: World)
    requires Traced(w) && Orderly(w.state, w.nextRecording)
    ensures Traced(StepPoll(w).0)
  {
    SettleKeepsTrace(w.state, w.nextRecording, w.issued, w.worker.replies);
  }

  /** The recording that judges a fix is the current one. */
  lemma JudgeIsCurrent(s: RecordingState, next: nat)
    requires Refines(s, next) && s.rideId.Some?
    ensures Judge(s).generation == s.recorder.generation
  {
    BatchKeepsAnchor(s.recorder, SamplesOf(s.pending));
  }

  lemma QueuedIsLast(s: RecordingState, next: nat, fix: Fix, storage: Storage)
    requires Refines(s, next) && Admit(s, fix, storage).1.Queued?
    ensures var (s', r) := Admit(s, fix, storage);
            && s.rideId.Some? && storage.ticket.Some? && s.recorder.generation.Some?
            && s' == s.(pending := s'.pending, nextLocationRequestId := s'.nextLocationRequestId,
                        admissionRecorder := s'.admissionRecorder)
            && s'.nextLocationRequestId == s.nextLocationRequestId + 1 && r.requestId == s.nextLocationRequestId
            && r.point == Point(fix.sample, fix.context)
            && s'.pending == s.pending + [PendingLocation(r.requestId, s.rideId.value,
                 Admitted(r.point, s.recorder.generation.value), r.sequence, storage.ticket.value)]
  {
    JudgeIsCurrent(s, next);
  }

  lemma AdmitNowIsTraced(w: World, fix: Fix, storage: Storage)
    requires Traced(w) && Refines(w.state, w.nextRecording)
    requires storage.answers == w.worker.replies
    requires storage.ticket.Some? ==> storage.ticket.value == w.worker.nextTicket
    ensures Traced(AdmitNow(w, fix, storage).0)
  {
    var (s, r) := Admit(w.state, fix, storage);
    if r.Queued? {
      QueuedIsLast(w.state, w.nextRecording, fix, storage);
      assert r.requestId !in w.issued;
      var w' := AdmitNow(w, fix, storage).0;
      forall k | 0 <= k < |s.pending|
        ensures Follows(w'.issued, s.pending[k])
      {
        assert k < |w.state.pending| ==> Follows(w.issued, w.state.pending[k]);
      }
      assert AllTruthful(w'.issued, w'.worker.replies, s.recorder.generation, s.settled);
    } else {
      AdmitLeaves(w.state, fix, storage);
      LeavesKeepsTrace(w.state, s, w.nextRecording, w.issued, w.worker.replies);
    }
  }

  lemma WaitedIsTraced(w: World, e: Event)
    requires Traced(w) && InOrder(w.worker) && e.AdmitLocation?
    ensures Traced(Waited(w, e))
  {
    DrainGrows(w.worker, e.choices);
    GrowingKeepsTrace(w.state, w.issued, w.worker.replies, Waited(w, e).worker.replies);
  }

  lemma StepIsTraced(w: World, e: Event)
    requires Traced(w) && Refines(w.state, w.nextRecording) && Issued(w)
    ensures Traced(Step(w, e).0)
  {
    if e.WorkerRuns? {
      RunJobGrows(w.worker, e.choice);
      GrowingKeepsTrace(w.state, w.issued, w.worker.replies, RunJob(w.worker, e.choice).replies);
    } else if e.PollWrites? {
      PollIsTraced(w);
    } else if e.CheckpointWrites? {
      DrainGrows(w.worker, e.choices);
      GrowingKeepsTrace(w.state, w.issued, w.worker.replies, Drain(w.worker, e.choices).replies);
      PollIsTraced(w.(worker := Drain(w.worker, e.choices)));
    } else if e.AdmitLocation? {
      WaitedIsTraced(w, e);
      AdmitNowIsTraced(Waited(w, e), e.fix, StorageFor(Waited(w, e), e));
    } else if e.Finish? {
      FinishStepIsTraced(w, e);
    } else {
      QuietIsFramed(w, e);
    }
  }

  lemma {:induction false} RunIsTraced(w: World, run: seq<Event>)
    requires Traced(w) && Refines(w.state, w.nextRecording) && AllLawful(w) && Issued(w)
    ensures Traced(Run(w, run))
    decreases |run|
  {
    if run != [] {
      StepIsTraced(w, run[0]);
      StepRefines(w, run[0]);
      StepIsLawful(w, run[0]);
      StepIsIssued(w, run[0]);
      RunIsTraced(Step(w, run[0]).0, run[1..]);
    }
  }

  lemma ReachableIsTraced(run: seq<Event>)
    ensures Traced(Run(NEW_WORLD, run))
  {
    RunIsTraced(NEW_WORLD, run);
  }

  // ---------------------------------------------------------------------------------------------
  // What reports say
  // ---------------------------------------------------------------------------------------------

  /** The report of a poll when `replies` have arrived: what was settled earlier and the fates settled now. */
  function Report(w: World, replies: map<nat, Reply>): seq<WriteOutcome> {
    w.state.settled + Fates(w.state.recorder.generation, w.state.pending, replies)
  }

  predicate PollReports(w: World) {
    && Step(w, PollWrites).1 == Reported(Report(w, w.worker.replies))
    && Step(w, PollWrites).0.issued == w.issued
    && AllTruthful(w.issued, w.worker.replies, w.state.recorder.generation, Report(w, w.worker.replies))
  }

  lemma PollReportsAll(w: World)
    requires Orderly(w.state, w.nextRecording)
    ensures StepPoll(w).1 == Reported(Report(w, w.worker.replies)) && StepPoll(w).0.issued == w.issued
  {
    SettlementReportsFates(w.state, w.nextRecording, w.worker.replies);
  }

  lemma TruthfulTogether(
      issued: map<nat, Issue>, replies: map<nat, Reply>, generation: Option<nat>, a: seq<WriteOutcome>,
      b: seq<WriteOutcome>)
    requires AllTruthful(issued, replies, generation, a) && AllTruthful(issued, replies, generation, b)
    ensures AllTruthful(issued, replies, generation, a + b)
  {
  }

  lemma PollReportsFates(w: World)
    requires Traced(w) && Orderly(w.state, w.nextRecording)
    ensures PollReports(w)
  {
    PollReportsAll(w);
    FatesAreTruthful(w.issued, w.state.recorder.generation, w.state.pending, w.worker.replies);
    TruthfulTogether(w.issued, w.worker.replies, w.state.recorder.generation, w.state.settled,
                     Fates(w.state.recorder.generation, w.state.pending, w.worker.replies));
  }

  /**
   In every run, a poll reports exactly the outcomes settled since the last report and the fates of the answered
   prefix of the queue. Each carries the ride, point and sequence its caller was given for that identifier and the
   worker's reply at its ticket; it says applied only for an accepted write, and for an accepted write of the current
   recording always.
   */
  lemma PollReportsReplies(run: seq<Event>)
    ensures PollReports(Run(NEW_WORLD, run))
  {
    ReachableIsTraced(run);
    ReachableRefines(run);
    PollReportsFates(Run(NEW_WORLD, run));
  }

  lemma AllAnswered(pending: seq<PendingLocation>, answers: map<nat, Reply>)
    requires forall i | 0 <= i < |pending| :: pending[i].ticket in answers
    ensures Answered(pending, answers) == |pending|
  {
  }

  /** A checkpoint reports behind its barrier what a poll there reports, and no request is left out. */
  predicate CheckpointReports(w: World, choices: seq<Choice>) {
    var replies := Drain(w.worker, choices).replies;
    && Step(w, CheckpointWrites(choices)).1 == Reported(Report(w, replies))
    && AllTruthful(w.issued, replies, w.state.recorder.generation, Report(w, replies))
    && |Report(w, replies)| == |w.state.settled| + |w.state.pending|
  }

  lemma DrainedIsTraced(w: World, choices: seq<Choice>)
    requires Traced(w) && Issued(w)
    ensures Traced(w.(worker := Drain(w.worker, choices)))
    ensures Answered(w.state.pending, Drain(w.worker, choices).replies) == |w.state.pending|
  {
    DrainAnswersAll(w.worker, choices);
    DrainGrows(w.worker, choices);
    GrowingKeepsTrace(w.state, w.issued, w.worker.replies, Drain(w.worker, choices).replies);
    AllAnswered(w.state.pending, Drain(w.worker, choices).replies);
  }

  lemma CheckpointIsPoll(w: World, choices: seq<Choice>)
    ensures Step(w, CheckpointWrites(choices)) == Step(w.(worker := Drain(w.worker, choices)), PollWrites)
  {
  }

  lemma CheckpointReportsFates(w: World, choices: seq<Choice>)
    requires Traced(w) && Orderly(w.state, w.nextRecording) && Issued(w)
    ensures CheckpointReports(w, choices)
  {
    DrainedIsTraced(w, choices);
    CheckpointIsPoll(w, choices);
    PollReportsFates(w.(worker := Drain(w.worker, choices)));
  }

  /** In every run a checkpoint reports, behind its barrier, the reply to every request that waits. */
  lemma CheckpointReportsReplies(run: seq<Event>, choices: seq<Choice>)
    ensures CheckpointReports(Run(NEW_WORLD, run), choices)
  {
    ReachableIsTraced(run);
    ReachableRefines(run);
    CheckpointReportsFates(Run(NEW_WORLD, run), choices);
  }

  // ---------------------------------------------------------------------------------------------
  // Settling between reports
  // ---------------------------------------------------------------------------------------------

  /** A committed transition or stop settles before it publishes, and a parked fix settles behind its barrier. */
  predicate Settling(w: World, e: Event) {
    || (e.Finish? && e.id in w.held && (w.held[e.id].op.PreparedTransition? || w.held[e.id].op.PreparedStop?)
        && Answer(w, w.held[e.id], e.givesUp).Some? && Answer(w, w.held[e.id], e.givesUp).value.Committed?)
    || (e.AdmitLocation? && Waits(w.state, e.fix) && e.barrier)
  }

  /** The replies a step settles with: behind a barrier those of the drained worker. */
  function SeenReplies(w: World, e: Event): map<nat, Reply> {
    if e.AdmitLocation? then Waited(w, e).worker.replies else w.worker.replies
  }

  /** Between two reports the settled outcomes grow exactly by the fates that the settling steps decide. */
  predicate SettlesFates(w: World, e: Event) {
    Step(w, e).0.state.settled
    == w.state.settled
       + if Settling(w, e) then Fates(w.state.recorder.generation, w.state.pending, SeenReplies(w, e)) else []
  }

  lemma FinishTransitionSettles(s: RecordingState, op: Operation, reply: Reply, answers: map<nat, Reply>)
    requires op.PreparedTransition? && s.pendingCommandId == Some(op.id)
    ensures FinishTransition(s, op, reply, answers).0.settled
         == if reply.Committed? then SettleReady(s, answers).settled else s.settled
  {
    SettleReadyKeepsCommands(s, answers);
  }

  lemma FinishStopSettles(s: RecordingState, op: Operation, reply: Reply, answers: map<nat, Reply>)
    requires op.PreparedStop? && s.pendingCommandId == Some(op.id)
    ensures FinishStop(s, op, reply, answers).0.settled
         == if reply.Committed? then SettleReady(s, answers).settled else s.settled
  {
    SettleReadyKeepsCommands(s, answers);
  }

  lemma FinishHeldSettles(w: World, h: Held, reply: Reply)
    requires w.state.pendingCommandId == Some(h.op.id)
    ensures FinishHeld(w, h, reply).0.state.settled
         == if reply.Committed? && (h.op.PreparedTransition? || h.op.PreparedStop?)
            then SettleReady(w.state, w.worker.replies).settled else w.state.settled
  {
    match h.op {
      case PreparedTransition(_, _, _, _, _, _, _, _) =>
        FinishTransitionSettles(w.state, h.op, reply, w.worker.replies);
      case PreparedStop(_, _, _, _, _, _) => FinishStopSettles(w.state, h.op, reply, w.worker.replies);
      case PreparedRestore(_, _) =>
      case PreparedStart(_, _, _) =>
    }
  }

  lemma AdmitSettles(s: RecordingState, fix: Fix, storage: Storage)
    ensures Admit(s, fix, storage).0.settled
         == if Waits(s, fix) && storage.barrier then SettleReady(s, storage.answers).settled else s.settled
  {
  }

  lemma FinishStepSettles(w: World, e: Event)
    requires Exclusive(w) && Orderly(w.state, w.nextRecording) && e.Finish?
    ensures SettlesFates(w, e)
  {
    if e.id in w.held && Answer(w, w.held[e.id], e.givesUp).Some? {
      assert Owned(w.state, e.id, w.held[e.id]);
      FinishHeldSettles(w, w.held[e.id], Answer(w, w.held[e.id], e.givesUp).value);
      SettlementReportsFates(w.state, w.nextRecording, w.worker.replies);
    }
  }

  lemma AdmitSettlesFates(s: RecordingState, next: nat, fix: Fix, storage: Storage)
    requires Orderly(s, next)
    ensures Admit(s, fix, storage).0.settled
         == s.settled + if Waits(s, fix) && storage.barrier
                        then Fates(s.recorder.generation, s.pending, storage.answers) else []
  {
    AdmitSettles(s, fix, storage);
    SettlementReportsFates(s, next, storage.answers);
  }

  lemma StepIsAdmission(w: World, e: Event)
    requires e.AdmitLocation?
    ensures var (s, r) := Admit(w.state, e.fix, StorageFor(Waited(w, e), e));
            Step(w, e).0.state == s && Step(w, e).1 == Decided(r)
  {
  }

  lemma AdmitStepSettles(w: World, e: Event)
    requires Orderly(w.state, w.nextRecording) && e.AdmitLocation?
    ensures SettlesFates(w, e)
  {
    StepIsAdmission(w, e);
    AdmitSettlesFates(w.state, w.nextRecording, e.fix, StorageFor(Waited(w, e), e));
  }

  lemma QuietSettles(w: World, e: Event)
    requires IsQuiet(e) || e.WorkerRuns?
    ensures SettlesFates(w, e)
  {
    if IsQuiet(e) {
      QuietKeepsWrites(w, e);
    }
    assert w.state.settled + [] == w.state.settled;
  }

  lemma StepSettles(w: World, e: Event)
    requires Exclusive(w) && Orderly(w.state, w.nextRecording) && !e.PollWrites? && !e.CheckpointWrites?
    ensures SettlesFates(w, e)
  {
    if e.Finish? {
      FinishStepSettles(w, e);
    } else if e.AdmitLocation? {
      AdmitStepSettles(w, e);
    } else {
      QuietSettles(w, e);
    }
  }

  /** In every run, a step that does not report keeps the settled outcomes and adds exactly the fates it decides. */
  lemma OutcomesAreKept(run: seq<Event>, e: Event)
    requires !e.PollWrites? && !e.CheckpointWrites?
    ensures SettlesFates(Run(NEW_WORLD, run), e)
  {
    RunIsExclusive(NEW_WORLD, run);
    ReachableRefines(run);
    StepSettles(Run(NEW_WORLD, run), e);
  }

  // ---------------------------------------------------------------------------------------------
  // From the queued answer to the report
  // ---------------------------------------------------------------------------------------------

  lemma FinishChangeKeepsIssues(w: World, h: Held, reply: Reply)
    ensures h.op.PreparedTransition? ==> FinishHeldTransition(w, h, reply).0.issued == w.issued
    ensures h.op.PreparedStop? ==> FinishHeldStop(w, h, reply).0.issued == w.issued
  {
  }

  lemma FinishNewKeepsIssues(w: World, h: Held, reply: Reply)
    ensures h.op.PreparedRestore? ==> FinishHeldRestore(w, h, reply).0.issued == w.issued
    ensures h.op.PreparedStart? ==> FinishHeldStart(w, h, reply).0.issued == w.issued
  {
  }

  lemma FinishKeepsIssues(w: World, h: Held, reply: Reply)
    ensures FinishHeld(w, h, reply).0.issued == w.issued
  {
    FinishChangeKeepsIssues(w, h, reply);
    FinishNewKeepsIssues(w, h, reply);
  }

  lemma OthersIssueNothing(w: World, e: Event)
    requires !e.AdmitLocation?
    ensures Step(w, e).0.issued == w.issued
  {
    if IsQuiet(e) {
      QuietIsFramed(w, e);
    } else if e.Finish? && e.id in w.held && Answer(w, w.held[e.id], e.givesUp).Some? {
      FinishKeepsIssues(w, w.held[e.id], Answer(w, w.held[e.id], e.givesUp).value);
    }
  }

  /** An answer Queued issues a fresh identifier, and nothing else issues one. */
  lemma AdmitIssues(w: World, fix: Fix, storage: Storage)
    requires Traced(w) && Refines(w.state, w.nextRecording)
    ensures var (w', r) := AdmitNow(w, fix, storage);
            && KeepsIssues(w.issued, w'.issued)
            && (if r.admission.Queued?
                then w.state.rideId.Some? && r.admission.requestId !in w.issued && w'.issued
                     == w.issued[r.admission.requestId := Issue(w.state.rideId.value, r.admission.point,
                          r.admission.sequence, w.worker.nextTicket, w.state.recorder.generation)]
                else w'.issued == w.issued)
  {
    if Admit(w.state, fix, storage).1.Queued? {
      QueuedIsLast(w.state, w.nextRecording, fix, storage);
    }
  }

  predicate KeepsIssues(a: map<nat, Issue>, b: map<nat, Issue>) {
    forall id | id in a :: id in b && b[id] == a[id]
  }

  lemma StepKeepsIssues(w: World, e: Event)
    requires Traced(w) && Refines(w.state, w.nextRecording) && Issued(w)
    ensures KeepsIssues(w.issued, Step(w, e).0.issued)
  {
    if e.AdmitLocation? {
      WaitedIsTraced(w, e);
      AdmitIssues(Waited(w, e), e.fix, StorageFor(Waited(w, e), e));
    } else {
      OthersIssueNothing(w, e);
    }
  }

  lemma {:induction false} RunKeepsIssues(w: World, run: seq<Event>)
    requires Traced(w) && Refines(w.state, w.nextRecording) && AllLawful(w) && Issued(w)
    ensures KeepsIssues(w.issued, Run(w, run).issued)
    decreases |run|
  {
    if run != [] {
      StepKeepsIssues(w, run[0]);
      StepIsTraced(w, run[0]);
      StepRefines(w, run[0]);
      StepIsLawful(w, run[0]);
      StepIsIssued(w, run[0]);
      RunKeepsIssues(Step(w, run[0]).0, run[1..]);
    }
  }

  /** `o` answers the request that `queued` told its caller about, with the reply to the job queued then. */
  predicate Answers(w: World, queued: LocationAdmission, ticket: nat, replies: map<nat, Reply>, o: WriteOutcome)
    requires queued.Queued?
  {
    && w.state.rideId == Some(o.ride) && o.point == queued.point && o.sequence == queued.sequence
    && ticket in replies && o.result == replies[ticket]
  }

  lemma QueuedIsTraced(w: World, e: Event, later: seq<Event>)
    requires Traced(w) && Refines(w.state, w.nextRecording) && AllLawful(w) && Issued(w)
    requires e.AdmitLocation? && Step(w, e).1.admission.Queued?
    ensures var (w1, queued) := (Step(w, e).0, Step(w, e).1.admission);
            var issued := Run(w1, later).issued;
            && w.state.rideId.Some? && queued.requestId in issued
            && issued[queued.requestId] == Issue(w.state.rideId.value, queued.point, queued.sequence,
                                                 w.worker.nextTicket, w.state.recorder.generation)
  {
    DrainAnswersAll(w.worker, e.choices);
    WaitedIsTraced(w, e);
    AdmitIssues(Waited(w, e), e.fix, StorageFor(Waited(w, e), e));
    StepIsTraced(w, e);
    StepRefines(w, e);
    StepIsLawful(w, e);
    StepIsIssued(w, e);
    RunKeepsIssues(Step(w, e).0, later);
  }

  /**
   From one end of a run to the other: whatever a later poll reports for an identifier is about the ride, point and
   sequence that its admission answered Queued with, and is the worker's reply to the job queued at that admission.
   */
  lemma ReportAnswersRequest(run: seq<Event>, e: Event, later: seq<Event>, k: nat)
    requires e.AdmitLocation? && Step(Run(NEW_WORLD, run), e).1.admission.Queued?
    requires var w' := Run(Step(Run(NEW_WORLD, run), e).0, later);
             && k < |Report(w', w'.worker.replies)|
             && Report(w', w'.worker.replies)[k].requestId == Step(Run(NEW_WORLD, run), e).1.admission.requestId
    ensures var w := Run(NEW_WORLD, run);
            var w' := Run(Step(w, e).0, later);
            && Step(w', PollWrites).1 == Reported(Report(w', w'.worker.replies))
            && Answers(w, Step(w, e).1.admission, w.worker.nextTicket, w'.worker.replies,
                       Report(w', w'.worker.replies)[k])
  {
    var w := Run(NEW_WORLD, run);
    ReachableIsTraced(run);
    ReachableRefines(run);
    QueuedIsTraced(w, e, later);
    RunsConcatenate(NEW_WORLD, run, [e] + later);
    assert ([e] + later)[1..] == later;
    PollReportsReplies(run + ([e] + later));
  }

  lemma {:induction false} RunsConcatenate(w: World, first: seq<Event>, second: seq<Event>)
    ensures Run(w, first + second) == Run(Run(w, first), second)
    decreases |first|
  {
    if first == [] {
      assert first + second == second;
    } else {
      assert (first + second)[1..] == first[1..] + second;
      RunsConcatenate(Step(w, first[0]).0, first[1..], second);
    }
  }
}
