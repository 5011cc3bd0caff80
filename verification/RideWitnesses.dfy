/** Reachable runs of the ride recorder in which an expected agreement fails. */
module RideWitnesses {
  import opened Prelude
  import opened RideRecorder
  import opened RideRecording
  import opened RideProtocol
  import opened DurableLifecycle
  import opened DurableRoute

  const BLANK := StoredRide(0, 0, [], 0, Nothing)

  /** Restores an empty database and starts a ride. */
  const STARTING: seq<Event> := [
    Restore(true), WorkerRuns(Choice(Shows(None, BLANK), false)), Finish(1, false),
    StartRide(0, true), WorkerRuns(Choice(Commits(Active), false)), Finish(2, false)]

  const STARTED := Recorder(Some(Active), Some(1), 0, 0, 0, Some(0), None, [], 0)

  const RIDING := World(
    RecordingState(STARTED, STARTED, Some(0), 2, 2, 0, [], [], 1, 3, None, Ready),
    map[], {1, 2},
    Worker([], map[0 := Snapshot(None), 1 := Committed(0, Active)], map[0 := Active], map[], 1, 2, multiset{}),
    2, [], {}, false, [], map[])

  lemma RunFirst(w: World, run: seq<Event>)
    requires run != []
    ensures Run(w, run) == Run(Step(w, run[0]).0, run[1..])
  {
  }

  function Steps3(w: World, a: Event, b: Event, c: Event): World {
    Step(Step(Step(w, a).0, b).0, c).0
  }

  lemma RunThree(w: World, a: Event, b: Event, c: Event, rest: seq<Event>)
    ensures Run(w, [a, b, c] + rest) == Run(Steps3(w, a, b, c), rest)
  {
    var run := [a, b, c] + rest;
    RunFirst(w, run);
    RunFirst(Step(w, a).0, run[1..]);
    RunFirst(Step(Step(w, a).0, b).0, run[1..][1..]);
    assert run[1..][1..][1..] == rest;
  }

  const RESTORED := World(
    RecordingState(EMPTY, EMPTY, None, 1, 1, 0, [], [], 1, 2, None, Ready),
    map[], {1}, Worker([], map[0 := Snapshot(None)], map[], map[], 0, 1, multiset{}), 1, [], {}, false, [], map[])

  lemma EmptyDatabaseRestores()
    ensures Steps3(NEW_WORLD, STARTING[0], STARTING[1], STARTING[2]) == RESTORED
  {
    var w1 := Step(NEW_WORLD, STARTING[0]).0;
    assert w1.worker.queue == [Job(0, ReadSnapshot)];
    var w2 := Step(w1, STARTING[1]).0;
    assert w2.worker.queue == [] && w2.worker.replies == map[0 := Snapshot(None)];
    var w3 := Step(w2, STARTING[2]).0;
    assert w3.held == map[] && w3.leases == {1};
    assert w3.state == RESTORED.state;
  }

  lemma RideStarts()
    ensures Steps3(RESTORED, STARTING[3], STARTING[4], STARTING[5]) == RIDING
  {
    var w1 := Step(RESTORED, STARTING[3]).0;
    assert w1.worker.queue == [Job(1, CreateRide)];
    var w2 := Step(w1, STARTING[4]).0;
    assert w2.worker.queue == [] && w2.worker.replies == RIDING.worker.replies && w2.worker.rides == map[0 := Active];
    var w3 := Step(w2, STARTING[5]).0;
    assert w3.held == map[] && w3.leases == {1, 2};
    assert w3.state == RIDING.state;
  }

  lemma StartingSplits(rest: seq<Event>)
    ensures [STARTING[0], STARTING[1], STARTING[2]] + ([STARTING[3], STARTING[4], STARTING[5]] + rest)
         == STARTING + rest
  {
  }

  /** Every world below starts from here. */
  lemma RidingIsReachable(rest: seq<Event>)
    ensures Run(NEW_WORLD, STARTING + rest) == Run(RIDING, rest)
  {
    EmptyDatabaseRestores();
    RideStarts();
    StartingSplits(rest);
    RunThree(NEW_WORLD, STARTING[0], STARTING[1], STARTING[2], [STARTING[3], STARTING[4], STARTING[5]] + rest);
    RunThree(RESTORED, STARTING[3], STARTING[4], STARTING[5], rest);
  }

  lemma Reached(a: Event, b: Event, c: Event, rest: seq<Event>)
    ensures exists run: seq<Event> :: Run(NEW_WORLD, run) == Run(Steps3(RIDING, a, b, c), rest)
  {
    RunThree(RIDING, a, b, c, rest);
    RidingIsReachable([a, b, c] + rest);
    assert Run(NEW_WORLD, STARTING + ([a, b, c] + rest)) == Run(Steps3(RIDING, a, b, c), rest);
  }

  // ---------------------------------------------------------------------------------------------
  // A dropped transition
  // ---------------------------------------------------------------------------------------------

  const PAUSE := ChangeRide(Token(0, 2), Pause, 10, true)

  lemma DroppedPause()
    ensures var w := Steps3(RIDING, PAUSE, DropOperation(3), WorkerRuns(Choice(Commits(Paused), false)));
            w.state.phase.Ready? && w.state.pendingCommandId.None? && !Agrees(w)
  {
    var w1 := Step(RIDING, PAUSE).0;
    assert w1.worker.queue == [Job(2, ChangeLifecycle(0, Pause))];
    var w2 := Step(w1, DropOperation(3)).0;
    assert w2.worker == w1.worker && w2.state.recorder.state == Some(Active);
  }

  /** A dropped pause commits behind the owner's back. */
  lemma DroppedTransitionDisagrees()
    ensures exists run: seq<Event> ::
              var w := Run(NEW_WORLD, run); w.state.phase.Ready? && w.state.pendingCommandId.None? && !Agrees(w)
  {
    DroppedPause();
    Reached(PAUSE, DropOperation(3), WorkerRuns(Choice(Commits(Paused), false)), []);
  }

  // ---------------------------------------------------------------------------------------------
  // A lost answer and a fix from the future
  // ---------------------------------------------------------------------------------------------

  const SAMPLE := Sample(100, None, true, 0)
  const FIX := AdmitLocation(Fix(SAMPLE, 0, false, false, Moving), true, false, [], Applied)
  const POINT := Point(SAMPLE, 0)

  function Answering(lost: bool): Event {
    WorkerRuns(Choice(Stores(Accepted), lost))
  }

  lemma FixIsQueued()
    ensures var w := Step(RIDING, FIX).0;
            && w.worker == RIDING.worker.(queue := [Job(2, WriteLocation(0, POINT))], nextTicket := 3)
            && w.state == RIDING.state.(nextLocationRequestId := 2,
                                        admissionRecorder := Record(STARTED, Admitted(POINT, 1)),
                                        pending := [PendingLocation(1, 0, Admitted(POINT, 1), 0, 2)])
            && w == RIDING.(state := w.state, worker := w.worker, issued := w.issued)
  {
    var w := Step(RIDING, FIX).0;
    assert w.worker.queue == [Job(2, WriteLocation(0, POINT))];
    assert w.state.pending == [PendingLocation(1, 0, Admitted(POINT, 1), 0, 2)];
  }

  lemma FixIsAnswered(lost: bool)
    ensures var w := Step(Step(RIDING, FIX).0, Answering(lost)).0;
            && w.worker.queue == [] && Route(w.worker, 0) == [POINT] && w.state == Step(RIDING, FIX).0.state
            && 2 in w.worker.replies && w.worker.replies[2] == (if lost then Unknown else Stored(Accepted))
            && w.worker.rides == RIDING.worker.rides && w.worker.nextTicket == 3
            && w == RIDING.(state := w.state, worker := w.worker, issued := w.issued)
  {
    FixIsQueued();
    assert Route(RIDING.worker, 0) + [POINT] == [POINT];
  }

  lemma FixIsPolled(lost: bool)
    ensures var w := Steps3(RIDING, FIX, Answering(lost), PollWrites);
            && w.state.phase.Ready? && w.state.rideId == Some(0) && Route(w.worker, 0) == [POINT]
            && w.state.recorder == (if lost then STARTED else Record(STARTED, Admitted(POINT, 1)))
            && w.state.pending == [] && w.state.settled == [] && w.state.admissionRecorder == w.state.recorder
            && w.state.pendingCommandId == None && w.state.nextCommandId == 3 && w.state.generation == 2
            && w.state.epochOffset == 0 && w.stamps == [] && w.held == map[] && w.worker.queue == []
            && w.worker.rides == map[0 := Active] && w.worker.nextTicket == 3
  {
    FixIsQueued();
    FixIsAnswered(lost);
    var w2 := Step(Step(RIDING, FIX).0, Answering(lost)).0;
    var result := w2.worker.replies[2];
    var s := SettleFirst(w2.state, result);
    assert s.pending == [];
    assert SettleReady(w2.state, w2.worker.replies) == SettleReady(s, w2.worker.replies) == s;
    assert Rebuild(s).admissionRecorder == s.recorder;
  }

  /** A stored write whose answer is lost leaves the routes apart, and the owner ready. */
  lemma LostAnswerDisagrees()
    ensures exists run: seq<Event> ::
              var w := Run(NEW_WORLD, run);
              && w.state.phase.Ready? && w.state.rideId == Some(0) && w.state.pending == []
              && w.state.recorder.points != Tail(Route(w.worker, 0))
  {
    FixIsPolled(true);
    Reached(FIX, Answering(true), PollWrites, []);
  }

  // ---------------------------------------------------------------------------------------------
  // A growing offset
  // ---------------------------------------------------------------------------------------------

  /** A ready owner of an uneventful ride: nothing is held, queued or pending. */
  predicate Quiet(w: World, ride: nat) {
    && w.state.phase.Ready? && w.state.pendingCommandId.None? && w.state.rideId == Some(ride)
    && w.state.pending == [] && w.state.admissionRecorder == w.state.recorder && w.state.recorder.interval < U64_MAX
    && w.held == map[] && w.worker.queue == [] && ride in w.worker.rides
  }

  lemma ChangeIsPrepared(w: World, ride: nat, event: RideEvent, at: U64)
    requires Quiet(w, ride) && w.state.nextCommandId < U64_MAX
    requires CheckToken(w.state, Token(ride, w.state.generation), event).Ok?
    ensures var id, ticket := w.state.nextCommandId, w.worker.nextTicket;
            var offset := EpochOffset(w.state, event, at);
            var next := CheckToken(w.state, Token(ride, w.state.generation), event).value;
            var op := PreparedTransition(id, ride, event, w.state.recorder.state.value, next,
                                         SaturatingAdd(at, offset), offset, ticket);
            var w1 := Step(w, ChangeRide(Token(ride, w.state.generation), event, at, true)).0;
            && w1.held == map[id := Held(op, at, w.state.recorder.lastMonotonic, Some(ticket))]
            && w1.worker == w.worker.(queue := [Job(ticket, ChangeLifecycle(ride, event))], nextTicket := ticket + 1)
            && w1.state == w.state.(nextCommandId := id + 1, pendingCommandId := Some(id)) && w1.stamps == w.stamps
  {
    assert w.worker.queue + [Job(w.worker.nextTicket, ChangeLifecycle(ride, event))]
        == [Job(w.worker.nextTicket, ChangeLifecycle(ride, event))];
  }

  lemma ChangeIsCommitted(w: World, ticket: nat, ride: nat, event: RideEvent, next: Lifecycle)
    requires w.worker.queue == [Job(ticket, ChangeLifecycle(ride, event))] && ride in w.worker.rides
    ensures var w' := Step(w, WorkerRuns(Choice(Commits(next), false))).0;
            && w' == w.(worker := w'.worker) && w'.worker.queue == [] && ride in w'.worker.rides
            && ticket in w'.worker.replies && w'.worker.replies[ticket] == Committed(ride, next)
  {
  }

  lemma ChangeIsFinished(w: World, id: U64, h: Held, ride: nat)
    requires w.held == map[id := h] && h.op.PreparedTransition? && h.op.id == id && h.op.ride == ride
    requires h.ticket.Some? && h.ticket.value in w.worker.replies && !h.op.event.Discard?
    requires w.worker.replies[h.ticket.value] == Committed(ride, h.op.next)
    requires Quiet(w.(held := map[], state := w.state.(pendingCommandId := None)), ride)
    requires w.state.pendingCommandId == Some(id) && w.state.recorder.state == Some(h.op.previous)
    ensures var w' := Step(w, Finish(id, false)).0;
            var recorder := ApplyTransition(w.state.recorder, h.op.previous, h.op.next, h.op.at);
            && recorder.Some? && w'.state.recorder == recorder.value && w'.state.admissionRecorder == recorder.value
            && w'.held == map[] && w'.worker == w.worker && w'.state.pending == [] && w'.state.rideId == Some(ride)
            && w'.state.phase.Ready? && w'.state.pendingCommandId.None? && w'.state.epochOffset == h.op.offset
            && w'.state.nextCommandId == w.state.nextCommandId
            && w'.state.generation == SaturatingAdd(w.state.generation, 1)
            && w'.stamps == w.stamps + [Stamp(h.raw, h.clock, h.op.at, h.op.offset, h.op.event)]
  {
    var s := w.state;
    assert SettleReady(s, w.worker.replies) == s;
    assert RecordAll(s.recorder, SamplesOf([])) == s.recorder;
    assert w.held - {id} == map[];
  }

  /** Preparing, committing and finishing a change in an uneventful ride. */
  lemma ChangePublishes(w: World, ride: nat, event: RideEvent, at: U64)
    requires Quiet(w, ride) && w.state.nextCommandId < U64_MAX && !event.Discard?
    requires CheckToken(w.state, Token(ride, w.state.generation), event).Ok?
    ensures var offset := EpochOffset(w.state, event, at);
            var next := CheckToken(w.state, Token(ride, w.state.generation), event).value;
            var stamp := SaturatingAdd(at, offset);
            var recorder := ApplyTransition(w.state.recorder, w.state.recorder.state.value, next, stamp);
            var w' := Steps3(w, ChangeRide(Token(ride, w.state.generation), event, at, true),
                             WorkerRuns(Choice(Commits(next), false)), Finish(w.state.nextCommandId, false));
            && recorder.Some? && w'.state.recorder == recorder.value && w'.state.admissionRecorder == recorder.value
            && w'.held == map[] && w'.worker.queue == [] && ride in w'.worker.rides
            && w'.state.pending == [] && w'.state.rideId == Some(ride)
            && w'.state.phase.Ready? && w'.state.pendingCommandId.None? && w'.state.epochOffset == offset
            && w'.state.nextCommandId == w.state.nextCommandId + 1
            && w'.state.generation == SaturatingAdd(w.state.generation, 1)
            && w'.stamps == w.stamps
               + [Stamp(at, w.state.recorder.lastMonotonic, SaturatingAdd(at, offset), offset, event)]
  {
    var id, ticket, token := w.state.nextCommandId, w.worker.nextTicket, Token(ride, w.state.generation);
    var next := CheckToken(w.state, token, event).value;
    ChangeIsPrepared(w, ride, event, at);
    var w1 := Step(w, ChangeRide(token, event, at, true)).0;
    ChangeIsCommitted(w1, ticket, ride, event, next);
    var w2 := Step(w1, WorkerRuns(Choice(Commits(next), false))).0;
    assert w2.held == w1.held && w2.state == w1.state && w2.stamps == w1.stamps;
    ChangeIsFinished(w2, id, w1.held[id], ride);
  }

  /** The same ride at the last generation. */
  const LAST := RIDING.(state := RIDING.state.(generation := U64_MAX))

  /** At the last generation a published pause leaves the token it was prepared with valid. */
  lemma SaturatedTokenSurvives()
    ensures var token := Token(0, U64_MAX);
            var w := Steps3(LAST, ChangeRide(token, Pause, 10, true), WorkerRuns(Choice(Commits(Paused), false)),
                            Finish(3, false));
            w.state.recorder.state == Some(Paused) && CheckToken(w.state, token, Resume) == Ok(Active)
  {
    ChangePublishes(LAST, 0, Pause, 10);
  }

  /** The ride after one fix stamped at 100 has settled. */
  function Ahead(): World {
    Steps3(RIDING, FIX, Answering(false), PollWrites)
  }

  lemma AheadIsQuiet()
    ensures Quiet(Ahead(), 0) && Ahead().state.recorder == Record(STARTED, Admitted(POINT, 1)) && Ahead().stamps == []
    ensures Ahead().state.nextCommandId == 3 && Ahead().state.epochOffset == 0
    ensures Ahead().state.recorder.lastMonotonic == 100 && Ahead().state.recorder.state == Some(Active)
  {
    FixIsPolled(false);
  }

  function Change(w: World, event: RideEvent, at: U64): Event {
    ChangeRide(Token(0, w.state.generation), event, at, true)
  }

  /** The same ride, paused at raw time 10. */
  function Resting(): World {
    Steps3(Ahead(), Change(Ahead(), Pause, 10), WorkerRuns(Choice(Commits(Paused), false)), Finish(3, false))
  }

  lemma RestingIsQuiet()
    ensures Quiet(Resting(), 0) && Resting().state.recorder.state == Some(Paused)
    ensures Resting().state.recorder.lastMonotonic == 100 && Resting().state.epochOffset == 0
    ensures Resting().state.nextCommandId == 4 && Resting().stamps == [Stamp(10, 100, 10, 0, Pause)]
  {
    AheadIsQuiet();
    ChangePublishes(Ahead(), 0, Pause, 10);
  }

  /** And resumed at raw time 20, behind the recorded fix. */
  function Resumed(): World {
    Steps3(Resting(), Change(Resting(), Resume, 20), WorkerRuns(Choice(Commits(Active), false)), Finish(4, false))
  }

  lemma ResumeGrowsOffset()
    ensures Resumed().stamps == [Stamp(10, 100, 10, 0, Pause), Stamp(20, 100, 100, 80, Resume)]
  {
    RestingIsQuiet();
    ChangePublishes(Resting(), 0, Resume, 20);
  }

  lemma ResumedIsReachable()
    ensures exists run: seq<Event> :: Run(NEW_WORLD, run) == Resumed()
  {
    var a, b := Change(Ahead(), Pause, 10), Change(Resting(), Resume, 20);
    var paused, active := WorkerRuns(Choice(Commits(Paused), false)), WorkerRuns(Choice(Commits(Active), false));
    var tail := [b, active, Finish(4, false)] + [];
    RunThree(Resting(), b, active, Finish(4, false), []);
    RunThree(Ahead(), a, paused, Finish(3, false), tail);
    Reached(FIX, Answering(false), PollWrites, [a, paused, Finish(3, false)] + tail);
    assert Run(Ahead(), [a, paused, Finish(3, false)] + tail) == Resumed();
  }

  /** A fix stamped ahead of the raw clock makes the offset grow at the next resume. */
  lemma OffsetCanGrow()
    ensures exists run: seq<Event> ::
              var stamps := Run(NEW_WORLD, run).stamps;
              |stamps| == 2 && stamps[1].event == Resume && stamps[0].offset < stamps[1].offset
  {
    ResumeGrowsOffset();
    ResumedIsReachable();
  }

  // ---------------------------------------------------------------------------------------------
  // Discard
  // ---------------------------------------------------------------------------------------------

  const DISCARD := ChangeRide(Token(0, 2), Discard, 0, true)
  const DISCARDING := PreparedTransition(3, 0, Discard, Active, Discarded, 0, 0, 2)

  lemma DiscardIsPrepared()
    ensures var w := Step(RIDING, DISCARD).0;
            && w.state == RIDING.state.(nextCommandId := 4, pendingCommandId := Some(3))
            && w.held == map[3 := Held(DISCARDING, 0, 0, Some(2))]
            && w.worker == RIDING.worker.(queue := [Job(2, ChangeLifecycle(0, Discard))], nextTicket := 3)
  {
    assert Step(RIDING, DISCARD).0.worker.queue == [Job(2, ChangeLifecycle(0, Discard))];
  }

  /** A fix is still admitted while the Discard is in flight; its write is queued behind it. */
  lemma FixBehindDiscard()
    ensures var w := Step(Step(RIDING, DISCARD).0, FIX).0;
            && w.worker.queue == [Job(2, ChangeLifecycle(0, Discard)), Job(3, WriteLocation(0, POINT))]
            && w.worker.replies == RIDING.worker.replies && w.worker.rides == RIDING.worker.rides
            && w.held == map[3 := Held(DISCARDING, 0, 0, Some(2))]
            && w.state.recorder == STARTED && w.state.admissionRecorder == Record(STARTED, Admitted(POINT, 1))
            && w.state.pending == [PendingLocation(1, 0, Admitted(POINT, 1), 0, 3)] && w.state.rideId == Some(0)
            && w.state.pendingCommandId == Some(3) && w.state.phase.Ready?
  {
    DiscardIsPrepared();
    var w := Step(Step(RIDING, DISCARD).0, FIX).0;
    assert w.worker.queue == [Job(2, ChangeLifecycle(0, Discard)), Job(3, WriteLocation(0, POINT))];
    assert w.state.pending == [PendingLocation(1, 0, Admitted(POINT, 1), 0, 3)];
  }

  lemma DiscardIsCommitted()
    ensures var w2 := Step(Step(RIDING, DISCARD).0, FIX).0;
            var w := Steps3(RIDING, DISCARD, FIX, WorkerRuns(Choice(Commits(Discarded), false)));
            && w == w2.(worker := w.worker)
            && w.worker.replies == RIDING.worker.replies[2 := Committed(0, Discarded)]
  {
    FixBehindDiscard();
  }

  lemma DiscardIsPublished(s: RecordingState, answers: map<nat, Reply>)
    requires s.recorder == STARTED && s.rideId == Some(0) && s.pendingCommandId == Some(3)
    requires s.pending == [PendingLocation(1, 0, Admitted(POINT, 1), 0, 3)] && 3 !in answers
    ensures var s' := FinishTransition(s, DISCARDING, Committed(0, Discarded), answers).0;
            s'.rideId.None? && s'.pending == [] && s'.recorder.points == [] && s'.admissionRecorder.points == [POINT]
  {
    assert SettleReady(s, answers) == s;
    assert SamplesOf(s.pending) == [Admitted(POINT, 1)] + SamplesOf([]);
    assert RecordAll(STARTED, [Admitted(POINT, 1)]) == Record(STARTED, Admitted(POINT, 1));
    assert STARTED.points + [POINT] == [POINT];
  }

  lemma DiscardIsFinished()
    ensures var w := Steps3(RIDING, DISCARD, FIX, WorkerRuns(Choice(Commits(Discarded), false)));
            var s := Step(w, Finish(3, false)).0.state;
            s.rideId.None? && s.pending == [] && s.recorder.points == [] && s.admissionRecorder.points == [POINT]
  {
    FixBehindDiscard();
    DiscardIsCommitted();
    var w := Steps3(RIDING, DISCARD, FIX, WorkerRuns(Choice(Commits(Discarded), false)));
    DiscardIsPublished(w.state, w.worker.replies);
  }

  /** A published Discard can leave the speculative route longer than the durable one. */
  lemma DiscardLeavesSpeculation()
    ensures exists run: seq<Event> ::
              var s := Run(NEW_WORLD, run).state;
              s.rideId.None? && s.pending == [] && s.admissionRecorder.points != s.recorder.points
  {
    DiscardIsFinished();
    var commit := WorkerRuns(Choice(Commits(Discarded), false));
    RunFirst(Steps3(RIDING, DISCARD, FIX, commit), [Finish(3, false)]);
    Reached(DISCARD, FIX, commit, [Finish(3, false)]);
  }
}
