/** The route in memory agrees with the committed route, up to answers not yet settled. */
module DurableRoute {
  import opened Prelude
  import opened RideRecorder
  import opened RideRecording
  import opened RideProtocol
  import opened RideCommands
  import opened LocationLedger
  import opened SpeculativeRoute
  import opened DurableLifecycle

  // ---------------------------------------------------------------------------------------------
  // Queued writes and pending entries name each other
  // ---------------------------------------------------------------------------------------------

  predicate TicketsRise(pending: seq<PendingLocation>) {
    forall i, j | 0 <= i < j < |pending| :: pending[i].ticket < pending[j].ticket
  }

  predicate IsOwn(generation: Option<nat>, p: PendingLocation) {
    generation == Some(p.admitted.generation)
  }

  predicate HasEntry(s: RecordingState, ticket: nat, point: Point) {
    exists k | 0 <= k < |s.pending| ::
      && s.pending[k].ticket == ticket && s.pending[k].admitted.point == point
      && IsOwn(s.recorder.generation, s.pending[k])
  }

  /** Every queued write of the current ride is pending in this recording. */
  predicate Expected(w: Worker, s: RecordingState) {
    forall i | 0 <= i < |w.queue| ::
      w.queue[i].command.WriteLocation? && s.rideId == Some(w.queue[i].command.ride) ==>
        HasEntry(s, w.queue[i].ticket, w.queue[i].command.point)
  }

  predicate QueuedAs(w: Worker, ticket: nat, command: Command) {
    var i := ticket - (w.nextTicket - |w.queue|);
    0 <= i < |w.queue| && w.queue[i].command == command
  }

  /** Every unanswered write of this recording is queued. */
  predicate Submitted(w: Worker, s: RecordingState) {
    forall k | 0 <= k < |s.pending|
               && IsOwn(s.recorder.generation, s.pending[k]) && s.pending[k].ticket !in w.replies ::
      QueuedAs(w, s.pending[k].ticket, WriteLocation(s.pending[k].ride, s.pending[k].admitted.point))
  }

  /** Accepted writes of this recording whose answers are in and not yet settled. */
  function Unsettled(w: Worker, s: RecordingState): seq<Admitted> {
    AcceptedWrites(s.recorder.generation, s.pending, w.replies)
  }

  predicate RouteAgrees(w: Worker, s: RecordingState) {
    s.rideId.Some? && s.rideId.value !in w.unheard ==>
      Tail(Route(w, s.rideId.value)) == Tail(s.recorder.points + PointsOf(Unsettled(w, s)))
  }

  /** Every committed point is in memory, answered and unsettled, or one whose answer was lost. */
  predicate CountAgrees(w: Worker, s: RecordingState) {
    s.rideId.Some? && |Route(w, s.rideId.value)| <= U64_MAX ==>
      |Route(w, s.rideId.value)| == s.recorder.pointCount + |Unsettled(w, s)| + w.unheard[s.rideId.value]
  }

  predicate Synced(w: Worker, s: RecordingState) {
    && TicketsRise(s.pending) && Below(s.pending, w.nextTicket)
    && Expected(w, s) && Submitted(w, s) && RouteAgrees(w, s) && CountAgrees(w, s)
  }

  // ---------------------------------------------------------------------------------------------
  // One answer
  // ---------------------------------------------------------------------------------------------

  /** This recording's entry with a given ticket, if there is one. */
  function EntryAt(generation: Option<nat>, pending: seq<PendingLocation>, ticket: nat): seq<Admitted> {
    if pending == [] then []
    else (if pending[0].ticket == ticket && IsOwn(generation, pending[0]) then [pending[0].admitted] else [])
         + EntryAt(generation, pending[1..], ticket)
  }

  lemma {:induction false} NoEntryAbove(generation: Option<nat>, pending: seq<PendingLocation>, ticket: nat)
    requires forall k | 0 <= k < |pending| :: pending[k].ticket != ticket || !IsOwn(generation, pending[k])
    ensures EntryAt(generation, pending, ticket) == []
  {
    if pending != [] {
      NoEntryAbove(generation, pending[1..], ticket);
    }
  }

  lemma {:induction false} EntryIsFound(generation: Option<nat>, pending: seq<PendingLocation>, ticket: nat, k: nat)
    requires TicketsRise(pending) && k < |pending| && pending[k].ticket == ticket && IsOwn(generation, pending[k])
    ensures EntryAt(generation, pending, ticket) == [pending[k].admitted]
  {
    if k == 0 {
      NoEntryAbove(generation, pending[1..], ticket);
    } else {
      assert pending[0].ticket < pending[k].ticket;
      EntryIsFound(generation, pending[1..], ticket, k - 1);
    }
  }

  /** What a new answer adds to the accepted writes. */
  function Gain(generation: Option<nat>, pending: seq<PendingLocation>, ticket: nat, reply: Reply): seq<Admitted> {
    if reply == Stored(Accepted) then EntryAt(generation, pending, ticket) else []
  }

  lemma {:induction false} AnswerIsFirst(
    generation: Option<nat>, pending: seq<PendingLocation>, replies: map<nat, Reply>, ticket: nat, reply: Reply)
    requires TicketsRise(pending) && AnsweredBelow(pending, replies, ticket)
    requires pending != [] && pending[0].ticket == ticket
    ensures AcceptedWrites(generation, pending, replies) == []
    ensures AcceptedWrites(generation, pending, replies[ticket := reply]) == Gain(generation, pending, ticket, reply)
  {
    NothingAnswered(generation, pending[1..], replies[ticket := reply]);
    NoEntryAbove(generation, pending[1..], ticket);
    AcceptedHead(generation, pending, replies[ticket := reply]);
  }

  lemma {:induction false} AnswerIsLater(
    generation: Option<nat>, pending: seq<PendingLocation>, replies: map<nat, Reply>, ticket: nat, reply: Reply)
    requires pending != [] && pending[0].ticket < ticket && pending[0].ticket in replies
    requires AcceptedWrites(generation, pending[1..], replies[ticket := reply])
          == AcceptedWrites(generation, pending[1..], replies) + Gain(generation, pending[1..], ticket, reply)
    ensures AcceptedWrites(generation, pending, replies[ticket := reply])
         == AcceptedWrites(generation, pending, replies) + Gain(generation, pending, ticket, reply)
  {
    var head := Contribution(generation, pending[0], replies[pending[0].ticket]);
    var rest, gain := AcceptedWrites(generation, pending[1..], replies), Gain(generation, pending[1..], ticket, reply);
    var later := replies[ticket := reply];
    AcceptedHead(generation, pending, replies);
    AcceptedHead(generation, pending, later);
    EntryIsInTail(generation, pending, ticket);
    assert later[pending[0].ticket] == replies[pending[0].ticket];
    Regroup(head, rest, gain);
  }

  lemma Regroup(a: seq<Admitted>, b: seq<Admitted>, c: seq<Admitted>)
    ensures a + (b + c) == a + b + c
  {
  }

  lemma {:induction false} EntryIsInTail(generation: Option<nat>, pending: seq<PendingLocation>, ticket: nat)
    requires pending != [] && pending[0].ticket != ticket
    ensures EntryAt(generation, pending, ticket) == EntryAt(generation, pending[1..], ticket)
  {
  }

  /** Answers arrive in ticket order, so a new answer extends the accepted writes at their end. */
  lemma {:induction false} AnswerExtends(
    generation: Option<nat>, pending: seq<PendingLocation>, replies: map<nat, Reply>, ticket: nat, reply: Reply)
    requires TicketsRise(pending) && AnsweredBelow(pending, replies, ticket)
    ensures AcceptedWrites(generation, pending, replies[ticket := reply])
         == AcceptedWrites(generation, pending, replies) + Gain(generation, pending, ticket, reply)
  {
    if pending == [] || pending[0].ticket > ticket {
      NoEntryAbove(generation, pending, ticket);
      NothingAnswered(generation, pending, replies);
      NothingAnswered(generation, pending, replies[ticket := reply]);
    } else if pending[0].ticket == ticket {
      AnswerIsFirst(generation, pending, replies, ticket, reply);
    } else {
      AnswerExtends(generation, pending[1..], replies, ticket, reply);
      AnswerIsLater(generation, pending, replies, ticket, reply);
    }
  }

  predicate AnsweredBelow(pending: seq<PendingLocation>, replies: map<nat, Reply>, ticket: nat) {
    forall k | 0 <= k < |pending| :: pending[k].ticket in replies <==> pending[k].ticket < ticket
  }

  /** The contribution of the oldest entry. */
  function Contribution(generation: Option<nat>, p: PendingLocation, reply: Reply): seq<Admitted> {
    if reply == Stored(Accepted) && IsOwn(generation, p) then [p.admitted] else []
  }

  lemma {:induction false} AcceptedHead(
    generation: Option<nat>, pending: seq<PendingLocation>, replies: map<nat, Reply>)
    requires pending != [] && pending[0].ticket in replies
    ensures AcceptedWrites(generation, pending, replies)
         == Contribution(generation, pending[0], replies[pending[0].ticket])
            + AcceptedWrites(generation, pending[1..], replies)
  {
  }

  lemma NothingAnswered(generation: Option<nat>, pending: seq<PendingLocation>, replies: map<nat, Reply>)
    requires pending != [] ==> pending[0].ticket !in replies
    ensures AcceptedWrites(generation, pending, replies) == []
  {
  }

  lemma RunJobKeepsLinks(w: Worker, choice: Choice, s: RecordingState)
    requires InOrder(w) && Expected(w, s) && Submitted(w, s)
    ensures var w' := RunJob(w, choice); Expected(w', s) && Submitted(w', s)
  {
    if w.queue != [] {
      var w' := RunJob(w, choice);
      assert forall i | 0 <= i < |w'.queue| :: w'.queue[i] == w.queue[i + 1];
      RunJobIsInOrder(w, choice);
      forall k | 0 <= k < |s.pending|
                 && IsOwn(s.recorder.generation, s.pending[k]) && s.pending[k].ticket !in w'.replies
        ensures QueuedAs(w', s.pending[k].ticket, WriteLocation(s.pending[k].ride, s.pending[k].admitted.point))
      {
        assert s.pending[k].ticket !in w.replies;
        assert QueuedAs(w, s.pending[k].ticket, WriteLocation(s.pending[k].ride, s.pending[k].admitted.point));
      }
    }
  }

  lemma PointsOfAppend(a: seq<Admitted>, last: Admitted)
    ensures PointsOf(a + [last]) == PointsOf(a) + [last.point]
  {
    if a == [] {
      assert a + [last] == [last];
      assert PointsOf([last]) == [last.point] + PointsOf([]);
    } else {
      PointsOfAppend(a[1..], last);
      assert (a + [last])[1..] == a[1..] + [last];
    }
  }

  /** No entry of this recording waits for a job that is not a write of the current ride. */
  lemma {:induction false} ForeignJobHasNoEntry(w: Worker, s: RecordingState)
    requires InOrder(w) && Submitted(w, s) && SameRide(s) && w.queue != []
    requires !(w.queue[0].command.WriteLocation? && s.rideId == Some(w.queue[0].command.ride))
    ensures EntryAt(s.recorder.generation, s.pending, w.queue[0].ticket) == []
  {
    assert forall k | 0 <= k < |s.pending| && IsOwn(s.recorder.generation, s.pending[k]) ::
        s.pending[k].ticket in w.replies
        || QueuedAs(w, s.pending[k].ticket, WriteLocation(s.pending[k].ride, s.pending[k].admitted.point));
    NoEntryAbove(s.recorder.generation, s.pending, w.queue[0].ticket);
  }

  /** The accepted writes after the oldest job has been answered. */
  lemma {:induction false} RunJobExtends(w: Worker, choice: Choice, s: RecordingState)
    requires InOrder(w) && Synced(w, s) && SameRide(s) && w.queue != []
    ensures var (w', job, reply) := (RunJob(w, choice), w.queue[0], RunJob(w, choice).replies[w.queue[0].ticket]);
            var ours := job.command.WriteLocation? && s.rideId == Some(job.command.ride);
            if reply == Stored(Accepted) && ours then
              && PointsOf(Unsettled(w', s)) == PointsOf(Unsettled(w, s)) + [job.command.point]
              && |Unsettled(w', s)| == |Unsettled(w, s)| + 1
            else Unsettled(w', s) == Unsettled(w, s)
  {
    var job := w.queue[0];
    var reply := RunJob(w, choice).replies[job.ticket];
    var generation := s.recorder.generation;
    AnswerExtends(generation, s.pending, w.replies, job.ticket, reply);
    if job.command.WriteLocation? && s.rideId == Some(job.command.ride) {
      assert HasEntry(s, job.ticket, job.command.point);
      var k :| 0 <= k < |s.pending| && s.pending[k].ticket == job.ticket
               && s.pending[k].admitted.point == job.command.point && IsOwn(generation, s.pending[k]);
      EntryIsFound(generation, s.pending, job.ticket, k);
      PointsOfAppend(Unsettled(w, s), s.pending[k].admitted);
    } else if reply == Stored(Accepted) {
      ForeignJobHasNoEntry(w, s);
    }
  }

  /** Appending one committed point on both sides keeps the routes equal. */
  lemma BothExtend(stored: seq<Point>, shown: seq<Point>, unsettled: seq<Point>, point: Point)
    requires Tail(stored) == Tail(shown + unsettled)
    ensures Tail(stored + [point]) == Tail(shown + (unsettled + [point]))
  {
    TailOfTail(stored, [point]);
    TailOfTail(shown + unsettled, [point]);
    assert shown + unsettled + [point] == shown + (unsettled + [point]);
  }

  lemma RunJobRoute(w: Worker, choice: Choice, ride: nat)
    requires w.queue != []
    ensures var (w', job, reply) := (RunJob(w, choice), w.queue[0], RunJob(w, choice).replies[w.queue[0].ticket]);
            ride !in w'.unheard ==>
              && ride !in w.unheard
              && Route(w', ride) ==
                 (if reply == Stored(Accepted) && job.command.WriteLocation? && job.command.ride == ride
                  then Route(w, ride) + [job.command.point] else Route(w, ride))
    ensures var (w', job, reply) := (RunJob(w, choice), w.queue[0], RunJob(w, choice).replies[w.queue[0].ticket]);
            var heard := reply == Stored(Accepted) && job.command.WriteLocation? && job.command.ride == ride;
            |Route(w', ride)| - w'.unheard[ride] == |Route(w, ride)| - w.unheard[ride] + if heard then 1 else 0
    ensures |Route(w, ride)| <= |Route(RunJob(w, choice), ride)|
  {
  }

  lemma RunJobIsSynced(w: Worker, choice: Choice, s: RecordingState)
    requires InOrder(w) && Synced(w, s) && SameRide(s)
    ensures Synced(RunJob(w, choice), s)
  {
    RunJobKeepsLinks(w, choice, s);
    RunJobIsInOrder(w, choice);
    if w.queue != [] && s.rideId.Some? {
      RunJobExtends(w, choice, s);
      RunJobRoute(w, choice, s.rideId.value);
      var command := w.queue[0].command;
      if command.WriteLocation? && s.rideId.value !in w.unheard {
        BothExtend(Route(w, s.rideId.value), s.recorder.points, PointsOf(Unsettled(w, s)), command.point);
      }
    }
  }

  // ---------------------------------------------------------------------------------------------
  // Settlement and admission
  // ---------------------------------------------------------------------------------------------

  lemma SettleFirstKeepsLinks(w: Worker, s: RecordingState)
    requires InOrder(w) && Expected(w, s) && Submitted(w, s) && s.pending != [] && s.pending[0].ticket in w.replies
    ensures var s' := SettleFirst(s, w.replies[s.pending[0].ticket]); Expected(w, s') && Submitted(w, s')
  {
    var s' := SettleFirst(s, w.replies[s.pending[0].ticket]);
    forall i | 0 <= i < |w.queue| && w.queue[i].command.WriteLocation? && s'.rideId == Some(w.queue[i].command.ride)
      ensures HasEntry(s', w.queue[i].ticket, w.queue[i].command.point)
    {
      assert HasEntry(s, w.queue[i].ticket, w.queue[i].command.point);
      var k :| 0 <= k < |s.pending| && s.pending[k].ticket == w.queue[i].ticket
               && s.pending[k].admitted.point == w.queue[i].command.point && IsOwn(s.recorder.generation, s.pending[k]);
      assert k != 0;
      assert s'.pending[k - 1] == s.pending[k];
    }
    assert forall k | 0 <= k < |s'.pending| :: s'.pending[k] == s.pending[k + 1];
  }

  lemma SettleFirstIsSynced(w: Worker, s: RecordingState, next: nat)
    requires InOrder(w) && Synced(w, s) && Orderly(s, next) && s.pending != [] && s.pending[0].ticket in w.replies
    ensures Synced(w, SettleFirst(s, w.replies[s.pending[0].ticket]))
  {
    var result := w.replies[s.pending[0].ticket];
    var s' := SettleFirst(s, result);
    SettleFirstKeepsLinks(w, s);
    AcceptedOwnWriteIsApplied(s, next, result);
    var rest := Unsettled(w, s');
    if Applies(s, s.pending[0], result) {
      var first := s.pending[0].admitted;
      assert Unsettled(w, s) == [first] + rest;
      assert ([first] + rest)[1..] == rest;
      RouteExtends(s.recorder.points, first.point, PointsOf(rest));
    } else {
      assert Unsettled(w, s) == rest;
    }
  }

  lemma {:induction false} SettleReadyIsSynced(w: Worker, s: RecordingState, next: nat)
    requires InOrder(w) && Synced(w, s) && Orderly(s, next)
    ensures Synced(w, SettleReady(s, w.replies))
    decreases |s.pending|
  {
    if s.pending != [] && s.pending[0].ticket in w.replies {
      SettleFirstIsSynced(w, s, next);
      SettleFirstIsOrderly(s, next, w.replies[s.pending[0].ticket]);
      SettleReadyIsSynced(w, SettleFirst(s, w.replies[s.pending[0].ticket]), next);
    }
  }

  /** Synchronisation looks at nothing but the ride, its route and recording, and the queue. */
  predicate SameRecording(s: RecordingState, t: RecordingState) {
    && s.rideId == t.rideId && s.pending == t.pending
    && s.recorder.points == t.recorder.points && s.recorder.generation == t.recorder.generation
    && s.recorder.pointCount == t.recorder.pointCount
  }

  lemma SameRecordingIsSynced(w: Worker, s: RecordingState, t: RecordingState)
    requires Synced(w, s) && SameRecording(s, t)
    ensures Synced(w, t)
  {
    forall i | 0 <= i < |w.queue| && w.queue[i].command.WriteLocation? && t.rideId == Some(w.queue[i].command.ride)
      ensures HasEntry(t, w.queue[i].ticket, w.queue[i].command.point)
    {
      assert HasEntry(s, w.queue[i].ticket, w.queue[i].command.point);
    }
  }

  lemma {:induction false} UnansweredIsNotCounted(
    generation: Option<nat>, pending: seq<PendingLocation>, last: PendingLocation, replies: map<nat, Reply>)
    requires last.ticket !in replies
    ensures AcceptedWrites(generation, pending + [last], replies) == AcceptedWrites(generation, pending, replies)
  {
    if pending == [] {
      assert pending + [last] == [last];
    } else {
      UnansweredIsNotCounted(generation, pending[1..], last, replies);
      assert (pending + [last])[1..] == pending[1..] + [last];
    }
  }

  /** A state whose queue of writes grew by one entry of this recording. */
  predicate Grew(s: RecordingState, s': RecordingState, last: PendingLocation) {
    && s'.rideId == s.rideId && s'.recorder == s.recorder && s'.pending == s.pending + [last]
    && s.rideId == Some(last.ride) && IsOwn(s.recorder.generation, last)
  }

  lemma GrewIsExpected(w: Worker, s: RecordingState, s': RecordingState, last: PendingLocation)
    requires Expected(w, s) && Grew(s, s', last) && last.ticket == w.nextTicket
    ensures Expected(Enqueue(w, WriteLocation(last.ride, last.admitted.point)), s')
  {
    var w' := Enqueue(w, WriteLocation(last.ride, last.admitted.point));
    forall i | 0 <= i < |w'.queue| && w'.queue[i].command.WriteLocation? && s'.rideId == Some(w'.queue[i].command.ride)
      ensures HasEntry(s', w'.queue[i].ticket, w'.queue[i].command.point)
    {
      if i < |w.queue| {
        assert HasEntry(s, w.queue[i].ticket, w.queue[i].command.point);
        var k :| 0 <= k < |s.pending| && s.pending[k].ticket == w.queue[i].ticket
                 && s.pending[k].admitted.point == w.queue[i].command.point
                 && IsOwn(s.recorder.generation, s.pending[k]);
        assert s'.pending[k] == s.pending[k];
      } else {
        assert s'.pending[|s.pending|] == last;
      }
    }
  }

  lemma GrewIsSubmitted(w: Worker, s: RecordingState, s': RecordingState, last: PendingLocation)
    requires Submitted(w, s) && Grew(s, s', last) && last.ticket == w.nextTicket
    ensures Submitted(Enqueue(w, WriteLocation(last.ride, last.admitted.point)), s')
  {
    var w' := Enqueue(w, WriteLocation(last.ride, last.admitted.point));
    forall k | 0 <= k < |s'.pending|
               && IsOwn(s.recorder.generation, s'.pending[k]) && s'.pending[k].ticket !in w.replies
      ensures QueuedAs(w', s'.pending[k].ticket, WriteLocation(s'.pending[k].ride, s'.pending[k].admitted.point))
    {
      if k < |s.pending| {
        assert s'.pending[k] == s.pending[k];
        assert QueuedAs(w, s.pending[k].ticket, WriteLocation(s.pending[k].ride, s.pending[k].admitted.point));
      }
    }
  }

  lemma QueueWriteGrows(s: RecordingState, next: nat, ride: nat, admitted: Admitted, storage: Storage)
    requires Refines(s, next) && s.rideId == Some(ride) && storage.ticket.Some?
    requires QueueWrite(s, ride, admitted, storage).1.Queued?
    ensures var last := PendingLocation(s.nextLocationRequestId, ride, admitted,
                                        s.admissionRecorder.pointCount, storage.ticket.value);
            Grew(s, QueueWrite(s, ride, admitted, storage).0, last)
  {
    BatchKeepsAnchor(s.recorder, SamplesOf(s.pending));
  }

  lemma GrewIsSynced(w: Worker, s: RecordingState, s': RecordingState, last: PendingLocation)
    requires InOrder(w) && Synced(w, s) && Grew(s, s', last) && last.ticket == w.nextTicket
    ensures Synced(Enqueue(w, WriteLocation(last.ride, last.admitted.point)), s')
  {
    GrewIsExpected(w, s, s', last);
    GrewIsSubmitted(w, s, s', last);
    UnansweredIsNotCounted(s.recorder.generation, s.pending, last, w.replies);
  }

  /** Other work in the queue does not disturb the route. */
  lemma EnqueueIsSynced(w: Worker, s: RecordingState, command: Command)
    requires Synced(w, s) && !command.WriteLocation?
    ensures Synced(Enqueue(w, command), s)
  {
    var w' := Enqueue(w, command);
    forall k | 0 <= k < |s.pending| && IsOwn(s.recorder.generation, s.pending[k]) && s.pending[k].ticket !in w.replies
      ensures QueuedAs(w', s.pending[k].ticket, WriteLocation(s.pending[k].ride, s.pending[k].admitted.point))
    {
      assert QueuedAs(w, s.pending[k].ticket, WriteLocation(s.pending[k].ride, s.pending[k].admitted.point));
    }
  }

  // ---------------------------------------------------------------------------------------------
  // Rides, snapshots and new recordings
  // ---------------------------------------------------------------------------------------------

  predicate KnownReply(reply: Reply, limit: nat) {
    && (reply.Committed? ==> reply.ride < limit)
    && (reply.Snapshot? && reply.restored.Some? ==> reply.restored.value.id < limit)
  }

  predicate KnownCommand(command: Command, limit: nat) {
    command.WriteLocation? ==> command.ride < limit
  }

  /** Only rides that exist are named anywhere. */
  predicate Known(w: Worker, ride: Option<nat>) {
    && (ride.Some? ==> ride.value < w.nextRide)
    && (forall r | r in w.routes :: r < w.nextRide)
    && (forall r | r in w.unheard :: r < w.nextRide)
    && (forall i | 0 <= i < |w.queue| :: KnownCommand(w.queue[i].command, w.nextRide))
    && (forall t | t in w.replies :: KnownReply(w.replies[t], w.nextRide))
  }

  /** An answered snapshot shows the whole route, and no write is queued behind it. */
  predicate ShowsRoute(w: Worker, ticket: nat) {
    && (forall i | 0 <= i < |w.queue| :: w.queue[i].command.WriteLocation? ==> w.queue[i].ticket < ticket)
    && (ticket in w.replies && w.replies[ticket].Snapshot? && w.replies[ticket].restored.Some? ==>
          ShowsRide(w, w.replies[ticket].restored.value))
  }

  /** The restored ride carries the whole route and its length. */
  predicate ShowsRide(w: Worker, shown: RestoredRide) {
    shown.ride.points == Route(w, shown.id) && shown.ride.pointCount == Counted(Route(w, shown.id))
  }

  predicate Untouched(w: Worker, ride: nat) {
    && Route(w, ride) == [] && ride !in w.unheard
    && (forall i | 0 <= i < |w.queue| :: w.queue[i].command.WriteLocation? ==> w.queue[i].command.ride != ride)
  }

  /** The ride of an answered start is new: nothing has been written to it or is about to be. */
  predicate NewRide(w: Worker, current: Option<nat>, ticket: nat) {
    if ticket in w.replies then
      w.replies[ticket].Committed? ==> current != Some(w.replies[ticket].ride) && Untouched(w, w.replies[ticket].ride)
    else QueuedAs(w, ticket, CreateRide)
  }

  predicate HeldRoute(w: Worker, s: RecordingState, h: Held) {
    && (h.op.PreparedRestore? && h.ticket.Some? ==> ShowsRoute(w, h.ticket.value))
    && (h.op.PreparedStart? && h.ticket.Some? ==> NewRide(w, s.rideId, h.ticket.value))
  }

  predicate Routed(w: World) {
    && Synced(w.worker, w.state) && Known(w.worker, w.state.rideId)
    && (forall id | id in w.held :: HeldRoute(w.worker, w.state, w.held[id]))
  }

  lemma RunJobIsKnown(w: Worker, choice: Choice, ride: Option<nat>)
    requires InOrder(w) && Known(w, ride)
    ensures Known(RunJob(w, choice), ride)
  {
    if w.queue != [] {
      var w' := RunJob(w, choice);
      assert forall i | 0 <= i < |w'.queue| :: w'.queue[i] == w.queue[i + 1];
      assert KnownCommand(w.queue[0].command, w.nextRide);
      forall t | t in w'.replies
        ensures KnownReply(w'.replies[t], w'.nextRide)
      {
        assert t in w.replies ==> KnownReply(w.replies[t], w.nextRide);
      }
    }
  }

  lemma RunJobShowsRoute(w: Worker, choice: Choice, ticket: nat)
    requires InOrder(w) && ShowsRoute(w, ticket)
    ensures ShowsRoute(RunJob(w, choice), ticket)
  {
    if w.queue != [] {
      var w' := RunJob(w, choice);
      assert forall i | 0 <= i < |w'.queue| :: w'.queue[i] == w.queue[i + 1];
    }
  }

  lemma RunJobNewRide(w: Worker, choice: Choice, current: Option<nat>, ticket: nat)
    requires InOrder(w) && Known(w, current) && NewRide(w, current, ticket)
    ensures NewRide(RunJob(w, choice), current, ticket)
  {
    if w.queue != [] {
      var w' := RunJob(w, choice);
      assert forall i | 0 <= i < |w'.queue| :: w'.queue[i] == w.queue[i + 1];
      if ticket !in w.replies && w.queue[0].ticket == ticket {
        assert forall i | 0 <= i < |w.queue| :: KnownCommand(w.queue[i].command, w.nextRide);
      }
    }
  }

  lemma WorkerIsRouted(w: World, choice: Choice)
    requires InOrder(w.worker) && Routed(w) && SameRide(w.state)
    ensures Routed(w.(worker := RunJob(w.worker, choice)))
  {
    RunJobIsSynced(w.worker, choice, w.state);
    RunJobIsKnown(w.worker, choice, w.state.rideId);
    forall id | id in w.held
      ensures HeldRoute(RunJob(w.worker, choice), w.state, w.held[id])
    {
      var h := w.held[id];
      assert HeldRoute(w.worker, w.state, h);
      if h.op.PreparedRestore? && h.ticket.Some? {
        RunJobShowsRoute(w.worker, choice, h.ticket.value);
      } else if h.op.PreparedStart? && h.ticket.Some? {
        RunJobNewRide(w.worker, choice, w.state.rideId, h.ticket.value);
      }
    }
  }

  lemma {:induction false} DrainIsRouted(w: World, choices: seq<Choice>)
    requires InOrder(w.worker) && Routed(w) && SameRide(w.state)
    ensures Routed(w.(worker := Drain(w.worker, choices)))
    decreases |w.worker.queue|
  {
    if w.worker.queue != [] {
      var choice := if choices == [] then Choice(Declines, false) else choices[0];
      WorkerIsRouted(w, choice);
      RunJobIsInOrder(w.worker, choice);
      DrainIsRouted(w.(worker := RunJob(w.worker, choice)), if choices == [] then [] else choices[1..]);
    }
  }

  /** A recorder with a new number counts no pending write as its own. */
  lemma {:induction false} NoneAccepted(
    generation: Option<nat>, pending: seq<PendingLocation>, replies: map<nat, Reply>)
    requires forall k | 0 <= k < |pending| :: !IsOwn(generation, pending[k])
    ensures AcceptedWrites(generation, pending, replies) == []
  {
    if pending != [] && pending[0].ticket in replies {
      NoneAccepted(generation, pending[1..], replies);
    }
  }

  lemma {:induction false} NewRecordingIsSynced(w: Worker, s: RecordingState, next: nat)
    requires TicketsRise(s.pending) && Below(s.pending, w.nextTicket)
    requires forall k | 0 <= k < |s.pending| :: s.pending[k].admitted.generation < next
    requires s.recorder.generation == None || s.recorder.generation == Some(next)
    requires s.rideId.Some? ==>
               && s.recorder.points == Tail(Route(w, s.rideId.value))
               && s.recorder.pointCount == Counted(Route(w, s.rideId.value)) && w.unheard[s.rideId.value] == 0
               && (forall i | 0 <= i < |w.queue| ::
                     w.queue[i].command.WriteLocation? ==> w.queue[i].command.ride != s.rideId.value)
    ensures Synced(w, s)
  {
    NoneAccepted(s.recorder.generation, s.pending, w.replies);
    assert s.recorder.points + PointsOf([]) == s.recorder.points;
    if s.rideId.Some? {
      TailOfTail(Route(w, s.rideId.value), []);
      assert Tail(Route(w, s.rideId.value)) + [] == Tail(Route(w, s.rideId.value));
      assert Route(w, s.rideId.value) + [] == Route(w, s.rideId.value);
    }
  }

  /** A successful restoration shows the stored route. */
  lemma RestoredRoute(s: RecordingState, id: U64, reply: Reply, w: Worker, generation: Option<nat>)
    requires FinishRestore(s, id, reply, generation).1.Ok?
    requires reply.restored.Some? ==> ShowsRide(w, reply.restored.value)
    ensures var s' := FinishRestore(s, id, reply, generation).0;
            && s'.pending == s.pending
            && (s'.recorder.generation == None || s'.recorder.generation == generation)
            && (s'.rideId.Some? ==> reply.restored.Some? && s'.rideId.value == reply.restored.value.id
                                    && s'.recorder.points == Tail(Route(w, s'.rideId.value))
                                    && s'.recorder.pointCount == Counted(Route(w, s'.rideId.value)))
  {
  }

  lemma RereadIsKnown(w: Worker, ride: Option<nat>, current: Option<nat>)
    requires Known(w, ride) && (current.Some? ==> current.value < w.nextRide)
    ensures Known(Reread(w, current), current)
  {
  }

  lemma RestoreIsRouted(w: World, h: Held, reply: Reply)
    requires InOrder(w.worker) && Routed(w) && Refines(w.state, w.nextRecording) && h.op.PreparedRestore?
    requires h.ticket.Some? && h.ticket.value in w.worker.replies && reply == w.worker.replies[h.ticket.value]
    requires ShowsRoute(w.worker, h.ticket.value)
    requires FinishRestore(w.state, h.op.id, reply, NextRecording(w)).1.Ok?
    ensures var s := FinishRestore(w.state, h.op.id, reply, NextRecording(w)).0;
            var worker := Reread(w.worker, s.rideId);
            && Synced(worker, s) && Known(worker, s.rideId)
            && (s.rideId.Some? ==> s.rideId.value !in worker.unheard
                                   && s.recorder.points == Tail(Route(worker, s.rideId.value)))
  {
    RestoredRoute(w.state, h.op.id, reply, w.worker, NextRecording(w));
    var s := FinishRestore(w.state, h.op.id, reply, NextRecording(w)).0;
    var worker := Reread(w.worker, s.rideId);
    assert KnownReply(reply, w.worker.nextRide);
    RereadIsKnown(w.worker, w.state.rideId, s.rideId);
    assert forall ride :: Route(worker, ride) == Route(w.worker, ride);
    NewRecordingIsSynced(worker, s, w.nextRecording);
  }

  lemma FinishRestoreIsRouted(w: World, id: U64, reply: Reply)
    requires InOrder(w.worker) && Routed(w) && Exclusive(w) && Refines(w.state, w.nextRecording)
    requires id in w.held && w.held[id].op.PreparedRestore?
    requires CanSee(w, w.held[id], reply)
    ensures var (w', r) := FinishHeldRestore(w, w.held[id], reply);
            && Routed(w')
            && (r.publication.Ok? && w'.state.rideId.Some? ==>
                  var ride := w'.state.rideId.value;
                  w'.state.recorder.points == Tail(Route(w'.worker, ride)) && ride !in w'.worker.unheard)
  {
    OnlyOneHeld(w, id);
    var h := w.held[id];
    assert Owned(w.state, id, h) && HeldRoute(w.worker, w.state, h);
    var (s, r) := FinishRestore(w.state, h.op.id, reply, NextRecording(w));
    var w' := FinishHeldRestore(w, h, reply).0;
    assert w'.held == map[];
    assert w'.state == s;
    if r.Ok? {
      RestoreIsRouted(w, h, reply);
      assert w'.worker == Reread(w.worker, s.rideId);
    } else {
      assert w'.worker == w.worker;
      SameRecordingIsSynced(w.worker, w.state, s);
    }
  }

  lemma FinishStartIsRouted(w: World, id: U64, reply: Reply)
    requires InOrder(w.worker) && Routed(w) && Exclusive(w) && Refines(w.state, w.nextRecording)
    requires id in w.held && w.held[id].op.PreparedStart?
    requires CanSee(w, w.held[id], reply)
    ensures Routed(FinishHeldStart(w, w.held[id], reply).0)
  {
    OnlyOneHeld(w, id);
    var h := w.held[id];
    assert Owned(w.state, id, h) && HeldRoute(w.worker, w.state, h);
    var (w', r) := FinishHeldStart(w, h, reply);
    assert w'.held == map[];
    if r.publication.Ok? {
      assert KnownReply(reply, w.worker.nextRide);
      NewRecordingIsSynced(w'.worker, w'.state, w.nextRecording);
    } else {
      SameRecordingIsSynced(w.worker, w.state, w'.state);
    }
  }

  /** What a finished transition or stop leaves of the recording it settled. */
  lemma FinishTransitionKeepsRecording(s: RecordingState, op: Operation, reply: Reply, answers: map<nat, Reply>)
    requires op.PreparedTransition?
    ensures var s' := FinishTransition(s, op, reply, answers).0;
            || SameRecording(s, s') || SameRecording(Settle(s, answers), s')
            || (s'.rideId.None? && s'.pending == [])
  {
  }

  lemma FinishStopKeepsRecording(s: RecordingState, op: Operation, reply: Reply, answers: map<nat, Reply>)
    requires op.PreparedStop?
    ensures var s' := FinishStop(s, op, reply, answers).0;
            SameRecording(s, s') || SameRecording(Settle(s, answers), s')
  {
  }

  lemma SettleIsSynced(w: Worker, s: RecordingState, next: nat)
    requires InOrder(w) && Synced(w, s) && Orderly(s, next)
    ensures Synced(w, Settle(s, w.replies)) && Settle(s, w.replies).rideId == s.rideId
  {
    SettleReadyIsSynced(w, s, next);
    SettleReadyKeepsCommands(s, w.replies);
    SameRecordingIsSynced(w, SettleReady(s, w.replies), Settle(s, w.replies));
  }

  lemma FinishChangeIsRouted(w: World, id: U64, reply: Reply)
    requires InOrder(w.worker) && Routed(w) && Exclusive(w) && Refines(w.state, w.nextRecording)
    requires id in w.held && Changes(w.held[id])
    ensures Routed(FinishHeld(w, w.held[id], reply).0)
  {
    OnlyOneHeld(w, id);
    var h := w.held[id];
    assert Owned(w.state, id, h);
    FinishKeepsWorker(w, h, reply);
    var w' := FinishHeld(w, h, reply).0;
    assert w'.held == map[];
    var s1 := Settle(w.state, w.worker.replies);
    SettleIsSynced(w.worker, w.state, w.nextRecording);
    if h.op.PreparedTransition? {
      FinishTransitionKeepsRecording(w.state, h.op, reply, w.worker.replies);
    } else {
      FinishStopKeepsRecording(w.state, h.op, reply, w.worker.replies);
    }
    if SameRecording(w.state, w'.state) {
      SameRecordingIsSynced(w.worker, w.state, w'.state);
    } else if SameRecording(s1, w'.state) {
      SameRecordingIsSynced(w.worker, s1, w'.state);
    }
  }

  lemma FinishIsRouted(w: World, id: U64, givesUp: bool)
    requires InOrder(w.worker) && Routed(w) && Exclusive(w) && Refines(w.state, w.nextRecording)
    ensures Routed(StepFinish(w, id, givesUp).0)
  {
    if id in w.held && Answer(w, w.held[id], givesUp).Some? {
      var reply := Answer(w, w.held[id], givesUp).value;
      assert Owned(w.state, id, w.held[id]);
      match w.held[id].op {
        case PreparedRestore(_, _) => FinishRestoreIsRouted(w, id, reply);
        case PreparedStart(_, _, _) => FinishStartIsRouted(w, id, reply);
        case PreparedTransition(_, _, _, _, _, _, _, _) => FinishChangeIsRouted(w, id, reply);
        case PreparedStop(_, _, _, _, _, _) => FinishChangeIsRouted(w, id, reply);
      }
    }
  }

  lemma EnqueueKeepsHeld(w: Worker, s: RecordingState, h: Held, command: Command)
    requires InOrder(w) && HeldRoute(w, s, h) && (command.WriteLocation? ==> s.rideId == Some(command.ride))
    requires command.WriteLocation? ==> !h.op.PreparedRestore?
    ensures HeldRoute(Enqueue(w, command), s, h)
  {
  }

  lemma EnqueueIsKnown(w: Worker, ride: Option<nat>, command: Command)
    requires Known(w, ride) && KnownCommand(command, w.nextRide)
    ensures Known(Enqueue(w, command), ride)
  {
  }

  /** A ready or unrestored owner with nothing held takes on an operation and its storage work. */
  lemma HoldIsRouted(w: World, s: RecordingState, op: Operation, raw: U64, command: Command)
    requires InOrder(w.worker) && Routed(w) && w.held == map[] && SameRecording(w.state, s)
    requires !command.WriteLocation? && (op.PreparedStart? ==> command.CreateRide?)
    ensures Routed(Hold(w, s, op, raw, command))
  {
    SameRecordingIsSynced(w.worker, w.state, s);
    EnqueueIsSynced(w.worker, s, command);
    EnqueueIsKnown(w.worker, w.state.rideId, command);
    assert w.worker.nextTicket !in w.worker.replies;
    EnqueuedLast(w.worker, command);
  }

  lemma EnqueuedLast(w: Worker, command: Command)
    requires InOrder(w)
    ensures QueuedAs(Enqueue(w, command), w.nextTicket, command)
    ensures forall i | 0 <= i < |w.queue| :: w.queue[i].ticket < w.nextTicket
  {
  }

  lemma RestoreStepIsRouted(w: World, accepted: bool)
    requires InOrder(w.worker) && Routed(w) && Exclusive(w)
    ensures Routed(StepRestore(w, accepted).0)
  {
    var (s, r) := BeginRestore(w.state, Ticket(w, accepted));
    if r.Ok? {
      assert w.held == map[];
      HoldIsRouted(w, s, r.value, 0, ReadSnapshot);
    } else {
      KeptIsRouted(w, w.(state := s));
    }
  }

  lemma StartStepIsRouted(w: World, at: U64, accepted: bool)
    requires InOrder(w.worker) && Routed(w) && Exclusive(w)
    ensures Routed(StepStart(w, at, accepted).0)
  {
    var (s, r) := BeginStart(w.state, at, Ticket(w, accepted));
    if r.Ok? {
      assert w.held == map[];
      HoldIsRouted(w, s, r.value, at, CreateRide);
    } else {
      KeptIsRouted(w, w.(state := s));
    }
  }

  lemma ChangeStepIsRouted(w: World, token: Token, event: RideEvent, at: U64, accepted: bool)
    requires InOrder(w.worker) && Routed(w) && Exclusive(w)
    ensures Routed(StepChange(w, token, event, at, accepted).0)
  {
    var (s, r) := BeginTransition(w.state, token, event, at, Ticket(w, accepted));
    if r.Ok? {
      assert w.held == map[];
      HoldIsRouted(w, s, r.value, at, ChangeLifecycle(token.ride, event));
    } else {
      KeptIsRouted(w, w.(state := s));
    }
  }

  lemma StopStepIsRouted(w: World, token: Token, at: U64)
    requires Routed(w)
    ensures Routed(StepStop(w, token, at).0)
  {
    var w' := StepStop(w, token, at).0;
    SameRecordingIsSynced(w.worker, w.state, w'.state);
    forall id | id in w'.held
      ensures HeldRoute(w'.worker, w'.state, w'.held[id])
    {
      assert id in w.held ==> HeldRoute(w.worker, w.state, w.held[id]);
    }
  }

  lemma SubmitIsRouted(w: World, id: U64, fence: MusicFence)
    requires InOrder(w.worker) && Routed(w) && Exclusive(w)
    ensures Routed(StepSubmitStop(w, id, fence).0)
  {
    if id in w.held && w.held[id].op.PreparedStop? && w.held[id].ticket.None? {
      OnlyOneHeld(w, id);
      var w' := StepSubmitStop(w, id, fence).0;
      SameRecordingIsSynced(w.worker, w.state, w'.state);
      var command := ChangeLifecycle(w.held[id].op.ride, Stop);
      EnqueueIsSynced(w.worker, w'.state, command);
      EnqueueIsKnown(w.worker, w.state.rideId, command);
    }
  }

  /** A change of state that keeps the recording keeps what held operations know. */
  lemma KeptIsRouted(w: World, v: World)
    requires Routed(w) && v.worker == w.worker && SameRecording(w.state, v.state)
    requires forall id | id in v.held :: id in w.held && v.held[id] == w.held[id]
    ensures Routed(v)
  {
    SameRecordingIsSynced(w.worker, w.state, v.state);
    forall id | id in v.held
      ensures HeldRoute(v.worker, v.state, v.held[id])
    {
      assert HeldRoute(w.worker, w.state, w.held[id]);
    }
  }

  lemma SettledIsRouted(w: World, s: RecordingState)
    requires InOrder(w.worker) && Routed(w) && Orderly(w.state, w.nextRecording)
    requires SameRecording(Settle(w.state, w.worker.replies), s)
    ensures Routed(w.(state := s))
  {
    SettleIsSynced(w.worker, w.state, w.nextRecording);
    SameRecordingIsSynced(w.worker, Settle(w.state, w.worker.replies), s);
    forall id | id in w.held
      ensures HeldRoute(w.worker, s, w.held[id])
    {
      assert HeldRoute(w.worker, w.state, w.held[id]);
    }
  }

  lemma PollIsRouted(w: World)
    requires InOrder(w.worker) && Routed(w) && Orderly(w.state, w.nextRecording)
    ensures Routed(StepPoll(w).0)
  {
    SettledIsRouted(w, StepPoll(w).0.state);
    KeptIsRouted(w.(state := StepPoll(w).0.state), StepPoll(w).0);
  }

  lemma ParkedOutcome(s: RecordingState, fix: Fix, storage: Storage)
    ensures var (s', r) := AdmitParked(s, fix, storage);
            !r.Queued? && (SameRecording(s, s') || SameRecording(Settle(s, storage.answers), s'))
  {
  }

  lemma MovingOutcome(s: RecordingState, ride: nat, fix: Fix, storage: Storage)
    ensures var (s', r) := AdmitMoving(s, ride, fix, storage);
            if r.Queued? then
              && AdmitFix(Judge(s), fix).1.Some?
              && (s', r) == QueueWrite(s, ride, AdmitFix(Judge(s), fix).1.value, storage)
              && r.point == AdmitFix(Judge(s), fix).1.value.point
            else SameRecording(s, s')
  {
  }

  /** An admission keeps the recording, settles it, or queues one more write. */
  lemma AdmitOutcome(s: RecordingState, fix: Fix, storage: Storage)
    ensures var (s', r) := Admit(s, fix, storage);
            if r.Queued? then
              && s.phase.Ready? && s.rideId.Some? && AdmitFix(Judge(s), fix).1.Some?
              && (s', r) == QueueWrite(s, s.rideId.value, AdmitFix(Judge(s), fix).1.value, storage)
              && r.point == AdmitFix(Judge(s), fix).1.value.point
            else SameRecording(s, s') || SameRecording(Settle(s, storage.answers), s')
  {
    if s.phase.Ready? && s.rideId.Some? {
      ParkedOutcome(s, fix, storage);
      MovingOutcome(s, s.rideId.value, fix, storage);
    }
  }

  lemma WriteIsRouted(w: World, storage: Storage, admitted: Admitted)
    requires InOrder(w.worker) && Routed(w) && Exclusive(w) && Refines(w.state, w.nextRecording)
    requires w.state.phase.Ready? && w.state.rideId.Some? && storage.ticket == Some(w.worker.nextTicket)
    requires QueueWrite(w.state, w.state.rideId.value, admitted, storage).1.Queued?
    ensures Routed(w.(state := QueueWrite(w.state, w.state.rideId.value, admitted, storage).0,
                      worker := Enqueue(w.worker, WriteLocation(w.state.rideId.value, admitted.point))))
  {
    var ride := w.state.rideId.value;
    var s := QueueWrite(w.state, ride, admitted, storage).0;
    var command := WriteLocation(ride, admitted.point);
    var last := PendingLocation(w.state.nextLocationRequestId, ride, admitted,
                                w.state.admissionRecorder.pointCount, storage.ticket.value);
    QueueWriteGrows(w.state, w.nextRecording, ride, admitted, storage);
    GrewIsSynced(w.worker, w.state, s, last);
    EnqueueIsKnown(w.worker, w.state.rideId, command);
    forall id | id in w.held
      ensures HeldRoute(Enqueue(w.worker, command), s, w.held[id])
    {
      assert Owned(w.state, id, w.held[id]) && HeldRoute(w.worker, w.state, w.held[id]);
      EnqueueKeepsHeld(w.worker, w.state, w.held[id], command);
    }
  }

  lemma AdmitNowIsRouted(w: World, fix: Fix, storage: Storage)
    requires InOrder(w.worker) && Routed(w) && Exclusive(w) && Refines(w.state, w.nextRecording)
    requires storage.answers == w.worker.replies
    requires storage.ticket.Some? ==> storage.ticket.value == w.worker.nextTicket
    ensures Routed(AdmitNow(w, fix, storage).0)
  {
    AdmitOutcome(w.state, fix, storage);
    var (s, r) := Admit(w.state, fix, storage);
    if r.Queued? {
      WriteIsRouted(w, storage, AdmitFix(Judge(w.state), fix).1.value);
    } else if SameRecording(w.state, s) {
      KeptIsRouted(w, w.(state := s));
    } else {
      SettledIsRouted(w, s);
    }
  }

  lemma AdmitIsRouted(w: World, e: Event)
    requires InOrder(w.worker) && Routed(w) && Exclusive(w) && Refines(w.state, w.nextRecording) && e.AdmitLocation?
    ensures Routed(StepAdmit(w, e).0)
  {
    DrainIsRouted(w, e.choices);
    DrainAnswersAll(w.worker, e.choices);
    var w1 := Waited(w, e);
    SameCommandsIsExclusive(w, w1);
    AdmitNowIsRouted(w1, e.fix, StorageFor(w1, e));
  }

  lemma DropIsRouted(w: World, id: U64)
    requires Routed(w)
    ensures Routed(StepDropOperation(w, id)) && Routed(StepDropGuard(w, id))
  {
    KeptIsRouted(w, StepDropOperation(w, id));
    KeptIsRouted(w, StepDropGuard(w, id));
  }

  lemma CheckpointIsRouted(w: World, choices: seq<Choice>)
    requires InOrder(w.worker) && Routed(w) && Orderly(w.state, w.nextRecording)
    ensures Routed(StepPoll(w.(worker := Drain(w.worker, choices))).0)
  {
    DrainIsRouted(w, choices);
    DrainAnswersAll(w.worker, choices);
    PollIsRouted(w.(worker := Drain(w.worker, choices)));
  }

  lemma QuietIsRouted(w: World, e: Event)
    requires InOrder(w.worker) && Routed(w) && Exclusive(w) && IsQuiet(e)
    ensures Routed(Step(w, e).0)
  {
    match e {
      case Restore(accepted) => RestoreStepIsRouted(w, accepted);
      case StartRide(at, accepted) => StartStepIsRouted(w, at, accepted);
      case ChangeRide(token, event, at, accepted) => ChangeStepIsRouted(w, token, event, at, accepted);
      case StopRide(token, at) => StopStepIsRouted(w, token, at);
      case SubmitStop(id, fence) => SubmitIsRouted(w, id, fence);
      case DropOperation(id) => DropIsRouted(w, id);
      case DropGuard(id) => DropIsRouted(w, id);
    }
  }

  lemma StepIsRouted(w: World, e: Event)
    requires InOrder(w.worker) && Routed(w) && Exclusive(w) && Refines(w.state, w.nextRecording)
    ensures Routed(Step(w, e).0)
  {
    match e {
      case Finish(id, givesUp) => FinishIsRouted(w, id, givesUp);
      case WorkerRuns(choice) => WorkerIsRouted(w, choice);
      case PollWrites => PollIsRouted(w);
      case CheckpointWrites(choices) => CheckpointIsRouted(w, choices);
      case AdmitLocation(_, _, _, _, _) => AdmitIsRouted(w, e);
      case _ => QuietIsRouted(w, e);
    }
  }

  lemma {:induction false} RunIsRouted(w: World, run: seq<Event>)
    requires Issued(w) && Routed(w) && Exclusive(w) && AllLawful(w) && Refines(w.state, w.nextRecording)
    ensures var w' := Run(w, run);
            Issued(w') && Routed(w') && Exclusive(w') && AllLawful(w') && Refines(w'.state, w'.nextRecording)
    decreases |run|
  {
    if run != [] {
      StepIsRouted(w, run[0]);
      StepIsExclusive(w, run[0]);
      StepIsLawful(w, run[0]);
      StepIsIssued(w, run[0]);
      StepRefines(w, run[0]);
      RunIsRouted(Step(w, run[0]).0, run[1..]);
    }
  }

  // ---------------------------------------------------------------------------------------------
  // Agreement
  // ---------------------------------------------------------------------------------------------

  /**
   In every run, unless the answer to a stored write was lost since the last restoration: the newest
   committed points of the current ride are the route in memory followed by the accepted writes
   whose answers are not settled yet.
   */
  lemma RouteAgreesWithStorage(run: seq<Event>)
    ensures var w := Run(NEW_WORLD, run);
            var s := w.state;
            s.rideId.Some? && s.rideId.value !in w.worker.unheard ==>
              Tail(Route(w.worker, s.rideId.value))
              == Tail(s.recorder.points + PointsOf(AcceptedWrites(s.recorder.generation, s.pending, w.worker.replies)))
  {
    RunIsRouted(NEW_WORLD, run);
  }

  lemma {:induction false} EmptyQueueAgrees(w: Worker, s: RecordingState, next: nat)
    requires RouteAgrees(w, s) && Orderly(s, next) && s.pending == []
    requires s.rideId.Some? && s.rideId.value !in w.unheard
    ensures s.recorder.points == Tail(Route(w, s.rideId.value))
  {
    assert s.recorder.points + PointsOf([]) == s.recorder.points;
  }

  lemma ReachableIsRouted(run: seq<Event>)
    ensures var w := Run(NEW_WORLD, run);
            Issued(w) && Routed(w) && Exclusive(w) && Refines(w.state, w.nextRecording)
  {
    RunIsRouted(NEW_WORLD, run);
  }

  lemma CheckpointSettlesAll(w: World, choices: seq<Choice>)
    requires Issued(w) && Routed(w) && Refines(w.state, w.nextRecording)
    ensures var w' := Checkpointed(w, choices);
            Routed(w') && Orderly(w'.state, w'.nextRecording) && w'.state.pending == []
  {
    BarrierEmptiesQueue(w, choices);
    CheckpointIsRouted(w, choices);
    PollRefines(w.(worker := Drain(w.worker, choices)));
  }

  /** The route in memory is the committed one, unless the answer to a stored write was lost. */
  predicate ShowsStored(w: World) {
    w.state.rideId.Some? && w.state.rideId.value !in w.worker.unheard ==>
      w.state.recorder.points == Tail(Route(w.worker, w.state.rideId.value))
  }

  /** After a checkpoint the two routes are equal. */
  lemma CheckpointedRouteIsStored(run: seq<Event>, choices: seq<Choice>)
    ensures ShowsStored(Checkpointed(Run(NEW_WORLD, run), choices))
  {
    ReachableIsRouted(run);
    CheckpointSettlesAll(Run(NEW_WORLD, run), choices);
    var w := Checkpointed(Run(NEW_WORLD, run), choices);
    if w.state.rideId.Some? && w.state.rideId.value !in w.worker.unheard {
      EmptyQueueAgrees(w.worker, w.state, w.nextRecording);
    }
  }

  /**
   In every run, with no exception: the points committed for the current ride are those counted in memory,
   those answered and not settled yet, and those whose answers were lost since the last restoration.
   */
  lemma CommittedPointsAreAccounted(run: seq<Event>)
    ensures CountAgrees(Run(NEW_WORLD, run).worker, Run(NEW_WORLD, run).state)
  {
    ReachableIsRouted(run);
  }

  /** Memory misses exactly the writes whose answers were lost: the counts agree if and only if there is none. */
  predicate MissesLostAnswers(w: World) {
    w.state.rideId.Some? && |Route(w.worker, w.state.rideId.value)| <= U64_MAX ==>
      var ride := w.state.rideId.value;
      && |Route(w.worker, ride)| - w.state.recorder.pointCount == w.worker.unheard[ride]
      && (|Route(w.worker, ride)| == w.state.recorder.pointCount <==> ride !in w.worker.unheard)
  }

  /** So it is after every checkpoint of every run. */
  lemma CheckpointMissesLostAnswers(run: seq<Event>, choices: seq<Choice>)
    ensures MissesLostAnswers(Checkpointed(Run(NEW_WORLD, run), choices))
  {
    ReachableIsRouted(run);
    CheckpointSettlesAll(Run(NEW_WORLD, run), choices);
  }

  /** A successful restoration shows the committed route in every run, whatever was lost before it. */
  lemma RestoredRouteIsStored(run: seq<Event>, e: Event)
    requires Restores(Run(NEW_WORLD, run), e)
    ensures var w := Step(Run(NEW_WORLD, run), e).0;
            w.state.rideId.Some? ==>
              w.state.recorder.points == Tail(Route(w.worker, w.state.rideId.value))
              && w.state.rideId.value !in w.worker.unheard
  {
    ReachableIsRouted(run);
    var w := Run(NEW_WORLD, run);
    RestoresAnswered(w, e);
    FinishRestoreIsRouted(w, e.id, w.worker.replies[w.held[e.id].ticket.value]);
  }

  /** A single write: queued, stored and polled. */
  predicate Alone(s: RecordingState, ride: nat, p: PendingLocation) {
    s.rideId == Some(ride) && s.pending == [p] && p.ride == ride
  }

  lemma StoredAlone(w: Worker, ride: nat, p: PendingLocation, lost: bool)
    requires w.queue == [Job(p.ticket, WriteLocation(ride, p.admitted.point))] && ride in w.rides
    ensures var w' := RunJob(w, Choice(Stores(Accepted), lost));
            && Route(w', ride) == Route(w, ride) + [p.admitted.point]
            && p.ticket in w'.replies && w'.replies[p.ticket] == if lost then Unknown else Stored(Accepted)
  {
  }

  /** Settling the only pending write appends its point exactly when it was accepted. */
  lemma SettledAlone(s: RecordingState, next: nat, ride: nat, p: PendingLocation, answers: map<nat, Reply>)
    requires Orderly(s, next) && Alone(s, ride, p) && IsOwn(s.recorder.generation, p) && p.ticket in answers
    ensures var s' := Settle(s, answers);
            && s'.pending == []
            && s'.recorder.points == (if answers[p.ticket] == Stored(Accepted)
                                      then Tail(s.recorder.points + [p.admitted.point]) else s.recorder.points)
  {
    var result := answers[p.ticket];
    AcceptedOwnWriteIsApplied(s, next, result);
    assert SettleFirst(s, result).pending == [];
    assert SettleReady(s, answers) == SettleReady(SettleFirst(s, result), answers);
  }

  /** A longer route ends elsewhere. */
  lemma RouteGrows(points: seq<Point>, point: Point)
    requires EndsBefore(points, point.sample.at)
    ensures Tail(points + [point]) != points
  {
    TailKeepsLast(points, point);
  }

  /** The poll after one stored write: its point arrives exactly when its answer did. */
  lemma OneStoredWrite(w: Worker, s: RecordingState, next: nat, ride: nat, p: PendingLocation, lost: bool)
    requires Orderly(s, next) && Alone(s, ride, p) && IsOwn(s.recorder.generation, p)
    requires w.queue == [Job(p.ticket, WriteLocation(ride, p.admitted.point))] && ride in w.rides
    requires Tail(Route(w, ride)) == s.recorder.points
    ensures var w' := RunJob(w, Choice(Stores(Accepted), lost));
            var s' := Settle(s, w'.replies);
            s'.pending == [] && (s'.recorder.points == Tail(Route(w', ride)) <==> !lost)
  {
    StoredAlone(w, ride, p, lost);
    SettledAlone(s, next, ride, p, RunJob(w, Choice(Stores(Accepted), lost)).replies);
    TailOfTail(Route(w, ride), [p.admitted.point]);
    assert SamplesOf(s.pending)[0] == p.admitted;
    FirstIsRecorded(s.recorder, OwnPending(s));
    RouteGrows(s.recorder.points, p.admitted.point);
  }

  /** Exactly one write of the current ride is in flight, and everything else is settled. */
  predicate OneInFlight(w: World, ride: nat, p: PendingLocation) {
    && w.state.phase.Ready? && Orderly(w.state, w.nextRecording)
    && Alone(w.state, ride, p) && IsOwn(w.state.recorder.generation, p)
    && w.worker.queue == [Job(p.ticket, WriteLocation(ride, p.admitted.point))] && ride in w.worker.rides
    && ride !in w.worker.unheard && Tail(Route(w.worker, ride)) == w.state.recorder.points
  }

  /** Nothing is in flight and the routes agree. */
  ghost predicate AtRest(w: World, ride: nat) {
    && Issued(w) && Routed(w) && Refines(w.state, w.nextRecording)
    && w.worker.queue == [] && w.state.pending == [] && w.state.rideId == Some(ride)
    && ride in w.worker.rides && ride !in w.worker.unheard
  }

  /** The entry that a queued fix leaves in an empty queue. */
  function EntryOf(w: World, ride: nat, fix: Fix): PendingLocation
    requires AdmitFix(Judge(w.state), fix).1.Some?
  {
    PendingLocation(w.state.nextLocationRequestId, ride, AdmitFix(Judge(w.state), fix).1.value,
                    w.state.admissionRecorder.pointCount, w.worker.nextTicket)
  }

  lemma QueuedAlone(w: World, ride: nat, fix: Fix, storage: Storage)
    requires AtRest(w, ride) && (storage.ticket.Some? ==> storage.ticket.value == w.worker.nextTicket)
    requires AdmitNow(w, fix, storage).1.admission.Queued?
    ensures AdmitFix(Judge(w.state), fix).1.Some?
    ensures OneInFlight(AdmitNow(w, fix, storage).0, ride, EntryOf(w, ride, fix))
  {
    QueueTakesTicket(w.state, fix, storage);
    AdmitRefines(w.state, w.nextRecording, fix, storage);
    AdmitOutcome(w.state, fix, storage);
    QueueWriteGrows(w.state, w.nextRecording, ride, AdmitFix(Judge(w.state), fix).1.value, storage);
    EmptyQueueAgrees(w.worker, w.state, w.nextRecording);
  }

  /** Storing the write in flight and polling brings its point to memory exactly when its answer arrives. */
  predicate AnswerDecides(w: World, ride: nat, lost: bool) {
    var w' := StepPoll(w.(worker := RunJob(w.worker, Choice(Stores(Accepted), lost)))).0;
    w'.state.phase.Ready? && (w'.state.recorder.points == Tail(Route(w'.worker, ride)) <==> !lost)
  }

  lemma PolledAlone(w: World, ride: nat, p: PendingLocation, lost: bool)
    requires OneInFlight(w, ride, p)
    ensures AnswerDecides(w, ride, lost)
  {
    OneStoredWrite(w.worker, w.state, w.nextRecording, ride, p, lost);
    SettleReadyKeepsCommands(w.state, RunJob(w.worker, Choice(Stores(Accepted), lost)).replies);
  }

  /**
   The answer to a stored write matters: queue one write with nothing else in flight, let the
   database store it, and poll. The route in memory equals the committed one exactly when the
   answer was not lost; no recovery is requested either way.
   */
  lemma LostAnswerHidesPoint(w: World, ride: nat, e: Event, lost: bool)
    requires AtRest(w, ride) && e.AdmitLocation? && StepAdmit(w, e).1.admission.Queued?
    ensures AnswerDecides(StepAdmit(w, e).0, ride, lost)
  {
    assert Waited(w, e) == w;
    QueuedAlone(w, ride, e.fix, StorageFor(w, e));
    PolledAlone(StepAdmit(w, e).0, ride, EntryOf(w, ride, e.fix), lost);
  }

  lemma QueueTakesTicket(s: RecordingState, fix: Fix, storage: Storage)
    requires Admit(s, fix, storage).1.Queued?
    ensures storage.ticket.Some?
  {
  }
}
