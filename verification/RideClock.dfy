/** The logical clock of a ride: stamps across pauses, interruptions and process clock restarts. */
module RideClock {
  import opened Prelude
  import opened RideRecorder
  import opened RideRecording
  import opened RideProtocol
  import opened RideCommands
  import opened LocationLedger
  import opened SpeculativeRoute

  /** Resume is stamped at the later of the raw clock and the recorded one, whatever the raw clock did. */
  lemma ResumeRealigns(s: RecordingState, token: Token, at: U64, ticket: Option<nat>)
    requires BeginTransition(s, token, Resume, at, ticket).1.Ok?
    ensures var op := BeginTransition(s, token, Resume, at, ticket).1.value;
            op.at == Max(at, s.recorder.lastMonotonic) && op.at == SaturatingAdd(at, op.offset)
  {
  }

  /**
   The offset need not shrink at Resume: it grows exactly when the recording is ahead of the
   current logical time, as after a location fix stamped in the future.
   */
  lemma OffsetGrowsExactlyWhenAhead(s: RecordingState, at: U64)
    requires s.recorder.state == Some(Paused) || s.recorder.state == Some(Interrupted)
    ensures EpochOffset(s, Resume, at) > s.epochOffset <==> s.recorder.lastMonotonic > at + s.epochOffset
  {
  }

  // ---------------------------------------------------------------------------------------------
  // Stamps over runs
  // ---------------------------------------------------------------------------------------------

  /** How one published stamp of a ride relates to the next. */
  predicate Succeeds(a: Stamp, b: Stamp) {
    if b.event.Resume? then
      && b.at == Max(b.raw, b.clock) && a.at <= b.at
      && (b.offset <= a.offset <==> b.clock <= b.raw + a.offset)
    else
      b.offset == a.offset && (a.raw <= b.raw ==> a.at <= b.at)
  }

  ghost predicate WellStamped(stamps: seq<Stamp>) {
    && (forall i | 0 <= i < |stamps| :: stamps[i].at == SaturatingAdd(stamps[i].raw, stamps[i].offset))
    && (forall i, j | 0 <= i < j < |stamps| && j == i + 1 :: Succeeds(stamps[i], stamps[j]))
  }

  /** The recorder's clock is not behind the last stamp, except on a ride that is already closed. */
  predicate CaughtUp(r: Recorder, last: Stamp) {
    r.state == Some(Saved) || r.state == Some(Discarded) || last.at <= r.lastMonotonic
  }

  /** A prepared change carries the stamp that will succeed the last one. */
  predicate Fits(w: World, h: Held) {
    if h.op.PreparedTransition? || h.op.PreparedStop? then
      var event := if h.op.PreparedStop? then Stop else h.op.event;
      var stamp := Stamp(h.raw, h.clock, h.op.at, h.op.offset, event);
      && h.op.at == SaturatingAdd(h.raw, h.op.offset)
      && (w.stamps != [] ==> Succeeds(w.stamps[|w.stamps| - 1], stamp))
    else true
  }

  ghost predicate Clocked(w: World) {
    && WellStamped(w.stamps)
    && (w.stamps != [] ==>
          && w.state.epochOffset == w.stamps[|w.stamps| - 1].offset
          && CaughtUp(w.state.recorder, w.stamps[|w.stamps| - 1]))
    && (forall id | id in w.held :: Fits(w, w.held[id]))
  }

  /** The recorded clock only moves forward within a lifecycle state. */
  predicate Onward(s: RecordingState, t: RecordingState) {
    && t.recorder.state == s.recorder.state && s.recorder.lastMonotonic <= t.recorder.lastMonotonic
    && t.epochOffset == s.epochOffset
  }

  lemma {:induction false} SettleIsOnward(s: RecordingState, answers: map<nat, Reply>)
    ensures Onward(s, SettleReady(s, answers))
    decreases |s.pending|
  {
    if s.pending != [] && s.pending[0].ticket in answers {
      SettleIsOnward(SettleFirst(s, answers[s.pending[0].ticket]), answers);
    }
  }

  lemma AdmitIsOnward(s: RecordingState, fix: Fix, storage: Storage)
    ensures Onward(s, Admit(s, fix, storage).0)
  {
    SettleIsOnward(s, storage.answers);
  }

  lemma OnwardIsClocked(w: World, v: World)
    requires Clocked(w) && Onward(w.state, v.state) && v.stamps == w.stamps
    requires forall id | id in v.held :: id in w.held && v.held[id].op == w.held[id].op
                                         && v.held[id].raw == w.held[id].raw && v.held[id].clock == w.held[id].clock
    ensures Clocked(v)
  {
    forall id | id in v.held
      ensures Fits(v, v.held[id])
    {
      assert Fits(w, w.held[id]);
    }
  }

  lemma ChangeFits(w: World, token: Token, event: RideEvent, at: U64, ticket: nat)
    requires Clocked(w) && BeginTransition(w.state, token, event, at, Some(ticket)).1.Ok?
    ensures var op := BeginTransition(w.state, token, event, at, Some(ticket)).1.value;
            Fits(w, Held(op, at, w.state.recorder.lastMonotonic, Some(ticket)))
  {
  }

  lemma StopFits(w: World, token: Token, at: U64)
    requires Clocked(w) && BeginStop(w.state, token, at).1.Ok?
    ensures var op := BeginStop(w.state, token, at).1.value;
            Fits(w, Held(op, at, w.state.recorder.lastMonotonic, None))
  {
  }

  /** One more fitting operation in a caller's hands. */
  lemma HoldingIsClocked(w: World, v: World, id: nat)
    requires Clocked(w) && Onward(w.state, v.state) && v.stamps == w.stamps
    requires id in v.held && Fits(w, v.held[id]) && v.held == w.held[id := v.held[id]]
    ensures Clocked(v)
  {
    forall k | k in v.held
      ensures Fits(v, v.held[k])
    {
      if k != id {
        assert Fits(w, w.held[k]);
      }
    }
  }

  lemma ChangeIsClocked(w: World, e: Event)
    requires Clocked(w) && e.ChangeRide?
    ensures Clocked(Step(w, e).0)
  {
    var (w', r) := StepChange(w, e.token, e.event, e.at, e.accepted);
    if r.operation.Ok? {
      ChangeFits(w, e.token, e.event, e.at, w.worker.nextTicket);
      HoldingIsClocked(w, w', r.operation.value.id);
    } else {
      OnwardIsClocked(w, w');
    }
  }

  lemma StopIsClocked(w: World, e: Event)
    requires Clocked(w) && e.StopRide?
    ensures Clocked(Step(w, e).0)
  {
    var (w', r) := StepStop(w, e.token, e.at);
    if r.operation.Ok? {
      StopFits(w, e.token, e.at);
      HoldingIsClocked(w, w', r.operation.value.id);
    } else {
      OnwardIsClocked(w, w');
    }
  }

  lemma RestoreIsClocked(w: World, e: Event)
    requires Clocked(w) && e.Restore?
    ensures Clocked(Step(w, e).0)
  {
    var (w', r) := StepRestore(w, e.accepted);
    if r.operation.Ok? {
      HoldingIsClocked(w, w', r.operation.value.id);
    } else {
      OnwardIsClocked(w, w');
    }
  }

  lemma StartIsClocked(w: World, e: Event)
    requires Clocked(w) && e.StartRide?
    ensures Clocked(Step(w, e).0)
  {
    var (w', r) := StepStart(w, e.at, e.accepted);
    if r.operation.Ok? {
      HoldingIsClocked(w, w', r.operation.value.id);
    } else {
      OnwardIsClocked(w, w');
    }
  }

  lemma WellStampedAppend(stamps: seq<Stamp>, last: Stamp)
    requires WellStamped(stamps) && last.at == SaturatingAdd(last.raw, last.offset)
    requires stamps != [] ==> Succeeds(stamps[|stamps| - 1], last)
    ensures WellStamped(stamps + [last])
  {
  }

  /** What a published change does to the clock. */
  predicate Restamps(s: RecordingState, s': RecordingState, at: U64, offset: U64) {
    && s'.epochOffset == offset
    && (s'.recorder.state == Some(Saved) || s'.recorder.state == Some(Discarded) || at <= s'.recorder.lastMonotonic)
  }

  lemma FinishTransitionRestamps(s: RecordingState, op: Operation, reply: Reply, answers: map<nat, Reply>)
    requires op.PreparedTransition?
    ensures var (s', r) := FinishTransition(s, op, reply, answers);
            if r.Ok? then Restamps(s, s', op.at, op.offset) else Onward(s, s')
  {
    SettleIsOnward(s, answers);
  }

  lemma FinishStopRestamps(s: RecordingState, op: Operation, reply: Reply, answers: map<nat, Reply>, next: nat)
    requires op.PreparedStop? && Refines(s, next) && Lawful(op)
    ensures var (s', r) := FinishStop(s, op, reply, answers);
            if r.Ok? then Restamps(s, s', op.at, op.offset) else Onward(s, s')
  {
    SettleIsOnward(s, answers);
    if reply.Committed? {
      var s1 := Settle(s, answers);
      SettleRefines(s, next, answers);
      if !Disagrees(s1, op.ride, op.next, reply) {
        TransitionRefines(s1, next, op.previous, Stop, op.at, op.offset);
      }
    }
  }

  /** With nothing held any more, a change leaves the stamps alone or adds the one that fitted. */
  lemma StampedIsClocked(w: World, v: World, stamp: Stamp, published: bool)
    requires Clocked(w) && v.held == map[]
    requires stamp.at == SaturatingAdd(stamp.raw, stamp.offset)
    requires w.stamps != [] ==> Succeeds(w.stamps[|w.stamps| - 1], stamp)
    requires v.stamps == if published then w.stamps + [stamp] else w.stamps
    requires if published then Restamps(w.state, v.state, stamp.at, stamp.offset) else Onward(w.state, v.state)
    ensures Clocked(v)
  {
    WellStampedAppend(w.stamps, stamp);
  }

  lemma FinishTransitionIsClocked(w: World, h: Held, reply: Reply)
    requires Clocked(w) && h.op.PreparedTransition? && w.held == map[h.op.id := h]
    ensures Clocked(FinishHeldTransition(w, h, reply).0)
  {
    assert Fits(w, w.held[h.op.id]);
    FinishTransitionRestamps(w.state, h.op, reply, w.worker.replies);
    var (w', r) := FinishHeldTransition(w, h, reply);
    assert w.held - {h.op.id} == map[];
    StampedIsClocked(w, w', Stamp(h.raw, h.clock, h.op.at, h.op.offset, h.op.event), r.publication.Ok?);
  }

  lemma FinishStopIsClocked(w: World, h: Held, reply: Reply)
    requires Clocked(w) && h.op.PreparedStop? && w.held == map[h.op.id := h]
    requires Lawful(h.op) && Refines(w.state, w.nextRecording)
    ensures Clocked(FinishHeldStop(w, h, reply).0)
  {
    assert Fits(w, w.held[h.op.id]);
    FinishStopRestamps(w.state, h.op, reply, w.worker.replies, w.nextRecording);
    var (w', r) := FinishHeldStop(w, h, reply);
    assert w.held - {h.op.id} == map[];
    StampedIsClocked(w, w', Stamp(h.raw, h.clock, h.op.at, h.op.offset, Stop), r.publication.Ok?);
  }

  /** A started or restored ride begins with no stamps. */
  lemma FinishNewIsClocked(w: World, h: Held, reply: Reply)
    requires Clocked(w) && (h.op.PreparedRestore? || h.op.PreparedStart?)
    requires w.held == map[h.op.id := h]
    ensures Clocked(FinishHeld(w, h, reply).0)
  {
    FinishKeepsOthers(w, h, reply);
    assert FinishHeld(w, h, reply).0.held == map[];
  }

  lemma FinishIsClocked(w: World, e: Event)
    requires Clocked(w) && Exclusive(w) && AllLawful(w) && Refines(w.state, w.nextRecording) && e.Finish?
    ensures Clocked(Step(w, e).0)
  {
    if e.id in w.held && Answer(w, w.held[e.id], e.givesUp).Some? {
      var h, reply := w.held[e.id], Answer(w, w.held[e.id], e.givesUp).value;
      OnlyOneHeld(w, e.id);
      assert Owned(w.state, e.id, h) && Lawful(h.op);
      match h.op {
        case PreparedTransition(_, _, _, _, _, _, _, _) => FinishTransitionIsClocked(w, h, reply);
        case PreparedStop(_, _, _, _, _, _) => FinishStopIsClocked(w, h, reply);
        case _ => FinishNewIsClocked(w, h, reply);
      }
    }
  }

  lemma SubmitIsClocked(w: World, id: U64, fence: MusicFence)
    requires Clocked(w)
    ensures Clocked(StepSubmitStop(w, id, fence).0)
  {
    OnwardIsClocked(w, StepSubmitStop(w, id, fence).0);
  }

  lemma DropIsClocked(w: World, id: U64)
    requires Clocked(w)
    ensures Clocked(StepDropOperation(w, id)) && Clocked(StepDropGuard(w, id))
  {
    OnwardIsClocked(w, StepDropOperation(w, id));
    OnwardIsClocked(w, StepDropGuard(w, id));
  }

  lemma PollIsClocked(w: World)
    requires Clocked(w)
    ensures Clocked(StepPoll(w).0)
  {
    SettleIsOnward(w.state, w.worker.replies);
    OnwardIsClocked(w, StepPoll(w).0);
  }

  lemma DrainedIsClocked(w: World, worker: Worker)
    requires Clocked(w)
    ensures Clocked(w.(worker := worker))
  {
    OnwardIsClocked(w, w.(worker := worker));
  }

  lemma AdmitIsClocked(w: World, e: Event)
    requires Clocked(w) && e.AdmitLocation?
    ensures Clocked(Step(w, e).0)
  {
    AdmitIsOnward(w.state, e.fix, StorageFor(Waited(w, e), e));
    OnwardIsClocked(w, Step(w, e).0);
  }

  lemma StepIsClocked(w: World, e: Event)
    requires Clocked(w) && Exclusive(w) && AllLawful(w) && Refines(w.state, w.nextRecording)
    ensures Clocked(Step(w, e).0)
  {
    match e {
      case Restore(_) => RestoreIsClocked(w, e);
      case StartRide(_, _) => StartIsClocked(w, e);
      case ChangeRide(_, _, _, _) => ChangeIsClocked(w, e);
      case StopRide(_, _) => StopIsClocked(w, e);
      case Finish(_, _) => FinishIsClocked(w, e);
      case PollWrites => PollIsClocked(w);
      case CheckpointWrites(choices) =>
        DrainedIsClocked(w, Drain(w.worker, choices));
        PollIsClocked(w.(worker := Drain(w.worker, choices)));
      case AdmitLocation(_, _, _, _, _) => AdmitIsClocked(w, e);
      case SubmitStop(id, fence) => SubmitIsClocked(w, id, fence);
      case DropOperation(id) => DropIsClocked(w, id);
      case DropGuard(id) => DropIsClocked(w, id);
      case WorkerRuns(choice) => DrainedIsClocked(w, RunJob(w.worker, choice));
    }
  }

  lemma {:induction false} RunIsClocked(w: World, run: seq<Event>)
    requires Clocked(w) && Exclusive(w) && AllLawful(w) && Issued(w) && Refines(w.state, w.nextRecording)
    ensures Clocked(Run(w, run))
    decreases |run|
  {
    if run != [] {
      StepIsClocked(w, run[0]);
      StepIsExclusive(w, run[0]);
      StepIsLawful(w, run[0]);
      StepIsIssued(w, run[0]);
      StepRefines(w, run[0]);
      RunIsClocked(Step(w, run[0]).0, run[1..]);
    }
  }

  /** Between two resumes the raw clock does not run backwards; a resume may follow a restart of it. */
  predicate RawRunsForward(stamps: seq<Stamp>) {
    forall j | 0 < j < |stamps| :: stamps[j].event.Resume? || stamps[j - 1].raw <= stamps[j].raw
  }

  lemma {:induction false} StampsRise(stamps: seq<Stamp>, i: nat, j: nat)
    requires WellStamped(stamps) && RawRunsForward(stamps) && i <= j < |stamps|
    ensures stamps[i].at <= stamps[j].at
  {
    if i < j {
      StampsRise(stamps, i, j - 1);
      var k := j - 1;
      assert Succeeds(stamps[k], stamps[j]);
    }
  }

  /**
   In every run, each published Resume of a ride is stamped at the later of its raw and recorded
   clock, its offset grows exactly when the recording was ahead of logical time, and every other
   change keeps the offset. If the raw clock runs forward between resumes, the stamps of the ride
   never decrease, through any number of pauses, interruptions and clock restarts.
   */
  lemma StampsFollowTheRide(run: seq<Event>, i: nat, j: nat)
    requires i <= j < |Run(NEW_WORLD, run).stamps|
    ensures WellStamped(Run(NEW_WORLD, run).stamps)
    ensures var stamps := Run(NEW_WORLD, run).stamps;
            RawRunsForward(stamps) ==> stamps[i].at <= stamps[j].at
  {
    RunIsClocked(NEW_WORLD, run);
    var stamps := Run(NEW_WORLD, run).stamps;
    if RawRunsForward(stamps) {
      StampsRise(stamps, i, j);
    }
  }

  /** At every resume the recorded clock is not ahead of logical time under the offset in force. */
  predicate NeverAhead(stamps: seq<Stamp>) {
    forall j | 0 < j < |stamps| :: stamps[j].event.Resume? ==> stamps[j].clock <= stamps[j].raw + stamps[j - 1].offset
  }

  predicate OffsetsNeverGrow(stamps: seq<Stamp>) {
    forall j | 0 < j < |stamps| :: stamps[j].offset <= stamps[j - 1].offset
  }

  lemma StampedOffset(stamps: seq<Stamp>, j: nat)
    requires WellStamped(stamps) && 0 < j < |stamps|
    ensures stamps[j].offset <= stamps[j - 1].offset
       <==> (stamps[j].event.Resume? ==> stamps[j].clock <= stamps[j].raw + stamps[j - 1].offset)
  {
    var i := j - 1;
    assert Succeeds(stamps[i], stamps[j]);
  }

  /**
   In every run the offset of a ride never grows if and only if no resume found the recording ahead of the
   logical time that the previous offset gives to its raw clock.
   */
  lemma OffsetsGrowOnlyWhenAhead(run: seq<Event>)
    ensures OffsetsNeverGrow(Run(NEW_WORLD, run).stamps) <==> NeverAhead(Run(NEW_WORLD, run).stamps)
  {
    RunIsClocked(NEW_WORLD, run);
    var stamps := Run(NEW_WORLD, run).stamps;
    forall j | 0 < j < |stamps|
      ensures stamps[j].offset <= stamps[j - 1].offset
         <==> (stamps[j].event.Resume? ==> stamps[j].clock <= stamps[j].raw + stamps[j - 1].offset)
    {
      StampedOffset(stamps, j);
    }
  }
}
