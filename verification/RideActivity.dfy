/**
 The activity work queue: one in-flight platform effect, one replaceable presentation and one
 fixed terminal obligation, guarded by independent request fences.

 `Step` is the specification of one locked section: a call, or one half of a lifecycle projection, which
 unlocks the queue between selecting its identifier and enqueueing it. `ActivityWorkQueue` is the queue
 itself, whose methods update the state in place. The theorems quantify over every sequence of steps.
 */
module RideActivity {
  import opened Prelude

  datatype Identity = Identity(platformIdentifier: string, session: nat)

  datatype RidePhase = Idle | Starting | Active | Reconnecting | Stale | Ending | Ended

  /** The part of the host snapshot that request ordering reads. */
  datatype Observation = Observation(identity: Option<Identity>, phase: RidePhase)

  datatype TerminalEffect = TerminalEffect(identity: Identity, reason: string)

  datatype LifecycleRequest = Background | Foreground | Terminal | TransportDisconnected(atMs: nat)

  datatype LifecycleAdmission = Reduce | ReduceAndFlush | FlushOnly | LifecycleRejected

  datatype Work =
    | Presentation(requestId: nat)
    | Cleanup(requestId: nat, effect: TerminalEffect, staleAfterMs: nat)

  datatype WorkAdmission =
    | Run(work: Work)
    | Queued(replacedRequestId: Option<nat>)
    | Rejected

  datatype WorkState = WorkState(
    latestRequestId: nat,
    latestPresentationRequestId: nat,
    latestTelemetryAtMs: Option<nat>,
    latestTransportRequestId: nat,
    disconnectedAtMs: Option<nat>,
    latestSessionRequestId: nat,
    latestSessionIdentity: Option<Identity>,
    pendingStartPlatformIdentifier: Option<string>,
    latestSceneRequestId: nat,
    latestBackgroundRequestId: nat,
    latestTerminalRequestId: nat,
    inFlightRequestId: Option<nat>,
    pendingPresentationRequestId: Option<nat>,
    terminal: Option<Work>,
    lastProjectionTelemetryAtMs: Option<nat>)

  const INITIAL := WorkState(0, 0, None, 0, None, 0, None, None, 0, 0, 0, None, None, None, None)

  datatype Event =
    | AcceptRequest(id: nat)
    | AcceptPresentation(id: nat, platformIdentifier: string, snapshot: Observation, telemetryAtMs: nat)
    | NoteSessionStart(id: nat, identity: Identity)
    | AcceptLifecycle(id: nat, kind: LifecycleRequest, snapshot: Observation)
    | SelectProjection(id: nat)
    | PresentationUpdated(telemetryAtMs: nat)
    | EnqueuePresentation(id: nat)
    | EnqueueTerminal(id: nat, effect: TerminalEffect, staleAfterMs: nat)
    | FinishWork(id: nat)

  datatype Reply =
    | Done
    | Decided(accepted: bool)
    | Lifecycle(admission: LifecycleAdmission)
    | Dispatch(dispatched: WorkAdmission)
    | Next(next: Option<Work>)

  // ---------------------------------------------------------------------------------------------
  // Specification of one call
  // ---------------------------------------------------------------------------------------------

  predicate Superseded(s: WorkState, id: nat) {
    id <= s.latestPresentationRequestId || id <= s.latestTerminalRequestId
  }

  predicate StartsNewSession(s: WorkState, platform: string, snapshot: Observation) {
    && (snapshot.phase in {Idle, Ending, Ended}
        || snapshot.identity.None?
        || snapshot.identity.value.platformIdentifier != platform)
    && s.pendingStartPlatformIdentifier != Some(platform)
  }

  function LaterOf(previous: Option<nat>, t: nat): nat {
    if previous.Some? then Max(previous.value, t) else t
  }

  function StepPresentation(s: WorkState, e: Event): (WorkState, Reply)
    requires e.AcceptPresentation?
  {
    var starts := StartsNewSession(s, e.platformIdentifier, e.snapshot);
    if Superseded(s, e.id)
       || (!starts && s.disconnectedAtMs.Some? && e.telemetryAtMs <= s.disconnectedAtMs.value)
    then
      (s, Decided(false))
    else
      var s' := s.(latestPresentationRequestId := e.id, latestRequestId := e.id);
      if starts then
        (s'.(latestSessionRequestId := e.id,
             pendingStartPlatformIdentifier := Some(e.platformIdentifier),
             disconnectedAtMs := None,
             latestTelemetryAtMs := Some(e.telemetryAtMs)), Decided(true))
      else
        (s'.(latestTelemetryAtMs := Some(LaterOf(s.latestTelemetryAtMs, e.telemetryAtMs))), Decided(true))
  }

  function StepSessionStart(s: WorkState, id: nat, identity: Identity): WorkState {
    if s.latestSessionIdentity == Some(identity) then
      s
    else if id >= s.latestSessionRequestId
         && s.pendingStartPlatformIdentifier == Some(identity.platformIdentifier) then
      s.(pendingStartPlatformIdentifier := None, latestSessionIdentity := Some(identity))
    else
      s.(latestSessionRequestId := Max(s.latestSessionRequestId, id), latestSessionIdentity := Some(identity))
  }

  predicate DisconnectAdmissible(s: WorkState, id: nat, atMs: nat) {
    && id > s.latestTransportRequestId
    && id > s.latestSessionRequestId
    && (s.latestTelemetryAtMs.Some? ==> s.latestTelemetryAtMs.value <= atMs)
    && (s.disconnectedAtMs.Some? ==> s.disconnectedAtMs.value <= atMs)
  }

  function StepLifecycle(s: WorkState, id: nat, kind: LifecycleRequest, snapshot: Observation)
    : (WorkState, LifecycleAdmission)
  {
    if id == 0 then
      (s, LifecycleRejected)
    else
      match kind
      case Terminal =>
        if id <= s.latestSessionRequestId || id <= s.latestTerminalRequestId then
          (s, LifecycleRejected)
        else
          (s.(latestTerminalRequestId := id,
              pendingStartPlatformIdentifier := None,
              latestRequestId := Max(s.latestRequestId, id)), Reduce)
      case Background =>
        if id <= s.latestBackgroundRequestId then
          (s, LifecycleRejected)
        else if id <= s.latestSceneRequestId then
          (s.(latestBackgroundRequestId := id), FlushOnly)
        else
          (s.(latestBackgroundRequestId := id, latestSceneRequestId := id),
           if snapshot.phase in {Idle, Ended} then ReduceAndFlush else Reduce)
      case TransportDisconnected(atMs) =>
        if DisconnectAdmissible(s, id, atMs) then
          (s.(latestTransportRequestId := id,
              disconnectedAtMs := Some(atMs),
              pendingPresentationRequestId := None), Reduce)
        else
          (s, LifecycleRejected)
      case Foreground =>
        if id <= s.latestSceneRequestId then
          (s, LifecycleRejected)
        else
          (s.(latestSceneRequestId := id), Reduce)
  }

  function StepEnqueue(s: WorkState, id: nat): (WorkState, WorkAdmission) {
    if id != s.latestRequestId || id == 0 then
      (s, Rejected)
    else if s.inFlightRequestId.None? then
      (s.(inFlightRequestId := Some(id)), Run(Presentation(id)))
    else
      (s.(pendingPresentationRequestId := Some(id)), Queued(s.pendingPresentationRequestId))
  }

  /** The identifier is the latest transport request, or the latest scene request and not an old one. */
  predicate Selectable(s: WorkState, id: nat) {
    && id != 0
    && (id == s.latestSceneRequestId || id == s.latestTransportRequestId)
    && (id >= s.latestRequestId || id == s.latestTransportRequestId)
  }

  function StepSelect(s: WorkState, id: nat): WorkState {
    if Selectable(s, id) then s.(latestRequestId := id) else s
  }

  /** A projection without interference; the queue is unlocked between its two halves. */
  function StepProjection(s: WorkState, id: nat): (WorkState, WorkAdmission) {
    if Selectable(s, id) then StepEnqueue(StepSelect(s, id), id) else (s, Rejected)
  }

  function StepTerminal(s: WorkState, id: nat, effect: TerminalEffect, staleAfterMs: nat)
    : (WorkState, WorkAdmission)
  {
    var work := Cleanup(id, effect, staleAfterMs);
    if id == 0 || (id != s.latestRequestId && id != s.latestTerminalRequestId) then
      (s, Rejected)
    else if s.inFlightRequestId.None? then
      (s.(inFlightRequestId := Some(id), pendingPresentationRequestId := None), Run(work))
    else
      (s.(pendingPresentationRequestId := None,
          terminal := if s.terminal.None? then Some(work) else s.terminal),
       Queued(s.pendingPresentationRequestId))
  }

  function StepFinish(s: WorkState, id: nat): (WorkState, Option<Work>) {
    if s.inFlightRequestId != Some(id) then
      (s, None)
    else if s.terminal.Some? then
      (s.(inFlightRequestId := Some(s.terminal.value.requestId), terminal := None), s.terminal)
    else if s.pendingPresentationRequestId == Some(s.latestRequestId) then
      (s.(inFlightRequestId := Some(s.latestRequestId), pendingPresentationRequestId := None),
       Some(Presentation(s.latestRequestId)))
    else
      (s.(inFlightRequestId := None, pendingPresentationRequestId := None), None)
  }

  function Step(s: WorkState, e: Event): (WorkState, Reply) {
    match e
    case AcceptRequest(id) =>
      if Superseded(s, id) then (s, Decided(false))
      else (s.(latestPresentationRequestId := id, latestRequestId := id), Decided(true))
    case AcceptPresentation(_, _, _, _) => StepPresentation(s, e)
    case NoteSessionStart(id, identity) => (StepSessionStart(s, id, identity), Done)
    case AcceptLifecycle(id, kind, snapshot) =>
      var (s', a) := StepLifecycle(s, id, kind, snapshot); (s', Lifecycle(a))
    case SelectProjection(id) => (StepSelect(s, id), Decided(Selectable(s, id)))
    case PresentationUpdated(t) =>
      (s.(lastProjectionTelemetryAtMs := Some(LaterOf(s.lastProjectionTelemetryAtMs, t))), Done)
    case EnqueuePresentation(id) => var (s', a) := StepEnqueue(s, id); (s', Dispatch(a))
    case EnqueueTerminal(id, effect, stale) =>
      var (s', a) := StepTerminal(s, id, effect, stale); (s', Dispatch(a))
    case FinishWork(id) => var (s', n) := StepFinish(s, id); (s', Next(n))
  }

  // ---------------------------------------------------------------------------------------------
  // The queue object
  // ---------------------------------------------------------------------------------------------

  class ActivityWorkQueue {
    var state: WorkState

    constructor ()
      ensures state == INITIAL
    {
      state := INITIAL;
    }

    method AcceptRequest(id: nat) returns (accepted: bool)
      modifies this
      ensures (state, Decided(accepted)) == Step(old(state), Event.AcceptRequest(id))
    {
      if id <= state.latestPresentationRequestId || id <= state.latestTerminalRequestId {
        return false;
      }
      state := state.(latestPresentationRequestId := id);
      state := state.(latestRequestId := id);
      return true;
    }

    method AcceptPresentationRequest(id: nat, platform: string, snapshot: Observation, telemetryAtMs: nat)
      returns (accepted: bool)
      modifies this
      ensures (state, Decided(accepted))
           == Step(old(state), Event.AcceptPresentation(id, platform, snapshot, telemetryAtMs))
    {
      if id <= state.latestPresentationRequestId || id <= state.latestTerminalRequestId {
        return false;
      }
      var startsNewSession;
      match snapshot.phase {
        case Idle | Ending | Ended => startsNewSession := true;
        case _ =>
          startsNewSession := snapshot.identity.None?
                           || snapshot.identity.value.platformIdentifier != platform;
      }
      startsNewSession := startsNewSession && state.pendingStartPlatformIdentifier != Some(platform);
      if !startsNewSession && state.disconnectedAtMs.Some? && telemetryAtMs <= state.disconnectedAtMs.value {
        return false;
      }
      state := state.(latestPresentationRequestId := id);
      state := state.(latestRequestId := id);
      if startsNewSession {
        state := state.(latestSessionRequestId := id);
        state := state.(pendingStartPlatformIdentifier := Some(platform));
        state := state.(disconnectedAtMs := None);
        state := state.(latestTelemetryAtMs := Some(telemetryAtMs));
      } else {
        var previous := if state.latestTelemetryAtMs.Some? then state.latestTelemetryAtMs.value else telemetryAtMs;
        state := state.(latestTelemetryAtMs := Some(Max(previous, telemetryAtMs)));
      }
      return true;
    }

    method NoteSessionStart(id: nat, identity: Identity)
      modifies this
      ensures (state, Done) == Step(old(state), Event.NoteSessionStart(id, identity))
    {
      if state.latestSessionIdentity != Some(identity) {
        if id >= state.latestSessionRequestId
           && state.pendingStartPlatformIdentifier == Some(identity.platformIdentifier) {
          state := state.(pendingStartPlatformIdentifier := None);
        } else {
          state := state.(latestSessionRequestId := Max(state.latestSessionRequestId, id));
        }
        state := state.(latestSessionIdentity := Some(identity));
      }
    }

    method AcceptLifecycleRequest(id: nat, kind: LifecycleRequest, snapshot: Observation)
      returns (admission: LifecycleAdmission)
      modifies this
      ensures (state, Lifecycle(admission)) == Step(old(state), Event.AcceptLifecycle(id, kind, snapshot))
    {
      if id == 0 {
        return LifecycleRejected;
      }
      match kind {
        case Terminal =>
          if id <= state.latestSessionRequestId || id <= state.latestTerminalRequestId {
            return LifecycleRejected;
          }
          state := state.(latestTerminalRequestId := id);
          state := state.(pendingStartPlatformIdentifier := None);
          state := state.(latestRequestId := Max(state.latestRequestId, id));
        case Background =>
          if id <= state.latestBackgroundRequestId {
            return LifecycleRejected;
          }
          state := state.(latestBackgroundRequestId := id);
          if id <= state.latestSceneRequestId {
            return FlushOnly;
          }
          state := state.(latestSceneRequestId := id);
          if snapshot.phase == Idle || snapshot.phase == Ended {
            return ReduceAndFlush;
          }
        case TransportDisconnected(atMs) =>
          if id <= state.latestTransportRequestId
             || id <= state.latestSessionRequestId
             || (state.latestTelemetryAtMs.Some? && state.latestTelemetryAtMs.value > atMs)
             || (state.disconnectedAtMs.Some? && atMs < state.disconnectedAtMs.value) {
            return LifecycleRejected;
          }
          state := state.(latestTransportRequestId := id);
          state := state.(disconnectedAtMs := Some(atMs));
          state := state.(pendingPresentationRequestId := None);
        case Foreground =>
          if id <= state.latestSceneRequestId {
            return LifecycleRejected;
          }
          state := state.(latestSceneRequestId := id);
      }
      return Reduce;
    }

    method EnqueueLifecycleProjection(id: nat) returns (admission: WorkAdmission)
      modifies this
      ensures (state, admission) == StepProjection(old(state), id)
    {
      if id == 0
         || (id != state.latestSceneRequestId && id != state.latestTransportRequestId)
         || (id < state.latestRequestId && id != state.latestTransportRequestId) {
        return Rejected;
      }
      state := state.(latestRequestId := id);
      admission := EnqueuePresentation(id);
    }

    method PresentationUpdated(telemetryAtMs: nat)
      modifies this
      ensures (state, Done) == Step(old(state), Event.PresentationUpdated(telemetryAtMs))
    {
      var previous :=
        if state.lastProjectionTelemetryAtMs.Some? then state.lastProjectionTelemetryAtMs.value else telemetryAtMs;
      state := state.(lastProjectionTelemetryAtMs := Some(Max(previous, telemetryAtMs)));
    }

    method EnqueuePresentation(id: nat) returns (admission: WorkAdmission)
      modifies this
      ensures (state, Dispatch(admission)) == Step(old(state), Event.EnqueuePresentation(id))
    {
      if id != state.latestRequestId || id == 0 {
        return Rejected;
      }
      if state.inFlightRequestId.None? {
        state := state.(inFlightRequestId := Some(id));
        return Run(Presentation(id));
      }
      var replaced := state.pendingPresentationRequestId;
      state := state.(pendingPresentationRequestId := Some(id));
      return Queued(replaced);
    }

    method EnqueueTerminal(id: nat, effect: TerminalEffect, staleAfterMs: nat) returns (admission: WorkAdmission)
      modifies this
      ensures (state, Dispatch(admission)) == Step(old(state), Event.EnqueueTerminal(id, effect, staleAfterMs))
    {
      if id == 0 || (id != state.latestRequestId && id != state.latestTerminalRequestId) {
        return Rejected;
      }
      var work := Cleanup(id, effect, staleAfterMs);
      var replaced := state.pendingPresentationRequestId;
      state := state.(pendingPresentationRequestId := None);
      if state.inFlightRequestId.None? {
        state := state.(inFlightRequestId := Some(id));
        return Run(work);
      }
      if state.terminal.None? {
        state := state.(terminal := Some(work));
      }
      return Queued(replaced);
    }

    method FinishWork(id: nat) returns (next: Option<Work>)
      modifies this
      ensures (state, Next(next)) == Step(old(state), Event.FinishWork(id))
    {
      if state.inFlightRequestId != Some(id) {
        return None;
      }
      next := state.terminal;
      state := state.(terminal := None);
      if next.None? {
        var waiting := state.pendingPresentationRequestId;
        state := state.(pendingPresentationRequestId := None);
        if waiting.Some? && waiting.value == state.latestRequestId {
          next := Some(Presentation(waiting.value));
        }
      }
      state := state.(inFlightRequestId := if next.Some? then Some(next.value.requestId) else None);
    }
  }

  // ---------------------------------------------------------------------------------------------
  // Runs
  // ---------------------------------------------------------------------------------------------

  /** State after the first `k` calls of a run. */
  function StateAt(run: seq<Event>, k: nat): WorkState
    requires k <= |run|
  {
    if k == 0 then INITIAL else Step(StateAt(run, k - 1), run[k - 1]).0
  }

  function ReplyAt(run: seq<Event>, k: nat): Reply
    requires k < |run|
  {
    Step(StateAt(run, k), run[k]).1
  }

  /** Work handed to a caller by this reply, if any. */
  function Granted(r: Reply): Option<Work> {
    match r
    case Dispatch(Run(w)) => Some(w)
    case Next(n) => n
    case _ => None
  }

  predicate AdmitsTerminal(run: seq<Event>, i: nat, r: nat)
    requires i < |run|
  {
    run[i].AcceptLifecycle? && run[i].kind == Terminal && run[i].id == r && ReplyAt(run, i) == Lifecycle(Reduce)
  }

  /** The request identifier is also used for a scene or transport projection. */
  predicate IsProjectionRequest(e: Event, p: nat) {
    e.AcceptLifecycle? && !e.kind.Terminal? && e.id == p
  }

  // ---------------------------------------------------------------------------------------------
  // Fences
  // ---------------------------------------------------------------------------------------------

  /** The five request fences. `latestRequestId` is deliberately not here. */
  predicate FencesAtMost(a: WorkState, b: WorkState) {
    && a.latestPresentationRequestId <= b.latestPresentationRequestId
    && a.latestTerminalRequestId <= b.latestTerminalRequestId
    && a.latestSceneRequestId <= b.latestSceneRequestId
    && a.latestBackgroundRequestId <= b.latestBackgroundRequestId
    && a.latestTransportRequestId <= b.latestTransportRequestId
  }

  lemma StepAdvancesFences(s: WorkState, e: Event)
    ensures FencesAtMost(s, Step(s, e).0)
  {
  }

  /** Over every run the fences only move forward. */
  lemma {:induction false} FencesAreMonotone(run: seq<Event>, i: nat, j: nat)
    requires i <= j <= |run|
    ensures FencesAtMost(StateAt(run, i), StateAt(run, j))
    decreases j - i
  {
    if i < j {
      FencesAreMonotone(run, i, j - 1);
      StepAdvancesFences(StateAt(run, j - 1), run[j - 1]);
    }
  }

  /** The steps that lower `latestRequestId`: an older accepted observation, or a late disconnect projection. */
  predicate Lowers(s: WorkState, e: Event) {
    match e
    case AcceptRequest(id) => Step(s, e).1 == Decided(true) && id < s.latestRequestId
    case AcceptPresentation(id, _, _, _) => Step(s, e).1 == Decided(true) && id < s.latestRequestId
    case SelectProjection(id) => id != 0 && id == s.latestTransportRequestId && id < s.latestRequestId
    case _ => false
  }

  /** `latestRequestId` is not monotone; these are exactly the steps after which it is lower. */
  lemma LatestRequestIdDecreases(s: WorkState, e: Event)
    ensures Step(s, e).0.latestRequestId < s.latestRequestId <==> Lowers(s, e)
  {
  }

  predicate LowersAt(run: seq<Event>, k: nat)
    requires k < |run|
  {
    Lowers(StateAt(run, k), run[k])
  }

  lemma CallRises(run: seq<Event>, k: nat)
    requires k < |run| && !LowersAt(run, k)
    ensures StateAt(run, k).latestRequestId <= StateAt(run, k + 1).latestRequestId
  {
    LatestRequestIdDecreases(StateAt(run, k), run[k]);
  }

  /** Over a stretch of any run without such a step it never goes back. */
  lemma {:induction false} LatestRequestIdRises(run: seq<Event>, i: nat, j: nat)
    requires i <= j <= |run| && forall k | i <= k < j :: !LowersAt(run, k)
    ensures StateAt(run, i).latestRequestId <= StateAt(run, j).latestRequestId
    decreases j - i
  {
    if i < j {
      LatestRequestIdRises(run, i, j - 1);
      CallRises(run, j - 1);
    }
  }

  /** Such steps are reachable: a late disconnect projection replaces a newer presentation. */
  lemma LatestRequestIdCanDecrease()
    ensures exists run: seq<Event> ::
              |run| == 3 && StateAt(run, 2).latestRequestId > StateAt(run, 3).latestRequestId
  {
    var idle := Observation(None, Idle);
    var run := [AcceptLifecycle(1, TransportDisconnected(0), idle), AcceptRequest(2), SelectProjection(1)];
    assert StateAt(run, 1) == Step(INITIAL, run[0]).0;
    assert StateAt(run, 2) == Step(StateAt(run, 1), run[1]).0;
    assert StateAt(run, 3) == Step(StateAt(run, 2), run[2]).0;
  }

  /** Once Terminal `r` is admitted, no observation with an identifier up to `r` is ever accepted. */
  lemma TerminalFencesAccepts(run: seq<Event>, i: nat, r: nat, j: nat)
    requires i < j < |run| && AdmitsTerminal(run, i, r)
    requires run[j].AcceptRequest? || run[j].AcceptPresentation?
    requires run[j].id <= r
    ensures ReplyAt(run, j) == Decided(false)
  {
    FencesAreMonotone(run, i + 1, j);
    assert StateAt(run, i + 1).latestTerminalRequestId == r;
  }

  /** Call `k` selects `p` as a lifecycle projection. */
  predicate Selects(run: seq<Event>, k: nat, p: nat)
    requires k < |run|
  {
    run[k] == SelectProjection(p) && ReplyAt(run, k) == Decided(true)
  }

  /**
   Exactly which identifiers a projection selects, whatever the terminal fence is, and that a selected
   one is handed over exactly when it is still the selected one and the worker is idle.
   */
  lemma ProjectionSelection(s: WorkState, t: WorkState, p: nat)
    ensures Step(s, SelectProjection(p)).1 == Decided(true)
       <==> p != 0 && (p == s.latestTransportRequestId || (p == s.latestSceneRequestId && p >= s.latestRequestId))
    ensures p != 0 ==>
              (Granted(Step(t, EnqueuePresentation(p)).1) == Some(Presentation(p))
               <==> t.latestRequestId == p && t.inFlightRequestId.None?)
  {
  }

  /** Without interference the two halves are the call. */
  lemma ProjectionIsTwoSteps(s: WorkState, p: nat)
    ensures var s1 := Step(s, SelectProjection(p)).0;
            if Selectable(s, p)
            then Step(s1, EnqueuePresentation(p)) == (StepProjection(s, p).0, Dispatch(StepProjection(s, p).1))
            else StepProjection(s, p) == (s1, Rejected)
  {
  }

  /** The terminal fence has reached `r`, and `p` is not the selected presentation. */
  predicate Unselected(s: WorkState, r: nat, p: nat) {
    s.latestRequestId != p && s.latestTerminalRequestId >= r
  }

  lemma StepKeepsUnselected(s: WorkState, e: Event, r: nat, p: nat)
    requires Unselected(s, r, p) && p < r
    requires e == SelectProjection(p) ==> Step(s, e).1 == Decided(false)
    ensures Unselected(Step(s, e).0, r, p)
  {
    StepAdvancesFences(s, e);
  }

  /** An unselected presentation is handed over by no call. */
  lemma UnselectedIsNotGranted(s: WorkState, e: Event, r: nat, p: nat)
    requires Unselected(s, r, p) && WorkInvariant(s)
    ensures Granted(Step(s, e).1) != Some(Presentation(p))
  {
  }

  lemma TerminalUnselects(s: WorkState, e: Event, r: nat, p: nat)
    requires e.AcceptLifecycle? && e.kind == Terminal && e.id == r && Step(s, e).1 == Lifecycle(Reduce) && p < r
    ensures Unselected(Step(s, e).0, r, p)
  {
  }

  lemma {:induction false} StaysUnselected(run: seq<Event>, i: nat, r: nat, p: nat, j: nat)
    requires i < j <= |run| && AdmitsTerminal(run, i, r) && p < r
    requires forall k | i < k < j :: !Selects(run, k, p)
    ensures Unselected(StateAt(run, j), r, p)
    decreases j
  {
    if j == i + 1 {
      TerminalUnselects(StateAt(run, i), run[i], r, p);
    } else {
      StaysUnselected(run, i, r, p, j - 1);
      assert !Selects(run, j - 1, p);
      StepKeepsUnselected(StateAt(run, j - 1), run[j - 1], r, p);
    }
  }

  /**
   After an admitted Terminal `r`, a presentation older than it is handed to the worker only if a
   lifecycle projection has selected its identifier since, however the halves of projections and other
   calls interleave. It holds although `latestRequestId` may decrease.
   */
  lemma OnlyProjectionsRevive(run: seq<Event>, i: nat, r: nat, p: nat, j: nat)
    requires i < j < |run| && AdmitsTerminal(run, i, r) && p < r
    requires Granted(ReplyAt(run, j)) == Some(Presentation(p))
    ensures exists k :: i < k < j && Selects(run, k, p)
  {
    if forall k | i < k < j :: !Selects(run, k, p) {
      StaysUnselected(run, i, r, p, j);
      WorkerIsExclusive(run, j);
      UnselectedIsNotGranted(StateAt(run, j), run[j], r, p);
    }
  }

  lemma {:induction false} ProjectionFencesAvoid(run: seq<Event>, p: nat, k: nat)
    requires k <= |run| && 0 < p
    requires forall m | 0 <= m < |run| :: !IsProjectionRequest(run[m], p)
    ensures StateAt(run, k).latestSceneRequestId != p && StateAt(run, k).latestTransportRequestId != p
  {
    if k > 0 {
      ProjectionFencesAvoid(run, p, k - 1);
      assert !IsProjectionRequest(run[k - 1], p);
      StepKeepsProjectionFences(StateAt(run, k - 1), run[k - 1], p);
    }
  }

  lemma StepKeepsProjectionFences(s: WorkState, e: Event, p: nat)
    requires s.latestSceneRequestId != p && s.latestTransportRequestId != p && !IsProjectionRequest(e, p)
    ensures Step(s, e).0.latestSceneRequestId != p && Step(s, e).0.latestTransportRequestId != p
  {
  }

  /**
   A presentation older than an admitted Terminal is never handed to the worker afterwards, by any
   call, if its identifier is not shared with a scene or transport request.
   */
  lemma TerminalFencesPresentations(run: seq<Event>, i: nat, r: nat, p: nat, j: nat)
    requires i < j < |run| && AdmitsTerminal(run, i, r) && p < r
    requires forall m | 0 <= m < |run| :: !IsProjectionRequest(run[m], p)
    ensures Granted(ReplyAt(run, j)) != Some(Presentation(p))
  {
    if Granted(ReplyAt(run, j)) == Some(Presentation(p)) {
      OnlyProjectionsRevive(run, i, r, p, j);
      var k :| i < k < j && Selects(run, k, p);
      ProjectionSelection(StateAt(run, k), StateAt(run, k), p);
      ProjectionFencesAvoid(run, p, k);
      assert false;
    }
  }

  /** The distinctness hypothesis is needed: a disconnect sharing the identifier revives it. */
  lemma SharedIdentifierRevivesPresentation()
    ensures exists run: seq<Event> ::
              && |run| == 5 && AdmitsTerminal(run, 1, 2)
              && run[0] == AcceptRequest(1) && ReplyAt(run, 0) == Decided(true)
              && Granted(ReplyAt(run, 4)) == Some(Presentation(1))
  {
    var idle := Observation(None, Idle);
    var run := [AcceptRequest(1), AcceptLifecycle(2, Terminal, idle),
                AcceptLifecycle(1, TransportDisconnected(0), idle), SelectProjection(1), EnqueuePresentation(1)];
    assert StateAt(run, 1) == Step(INITIAL, run[0]).0;
    assert StateAt(run, 2) == Step(StateAt(run, 1), run[1]).0;
    assert StateAt(run, 3) == Step(StateAt(run, 2), run[2]).0;
    assert StateAt(run, 4) == Step(StateAt(run, 3), run[3]).0;
    assert ReplyAt(run, 4) == Step(StateAt(run, 4), run[4]).1;
  }

  // ---------------------------------------------------------------------------------------------
  // Telemetry and disconnect order within a session
  // ---------------------------------------------------------------------------------------------

  predicate AdmitsTelemetry(run: seq<Event>, k: nat)
    requires k < |run|
  {
    run[k].AcceptPresentation? && ReplyAt(run, k) == Decided(true)
  }

  predicate AdmitsDisconnect(run: seq<Event>, k: nat)
    requires k < |run|
  {
    run[k].AcceptLifecycle? && run[k].kind.TransportDisconnected? && ReplyAt(run, k) == Lifecycle(Reduce)
  }

  predicate BeginsSession(run: seq<Event>, k: nat)
    requires k < |run|
  {
    && AdmitsTelemetry(run, k)
    && StartsNewSession(StateAt(run, k), run[k].platformIdentifier, run[k].snapshot)
  }

  /** Within a session neither clock is cleared or set back. */
  lemma StepRetainsClock(s: WorkState, e: Event)
    requires !(e.AcceptPresentation? && Step(s, e).1 == Decided(true)
               && StartsNewSession(s, e.platformIdentifier, e.snapshot))
    ensures var s' := Step(s, e).0;
            && (s.latestTelemetryAtMs.Some? ==>
                  s'.latestTelemetryAtMs.Some? && s.latestTelemetryAtMs.value <= s'.latestTelemetryAtMs.value)
            && (s.disconnectedAtMs.Some? ==>
                  s'.disconnectedAtMs.Some? && s.disconnectedAtMs.value <= s'.disconnectedAtMs.value)
  {
  }

  /** What call `i` established about its session still binds the state before call `j`. */
  lemma {:induction false} SessionClockIsRetained(run: seq<Event>, i: nat, j: nat)
    requires i < j <= |run|
    requires forall k | i < k < j :: !BeginsSession(run, k)
    ensures AdmitsTelemetry(run, i) ==>
              StateAt(run, j).latestTelemetryAtMs.Some?
              && run[i].telemetryAtMs <= StateAt(run, j).latestTelemetryAtMs.value
    ensures AdmitsDisconnect(run, i) ==>
              StateAt(run, j).disconnectedAtMs.Some?
              && run[i].kind.atMs <= StateAt(run, j).disconnectedAtMs.value
    decreases j
  {
    if j > i + 1 {
      SessionClockIsRetained(run, i, j - 1);
      assert !BeginsSession(run, j - 1);
      StepRetainsClock(StateAt(run, j - 1), run[j - 1]);
    }
  }

  /**
   Within one session: a disconnect is no earlier than any admitted telemetry or disconnect before
   it, and telemetry admitted after a disconnect is strictly newer than it.
   */
  lemma TelemetryAndDisconnectsAreOrdered(run: seq<Event>, i: nat, j: nat)
    requires i < j < |run|
    requires forall k | i < k <= j :: !BeginsSession(run, k)
    ensures AdmitsTelemetry(run, i) && AdmitsDisconnect(run, j) ==> run[i].telemetryAtMs <= run[j].kind.atMs
    ensures AdmitsDisconnect(run, i) && AdmitsDisconnect(run, j) ==> run[i].kind.atMs <= run[j].kind.atMs
    ensures AdmitsDisconnect(run, i) && AdmitsTelemetry(run, j) ==> run[i].kind.atMs < run[j].telemetryAtMs
  {
    SessionClockIsRetained(run, i, j);
    assert !BeginsSession(run, j);
  }

  // ---------------------------------------------------------------------------------------------
  // One worker, one obligation
  // ---------------------------------------------------------------------------------------------

  predicate Completes(run: seq<Event>, k: nat)
    requires k < |run|
  {
    run[k].FinishWork? && StateAt(run, k).inFlightRequestId == Some(run[k].id)
  }

  function Grants(run: seq<Event>, k: nat): nat
    requires k <= |run|
  {
    if k == 0 then 0
    else Grants(run, k - 1) + if Granted(ReplyAt(run, k - 1)).Some? then 1 else 0
  }

  function Completions(run: seq<Event>, k: nat): nat
    requires k <= |run|
  {
    if k == 0 then 0
    else Completions(run, k - 1) + if Completes(run, k - 1) then 1 else 0
  }

  function Occupancy(s: WorkState): nat {
    if s.inFlightRequestId.Some? then 1 else 0
  }

  /** An idle worker has nothing waiting, and the obligation slot holds only cleanup. */
  predicate WorkInvariant(s: WorkState) {
    && (s.inFlightRequestId.None? ==> s.pendingPresentationRequestId.None? && s.terminal.None?)
    && (s.terminal.Some? ==> s.terminal.value.Cleanup?)
  }

  lemma StepKeepsWorkInvariant(s: WorkState, e: Event)
    requires WorkInvariant(s)
    ensures WorkInvariant(Step(s, e).0)
    ensures var completed := if e.FinishWork? && s.inFlightRequestId == Some(e.id) then 1 else 0;
            var granted := if Granted(Step(s, e).1).Some? then 1 else 0;
            Occupancy(Step(s, e).0) + completed == Occupancy(s) + granted
  {
  }

  /** In every reachable state grants minus completions is the occupancy, and an idle worker has nothing waiting. */
  lemma {:induction false} WorkerIsExclusive(run: seq<Event>, k: nat)
    requires k <= |run|
    ensures Grants(run, k) == Completions(run, k) + Occupancy(StateAt(run, k))
    ensures WorkInvariant(StateAt(run, k))
  {
    if k > 0 {
      WorkerIsExclusive(run, k - 1);
      CallKeepsWork(run, k - 1);
    }
  }

  lemma CallKeepsWork(run: seq<Event>, k: nat)
    requires k < |run| && WorkInvariant(StateAt(run, k))
    ensures WorkInvariant(StateAt(run, k + 1))
    ensures Occupancy(StateAt(run, k + 1)) + Completions(run, k + 1) - Completions(run, k)
         == Occupancy(StateAt(run, k)) + Grants(run, k + 1) - Grants(run, k)
  {
    StepKeepsWorkInvariant(StateAt(run, k), run[k]);
  }

  /** While the worker is held, a call that is not its completion grants nothing and keeps the occupant. */
  lemma StepKeepsOccupant(s: WorkState, e: Event)
    requires s.inFlightRequestId.Some? && !(e.FinishWork? && s.inFlightRequestId == Some(e.id))
    ensures Step(s, e).0.inFlightRequestId == s.inFlightRequestId
    ensures Granted(Step(s, e).1).None?
    ensures s.terminal.Some? ==> Step(s, e).0.terminal == s.terminal
  {
  }

  lemma GrantOccupies(s: WorkState, e: Event)
    requires Granted(Step(s, e).1).Some?
    ensures Step(s, e).0.inFlightRequestId == Some(Granted(Step(s, e).1).value.requestId)
  {
  }

  /** The occupant is the work granted last: nobody else is granted until exactly it completes. */
  lemma {:induction false} OnlyTheOccupantCompletes(run: seq<Event>, i: nat, j: nat)
    requires i < j <= |run|
    requires Granted(ReplyAt(run, i)).Some?
    requires forall k | i < k < j :: !Completes(run, k)
    ensures StateAt(run, j).inFlightRequestId == Some(Granted(ReplyAt(run, i)).value.requestId)
    ensures forall k | i < k < j :: Granted(ReplyAt(run, k)).None?
    decreases j
  {
    if j == i + 1 {
      GrantOccupies(StateAt(run, i), run[i]);
    } else {
      OnlyTheOccupantCompletes(run, i, j - 1);
      assert !Completes(run, j - 1);
      StepKeepsOccupant(StateAt(run, j - 1), run[j - 1]);
    }
  }

  /** The next completion hands over exactly the waiting obligation. */
  lemma CompletionHandsOver(s: WorkState, e: Event, w: Work)
    requires s.terminal == Some(w) && e.FinishWork? && s.inFlightRequestId == Some(e.id)
    ensures Step(s, e).1 == Next(Some(w))
  {
  }

  predicate NoCompletion(run: seq<Event>, i: nat, j: nat)
    requires i <= j <= |run|
  {
    forall k | i <= k < j :: !Completes(run, k)
  }

  predicate NoGrant(run: seq<Event>, i: nat, j: nat)
    requires i <= j <= |run|
  {
    forall k | i <= k < j :: GrantsNothing(run, k)
  }

  predicate GrantsNothing(run: seq<Event>, k: nat)
    requires k < |run|
  {
    Granted(ReplyAt(run, k)).None?
  }

  /** Until the next completion a queued terminal obligation survives every call and nothing is granted. */
  lemma {:induction false} ObligationSurvives(run: seq<Event>, i: nat, j: nat, w: Work)
    requires i <= j <= |run| && StateAt(run, i).terminal == Some(w) && NoCompletion(run, i, j)
    ensures StateAt(run, j).terminal == Some(w) && NoGrant(run, i, j)
    decreases j
  {
    if j > i {
      ObligationSurvives(run, i, j - 1, w);
      CallKeepsObligation(run, j - 1, w);
    }
  }

  lemma CallKeepsObligation(run: seq<Event>, k: nat, w: Work)
    requires k < |run| && StateAt(run, k).terminal == Some(w) && !Completes(run, k)
    ensures StateAt(run, k + 1).terminal == Some(w) && GrantsNothing(run, k)
  {
    WorkerIsExclusive(run, k);
    StepKeepsOccupant(StateAt(run, k), run[k]);
  }

  /** A queued terminal obligation survives every call until the next completion, which hands over exactly it. */
  lemma ObligationIsPreserved(run: seq<Event>, i: nat, j: nat, w: Work)
    requires i <= j <= |run| && StateAt(run, i).terminal == Some(w) && NoCompletion(run, i, j)
    ensures StateAt(run, j).terminal == Some(w) && NoGrant(run, i, j)
    ensures j < |run| && Completes(run, j) ==> ReplyAt(run, j) == Next(Some(w))
  {
    ObligationSurvives(run, i, j, w);
    if j < |run| && Completes(run, j) {
      CompletionHandsOver(StateAt(run, j), run[j], w);
    }
  }

  /**
   An admitted terminal effect runs at once or is retained, except exactly when another obligation
   already waits; then the earlier one is kept and the later one is dropped.
   */
  lemma TerminalIsRunOrRetained(run: seq<Event>, k: nat)
    requires k < |run| && run[k].EnqueueTerminal? && ReplyAt(run, k) != Dispatch(Rejected)
    ensures var w := Cleanup(run[k].id, run[k].effect, run[k].staleAfterMs);
            var waiting := StateAt(run, k).terminal;
            && (Granted(ReplyAt(run, k)) == Some(w) <==> StateAt(run, k).inFlightRequestId.None?)
            && (StateAt(run, k).inFlightRequestId.Some? ==>
                  StateAt(run, k + 1).terminal == if waiting.None? then Some(w) else waiting)
            && StateAt(run, k + 1).pendingPresentationRequestId.None?
  {
    WorkerIsExclusive(run, k);
  }
}
