/**
 What the activity queue grants and accepts, stated from the history of a run: the fences are the largest
 identifiers admitted, a completion hands over what waits, and a queued presentation is not forgotten.
 */
module ActivityProgress {
  import opened Prelude
  import opened RideActivity

  // ---------------------------------------------------------------------------------------------
  // Dispatch
  // ---------------------------------------------------------------------------------------------

  /** What a completion of the occupant hands over, and whether it frees the worker. */
  lemma CompletionGrants(s: WorkState, e: Event, p: nat)
    requires WorkInvariant(s) && e.FinishWork? && s.inFlightRequestId == Some(e.id)
    ensures var (s', r) := Step(s, e);
            && (Granted(r) == Some(Presentation(p)) <==>
                  s.terminal.None? && s.pendingPresentationRequestId == Some(p) && p == s.latestRequestId)
            && (s.terminal.Some? ==> Granted(r) == s.terminal)
            && (Granted(r).None? <==>
                  s.terminal.None? && s.pendingPresentationRequestId != Some(s.latestRequestId))
            && s'.inFlightRequestId == (if Granted(r).Some? then Some(Granted(r).value.requestId) else None)
            && s'.terminal.None?
            && s'.pendingPresentationRequestId
               == if s.terminal.Some? then s.pendingPresentationRequestId else None
  {
  }

  /** Every other call to finish changes nothing and grants nothing. */
  lemma StrayCompletionIsIgnored(s: WorkState, id: nat)
    requires s.inFlightRequestId != Some(id)
    ensures Step(s, FinishWork(id)) == (s, Next(None))
  {
  }

  /** In every run a completion grants a presentation exactly when it waits, is still selected and nothing is owed. */
  lemma RunCompletionGrants(run: seq<Event>, k: nat, p: nat)
    requires k < |run| && Completes(run, k)
    ensures var s := StateAt(run, k);
            Granted(ReplyAt(run, k)) == Some(Presentation(p))
            <==> s.terminal.None? && s.pendingPresentationRequestId == Some(p) && p == s.latestRequestId
  {
    WorkerIsExclusive(run, k);
    CompletionGrants(StateAt(run, k), run[k], p);
  }

  /** A selected identifier runs on an idle worker and waits on a busy one; any other is rejected. */
  lemma EnqueueExactly(s: WorkState, p: nat)
    ensures var (s', r) := Step(s, EnqueuePresentation(p));
            && (r == Dispatch(Rejected) <==> p == 0 || p != s.latestRequestId)
            && (r == Dispatch(Rejected) ==> s' == s)
            && (r == Dispatch(Run(Presentation(p))) <==> p != 0 && p == s.latestRequestId && s.inFlightRequestId.None?)
            && (p != 0 && p == s.latestRequestId && s.inFlightRequestId.Some? ==>
                  && r == Dispatch(Queued(s.pendingPresentationRequestId))
                  && s' == s.(pendingPresentationRequestId := Some(p)))
            && (r == Dispatch(Run(Presentation(p))) ==> s' == s.(inFlightRequestId := Some(p)))
  {
  }

  /** A terminal effect is admitted exactly for the latest request or the admitted Terminal. */
  lemma TerminalExactly(s: WorkState, id: nat, effect: TerminalEffect, staleAfterMs: nat)
    ensures var (s', r) := Step(s, EnqueueTerminal(id, effect, staleAfterMs));
            var work := Cleanup(id, effect, staleAfterMs);
            && (r == Dispatch(Rejected) <==> id == 0 || (id != s.latestRequestId && id != s.latestTerminalRequestId))
            && (r == Dispatch(Rejected) ==> s' == s)
            && (r != Dispatch(Rejected) && s.inFlightRequestId.None? ==>
                  r == Dispatch(Run(work)) && s'.inFlightRequestId == Some(id))
            && (r != Dispatch(Rejected) && s.inFlightRequestId.Some? ==>
                  && r == Dispatch(Queued(s.pendingPresentationRequestId))
                  && s'.terminal == (if s.terminal.Some? then s.terminal else Some(work)))
            && (r != Dispatch(Rejected) ==> s'.pendingPresentationRequestId.None?)
  {
  }

  /** The step replaces or clears the waiting presentation. */
  predicate Displaces(run: seq<Event>, k: nat)
    requires k < |run|
  {
    || (run[k].EnqueuePresentation? && ReplyAt(run, k).Dispatch? && ReplyAt(run, k).dispatched.Queued?)
    || (run[k].EnqueueTerminal? && ReplyAt(run, k) != Dispatch(Rejected))
    || AdmitsDisconnect(run, k)
    || Completes(run, k)
  }

  lemma StepKeepsWaiting(s: WorkState, e: Event)
    requires WorkInvariant(s) && s.pendingPresentationRequestId.Some?
    requires !(e.EnqueuePresentation? && Step(s, e).1.Dispatch? && Step(s, e).1.dispatched.Queued?)
    requires !(e.EnqueueTerminal? && Step(s, e).1 != Dispatch(Rejected))
    requires !(e.AcceptLifecycle? && e.kind.TransportDisconnected? && Step(s, e).1 == Lifecycle(Reduce))
    requires !(e.FinishWork? && s.inFlightRequestId == Some(e.id))
    ensures Step(s, e).0.pendingPresentationRequestId == s.pendingPresentationRequestId
  {
  }

  lemma CallKeepsWaiting(run: seq<Event>, k: nat, p: nat)
    requires k < |run| && StateAt(run, k).pendingPresentationRequestId == Some(p) && !Displaces(run, k)
    ensures StateAt(run, k + 1).pendingPresentationRequestId == Some(p)
  {
    WorkerIsExclusive(run, k);
    StepKeepsWaiting(StateAt(run, k), run[k]);
  }

  lemma {:induction false} WaitingIsKept(run: seq<Event>, i: nat, j: nat, p: nat)
    requires i <= j <= |run| && StateAt(run, i).pendingPresentationRequestId == Some(p)
    requires forall k | i <= k < j :: !Displaces(run, k)
    ensures StateAt(run, j).pendingPresentationRequestId == Some(p)
    decreases j
  {
    if i < j {
      WaitingIsKept(run, i, j - 1, p);
      CallKeepsWaiting(run, j - 1, p);
    }
  }

  /**
   In every run a presentation answered Queued waits until it is replaced, cleared by a terminal effect or a
   disconnect, or a completion comes; that completion hands it over if and only if no obligation waits and
   it is still the latest request.
   */
  lemma QueuedPresentationIsGranted(run: seq<Event>, i: nat, j: nat, p: nat)
    requires i < j < |run| && run[i] == EnqueuePresentation(p)
    requires ReplyAt(run, i).Dispatch? && ReplyAt(run, i).dispatched.Queued?
    requires (forall k | i < k < j :: !Displaces(run, k)) && Completes(run, j)
    ensures Granted(ReplyAt(run, j)) == Some(Presentation(p))
       <==> StateAt(run, j).terminal.None? && StateAt(run, j).latestRequestId == p
  {
    EnqueueExactly(StateAt(run, i), p);
    WaitingIsKept(run, i + 1, j, p);
    RunCompletionGrants(run, j, p);
  }

  // ---------------------------------------------------------------------------------------------
  // Fences are maxima
  // ---------------------------------------------------------------------------------------------

  /** An observation accepted by call `k`. */
  predicate Accepts(run: seq<Event>, k: nat)
    requires k < |run|
  {
    (run[k].AcceptRequest? || run[k].AcceptPresentation?) && ReplyAt(run, k) == Decided(true)
  }

  datatype LifecycleKind = OfTerminal | OfBackground | OfTransport | OfScene

  predicate AdmitsKind(s: WorkState, e: Event, kind: LifecycleKind) {
    && e.AcceptLifecycle? && Step(s, e).1 != Lifecycle(LifecycleRejected)
    && match kind
       case OfTerminal => e.kind.Terminal?
       case OfBackground => e.kind.Background?
       case OfTransport => e.kind.TransportDisconnected?
       case OfScene => e.kind.Foreground? || (e.kind.Background? && Step(s, e).1 != Lifecycle(FlushOnly))
  }

  predicate Admits(run: seq<Event>, k: nat, kind: LifecycleKind)
    requires k < |run|
  {
    AdmitsKind(StateAt(run, k), run[k], kind)
  }

  function LargestAccepted(run: seq<Event>, k: nat): nat
    requires k <= |run|
  {
    if k == 0 then 0
    else if Accepts(run, k - 1) then Max(LargestAccepted(run, k - 1), run[k - 1].id)
    else LargestAccepted(run, k - 1)
  }

  function LargestAdmitted(run: seq<Event>, k: nat, kind: LifecycleKind): nat
    requires k <= |run|
  {
    if k == 0 then 0
    else if Admits(run, k - 1, kind) then Max(LargestAdmitted(run, k - 1, kind), run[k - 1].id)
    else LargestAdmitted(run, k - 1, kind)
  }

  function Fence(s: WorkState, kind: LifecycleKind): nat {
    match kind
    case OfTerminal => s.latestTerminalRequestId
    case OfBackground => s.latestBackgroundRequestId
    case OfTransport => s.latestTransportRequestId
    case OfScene => s.latestSceneRequestId
  }

  lemma CallMovesFences(run: seq<Event>, k: nat, kind: LifecycleKind)
    requires k < |run|
    ensures Fence(StateAt(run, k + 1), kind)
         == if Admits(run, k, kind) then Max(Fence(StateAt(run, k), kind), run[k].id) else Fence(StateAt(run, k), kind)
    ensures StateAt(run, k + 1).latestPresentationRequestId
         == if Accepts(run, k) then Max(StateAt(run, k).latestPresentationRequestId, run[k].id)
            else StateAt(run, k).latestPresentationRequestId
  {
    StepMovesFence(StateAt(run, k), run[k], kind);
    StepMovesPresentationFence(StateAt(run, k), run[k]);
  }

  lemma StepMovesFence(s: WorkState, e: Event, kind: LifecycleKind)
    ensures Fence(Step(s, e).0, kind) == if AdmitsKind(s, e, kind) then Max(Fence(s, kind), e.id) else Fence(s, kind)
  {
  }

  lemma StepMovesPresentationFence(s: WorkState, e: Event)
    ensures var accepted := (e.AcceptRequest? || e.AcceptPresentation?) && Step(s, e).1 == Decided(true);
            Step(s, e).0.latestPresentationRequestId
            == if accepted then Max(s.latestPresentationRequestId, e.id) else s.latestPresentationRequestId
  {
  }

  /** In every run each fence is the largest identifier admitted for it so far. */
  lemma {:induction false} FencesAreMaxima(run: seq<Event>, k: nat, kind: LifecycleKind)
    requires k <= |run|
    ensures Fence(StateAt(run, k), kind) == LargestAdmitted(run, k, kind)
    ensures StateAt(run, k).latestPresentationRequestId == LargestAccepted(run, k)
  {
    if k > 0 {
      FencesAreMaxima(run, k - 1, kind);
      CallMovesFences(run, k - 1, kind);
    }
  }

  /** The host shows a session of this platform that has begun and is not over. */
  predicate IsLive(snapshot: Observation, platform: string) {
    && snapshot.phase in {Starting, Active, Reconnecting, Stale}
    && snapshot.identity.Some? && snapshot.identity.value.platformIdentifier == platform
  }

  /** A presentation begins a session exactly when none is live for its platform and no start of it is pending. */
  predicate Begins(s: WorkState, e: Event)
    requires e.AcceptPresentation?
  {
    !IsLive(e.snapshot, e.platformIdentifier) && s.pendingStartPlatformIdentifier != Some(e.platformIdentifier)
  }

  lemma BeginsExactly(s: WorkState, e: Event)
    requires e.AcceptPresentation?
    ensures StartsNewSession(s, e.platformIdentifier, e.snapshot) <==> Begins(s, e)
  {
    match e.snapshot.phase {
      case Idle | Ending | Ended =>
      case Starting | Active | Reconnecting | Stale =>
    }
  }

  /**
   In every run an observation is accepted if and only if its identifier exceeds every observation accepted and
   every Terminal admitted before it, and a presentation of a running session is newer than the disconnect.
   */
  lemma ObservationsAreAccepted(run: seq<Event>, k: nat)
    requires k < |run| && (run[k].AcceptRequest? || run[k].AcceptPresentation?)
    ensures var s := StateAt(run, k);
            var ahead := run[k].id > LargestAccepted(run, k) && run[k].id > LargestAdmitted(run, k, OfTerminal);
            var late := run[k].AcceptPresentation? && s.disconnectedAtMs.Some?
                        && run[k].telemetryAtMs <= s.disconnectedAtMs.value
                        && !Begins(s, run[k]);
            Accepts(run, k) <==> ahead && !late
  {
    FencesAreMaxima(run, k, OfTerminal);
    if run[k].AcceptPresentation? {
      BeginsExactly(StateAt(run, k), run[k]);
    }
  }

  /** In every run a lifecycle request is admitted if and only if it is newest of its kind and a session allows it. */
  lemma LifecycleRequestsAreAdmitted(run: seq<Event>, k: nat)
    requires k < |run| && run[k].AcceptLifecycle?
    ensures var (s, id) := (StateAt(run, k), run[k].id);
            ReplyAt(run, k) != Lifecycle(LifecycleRejected) <==>
              && id != 0
              && match run[k].kind
                 case Terminal => id > LargestAdmitted(run, k, OfTerminal) && id > s.latestSessionRequestId
                 case Background => id > LargestAdmitted(run, k, OfBackground)
                 case Foreground => id > LargestAdmitted(run, k, OfScene)
                 case TransportDisconnected(at) =>
                   && id > LargestAdmitted(run, k, OfTransport) && id > s.latestSessionRequestId
                   && (s.latestTelemetryAtMs.Some? ==> s.latestTelemetryAtMs.value <= at)
                   && (s.disconnectedAtMs.Some? ==> s.disconnectedAtMs.value <= at)
    ensures ReplyAt(run, k) == Lifecycle(FlushOnly)
       <==> && run[k].kind.Background? && run[k].id != 0
            && LargestAdmitted(run, k, OfBackground) < run[k].id <= LargestAdmitted(run, k, OfScene)
    ensures ReplyAt(run, k) == Lifecycle(ReduceAndFlush)
       <==> && run[k].kind.Background? && run[k].id > LargestAdmitted(run, k, OfBackground)
            && run[k].id > LargestAdmitted(run, k, OfScene) && run[k].snapshot.phase in {Idle, Ended}
  {
    FencesAreMaxima(run, k, OfTerminal);
    FencesAreMaxima(run, k, OfBackground);
    FencesAreMaxima(run, k, OfTransport);
    FencesAreMaxima(run, k, OfScene);
  }

  /**
   What an admitted lifecycle request changes, and a refused one nothing: a terminal request ends a pending start and
   selects itself unless a newer request is selected, a disconnect is dated and takes back the waiting presentation,
   and a scene change moves its fences only.
   */
  lemma LifecycleRequestsTakeEffect(s: WorkState, id: nat, kind: LifecycleRequest, snapshot: Observation)
    ensures var (s', r) := Step(s, AcceptLifecycle(id, kind, snapshot));
            if r == Lifecycle(LifecycleRejected) then s' == s
            else
              match kind
              case Terminal =>
                && s'.latestTerminalRequestId == id && s'.pendingStartPlatformIdentifier.None?
                && s'.latestRequestId >= id && (s'.latestRequestId == s.latestRequestId || s'.latestRequestId == id)
                && s' == s.(latestTerminalRequestId := id, pendingStartPlatformIdentifier := None,
                            latestRequestId := s'.latestRequestId)
                && s.latestRequestId <= s'.latestRequestId
              case TransportDisconnected(at) =>
                && s'.pendingPresentationRequestId.None? && s'.disconnectedAtMs == Some(at)
                && s' == s.(latestTransportRequestId := id, disconnectedAtMs := Some(at),
                            pendingPresentationRequestId := None)
              case Background =>
                s' == s.(latestBackgroundRequestId := id, latestSceneRequestId := Max(s.latestSceneRequestId, id))
              case Foreground => s' == s.(latestSceneRequestId := id)
  {
  }

  // ---------------------------------------------------------------------------------------------
  // Sessions and rendering
  // ---------------------------------------------------------------------------------------------

  /** A session start is remembered; it moves the session fence unless it is known or fulfils the pending start. */
  lemma SessionStartsAreNoted(s: WorkState, id: nat, identity: Identity)
    ensures var s' := Step(s, NoteSessionStart(id, identity)).0;
            var fulfils := id >= s.latestSessionRequestId
                           && s.pendingStartPlatformIdentifier == Some(identity.platformIdentifier);
            && s'.latestSessionIdentity == Some(identity)
            && s'.latestSessionRequestId
               == (if s.latestSessionIdentity != Some(identity) && !fulfils && id > s.latestSessionRequestId
                   then id else s.latestSessionRequestId)
            && (s'.pendingStartPlatformIdentifier
                == if s.latestSessionIdentity != Some(identity) && fulfils then None
                   else s.pendingStartPlatformIdentifier)
  {
  }

  /** A presentation that begins a session takes the fence, the pending start and both clocks. */
  lemma SessionsBegin(s: WorkState, e: Event)
    requires e.AcceptPresentation? && Step(s, e).1 == Decided(true)
    ensures var s' := Step(s, e).0;
            && s'.latestRequestId == e.id
            && (if Begins(s, e) then
                  && s'.latestSessionRequestId == e.id && s'.disconnectedAtMs.None?
                  && s'.pendingStartPlatformIdentifier == Some(e.platformIdentifier)
                  && s'.latestTelemetryAtMs == Some(e.telemetryAtMs)
                else
                  && s'.latestSessionRequestId == s.latestSessionRequestId && s'.disconnectedAtMs == s.disconnectedAtMs
                  && s'.latestTelemetryAtMs.Some? && e.telemetryAtMs <= s'.latestTelemetryAtMs.value
                  && (|| s'.latestTelemetryAtMs == Some(e.telemetryAtMs)
                      || s'.latestTelemetryAtMs == s.latestTelemetryAtMs))
  {
    BeginsExactly(s, e);
  }

  function LatestRendered(run: seq<Event>, k: nat): Option<nat>
    requires k <= |run|
  {
    if k == 0 then None
    else
      var before := LatestRendered(run, k - 1);
      if !run[k - 1].PresentationUpdated? then before
      else if before.Some? && before.value >= run[k - 1].telemetryAtMs then before
      else Some(run[k - 1].telemetryAtMs)
  }

  /** In every run the rendered telemetry time is the latest one reported. */
  lemma {:induction false} RenderedIsLatest(run: seq<Event>, k: nat)
    requires k <= |run|
    ensures StateAt(run, k).lastProjectionTelemetryAtMs == LatestRendered(run, k)
  {
    if k > 0 {
      RenderedIsLatest(run, k - 1);
      RenderedStep(StateAt(run, k - 1), run[k - 1]);
    }
  }

  lemma RenderedStep(s: WorkState, e: Event)
    ensures !e.PresentationUpdated? ==> Step(s, e).0.lastProjectionTelemetryAtMs == s.lastProjectionTelemetryAtMs
    ensures e.PresentationUpdated? ==>
              var (before, after) := (s.lastProjectionTelemetryAtMs, Step(s, e).0.lastProjectionTelemetryAtMs);
              after == if before.Some? && before.value >= e.telemetryAtMs then before else Some(e.telemetryAtMs)
  {
  }
}
