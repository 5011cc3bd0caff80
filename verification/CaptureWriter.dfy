/**
 The capture writer service: a four-state writer slot, the metadata retained for the capture header,
 the location ingress, and identity admission bound to one connection attempt.

 The writer's answers to metadata updates, start and finish are inputs. `durableHeader` is what the
 writer itself has accepted; it belongs to the writer and outlives the slot.
 */
module CaptureWriter {
  import opened Prelude

  const MAX_SERVICES := 8
  const MAX_FINGERPRINTS := 16
  const MAX_ANNOTATIONS := 256

  datatype ResolvedIdentity = ResolvedIdentity(
    protocolFamily: Option<string>, model: Option<string>, firmware: Option<string>)

  const REVOKED := ResolvedIdentity(None, None, None)

  datatype Metadata = Metadata(
    services: seq<nat>, fingerprints: seq<nat>, identity: Option<ResolvedIdentity>, annotations: seq<string>)

  datatype FinishResult = Finished(artifact: string) | FinishFailed(message: string)

  datatype WriterSlot = Ready | Recording | Finalizing | Complete(result: FinishResult)

  /** The attempt that may publish identity. */
  datatype Binding = Binding(ownerId: nat, token: nat)

  datatype IdentityChange = Unresolved | Resolved(identity: ResolvedIdentity) | Invalidated

  /** The writer's answer to a metadata update. */
  datatype WriteOutcome = Accepted | AdmissionLost(droppedMessages: nat) | Failed

  datatype UpdateError = NotRecording | CapacityReached | Lost(droppedMessages: nat) | WriterFailed

  datatype UpdateResult = Unchanged | Updated | Refused(error: UpdateError)

  datatype FinishState = NotStarted | StillFinalizing | Done(result: FinishResult)

  /** How far the caller holding the finish lock has got. */
  datatype FinishProgress = AtRest | Detached | Draining

  datatype Service = Service(
    metadata: Metadata,
    binding: Option<Binding>,
    slot: WriterSlot,
    ingress: bool,
    startMs: Option<nat>,
    progress: FinishProgress,
    durableHeader: Option<Metadata>)

  const IDLE := Service(Metadata([], [], None, []), None, Ready, false, None, AtRest, None)

  // ---------------------------------------------------------------------------------------------
  // Specification of one call
  // ---------------------------------------------------------------------------------------------

  /** A batch is admitted whole, leaving `reserved` slots to close the labels it leaves open. */
  function TryAppend(entries: seq<string>, additions: seq<string>, reserved: nat): Option<seq<string>> {
    if |entries| + |additions| + reserved > MAX_ANNOTATIONS then None else Some(entries + additions)
  }

  function NewEntries(entries: seq<string>, evidence: Option<string>, detail: Option<string>): seq<string> {
    (if evidence.Some? && evidence.value !in entries then [evidence.value] else [])
    + (if detail.Some? && detail.value !in entries then [detail.value] else [])
  }

  /** Offers a header to the writer, if there is one, and retains it only if it was admitted. */
  function Publish(s: Service, next: Metadata, outcome: WriteOutcome): (Service, UpdateResult) {
    if s.slot.Recording? then
      match outcome
      case Accepted => (s.(metadata := next, durableHeader := Some(next)), Updated)
      case AdmissionLost(n) => (s, Refused(Lost(n)))
      case Failed => (s, Refused(WriterFailed))
    else
      (s.(metadata := next), Updated)
  }

  function StepIdentity(
      s: Service, identity: ResolvedIdentity, evidence: Option<string>, detail: Option<string>,
      reserved: nat, outcome: WriteOutcome)
    : (Service, UpdateResult)
  {
    var entries := TryAppend(s.metadata.annotations, NewEntries(s.metadata.annotations, evidence, detail), reserved);
    if !(s.slot.Ready? || s.slot.Recording?) then
      (s, Refused(WriterFailed))
    else if entries.None? then
      (s, Refused(CapacityReached))
    else
      var next := s.metadata.(identity := Some(identity), annotations := entries.value);
      if next == s.metadata then (s, Unchanged) else Publish(s, next, outcome)
  }

  /** `candidate` is what the caller's transition made of the annotations, `None` if it did not fit. */
  function StepAnnotations(s: Service, recordingRequired: bool, candidate: Option<seq<string>>, outcome: WriteOutcome)
    : (Service, UpdateResult)
  {
    if !(s.slot.Recording? || (s.slot.Ready? && !recordingRequired)) then
      (s, Refused(NotRecording))
    else if candidate.None? then
      (s, Refused(CapacityReached))
    else if candidate.value == s.metadata.annotations then
      (s, Unchanged)
    else
      Publish(s, s.metadata.(annotations := candidate.value), outcome)
  }

  function StepReconcile(
      s: Service, caller: Binding, change: IdentityChange, evidence: Option<string>, detail: Option<string>,
      reserved: nat, outcome: WriteOutcome)
    : (Service, Option<UpdateResult>)
  {
    if s.binding.Some? && s.binding.value != caller then
      (s, None)
    else if s.binding.None? && change.Invalidated? then
      (s, None)
    else
      var bound := s.(binding := Some(caller));
      match change
      case Unresolved => (bound, None)
      case Resolved(identity) =>
        var (s', r) := StepIdentity(bound, identity, evidence, detail, reserved, outcome); (s', Some(r))
      case Invalidated =>
        var (s', r) := StepIdentity(bound, REVOKED, None, None, reserved, outcome); (s', Some(r))
  }

  /** A field is replaced first and then offered to the writer, whatever the writer answers. */
  function StepOverwrite(s: Service, next: Metadata, outcome: WriteOutcome): (Service, WriteOutcome) {
    match s.slot
    case Ready => (s.(metadata := next), Accepted)
    case Recording =>
      (s.(metadata := next, durableHeader := if outcome.Accepted? then Some(next) else s.durableHeader), outcome)
    case _ => (s.(metadata := next), Failed)
  }

  /** The database or file writer is created from the retained metadata. */
  function StepStart(s: Service, failure: Option<string>): (Service, bool) {
    if !s.progress.AtRest? || !s.slot.Ready? || s.startMs.None? then
      (s, false)
    else if failure.Some? then
      (s.(slot := Complete(FinishFailed(failure.value))), false)
    else
      (s.(slot := Recording, ingress := true, durableHeader := Some(s.metadata)), true)
  }

  function StepDetach(s: Service): (Service, Option<FinishState>) {
    if !s.progress.AtRest? then (s, Some(StillFinalizing))
    else
      match s.slot
      case Complete(result) => (s, Some(FinishState.Done(result)))
      case Ready => (s, Some(NotStarted))
      case Finalizing => (s, Some(StillFinalizing))
      case Recording => (s.(slot := Finalizing, progress := Detached), None)
  }

  /** The three fields that are replaced before the writer is asked. */
  datatype FieldChange =
    | NewService(service: nat)
    | NewFingerprint(fingerprint: nat)
    | NewIdentity(newIdentity: Option<ResolvedIdentity>)

  /**
   `AddService`, `AddFingerprint` and `SetIdentity` are whole calls. The field is unlocked before the writer
   is locked, so `Replace` and `Offer` are their halves, between which other calls may run.
   */
  datatype Event =
    | SetStart(ms: nat)
    | AddService(service: nat, outcome: WriteOutcome)
    | AddFingerprint(fingerprint: nat, outcome: WriteOutcome)
    | SetIdentity(newIdentity: Option<ResolvedIdentity>, outcome: WriteOutcome)
    | UpdateIdentity(identity: ResolvedIdentity, evidence: Option<string>, detail: Option<string>,
                     reserved: nat, outcome: WriteOutcome)
    | UpdateAnnotations(recordingRequired: bool, candidate: Option<seq<string>>, outcome: WriteOutcome)
    | Reconcile(caller: Binding, change: IdentityChange, evidence: Option<string>, detail: Option<string>,
                reserved: nat, outcome: WriteOutcome)
    | Replace(field: FieldChange)
    | Offer(outcome: WriteOutcome)
    | Start(failure: Option<string>)
    | Detach
    | ClearIngress
    | StoreResult(result: FinishResult)

  function WithService(m: Metadata, service: nat): Metadata {
    if |m.services| < MAX_SERVICES then m.(services := m.services + [service]) else m
  }

  function WithFingerprint(m: Metadata, fingerprint: nat): Metadata {
    if |m.fingerprints| < MAX_FINGERPRINTS then m.(fingerprints := m.fingerprints + [fingerprint]) else m
  }

  function Changed(m: Metadata, change: FieldChange): Metadata {
    match change
    case NewService(service) => WithService(m, service)
    case NewFingerprint(fingerprint) => WithFingerprint(m, fingerprint)
    case NewIdentity(identity) => m.(identity := identity)
  }

  function Step(s: Service, e: Event): Service {
    match e
    case SetStart(ms) => if s.slot.Ready? && s.startMs.None? then s.(startMs := Some(ms)) else s
    case AddService(service, outcome) => StepOverwrite(s, WithService(s.metadata, service), outcome).0
    case AddFingerprint(f, outcome) => StepOverwrite(s, WithFingerprint(s.metadata, f), outcome).0
    case SetIdentity(identity, outcome) => StepOverwrite(s, s.metadata.(identity := identity), outcome).0
    case UpdateIdentity(identity, evidence, detail, reserved, outcome) =>
      StepIdentity(s, identity, evidence, detail, reserved, outcome).0
    case UpdateAnnotations(required, candidate, outcome) => StepAnnotations(s, required, candidate, outcome).0
    case Reconcile(caller, change, evidence, detail, reserved, outcome) =>
      StepReconcile(s, caller, change, evidence, detail, reserved, outcome).0
    case Replace(change) => s.(metadata := Changed(s.metadata, change))
    case Offer(outcome) => StepOverwrite(s, s.metadata, outcome).0
    case Start(failure) => StepStart(s, failure).0
    case Detach => StepDetach(s).0
    case ClearIngress => if s.progress.Detached? then s.(ingress := false, progress := Draining) else s
    case StoreResult(result) =>
      if s.progress.Draining? then s.(slot := Complete(result), progress := AtRest) else s
  }

  // ---------------------------------------------------------------------------------------------
  // The service object
  // ---------------------------------------------------------------------------------------------

  class CaptureWriterService {
    var services: seq<nat>
    var fingerprints: seq<nat>
    var resolvedIdentity: Option<ResolvedIdentity>
    var annotations: seq<string>
    var captureIdentityAdmission: Option<Binding>
    var writer: WriterSlot
    var locationIngress: bool
    var captureStartMonotonicMs: Option<nat>
    var progress: FinishProgress
    var durableHeader: Option<Metadata>

    function CurrentMetadata(): Metadata
      reads this
    {
      Metadata(services, fingerprints, resolvedIdentity, annotations)
    }

    function View(): Service
      reads this
    {
      Service(CurrentMetadata(), captureIdentityAdmission, writer, locationIngress, captureStartMonotonicMs,
              progress, durableHeader)
    }

    constructor ()
      ensures View() == IDLE
    {
      services, fingerprints, resolvedIdentity, annotations := [], [], None, [];
      captureIdentityAdmission, writer, locationIngress := None, Ready, false;
      captureStartMonotonicMs, progress, durableHeader := None, AtRest, None;
    }

    method SetStartMonotonicMs(ms: nat) returns (ok: bool)
      modifies this
      ensures View() == Step(old(View()), SetStart(ms))
      ensures ok <==> View() != old(View())
    {
      if !writer.Ready? {
        return false;
      }
      if captureStartMonotonicMs.Some? {
        return false;
      }
      captureStartMonotonicMs := Some(ms);
      return true;
    }

    /** The writer admits or refuses a header. */
    method Offer(header: Metadata, outcome: WriteOutcome)
      modifies this`durableHeader
      ensures durableHeader == if outcome.Accepted? then Some(header) else old(durableHeader)
    {
      if outcome.Accepted? {
        durableHeader := Some(header);
      }
    }

    method UpdateMetadata(answer: WriteOutcome) returns (outcome: WriteOutcome)
      modifies this`durableHeader
      ensures (View(), outcome) == StepOverwrite(old(View()), old(CurrentMetadata()), answer)
    {
      match writer {
        case Ready => return Accepted;
        case Recording =>
          Offer(CurrentMetadata(), answer);
          return answer;
        case _ => return Failed;
      }
    }

    method AddAdvertisedService(service: nat, answer: WriteOutcome) returns (outcome: WriteOutcome)
      modifies this
      ensures (View(), outcome) == StepOverwrite(old(View()), WithService(old(CurrentMetadata()), service), answer)
    {
      if |services| < MAX_SERVICES {
        services := services + [service];
      }
      outcome := UpdateMetadata(answer);
    }

    method AddGattFingerprint(fingerprint: nat, answer: WriteOutcome) returns (outcome: WriteOutcome)
      modifies this
      ensures (View(), outcome)
           == StepOverwrite(old(View()), WithFingerprint(old(CurrentMetadata()), fingerprint), answer)
    {
      if |fingerprints| < MAX_FINGERPRINTS {
        fingerprints := fingerprints + [fingerprint];
      }
      outcome := UpdateMetadata(answer);
    }

    method SetResolvedIdentity(identity: Option<ResolvedIdentity>, answer: WriteOutcome) returns (outcome: WriteOutcome)
      modifies this
      ensures (View(), outcome) == StepOverwrite(old(View()), old(CurrentMetadata()).(identity := identity), answer)
    {
      resolvedIdentity := identity;
      outcome := UpdateMetadata(answer);
    }

    method UpdateResolvedIdentity(
        identity: ResolvedIdentity, evidence: Option<string>, detail: Option<string>, reserved: nat,
        answer: WriteOutcome)
      returns (r: UpdateResult)
      modifies this
      ensures (View(), r) == StepIdentity(old(View()), identity, evidence, detail, reserved, answer)
    {
      if writer.Finalizing? || writer.Complete? {
        return Refused(WriterFailed);
      }
      var metadata := CurrentMetadata();
      var additions := [];
      if evidence.Some? && evidence.value !in annotations {
        additions := additions + [evidence.value];
      }
      if detail.Some? && detail.value !in annotations {
        additions := additions + [detail.value];
      }
      assert additions == NewEntries(annotations, evidence, detail);
      var candidate := TryAppend(annotations, additions, reserved);
      if candidate.None? {
        return Refused(CapacityReached);
      }
      if metadata.identity == Some(identity) && candidate.value == annotations {
        return Unchanged;
      }
      metadata := metadata.(identity := Some(identity), annotations := candidate.value);
      if writer.Recording? {
        Offer(metadata, answer);
        match answer {
          case Accepted =>
          case AdmissionLost(n) => return Refused(Lost(n));
          case Failed => return Refused(WriterFailed);
        }
      }
      resolvedIdentity := Some(identity);
      annotations := candidate.value;
      return Updated;
    }

    method UpdateAnnotations(recordingRequired: bool, candidate: Option<seq<string>>, answer: WriteOutcome)
      returns (r: UpdateResult)
      modifies this
      ensures (View(), r) == StepAnnotations(old(View()), recordingRequired, candidate, answer)
    {
      match writer {
        case Recording =>
        case Ready =>
          if recordingRequired {
            return Refused(NotRecording);
          }
        case _ => return Refused(NotRecording);
      }
      if candidate.None? {
        return Refused(CapacityReached);
      }
      if candidate.value == annotations {
        return Unchanged;
      }
      var metadata := CurrentMetadata().(annotations := candidate.value);
      if writer.Recording? {
        Offer(metadata, answer);
        match answer {
          case Accepted =>
          case AdmissionLost(n) => return Refused(Lost(n));
          case Failed => return Refused(WriterFailed);
        }
      }
      annotations := candidate.value;
      return Updated;
    }

    method ReconcileCaptureIdentity(
        caller: Binding, change: IdentityChange, evidence: Option<string>, detail: Option<string>, reserved: nat,
        answer: WriteOutcome)
      returns (r: Option<UpdateResult>)
      modifies this
      ensures (View(), r) == StepReconcile(old(View()), caller, change, evidence, detail, reserved, answer)
    {
      if captureIdentityAdmission.Some? {
        if captureIdentityAdmission.value != caller {
          return None;
        }
      } else {
        if change.Invalidated? {
          return None;
        }
        captureIdentityAdmission := Some(caller);
      }
      var result;
      match change {
        case Unresolved => return None;
        case Resolved(identity) => result := UpdateResolvedIdentity(identity, evidence, detail, reserved, answer);
        case Invalidated => result := UpdateResolvedIdentity(REVOKED, None, None, reserved, answer);
      }
      return Some(result);
    }

    /** The finish lock keeps start and a running finish apart. */
    method Start(failure: Option<string>) returns (ok: bool)
      requires progress.AtRest?
      modifies this
      ensures (View(), ok) == StepStart(old(View()), failure)
    {
      if !writer.Ready? || captureStartMonotonicMs.None? {
        return false;
      }
      var metadata := CurrentMetadata();
      if failure.Some? {
        writer := Complete(FinishFailed(failure.value));
        return false;
      }
      durableHeader := Some(metadata);
      locationIngress := true;
      writer := Recording;
      return true;
    }

    method DetachWriter() returns (settled: Option<FinishState>)
      requires progress.AtRest?
      modifies this
      ensures (View(), settled) == StepDetach(old(View()))
    {
      match writer {
        case Complete(result) => return Some(FinishState.Done(result));
        case Ready => return Some(NotStarted);
        case Finalizing => return Some(StillFinalizing);
        case Recording =>
          writer := Finalizing;
          progress := Detached;
          return None;
      }
    }

    /** The whole finish operation when nothing interleaves; `outcome` is the writer's own result. */
    method FinishLocked(outcome: FinishResult) returns (r: FinishState)
      requires progress.AtRest?
      modifies this
      ensures old(writer).Recording? ==>
                && r == FinishState.Done(outcome)
                && View() == Step(Step(Step(old(View()), Detach), ClearIngress), StoreResult(outcome))
      ensures !old(writer).Recording? ==> View() == old(View()) && Some(r) == StepDetach(old(View())).1
    {
      var settled := DetachWriter();
      if settled.Some? {
        return settled.value;
      }
      locationIngress := false;
      progress := Draining;
      writer := Complete(outcome);
      progress := AtRest;
      return FinishState.Done(outcome);
    }
  }

  // ---------------------------------------------------------------------------------------------
  // Runs
  // ---------------------------------------------------------------------------------------------

  function StateAt(run: seq<Event>, k: nat): Service
    requires k <= |run|
  {
    if k == 0 then IDLE else Step(StateAt(run, k - 1), run[k - 1])
  }

  /** An update, or the first half of one, that overwrites its field before the writer answers. */
  predicate Overwrites(e: Event) {
    e.AddService? || e.AddFingerprint? || e.SetIdentity? || e.Replace?
  }

  /** The header the writer accepted is the metadata the service retains. */
  predicate HeaderAgrees(s: Service) {
    s.durableHeader.Some? ==> s.durableHeader == Some(s.metadata)
  }

  function Rank(slot: WriterSlot): nat {
    match slot
    case Ready => 0
    case Recording => 1
    case Finalizing => 2
    case Complete(_) => 3
  }

  /** Facts about slot, ingress and header that every call keeps. */
  predicate Consistent(s: Service) {
    && (s.slot.Ready? ==> s.durableHeader.None?)
    && (s.slot.Recording? ==> s.durableHeader.Some? && s.progress.AtRest? && s.startMs.Some?)
    && (s.progress.AtRest? ==> !s.slot.Finalizing?)
    && (!s.progress.AtRest? ==> s.slot.Finalizing?)
    && (s.ingress <==> s.slot.Recording? || s.progress.Detached?)
  }

  /** The slot has not gone back, and what was fixed has stayed. */
  predicate Forward(a: Service, b: Service) {
    && Rank(a.slot) <= Rank(b.slot)
    && (a.slot.Complete? ==> b.slot == a.slot)
    && (a.startMs.Some? ==> b.startMs == a.startMs)
    && (a.binding.Some? ==> b.binding == a.binding)
  }

  lemma ForwardAgain(a: Service, b: Service, c: Service)
    requires Forward(a, b) && Forward(b, c)
    ensures Forward(a, c)
  {
  }

  lemma StepIsConsistent(s: Service, e: Event)
    requires Consistent(s)
    ensures Consistent(Step(s, e))
    ensures Forward(s, Step(s, e))
    ensures HeaderAgrees(s) && !Overwrites(e) ==> HeaderAgrees(Step(s, e))
  {
  }

  /** At rest the location ingress exists exactly while recording; otherwise at most until it is cleared. */
  lemma {:induction false} IngressFollowsSlot(run: seq<Event>, k: nat)
    requires k <= |run|
    ensures Consistent(StateAt(run, k))
    ensures StateAt(run, k).progress.AtRest? ==> (StateAt(run, k).ingress <==> StateAt(run, k).slot.Recording?)
  {
    if k > 0 {
      IngressFollowsSlot(run, k - 1);
      StepIsConsistent(StateAt(run, k - 1), run[k - 1]);
    }
  }

  /** The metadata an overwriting update leaves, whatever the writer answers. */
  function Overwritten(s: Service, e: Event): Metadata
    requires Overwrites(e)
  {
    match e
    case AddService(service, _) => WithService(s.metadata, service)
    case AddFingerprint(fingerprint, _) => WithFingerprint(s.metadata, fingerprint)
    case SetIdentity(identity, _) => s.metadata.(identity := identity)
    case Replace(change) => Changed(s.metadata, change)
  }

  /** An overwrite before any header exists, without effect, or accepted in the same call by the recording writer. */
  predicate Harmless(s: Service, e: Event) {
    Overwrites(e) ==>
      || s.durableHeader.None?
      || Overwritten(s, e) == s.metadata
      || (s.slot.Recording? && !e.Replace? && e.outcome.Accepted?)
  }

  /**
   Exactly when a call keeps header agreement. The writer answers overwriting updates only while it
   records: once it is finalizing or complete, its header is fixed and every effective overwrite
   breaks agreement, as a refused one does while it records.
   */
  lemma StepAgreement(s: Service, e: Event)
    requires Consistent(s) && HeaderAgrees(s)
    ensures HeaderAgrees(Step(s, e)) <==> Harmless(s, e)
  {
    StepIsConsistent(s, e);
    match e {
      case AddService(_, outcome) => OverwriteAgreement(s, Overwritten(s, e), outcome);
      case AddFingerprint(_, outcome) => OverwriteAgreement(s, Overwritten(s, e), outcome);
      case SetIdentity(_, outcome) => OverwriteAgreement(s, Overwritten(s, e), outcome);
      case _ =>
    }
  }

  predicate AgreesUpTo(run: seq<Event>, k: nat)
    requires k <= |run|
  {
    forall i | 0 <= i <= k :: HeaderAgrees(StateAt(run, i))
  }

  predicate HarmlessUpTo(run: seq<Event>, k: nat)
    requires k <= |run|
  {
    forall i | 0 <= i < k :: Harmless(StateAt(run, i), run[i])
  }

  /**
   In every run, however the halves of overwriting updates interleave with other calls: the header the
   writer accepted has been the retained metadata all along if and only if every overwriting step so far
   was harmless where it was made.
   */
  lemma {:induction false} AcceptedHeaderIsRetained(run: seq<Event>, k: nat)
    requires k <= |run|
    ensures AgreesUpTo(run, k) <==> HarmlessUpTo(run, k)
  {
    if k > 0 {
      AcceptedHeaderIsRetained(run, k - 1);
      CallAgreement(run, k);
      UpToStep(run, k);
    } else {
      assert HeaderAgrees(StateAt(run, 0));
    }
  }

  lemma CallAgreement(run: seq<Event>, k: nat)
    requires 0 < k <= |run|
    ensures HeaderAgrees(StateAt(run, k - 1)) ==>
              (HeaderAgrees(StateAt(run, k)) <==> Harmless(StateAt(run, k - 1), run[k - 1]))
  {
    IngressFollowsSlot(run, k - 1);
    if HeaderAgrees(StateAt(run, k - 1)) {
      StepAgreement(StateAt(run, k - 1), run[k - 1]);
    }
  }

  lemma UpToStep(run: seq<Event>, k: nat)
    requires 0 < k <= |run|
    ensures AgreesUpTo(run, k) <==> AgreesUpTo(run, k - 1) && HeaderAgrees(StateAt(run, k))
    ensures HarmlessUpTo(run, k) <==> HarmlessUpTo(run, k - 1) && Harmless(StateAt(run, k - 1), run[k - 1])
    ensures AgreesUpTo(run, k - 1) ==> HeaderAgrees(StateAt(run, k - 1))
  {
  }

  lemma CallMovesForward(run: seq<Event>, k: nat)
    requires 0 < k <= |run|
    ensures Forward(StateAt(run, k - 1), StateAt(run, k))
  {
    IngressFollowsSlot(run, k - 1);
    StepIsConsistent(StateAt(run, k - 1), run[k - 1]);
  }

  /**
   The slot only moves forward; a terminal result, the capture origin and the identity binding are
   never replaced.
   */
  lemma {:induction false} LifecycleMovesForward(run: seq<Event>, i: nat, j: nat)
    requires i <= j <= |run|
    ensures Forward(StateAt(run, i), StateAt(run, j))
    decreases j - i
  {
    if i < j {
      LifecycleMovesForward(run, i, j - 1);
      CallMovesForward(run, j);
      ForwardAgain(StateAt(run, i), StateAt(run, j - 1), StateAt(run, j));
    }
  }

  /** A refused or over-capacity transactional update leaves everything as it was. */
  lemma RefusedUpdateChangesNothing(s: Service, e: Event)
    ensures e.UpdateIdentity? ==>
              var r := StepIdentity(s, e.identity, e.evidence, e.detail, e.reserved, e.outcome).1;
              r.Refused? ==> Step(s, e) == s
    ensures e.UpdateAnnotations? ==>
              var r := StepAnnotations(s, e.recordingRequired, e.candidate, e.outcome).1;
              r.Refused? ==> Step(s, e) == s
  {
  }

  /** An identity update that is not refused leaves identity and evidence in the header, after all prior entries. */
  lemma AdmittedIdentityIsPublished(
      s: Service, identity: ResolvedIdentity, evidence: Option<string>, detail: Option<string>,
      reserved: nat, outcome: WriteOutcome)
    requires Consistent(s) && HeaderAgrees(s)
    requires !StepIdentity(s, identity, evidence, detail, reserved, outcome).1.Refused?
    ensures var s' := StepIdentity(s, identity, evidence, detail, reserved, outcome).0;
            && s'.metadata.identity == Some(identity)
            && s.metadata.annotations <= s'.metadata.annotations
            && (evidence.Some? ==> evidence.value in s'.metadata.annotations)
            && (detail.Some? ==> detail.value in s'.metadata.annotations)
            && |s'.metadata.annotations| + reserved <= MAX_ANNOTATIONS
            && (s.slot.Recording? ==> s'.durableHeader == Some(s'.metadata))
            && s'.slot == s.slot && s'.ingress == s.ingress
  {
    var additions := NewEntries(s.metadata.annotations, evidence, detail);
    assert evidence.Some? ==> evidence.value in s.metadata.annotations || additions[0] == evidence.value;
    assert detail.Some? ==> detail.value in s.metadata.annotations || additions[|additions| - 1] == detail.value;
  }

  /** Once an attempt is bound, no other attempt ever changes the service. */
  lemma ForeignAttemptIsIgnored(run: seq<Event>, i: nat, j: nat)
    requires i <= j < |run| && StateAt(run, i).binding.Some?
    requires run[j].Reconcile? && Some(run[j].caller) != StateAt(run, i).binding
    ensures StateAt(run, j + 1) == StateAt(run, j)
  {
    LifecycleMovesForward(run, i, j);
  }

  /** Exactly when an overwriting update keeps header agreement, in every slot. */
  lemma OverwriteAgreement(s: Service, next: Metadata, outcome: WriteOutcome)
    requires Consistent(s) && HeaderAgrees(s)
    ensures HeaderAgrees(StepOverwrite(s, next, outcome).0)
       <==> s.durableHeader.None? || next == s.metadata || (s.slot.Recording? && outcome.Accepted?)
  {
  }

  /** Without interference the two halves are the call. */
  lemma OverwriteIsTwoSteps(s: Service, change: FieldChange, outcome: WriteOutcome)
    ensures Step(Step(s, Replace(change)), Offer(outcome))
         == StepOverwrite(s, Changed(s.metadata, change), outcome).0
  {
  }

  /** Any update the recording writer accepts, after whatever run, brings the header back in line. */
  lemma AcceptedUpdateRestoresAgreement(run: seq<Event>, k: nat)
    requires k < |run| && StateAt(run, k).slot.Recording?
    requires StateAt(run, k + 1).durableHeader != StateAt(run, k).durableHeader
    ensures HeaderAgrees(StateAt(run, k + 1))
  {
    IngressFollowsSlot(run, k);
  }

  /** Agreement is really lost: by a refused overwrite while recording. */
  lemma RefusedOverwriteBreaksAgreement()
    ensures exists run: seq<Event> :: |run| == 3 && !HeaderAgrees(StateAt(run, 3))
  {
    var run := [SetStart(0), Start(None), SetIdentity(Some(REVOKED), Failed)];
    assert StateAt(run, 1) == Step(IDLE, run[0]);
    assert StateAt(run, 2) == Step(StateAt(run, 1), run[1]);
    assert StateAt(run, 3) == Step(StateAt(run, 2), run[2]);
  }

  /** And by an overwrite after the capture is complete, when no writer is involved at all. */
  lemma LateOverwriteBreaksAgreement()
    ensures exists run: seq<Event> ::
              && |run| == 6 && StateAt(run, 5).slot.Complete?
              && HeaderAgrees(StateAt(run, 5)) && !HeaderAgrees(StateAt(run, 6))
  {
    var run := [SetStart(0), Start(None), Detach, ClearIngress, StoreResult(Finished("")), AddService(7, Accepted)];
    assert StateAt(run, 1) == Step(IDLE, run[0]);
    assert StateAt(run, 2) == Step(StateAt(run, 1), run[1]);
    assert StateAt(run, 3) == Step(StateAt(run, 2), run[2]);
    assert StateAt(run, 4) == Step(StateAt(run, 3), run[3]);
    assert StateAt(run, 5) == Step(StateAt(run, 4), run[4]);
    assert StateAt(run, 6) == Step(StateAt(run, 5), run[5]);
  }
}
