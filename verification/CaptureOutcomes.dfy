/** Exactly when each call on the capture writer takes effect, and what it then leaves behind. */
module CaptureOutcomes {
  import opened Prelude
  import opened CaptureWriter

  // ---------------------------------------------------------------------------------------------
  // Identity and annotations
  // ---------------------------------------------------------------------------------------------

  predicate IsNew(annotations: seq<string>, entry: Option<string>) {
    entry.Some? && entry.value !in annotations
  }

  function CountNew(annotations: seq<string>, evidence: Option<string>, detail: Option<string>): nat {
    (if IsNew(annotations, evidence) then 1 else 0) + if IsNew(annotations, detail) then 1 else 0
  }

  predicate Overflows(s: Service, evidence: Option<string>, detail: Option<string>, reserved: nat) {
    |s.metadata.annotations| + CountNew(s.metadata.annotations, evidence, detail) + reserved > MAX_ANNOTATIONS
  }

  /** The update would leave the metadata as it is. */
  predicate IsKnown(s: Service, identity: ResolvedIdentity, evidence: Option<string>, detail: Option<string>) {
    s.metadata.identity == Some(identity) && CountNew(s.metadata.annotations, evidence, detail) == 0
  }

  predicate Open(s: Service) {
    s.slot.Ready? || s.slot.Recording?
  }

  /** The identity is published with its new evidence after all earlier entries; nothing else changed. */
  predicate Publishes(
      s: Service, s': Service, identity: ResolvedIdentity, evidence: Option<string>, detail: Option<string>)
  {
    var (before, after) := (s.metadata.annotations, s'.metadata.annotations);
    && s'.metadata.identity == Some(identity)
    && |after| == |before| + CountNew(before, evidence, detail) && after[..|before|] == before
    && (IsNew(before, evidence) ==> after[|before|] == evidence.value)
    && (IsNew(before, detail) ==> after[|after| - 1] == detail.value)
    && s'.metadata.services == s.metadata.services && s'.metadata.fingerprints == s.metadata.fingerprints
    && s'.slot == s.slot && s'.ingress == s.ingress && s'.startMs == s.startMs && s'.progress == s.progress
    && HeaderFollows(s, s')
  }

  /**
   While recording, an update that is not refused leaves its metadata in the header, unless it repeats metadata that an
   overwriting update had already put out of step with the header. Otherwise the header is left alone.
   */
  predicate HeaderFollows(s: Service, s': Service) {
    if s.slot.Recording? then
      s'.durableHeader == Some(s'.metadata) <==> s'.metadata != s.metadata || s.durableHeader == Some(s.metadata)
    else s'.durableHeader == s.durableHeader
  }

  predicate RefusesIdentity(
      s: Service, identity: ResolvedIdentity, evidence: Option<string>, detail: Option<string>, reserved: nat,
      outcome: WriteOutcome)
  {
    || !Open(s) || Overflows(s, evidence, detail, reserved)
    || (s.slot.Recording? && !IsKnown(s, identity, evidence, detail) && !outcome.Accepted?)
  }

  /** An identity update is refused exactly when the capture is over, its evidence does not fit or it is lost. */
  lemma IdentityUpdateExactly(
      s: Service, identity: ResolvedIdentity, evidence: Option<string>, detail: Option<string>, reserved: nat,
      outcome: WriteOutcome)
    ensures var (s', r) := StepIdentity(s, identity, evidence, detail, reserved, outcome);
            && (r.Refused? <==> RefusesIdentity(s, identity, evidence, detail, reserved, outcome))
            && (r == Unchanged <==> !r.Refused? && IsKnown(s, identity, evidence, detail))
            && (r.Refused? ==> s' == s)
  {
    Appended(s.metadata.annotations, evidence, detail);
  }

  lemma PublishedOrKnown(s: Service, next: Metadata, outcome: WriteOutcome)
    requires next != s.metadata && !Publish(s, next, outcome).1.Refused?
    ensures Publish(s, next, outcome).0.metadata == next && HeaderFollows(s, Publish(s, next, outcome).0)
  {
  }

  /** What an identity update that is not refused makes of the metadata, and of the header. */
  lemma IdentityIsRetained(
      s: Service, identity: ResolvedIdentity, evidence: Option<string>, detail: Option<string>, reserved: nat,
      outcome: WriteOutcome)
    requires !StepIdentity(s, identity, evidence, detail, reserved, outcome).1.Refused?
    ensures var s' := StepIdentity(s, identity, evidence, detail, reserved, outcome).0;
            var entries := s.metadata.annotations + NewEntries(s.metadata.annotations, evidence, detail);
            && s'.metadata == s.metadata.(identity := Some(identity), annotations := entries)
            && s' == s.(metadata := s'.metadata, durableHeader := s'.durableHeader) && HeaderFollows(s, s')
  {
    var entries := s.metadata.annotations + NewEntries(s.metadata.annotations, evidence, detail);
    var next := s.metadata.(identity := Some(identity), annotations := entries);
    if next != s.metadata {
      PublishedOrKnown(s, next, outcome);
    }
  }

  /** An identity update that is not refused is published. */
  lemma IdentityIsPublished(
      s: Service, identity: ResolvedIdentity, evidence: Option<string>, detail: Option<string>, reserved: nat,
      outcome: WriteOutcome)
    requires !StepIdentity(s, identity, evidence, detail, reserved, outcome).1.Refused?
    ensures var s' := StepIdentity(s, identity, evidence, detail, reserved, outcome).0;
            Publishes(s, s', identity, evidence, detail) && s'.binding == s.binding
  {
    Appended(s.metadata.annotations, evidence, detail);
    IdentityIsRetained(s, identity, evidence, detail, reserved, outcome);
  }

  /** Why an update is refused. */
  lemma RefusalReasons(
      s: Service, identity: ResolvedIdentity, evidence: Option<string>, detail: Option<string>, reserved: nat,
      recordingRequired: bool, candidate: Option<seq<string>>, outcome: WriteOutcome, n: nat)
    ensures var r := StepIdentity(s, identity, evidence, detail, reserved, outcome).1;
            && (r == Refused(CapacityReached) <==> Open(s) && Overflows(s, evidence, detail, reserved))
            && (r == Refused(Lost(n)) <==>
                  && s.slot.Recording? && outcome == AdmissionLost(n)
                  && !Overflows(s, evidence, detail, reserved) && !IsKnown(s, identity, evidence, detail))
            && r != Refused(NotRecording)
    ensures var r := StepAnnotations(s, recordingRequired, candidate, outcome).1;
            var allowed := s.slot.Recording? || (s.slot.Ready? && !recordingRequired);
            && (r == Refused(NotRecording) <==> !allowed)
            && (r == Refused(CapacityReached) <==> allowed && candidate.None?)
            && (r == Refused(Lost(n)) <==>
                  && s.slot.Recording? && candidate.Some? && candidate.value != s.metadata.annotations
                  && outcome == AdmissionLost(n))
  {
    Appended(s.metadata.annotations, evidence, detail);
  }

  /** The entries an update appends. */
  lemma Appended(before: seq<string>, evidence: Option<string>, detail: Option<string>)
    ensures var after := before + NewEntries(before, evidence, detail);
            && |after| == |before| + CountNew(before, evidence, detail) && after[..|before|] == before
            && (IsNew(before, evidence) ==> after[|before|] == evidence.value)
            && (IsNew(before, detail) ==> after[|after| - 1] == detail.value)
            && (after == before <==> CountNew(before, evidence, detail) == 0)
            && |NewEntries(before, evidence, detail)| == CountNew(before, evidence, detail)
  {
    var additions := NewEntries(before, evidence, detail);
    if additions == [] {
      assert before + additions == before;
    }
  }

  /** An annotation update replaces the list exactly when it is allowed, fits and is not refused by the writer. */
  lemma AnnotationUpdateExactly(
      s: Service, recordingRequired: bool, candidate: Option<seq<string>>, outcome: WriteOutcome)
    ensures var (s', r) := StepAnnotations(s, recordingRequired, candidate, outcome);
            var allowed := s.slot.Recording? || (s.slot.Ready? && !recordingRequired);
            && (r.Refused? <==>
                  || !allowed || candidate.None?
                  || (s.slot.Recording? && candidate.value != s.metadata.annotations && !outcome.Accepted?))
            && (!r.Refused? ==> s'.metadata == s.metadata.(annotations := candidate.value))
            && (!r.Refused? ==> HeaderFollows(s, s'))
            && s'.binding == s.binding && s'.slot == s.slot && s'.ingress == s.ingress
  {
  }

  // ---------------------------------------------------------------------------------------------
  // Reconciliation
  // ---------------------------------------------------------------------------------------------

  predicate Foreign(s: Service, caller: Binding) {
    s.binding.Some? && s.binding.value != caller
  }

  /**
   A reconciliation answers nothing exactly for a foreign attempt, an unresolved identity, or an
   invalidation before any binding; only the first and the last leave the binding alone.
   */
  lemma ReconcileAnswers(
      s: Service, caller: Binding, change: IdentityChange, evidence: Option<string>, detail: Option<string>,
      reserved: nat, outcome: WriteOutcome)
    ensures var (s', r) := StepReconcile(s, caller, change, evidence, detail, reserved, outcome);
            && (r.None? <==> Foreign(s, caller) || change.Unresolved? || (s.binding.None? && change.Invalidated?))
            && (Foreign(s, caller) || (s.binding.None? && change.Invalidated?) ==> s' == s)
            && (!Foreign(s, caller) && change.Unresolved? ==> s' == s.(binding := Some(caller)))
            && (r.Some? ==> s'.binding == Some(caller))
            && (r.Some? && r.value.Refused? ==> s' == s.(binding := Some(caller)))
  {
    var bound := s.(binding := Some(caller));
    if s.binding.Some? {
      assert Foreign(s, caller) || bound == s;
    }
  }

  /** The bound attempt publishes what it resolved. */
  lemma ResolvedIsPublished(
      s: Service, caller: Binding, identity: ResolvedIdentity, evidence: Option<string>, detail: Option<string>,
      reserved: nat, outcome: WriteOutcome)
    requires !Foreign(s, caller)
    ensures var (s', r) := StepReconcile(s, caller, Resolved(identity), evidence, detail, reserved, outcome);
            && r.Some?
            && (r.value.Refused? <==> RefusesIdentity(s, identity, evidence, detail, reserved, outcome))
            && (!r.value.Refused? ==> Publishes(s, s', identity, evidence, detail))
  {
    var bound := s.(binding := Some(caller));
    IdentityUpdateExactly(bound, identity, evidence, detail, reserved, outcome);
    if !RefusesIdentity(bound, identity, evidence, detail, reserved, outcome) {
      IdentityIsPublished(bound, identity, evidence, detail, reserved, outcome);
    }
  }

  /**
   The bound attempt's invalidation leaves the revoked identity in the metadata, and in the header while
   recording, with the annotations as they were.
   */
  lemma InvalidationRevokes(
      s: Service, caller: Binding, evidence: Option<string>, detail: Option<string>, reserved: nat,
      outcome: WriteOutcome)
    requires s.binding == Some(caller)
    ensures var (s', r) := StepReconcile(s, caller, Invalidated, evidence, detail, reserved, outcome);
            && r.Some?
            && (r.value.Refused? <==>
                  || !Open(s) || |s.metadata.annotations| + reserved > MAX_ANNOTATIONS
                  || (s.slot.Recording? && s.metadata.identity != Some(ResolvedIdentity(None, None, None))
                      && !outcome.Accepted?))
            && (!r.value.Refused? ==>
                  && s'.metadata.identity == Some(ResolvedIdentity(None, None, None))
                  && s'.metadata.annotations == s.metadata.annotations
                  && HeaderFollows(s, s'))
  {
    IdentityUpdateExactly(s, REVOKED, None, None, reserved, outcome);
    if !RefusesIdentity(s, REVOKED, None, None, reserved, outcome) {
      IdentityIsPublished(s, REVOKED, None, None, reserved, outcome);
      var after := StepIdentity(s, REVOKED, None, None, reserved, outcome).0.metadata.annotations;
      assert after[..|s.metadata.annotations|] == after;
    }
  }

  // ---------------------------------------------------------------------------------------------
  // Overwriting updates and the slot
  // ---------------------------------------------------------------------------------------------

  /** Each overwriting update changes its own field only, and the lists keep their bounds. */
  lemma OverwritesChangeOneField(m: Metadata, service: nat, fingerprint: nat, identity: Option<ResolvedIdentity>)
    ensures var m' := Changed(m, NewService(service));
            && m' == m.(services := m'.services)
            && m'.services == if |m.services| < 8 then m.services + [service] else m.services
    ensures var m' := Changed(m, NewFingerprint(fingerprint));
            && m' == m.(fingerprints := m'.fingerprints)
            && m'.fingerprints == if |m.fingerprints| < 16 then m.fingerprints + [fingerprint] else m.fingerprints
    ensures var m' := Changed(m, NewIdentity(identity));
            m'.identity == identity && m' == m.(identity := m'.identity)
  {
  }

  /** The answer to an overwriting update is the writer's while it records, and fixed otherwise. */
  lemma OverwriteAnswers(s: Service, next: Metadata, outcome: WriteOutcome)
    ensures var (s', r) := StepOverwrite(s, next, outcome);
            && s'.metadata == next
            && (r.Accepted? <==> s.slot.Ready? || (s.slot.Recording? && outcome.Accepted?))
            && (s.slot.Recording? ==> r == outcome)
  {
  }

  /** A start takes effect exactly once: at rest, ready and with an origin. */
  lemma StartExactly(s: Service, failure: Option<string>)
    requires Consistent(s)
    ensures var (s', ok) := StepStart(s, failure);
            var allowed := s.slot.Ready? && s.startMs.Some?;
            && (ok <==> allowed && failure.None?)
            && (ok ==> s'.slot.Recording? && s'.ingress && s'.durableHeader == Some(s.metadata))
            && (allowed && failure.Some? ==> s'.slot == Complete(FinishFailed(failure.value)) && !s'.ingress)
            && (!allowed ==> s' == s)
            && s'.metadata == s.metadata && s'.startMs == s.startMs && s'.binding == s.binding
  {
  }

  /** Finishing a recording stores exactly the writer's result and keeps what it accepted. */
  lemma FinishStoresResult(s: Service, result: FinishResult)
    requires Consistent(s) && s.slot.Recording?
    ensures var s' := Step(Step(Step(s, Detach), ClearIngress), StoreResult(result));
            && s'.slot == Complete(result) && !s'.ingress && s'.progress.AtRest?
            && s'.metadata == s.metadata && s'.durableHeader == s.durableHeader
            && StepDetach(s').1 == Some(Done(result))
  {
  }

  /** A finish that finds nothing to do says why, and once complete says the same for ever. */
  lemma FinishAnswers(run: seq<Event>, i: nat, j: nat)
    requires i <= j <= |run|
    ensures var s := StateAt(run, i);
            && (StepDetach(s).1 == Some(NotStarted) <==> s.slot.Ready?)
            && (StepDetach(s).1 == None <==> s.slot.Recording?)
            && (s.slot.Complete? ==>
                  StepDetach(s).1 == Some(Done(s.slot.result)) && StepDetach(StateAt(run, j)).1 == StepDetach(s).1)
  {
    IngressFollowsSlot(run, i);
    IngressFollowsSlot(run, j);
    LifecycleMovesForward(run, i, j);
  }

  /** The first origin offered before anything was started. */
  function FirstOrigin(run: seq<Event>, k: nat): Option<nat>
    requires k <= |run|
  {
    if k == 0 then None
    else if FirstOrigin(run, k - 1).Some? then FirstOrigin(run, k - 1)
    else if run[k - 1].SetStart? && StateAt(run, k - 1).slot.Ready? then Some(run[k - 1].ms)
    else None
  }

  /** In every run the origin of the capture is the first one offered. */
  lemma {:induction false} OriginIsFirst(run: seq<Event>, k: nat)
    requires k <= |run|
    ensures StateAt(run, k).startMs == FirstOrigin(run, k)
  {
    if k > 0 {
      OriginIsFirst(run, k - 1);
      IngressFollowsSlot(run, k - 1);
      OriginStep(StateAt(run, k - 1), run[k - 1]);
    }
  }

  lemma OriginStep(s: Service, e: Event)
    ensures Step(s, e).startMs
         == if e.SetStart? && s.slot.Ready? && s.startMs.None? then Some(e.ms) else s.startMs
  {
  }
}
