/**
 The protocol session's side of one application query: which native receipts it has seen, and what
 it concludes about whether any byte may have reached the controller.
 */
module ApplicationQuery {
  import opened Prelude

  const MAX_FRAGMENTS := 32
  const DISCOVERY_TIMEOUT_MS := 2_000

  datatype Query = Query(id: nat, submitBefore: nat)

  datatype Status = Queued | Submitted | Rejected | Cancelled | SubmissionUnknown

  datatype Progress =
    | NotRequested
    | InFlight(write: Query, emittedAt: nat, fragmentCount: Option<nat>, submitted: seq<bool>)
    | Awaiting(queryId: nat, submittedAt: nat, deadline: nat)
    | ResponseExpired(queryId: nat)
    | Resolved(queryId: nat)
    | KnownUnsent(queryId: nat)
    | PartialUncertain(queryId: nat)

  predicate WellFormed(p: Progress) {
    p.InFlight? ==> |p.submitted| == MAX_FRAGMENTS
  }

  predicate HasSubmission(submitted: seq<bool>) {
    exists i :: 0 <= i < |submitted| && submitted[i]
  }

  predicate AllSubmitted(submitted: seq<bool>, count: nat)
    requires count <= |submitted|
  {
    forall i | 0 <= i < count :: submitted[i]
  }

  function FailedState(p: Progress): Progress
    requires p.InFlight?
  {
    if HasSubmission(p.submitted) then PartialUncertain(p.write.id) else KnownUnsent(p.write.id)
  }

  /** Checked immediately before each native fragment write. */
  predicate IsCurrent(p: Progress, id: nat, at: nat) {
    p.InFlight? && p.write.id == id && p.emittedAt <= at < p.write.submitBefore
  }

  /** Records one native receipt; the flag says whether it was accepted. */
  function Record(p: Progress, id: nat, index: nat, count: nat, status: Status, at: nat): (r: (Progress, bool))
    requires WellFormed(p)
    ensures WellFormed(r.0)
  {
    if p.KnownUnsent? && p.queryId == id && (status.Submitted? || status.SubmissionUnknown?) then
      (PartialUncertain(p.queryId), true)
    else if !p.InFlight? || p.write.id != id || at < p.emittedAt then
      (p, false)
    else if status.SubmissionUnknown? then
      (PartialUncertain(id), true)
    else if count == 0 || count > MAX_FRAGMENTS || index >= count
         || (p.fragmentCount.Some? && p.fragmentCount.value != count) then
      (if status.Submitted? || HasSubmission(p.submitted) then PartialUncertain(id) else KnownUnsent(id), false)
    else
      RecordFragment(p.(fragmentCount := Some(count)), index, count, status, at)
  }

  function RecordFragment(p: Progress, index: nat, count: nat, status: Status, at: nat): (r: (Progress, bool))
    requires p.InFlight? && WellFormed(p) && index < count <= MAX_FRAGMENTS && !status.SubmissionUnknown?
    ensures WellFormed(r.0)
  {
    if p.submitted[index] then
      (p, false)
    else
      var p' := if status.Submitted? then p.(submitted := p.submitted[index := true]) else p;
      if at >= p.write.submitBefore then
        (FailedState(p'), false)
      else
        match status
        case Queued => (p', true)
        case Submitted =>
          if AllSubmitted(p'.submitted, count) then
            (Awaiting(p.write.id, at, SaturatingAdd(at, DISCOVERY_TIMEOUT_MS)), true)
          else
            (p', true)
        case _ => (FailedState(p'), true)
  }
}
