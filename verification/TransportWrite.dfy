/**
 One protocol write: split at the negotiated limit, submitted fragment by fragment, with a native
 receipt for every fragment of an application query. Receipts survive backend errors, timeouts, a
 stale query and a driver that is dropped while a fragment is in flight.
 */
module TransportWrite {
  import opened Prelude
  import opened ApplicationQuery

  type Byte = b: nat | b < 256

  const MAX_PAYLOAD := 512

  // ---------------------------------------------------------------------------------------------
  // Chunking
  // ---------------------------------------------------------------------------------------------

  /** A non-zero chunk length for any negotiated limit. */
  function ChunkLength(mtu: nat): (n: nat)
    ensures n >= 1 && n >= mtu && (mtu >= 1 ==> n == mtu)
  {
    if mtu == 0 then 1 else mtu
  }

  function Chunks(payload: seq<Byte>, n: nat): (c: seq<seq<Byte>>)
    requires n > 0
    decreases |payload|
  {
    if payload == [] then []
    else if |payload| <= n then [payload]
    else [payload[..n]] + Chunks(payload[n..], n)
  }

  function Flatten(chunks: seq<seq<Byte>>): seq<Byte> {
    if chunks == [] then [] else chunks[0] + Flatten(chunks[1..])
  }

  /** The chunks are non-empty, fit the limit, and concatenate to the payload. */
  lemma {:induction false} ChunksPartition(payload: seq<Byte>, n: nat)
    requires n > 0
    ensures Flatten(Chunks(payload, n)) == payload
    ensures forall i | 0 <= i < |Chunks(payload, n)| :: 0 < |Chunks(payload, n)[i]| <= n
    ensures |Chunks(payload, n)| <= |payload|
    decreases |payload|
  {
    if |payload| > n {
      ChunksPartition(payload[n..], n);
      assert payload == payload[..n] + payload[n..];
    }
  }

  /** The announced fragment count, computed by rounding division up, is the number of chunks. */
  lemma {:induction false} ChunkCount(payload: seq<Byte>, n: nat)
    requires n > 0
    ensures |Chunks(payload, n)| == (|payload| + n - 1) / n
    decreases |payload|
  {
    if payload == [] {
      QuotientIsUnique(n - 1, n, 0, n - 1);
    } else if |payload| <= n {
      QuotientIsUnique(|payload| + n - 1, n, 1, |payload| - 1);
    } else {
      ChunkCount(payload[n..], n);
      var x := |payload| - 1;
      QuotientIsUnique(x + n, n, x / n + 1, x % n);
    }
  }

  lemma QuotientIsUnique(x: nat, n: nat, k: nat, r: nat)
    requires n > 0 && x == k * n + r && r < n
    ensures x / n == k
  {
    var d := k - x / n;
    assert x == (x / n) * n + x % n;
    assert d * n == x % n - r;
    ProductBound(d, n);
  }

  lemma ProductBound(d: int, n: nat)
    ensures d >= 1 ==> d * n >= n
    ensures d <= -1 ==> d * n + n <= 0
  {
  }

  lemma {:induction false} FlattenPrefix(chunks: seq<seq<Byte>>, k: nat)
    requires k <= |chunks|
    ensures Flatten(chunks[..k]) <= Flatten(chunks)
  {
    if k > 0 {
      FlattenPrefix(chunks[1..], k - 1);
      assert chunks[..k][1..] == chunks[1..][..k - 1];
    }
  }

  // ---------------------------------------------------------------------------------------------
  // Specification of one write
  // ---------------------------------------------------------------------------------------------

  /** What the transport does with one fragment. */
  datatype NativeOutcome = Ok | Unsupported | BackendError | TimedOut | DriverDropped

  /** Clock readings around one fragment and the transport's answer. */
  datatype Attempt = Attempt(admitClock: nat, outcome: NativeOutcome, doneClock: nat)

  datatype Receipt = Receipt(index: nat, count: nat, status: Status, at: nat, accepted: bool)

  datatype WriteRecord = WriteRecord(at: nat, bytes: seq<Byte>)

  datatype Result = Completed | Withdrawn | Failed(outcome: NativeOutcome) | Dropped

  /** Everything one write leaves behind. `invoked` holds the admission time of each native call. */
  datatype Trace = Trace(
    receipts: seq<Receipt>,
    invoked: seq<nat>,
    delivered: seq<seq<Byte>>,
    records: seq<WriteRecord>,
    progress: Progress,
    result: Result)

  function AdmittedAt(a: Attempt, start: nat): nat {
    Max(a.admitClock, start)
  }

  function SettledAt(a: Attempt, start: nat): nat {
    Max(a.doneClock, AdmittedAt(a, start))
  }

  /** A receipt is offered to the session and kept with the session's answer. */
  function Offer(p: Progress, id: nat, index: nat, count: nat, status: Status, at: nat): (r: (Progress, Receipt))
    requires WellFormed(p)
    ensures WellFormed(r.0)
  {
    var (p', accepted) := Record(p, id, index, count, status, at);
    (p', Receipt(index, count, status, at, accepted))
  }

  /** Admission of one fragment; the flag says whether it may be submitted. */
  function Admit(p: Progress, query: Option<Query>, index: nat, count: nat, at: nat)
    : (r: (Progress, seq<Receipt>, bool))
    requires WellFormed(p)
    ensures WellFormed(r.0)
  {
    if query.None? then
      (p, [], true)
    else
      var q := query.value;
      if at >= q.submitBefore || !IsCurrent(p, q.id, at) then
        var (p1, cancelled) := Offer(p, q.id, index, count, Cancelled, at);
        (p1, [cancelled], false)
      else
        var (p1, queued) := Offer(p, q.id, index, count, Queued, at);
        if queued.accepted then
          (p1, [queued], true)
        else
          var (p2, cancelled) := Offer(p1, q.id, index, count, Cancelled, at);
          (p2, [queued, cancelled], false)
  }

  function StatusOf(outcome: NativeOutcome): Status {
    match outcome
    case Ok => Submitted
    case Unsupported => Rejected
    case _ => SubmissionUnknown
  }

  /** The receipt of a submitted fragment, written on completion or by the drop guard. */
  function Settle(p: Progress, query: Option<Query>, index: nat, count: nat, outcome: NativeOutcome, at: nat)
    : (r: (Progress, seq<Receipt>))
    requires WellFormed(p)
    ensures WellFormed(r.0)
  {
    if query.None? then (p, [])
    else
      var (p', receipt) := Offer(p, query.value.id, index, count, StatusOf(outcome), at);
      (p', [receipt])
  }

  /** Submits `chunks` in order, starting with fragment `index` of `count`. */
  function Submit(
      p: Progress, query: Option<Query>, chunks: seq<seq<Byte>>, index: nat, count: nat, start: nat, env: seq<Attempt>)
    : Trace
    requires WellFormed(p) && |chunks| <= |env|
    decreases |chunks|
  {
    if chunks == [] then
      Trace([], [], [], [], p, Completed)
    else
      var at := AdmittedAt(env[0], start);
      var (p1, admission, admitted) := Admit(p, query, index, count, at);
      if !admitted then
        Trace(admission, [], [], [], p1, Withdrawn)
      else
        var (p2, settlement) := Settle(p1, query, index, count, env[0].outcome, SettledAt(env[0], start));
        if env[0].outcome == Ok then
          var t := Submit(p2, query, chunks[1..], index + 1, count, start, env[1..]);
          Trace(admission + settlement + t.receipts, [at] + t.invoked, [chunks[0]] + t.delivered,
                [WriteRecord(SettledAt(env[0], start), chunks[0])] + t.records, t.progress, t.result)
        else
          Trace(admission + settlement, [at], [], [], p2,
                if env[0].outcome == DriverDropped then Dropped else Failed(env[0].outcome))
  }

  // ---------------------------------------------------------------------------------------------
  // The bridge loop
  // ---------------------------------------------------------------------------------------------

  /** The session as the bridge borrows it. */
  class Session {
    var progress: Progress

    constructor (progress: Progress)
      ensures this.progress == progress
    {
      this.progress := progress;
    }

    method RecordTransport(id: nat, index: nat, count: nat, status: Status, at: nat) returns (receipt: Receipt)
      requires WellFormed(progress)
      modifies this
      ensures WellFormed(progress)
      ensures (progress, receipt) == Offer(old(progress), id, index, count, status, at)
    {
      var (p, accepted) := Record(progress, id, index, count, status, at);
      progress := p;
      receipt := Receipt(index, count, status, at, accepted);
    }
  }

  function After(done: Trace, t: Trace): Trace {
    Trace(done.receipts + t.receipts, done.invoked + t.invoked, done.delivered + t.delivered,
          done.records + t.records, t.progress, t.result)
  }

  lemma AfterIsAssociative(a: Trace, b: Trace, c: Trace)
    ensures After(After(a, b), c) == After(a, After(b, c))
  {
  }

  /** The trace of one fragment. */
  function FragmentTrace(
      p: Progress, query: Option<Query>, chunk: seq<Byte>, index: nat, count: nat, start: nat, attempt: Attempt)
    : (t: Trace)
    requires WellFormed(p)
    ensures WellFormed(t.progress)
  {
    var at := AdmittedAt(attempt, start);
    var (p1, admission, admitted) := Admit(p, query, index, count, at);
    if !admitted then Trace(admission, [], [], [], p1, Withdrawn)
    else
      var done := SettledAt(attempt, start);
      var (p2, settlement) := Settle(p1, query, index, count, attempt.outcome, done);
      var receipts := admission + settlement;
      match attempt.outcome
      case Ok => Trace(receipts, [at], [chunk], [WriteRecord(done, chunk)], p2, Completed)
      case DriverDropped => Trace(receipts, [at], [], [], p2, Dropped)
      case _ => Trace(receipts, [at], [], [], p2, Failed(attempt.outcome))
  }

  /** A delivered fragment is followed by the submission of the others; any other one ends the write. */
  lemma SubmitUnfolds(
      p: Progress, query: Option<Query>, chunks: seq<seq<Byte>>, index: nat, count: nat, start: nat, env: seq<Attempt>)
    requires WellFormed(p) && 0 < |chunks| <= |env|
    ensures var t := FragmentTrace(p, query, chunks[0], index, count, start, env[0]);
            Submit(p, query, chunks, index, count, start, env)
            == if t.result == Completed
               then After(t, Submit(t.progress, query, chunks[1..], index + 1, count, start, env[1..]))
               else t
  {
  }

  /** One fragment: admission check, native call under the drop guard, receipt, and record on success. */
  method SubmitFragment(
      session: Session, query: Option<Query>, chunk: seq<Byte>, index: nat, count: nat, start: nat, attempt: Attempt)
    returns (t: Trace)
    requires WellFormed(session.progress)
    modifies session
    ensures t == FragmentTrace(old(session.progress), query, chunk, index, count, start, attempt)
    ensures session.progress == t.progress
  {
    var admittedAt, doneAt := AdmittedAt(attempt, start), SettledAt(attempt, start);
    var receipts := [];
    if query.Some? {
      var q := query.value;
      var admitted := admittedAt < q.submitBefore && IsCurrent(session.progress, q.id, admittedAt);
      if admitted {
        var queued := session.RecordTransport(q.id, index, count, Queued, admittedAt);
        receipts := [queued];
        admitted := queued.accepted;
      }
      if !admitted {
        var cancelled := session.RecordTransport(q.id, index, count, Cancelled, admittedAt);
        return Trace(receipts + [cancelled], [], [], [], session.progress, Withdrawn);
      }
      // The native call happens here; completion and the drop guard both write one receipt.
      var settled := session.RecordTransport(q.id, index, count, StatusOf(attempt.outcome), doneAt);
      receipts := receipts + [settled];
    }
    match attempt.outcome {
      case Ok => t := Trace(receipts, [admittedAt], [chunk], [WriteRecord(doneAt, chunk)], session.progress, Completed);
      case DriverDropped => t := Trace(receipts, [admittedAt], [], [], session.progress, Dropped);
      case _ => t := Trace(receipts, [admittedAt], [], [], session.progress, Failed(attempt.outcome));
    }
  }

  lemma ChunksUnfold(payload: seq<Byte>, n: nat)
    requires n > 0 && payload != []
    ensures var chunk := if |payload| <= n then payload else payload[..n];
            Chunks(payload, n) == [chunk] + Chunks(payload[|chunk|..], n)
  {
  }

  method ProcessTransportWrite(
      session: Session, payload: seq<Byte>, mtu: nat, query: Option<Query>, start: nat, env: seq<Attempt>)
    returns (trace: Trace, writes: nat)
    requires WellFormed(session.progress)
    requires |payload| <= MAX_PAYLOAD && |payload| <= |env|
    modifies session
    ensures var chunks := Chunks(payload, ChunkLength(mtu));
            && |chunks| <= |env|
            && trace == Submit(old(session.progress), query, chunks, 0, |chunks|, start, env)
            && session.progress == trace.progress
    ensures writes == |trace.records|
  {
    var n := ChunkLength(mtu);
    var count := (|payload| + n - 1) / n;
    ChunkCount(payload, n);
    ChunksPartition(payload, n);
    trace := Trace([], [], [], [], session.progress, Completed);
    writes := 0;
    var rest, index := payload, 0;
    ghost var whole := Submit(session.progress, query, Chunks(payload, n), 0, count, start, env);
    assert env[0..] == env;
    while rest != []
      invariant WellFormed(session.progress) && trace.progress == session.progress && trace.result == Completed
      invariant index + |Chunks(rest, n)| <= |env| && writes == |trace.records|
      invariant whole
             == After(trace, Submit(session.progress, query, Chunks(rest, n), index, count, start, env[index..]))
      decreases |rest|
    {
      ghost var before, p, chunks, left := trace, session.progress, Chunks(rest, n), env[index..];
      var chunk := if |rest| <= n then rest else rest[..n];
      ChunksUnfold(rest, n);
      assert chunks[0] == chunk && chunks[1..] == Chunks(rest[|chunk|..], n);
      assert left[0] == env[index] && left[1..] == env[index + 1..];
      SubmitUnfolds(p, query, chunks, index, count, start, left);
      rest := rest[|chunk|..];
      var step := SubmitFragment(session, query, chunk, index, count, start, env[index]);
      trace := After(trace, step);
      writes := writes + |step.records|;
      if step.result != Completed {
        return;
      }
      index := index + 1;
      AfterIsAssociative(before, step,
                         Submit(session.progress, query, Chunks(rest, n), index, count, start, env[index..]));
    }
  }

  // ---------------------------------------------------------------------------------------------
  // Accounting
  // ---------------------------------------------------------------------------------------------

  /** The calls made, the fragments delivered and the records captured tell one story. */
  predicate Accounts(t: Trace, chunks: seq<seq<Byte>>, start: nat, env: seq<Attempt>)
    requires |chunks| <= |env|
  {
    && |t.records| == |t.delivered| <= |t.invoked| <= |t.delivered| + 1 && |t.invoked| <= |chunks|
    && t.delivered == chunks[..|t.delivered|]
    && (t.result == Completed <==> t.delivered == chunks)
    && (forall i | 0 <= i < |t.records| :: t.records[i] == WriteRecord(SettledAt(env[i], start), t.delivered[i]))
    && (forall i | 0 <= i < |t.invoked| :: t.invoked[i] == AdmittedAt(env[i], start))
    && (forall i | 0 <= i < |t.delivered| :: env[i].outcome == Ok)
    && (|t.invoked| > |t.delivered| <==> t.result.Failed? || t.result.Dropped?)
    && (|t.invoked| > |t.delivered| ==> env[|t.delivered|].outcome != Ok)
  }

  lemma AccountsCons(t: Trace, rest: Trace, chunks: seq<seq<Byte>>, start: nat, env: seq<Attempt>)
    requires 0 < |chunks| <= |env| && env[0].outcome == Ok && Accounts(rest, chunks[1..], start, env[1..])
    requires t.invoked == [AdmittedAt(env[0], start)] + rest.invoked && t.result == rest.result
    requires t.delivered == [chunks[0]] + rest.delivered
    requires t.records == [WriteRecord(SettledAt(env[0], start), chunks[0])] + rest.records
    ensures Accounts(t, chunks, start, env)
  {
    assert chunks == [chunks[0]] + chunks[1..];
    assert env == [env[0]] + env[1..];
  }

  /** Captured writes are exactly the native successes, in payload order; at most one further call was made. */
  lemma {:induction false} WritesAreAccounted(
      p: Progress, query: Option<Query>, chunks: seq<seq<Byte>>, index: nat, count: nat, start: nat, env: seq<Attempt>)
    requires WellFormed(p) && |chunks| <= |env|
    ensures Accounts(Submit(p, query, chunks, index, count, start, env), chunks, start, env)
    decreases |chunks|
  {
    if chunks != [] {
      var p1 := Admit(p, query, index, count, AdmittedAt(env[0], start)).0;
      var p2 := Settle(p1, query, index, count, env[0].outcome, SettledAt(env[0], start)).0;
      WritesAreAccounted(p2, query, chunks[1..], index + 1, count, start, env[1..]);
      if Admit(p, query, index, count, AdmittedAt(env[0], start)).2 && env[0].outcome == Ok {
        AccountsCons(Submit(p, query, chunks, index, count, start, env),
                     Submit(p2, query, chunks[1..], index + 1, count, start, env[1..]), chunks, start, env);
      }
    }
  }

  lemma DeliveredIsPrefix(t: Trace, payload: seq<Byte>, mtu: nat, start: nat, env: seq<Attempt>)
    requires var chunks := Chunks(payload, ChunkLength(mtu)); |chunks| <= |env| && Accounts(t, chunks, start, env)
    ensures Flatten(t.delivered) <= payload && |Flatten(t.delivered)| <= |payload|
    ensures t.result == Completed <==> |Flatten(t.delivered)| == |payload|
    ensures forall i | 0 <= i < |t.delivered| :: |t.delivered[i]| <= ChunkLength(mtu)
  {
    var n := ChunkLength(mtu);
    var chunks := Chunks(payload, n);
    ChunksPartition(payload, n);
    var k := |t.delivered|;
    FlattenPrefix(chunks, k);
    if k < |chunks| {
      ProperPrefixIsShorter(chunks, k);
    } else {
      assert chunks[..k] == chunks;
    }
  }

  /** The bytes delivered are a prefix of the payload, and the whole payload exactly when the write completes. */
  lemma DeliveredBytesArePrefix(
      p: Progress, query: Option<Query>, payload: seq<Byte>, mtu: nat, start: nat, env: seq<Attempt>)
    requires WellFormed(p) && |payload| <= |env|
    ensures var chunks := Chunks(payload, ChunkLength(mtu));
            && |chunks| <= |env|
            && var t := Submit(p, query, chunks, 0, |chunks|, start, env);
               && Flatten(t.delivered) <= payload
               && (t.result == Completed <==> Flatten(t.delivered) == payload)
               && forall i | 0 <= i < |t.delivered| :: |t.delivered[i]| <= ChunkLength(mtu)
  {
    var chunks := Chunks(payload, ChunkLength(mtu));
    ChunksPartition(payload, ChunkLength(mtu));
    WritesAreAccounted(p, query, chunks, 0, |chunks|, start, env);
    DeliveredIsPrefix(Submit(p, query, chunks, 0, |chunks|, start, env), payload, mtu, start, env);
  }

  lemma {:induction false} ProperPrefixIsShorter(chunks: seq<seq<Byte>>, k: nat)
    requires k < |chunks| && forall i | 0 <= i < |chunks| :: |chunks[i]| > 0
    ensures |Flatten(chunks[..k])| < |Flatten(chunks)|
  {
    if k > 0 {
      ProperPrefixIsShorter(chunks[1..], k - 1);
      assert chunks[..k][1..] == chunks[1..][..k - 1];
    }
  }

  predicate AllBefore(times: seq<nat>, bound: nat) {
    forall i | 0 <= i < |times| :: times[i] < bound
  }

  /** Every query fragment is handed to the transport strictly before the submission deadline. */
  lemma {:induction false} FragmentsMeetDeadline(
      p: Progress, q: Query, chunks: seq<seq<Byte>>, index: nat, count: nat, start: nat, env: seq<Attempt>)
    requires WellFormed(p) && |chunks| <= |env|
    ensures var t := Submit(p, Some(q), chunks, index, count, start, env);
            AllBefore(t.invoked, q.submitBefore)
    decreases |chunks|
  {
    if chunks != [] {
      var at := AdmittedAt(env[0], start);
      var (p1, _, admitted) := Admit(p, Some(q), index, count, at);
      var p2 := Settle(p1, Some(q), index, count, env[0].outcome, SettledAt(env[0], start)).0;
      FragmentsMeetDeadline(p2, q, chunks[1..], index + 1, count, start, env[1..]);
      var rest := Submit(p2, Some(q), chunks[1..], index + 1, count, start, env[1..]).invoked;
      assert admitted ==> at < q.submitBefore && AllBefore([at] + rest, q.submitBefore);
    }
  }

  // ---------------------------------------------------------------------------------------------
  // Receipt grammar
  // ---------------------------------------------------------------------------------------------

  predicate IsReceipt(r: Receipt, index: nat, count: nat, status: Status) {
    r.index == index && r.count == count && r.status == status
  }

  /** The receipt is accepted exactly when it is in time. */
  predicate InTime(r: Receipt, deadline: nat) {
    r.accepted <==> r.at < deadline
  }

  /** How the receipts of the first undelivered fragment end. */
  predicate Ending(tail: seq<Receipt>, k: nat, count: nat, deadline: nat, result: Result) {
    match result
    case Completed => tail == []
    case Withdrawn =>
      || (|tail| == 1 && IsReceipt(tail[0], k, count, Cancelled))
      || (|tail| == 2 && IsReceipt(tail[0], k, count, Queued) && !tail[0].accepted
          && IsReceipt(tail[1], k, count, Cancelled))
    case Failed(Unsupported) =>
      |tail| == 2 && IsReceipt(tail[0], k, count, Queued) && tail[0].accepted
      && IsReceipt(tail[1], k, count, Rejected) && InTime(tail[1], deadline)
    case _ =>
      |tail| == 2 && IsReceipt(tail[0], k, count, Queued) && tail[0].accepted
      && IsReceipt(tail[1], k, count, SubmissionUnknown) && tail[1].accepted
  }

  /**
   Queued and Submitted for each fragment from `i` up to `k`, then an ending for `k`. Only the last
   of the Submitted receipts can be refused, and only because it came at or after the deadline.
   */
  predicate ReceiptGrammar(rs: seq<Receipt>, i: nat, k: nat, count: nat, deadline: nat, result: Result)
    decreases k - i
  {
    if i >= k then
      Ending(rs, k, count, deadline, result)
    else
      && |rs| >= 2
      && IsReceipt(rs[0], i, count, Queued) && rs[0].accepted
      && IsReceipt(rs[1], i, count, Submitted) && InTime(rs[1], deadline)
      && (i + 1 < k ==> rs[1].accepted)
      && ReceiptGrammar(rs[2..], i + 1, k, count, deadline, result)
  }

  /** The receipt that settles one admitted fragment. */
  lemma SettlementReceipt(p: Progress, q: Query, index: nat, count: nat, at: nat, outcome: NativeOutcome, done: nat)
    requires WellFormed(p) && at <= done && Admit(p, Some(q), index, count, at).2
    ensures p.InFlight?
    ensures var p1 := Admit(p, Some(q), index, count, at).0;
            var (p2, receipts) := Settle(p1, Some(q), index, count, outcome, done);
            && |receipts| == 1 && IsReceipt(receipts[0], index, count, StatusOf(outcome))
            && (if StatusOf(outcome).SubmissionUnknown? then receipts[0].accepted
                else InTime(receipts[0], p.write.submitBefore))
            && (p2.InFlight? ==> receipts[0].accepted && p2.write == p.write)
  {
  }

  /** A session that has given up on the query admits nothing more. */
  lemma NothingAfterWithdrawal(
      p: Progress, q: Query, chunks: seq<seq<Byte>>, index: nat, count: nat, start: nat, env: seq<Attempt>,
      deadline: nat)
    requires WellFormed(p) && |chunks| <= |env| && !p.InFlight?
    ensures var t := Submit(p, Some(q), chunks, index, count, start, env);
            t.delivered == [] && Grammatical(t, index, count, deadline)
  {
  }

  /** The receipts of a trace that starts with fragment `index`. */
  predicate Grammatical(t: Trace, index: nat, count: nat, deadline: nat) {
    ReceiptGrammar(t.receipts, index, index + |t.delivered|, count, deadline, t.result)
  }

  /** Receipts of one fragment that was delivered. */
  predicate DeliveredReceipts(t: Trace, index: nat, count: nat, deadline: nat) {
    && |t.delivered| == 1 && |t.receipts| == 2
    && IsReceipt(t.receipts[0], index, count, Queued) && t.receipts[0].accepted
    && IsReceipt(t.receipts[1], index, count, Submitted) && InTime(t.receipts[1], deadline)
  }

  lemma GrammarCons(first: Trace, rest: Trace, index: nat, count: nat, deadline: nat)
    requires DeliveredReceipts(first, index, count, deadline) && Grammatical(rest, index + 1, count, deadline)
    requires rest.delivered != [] ==> first.receipts[1].accepted
    ensures Grammatical(After(first, rest), index, count, deadline)
  {
    assert (first.receipts + rest.receipts)[2..] == rest.receipts;
  }

  /** The receipts of one fragment, by what became of it. */
  lemma FragmentReceipts(
      p: Progress, q: Query, chunk: seq<Byte>, index: nat, count: nat, start: nat, attempt: Attempt, deadline: nat)
    requires WellFormed(p) && (p.InFlight? ==> p.write.submitBefore == deadline)
    ensures var t := FragmentTrace(p, Some(q), chunk, index, count, start, attempt);
            if t.result == Completed then
              && DeliveredReceipts(t, index, count, deadline)
              && (t.progress.InFlight? ==> t.receipts[1].accepted && t.progress.write.submitBefore == deadline)
            else Grammatical(t, index, count, deadline)
  {
    var at, done := AdmittedAt(attempt, start), SettledAt(attempt, start);
    if Admit(p, Some(q), index, count, at).2 {
      SettlementReceipt(p, q, index, count, at, attempt.outcome, done);
    }
  }

  /** For every mix of outcomes, staleness, deadline and driver drop the receipts follow the grammar. */
  lemma {:induction false} ReceiptsFollowGrammar(
      p: Progress, q: Query, chunks: seq<seq<Byte>>, index: nat, count: nat, start: nat, env: seq<Attempt>,
      deadline: nat)
    requires WellFormed(p) && |chunks| <= |env| && (p.InFlight? ==> p.write.submitBefore == deadline)
    ensures Grammatical(Submit(p, Some(q), chunks, index, count, start, env), index, count, deadline)
    decreases |chunks|
  {
    if chunks != [] {
      var t := FragmentTrace(p, Some(q), chunks[0], index, count, start, env[0]);
      FragmentReceipts(p, q, chunks[0], index, count, start, env[0], deadline);
      if t.result == Completed {
        if t.progress.InFlight? {
          ReceiptsFollowGrammar(t.progress, q, chunks[1..], index + 1, count, start, env[1..], deadline);
        } else {
          NothingAfterWithdrawal(t.progress, q, chunks[1..], index + 1, count, start, env[1..], deadline);
        }
        var rest := Submit(t.progress, Some(q), chunks[1..], index + 1, count, start, env[1..]);
        GrammarCons(t, rest, index, count, deadline);
      }
      SubmitUnfolds(p, Some(q), chunks, index, count, start, env);
    }
  }

  // ---------------------------------------------------------------------------------------------
  // Evidence
  // ---------------------------------------------------------------------------------------------

  /** A monotone clock: readings never go back. */
  predicate ClockRuns(env: seq<Attempt>) {
    && (forall i | 0 <= i < |env| :: env[i].admitClock <= env[i].doneClock)
    && (forall i, j | 0 <= i < j < |env| :: env[i].doneClock <= env[j].admitClock)
  }

  /** A query that the session has just emitted. */
  predicate Fresh(p: Progress, q: Query) {
    p.InFlight? && p.write == q && WellFormed(p) && p.fragmentCount.None? && !HasSubmission(p.submitted)
  }

  /** The session's evidence when exactly the first `k` of `count` fragments have been submitted. */
  predicate Midway(p: Progress, q: Query, k: nat, count: nat) {
    WellFormed(p) &&
    if p.InFlight? then
      && p.write == q
      && (p.fragmentCount.Some? ==> p.fragmentCount.value == count <= MAX_FRAGMENTS)
      && (k > 0 ==> p.fragmentCount.Some? && k < count)
      && (forall i | 0 <= i < MAX_FRAGMENTS :: p.submitted[i] <==> i < k)
    else
      k > 0 && (p == PartialUncertain(q.id) || (p.Awaiting? && p.queryId == q.id && k == count))
  }

  /** Some native call may have put bytes on the air: it was invoked and not refused before submission. */
  predicate Touched(t: Trace, env: seq<Attempt>)
    requires |t.invoked| <= |env|
  {
    exists i :: 0 <= i < |t.invoked| && env[i].outcome != Unsupported
  }

  /** What the session concludes is exactly what the transport evidence supports. */
  predicate Concludes(p: Progress, q: Query, touched: bool, completed: bool) {
    && (touched ==> p == PartialUncertain(q.id) || (p.Awaiting? && p.queryId == q.id && completed))
    && (!touched ==> p == KnownUnsent(q.id) || (p.InFlight? && p.write == q && !HasSubmission(p.submitted)))
  }

  lemma AdmitKeepsMidway(p: Progress, q: Query, k: nat, count: nat, at: nat)
    requires Midway(p, q, k, count) && k < count
    requires p.InFlight? && k > 0 ==> p.emittedAt <= at
    ensures var (p1, _, admitted) := Admit(p, Some(q), k, count, at);
            && (admitted ==> Midway(p1, q, k, count) && p1.InFlight? && p1.fragmentCount.Some? && p1.emittedAt <= at
                             && p1.emittedAt == p.emittedAt && at < q.submitBefore)
            && (!admitted ==> Concludes(p1, q, k > 0, false))
  {
    if k > 0 && p.InFlight? {
      assert p.submitted[0];
    }
  }

  lemma SettleKeepsMidway(p: Progress, q: Query, k: nat, count: nat, outcome: NativeOutcome, at: nat)
    requires Midway(p, q, k, count) && k < count && p.InFlight? && p.fragmentCount.Some? && p.emittedAt <= at
    ensures var p' := Settle(p, Some(q), k, count, outcome, at).0;
            && (outcome == Ok ==> Midway(p', q, k + 1, count) && (p'.InFlight? ==> p'.emittedAt == p.emittedAt))
            && (outcome != Ok ==> Concludes(p', q, k > 0 || outcome != Unsupported, false))
  {
    if k > 0 {
      assert p.submitted[0];
    }
    if outcome == Ok {
      var p' := p.(fragmentCount := Some(count));
      var submitted := p'.submitted[k := true];
      assert Settle(p, Some(q), k, count, outcome, at).0 == RecordFragment(p', k, count, Submitted, at).0;
      assert submitted[k];
      assert HasSubmission(submitted);
      assert forall i | 0 <= i < MAX_FRAGMENTS :: submitted[i] <==> i < k + 1;
      if k + 1 < count && at < q.submitBefore {
        assert !submitted[k + 1] && !AllSubmitted(submitted, count);
        assert RecordFragment(p', k, count, Submitted, at).0 == p'.(submitted := submitted);
      }
    }
  }

  /**
   Starting from a fresh query, the session says "known unsent" only if no native call can have sent
   a byte, and says nothing weaker than "uncertain" if one can have; it awaits a response only after
   every fragment was submitted.
   */
  lemma {:induction false} EvidenceIsSound(
      p: Progress, q: Query, chunks: seq<seq<Byte>>, k: nat, count: nat, start: nat, env: seq<Attempt>)
    requires |chunks| <= |env| && ClockRuns(env) && count == k + |chunks| && count > 0
    requires Midway(p, q, k, count)
    requires p.InFlight? && k > 0 ==> forall i | 0 <= i < |env| :: p.emittedAt <= AdmittedAt(env[i], start)
    ensures var t := Submit(p, Some(q), chunks, k, count, start, env);
            && |t.invoked| <= |env|
            && Concludes(t.progress, q, k > 0 || Touched(t, env), t.result == Completed)
    decreases |chunks|
  {
    WritesAreAccounted(p, Some(q), chunks, k, count, start, env);
    if chunks != [] {
      var at := AdmittedAt(env[0], start);
      var (p1, _, admitted) := Admit(p, Some(q), k, count, at);
      AdmitKeepsMidway(p, q, k, count, at);
      if admitted {
        SettleKeepsMidway(p1, q, k, count, env[0].outcome, SettledAt(env[0], start));
        var p2 := Settle(p1, Some(q), k, count, env[0].outcome, SettledAt(env[0], start)).0;
        var t := Submit(p, Some(q), chunks, k, count, start, env);
        assert t.invoked[0] == at;
        if env[0].outcome == Ok {
          assert Touched(t, env);
          EvidenceIsSound(p2, q, chunks[1..], k + 1, count, start, env[1..]);
        } else if env[0].outcome != Unsupported {
          assert Touched(t, env);
        }
      }
    }
  }

  /** The evidence theorem for a whole write of a fresh query. */
  lemma FreshQueryEvidence(p: Progress, q: Query, payload: seq<Byte>, mtu: nat, start: nat, env: seq<Attempt>)
    requires Fresh(p, q) && payload != [] && |payload| <= |env| && ClockRuns(env)
    ensures var chunks := Chunks(payload, ChunkLength(mtu));
            && |chunks| <= |env|
            && var t := Submit(p, Some(q), chunks, 0, |chunks|, start, env);
               && |t.invoked| <= |env|
               && (t.progress.KnownUnsent? ==> !Touched(t, env))
               && Concludes(t.progress, q, Touched(t, env), t.result == Completed)
  {
    var chunks := Chunks(payload, ChunkLength(mtu));
    ChunksPartition(payload, ChunkLength(mtu));
    EvidenceIsSound(p, q, chunks, 0, |chunks|, start, env);
  }
}
