/**
 What becomes of a whole write: exactly which fragments are handed to the transport, when the write
 completes, and what the session then waits for.
 */
module QueryCompletion {
  import opened Prelude
  import opened ApplicationQuery
  import opened TransportWrite

  // ---------------------------------------------------------------------------------------------
  // Writes without a query
  // ---------------------------------------------------------------------------------------------

  predicate AllOk(env: seq<Attempt>, n: nat)
    requires n <= |env|
  {
    forall j | 0 <= j < n :: env[j].outcome == Ok
  }

  /** A plain write is never withdrawn: it stops at the first fragment the transport does not take. */
  lemma {:induction false} PlainWriteStopsAtFailure(
      p: Progress, chunks: seq<seq<Byte>>, index: nat, count: nat, start: nat, env: seq<Attempt>, k: nat)
    requires WellFormed(p) && |chunks| <= |env| && k < |chunks|
    ensures var t := Submit(p, None, chunks, index, count, start, env);
            && t.progress == p && t.receipts == []
            && (k < |t.invoked| <==> AllOk(env, k))
            && (t.result == Completed <==> AllOk(env, |chunks|))
    decreases |chunks|
  {
    SubmitUnfolds(p, None, chunks, index, count, start, env);
    if env[0].outcome == Ok && |chunks| > 1 {
      PlainWriteStopsAtFailure(p, chunks[1..], index + 1, count, start, env[1..], if k == 0 then 0 else k - 1);
      OkTail(env, k);
      OkTail(env, |chunks|);
    }
  }

  lemma OkTail(env: seq<Attempt>, n: nat)
    requires n <= |env| && env != []
    ensures n > 0 ==> (AllOk(env, n) <==> env[0].outcome == Ok && AllOk(env[1..], n - 1))
  {
    if n > 0 && env[0].outcome == Ok && AllOk(env[1..], n - 1) {
      assert forall j | 0 < j < n :: env[j] == env[1..][j - 1];
    }
    if n > 0 && AllOk(env, n) {
      assert forall j | 0 <= j < n - 1 :: env[1..][j] == env[j + 1];
    }
  }

  // ---------------------------------------------------------------------------------------------
  // Writes of a query
  // ---------------------------------------------------------------------------------------------

  /** A reading between emission and the submission deadline. */
  predicate InWindow(q: Query, emittedAt: nat, at: nat) {
    emittedAt <= at < q.submitBefore
  }

  /** Every fragment before `k` was taken and settled in time, and none up to `k` is admitted outside the window. */
  predicate Proceeds(q: Query, emittedAt: nat, start: nat, env: seq<Attempt>, k: nat)
    requires k < |env|
  {
    && (forall j | 0 <= j <= k :: InWindow(q, emittedAt, AdmittedAt(env[j], start)))
    && (forall j | 0 <= j < k :: env[j].outcome == Ok && SettledAt(env[j], start) < q.submitBefore)
  }

  lemma ProceedsTail(q: Query, emittedAt: nat, start: nat, env: seq<Attempt>, k: nat)
    requires 0 < k < |env|
    ensures Proceeds(q, emittedAt, start, env, k)
       <==> && InWindow(q, emittedAt, AdmittedAt(env[0], start))
            && env[0].outcome == Ok && SettledAt(env[0], start) < q.submitBefore
            && Proceeds(q, emittedAt, start, env[1..], k - 1)
  {
    var rest := env[1..];
    assert forall j | 0 < j < |env| :: env[j] == rest[j - 1];
    assert forall j | 0 <= j < |rest| :: rest[j] == env[j + 1];
  }

  /** Admission at fragment `k` of a query that is still in flight. */
  lemma AdmittedInWindow(p: Progress, q: Query, k: nat, count: nat, at: nat)
    requires Midway(p, q, k, count) && k < count <= MAX_FRAGMENTS && p.InFlight?
    ensures var (p1, _, admitted) := Admit(p, Some(q), k, count, at);
            && (admitted <==> InWindow(q, p.emittedAt, at))
            && (admitted ==> && Midway(p1, q, k, count) && p1.InFlight? && p1.fragmentCount == Some(count)
                             && p1.emittedAt == p.emittedAt && p1.write == q)
  {
  }

  /** A fragment taken in time keeps the query in flight, and the last one starts the response interval. */
  lemma SettledInTime(p: Progress, q: Query, k: nat, count: nat, at: nat)
    requires Midway(p, q, k, count) && k < count <= MAX_FRAGMENTS && p.InFlight? && p.fragmentCount == Some(count)
    requires p.emittedAt <= at
    ensures var p2 := Settle(p, Some(q), k, count, Ok, at).0;
            && (at >= q.submitBefore ==> p2 == PartialUncertain(q.id))
            && (at < q.submitBefore && k + 1 < count ==>
                  Midway(p2, q, k + 1, count) && p2.InFlight? && p2.emittedAt == p.emittedAt)
            && (at < q.submitBefore && k + 1 == count ==>
                  p2 == Awaiting(q.id, at, SaturatingAdd(at, DISCOVERY_TIMEOUT_MS)))
  {
    var submitted := p.submitted[k := true];
    assert submitted[k] && HasSubmission(submitted);
    assert forall i | 0 <= i < MAX_FRAGMENTS :: submitted[i] <==> i < k + 1;
    if k + 1 < count {
      assert !submitted[k + 1] && !AllSubmitted(submitted, count);
    } else {
      assert AllSubmitted(submitted, count);
    }
  }

  lemma GivenUpInvokesNothing(
      p: Progress, q: Query, chunks: seq<seq<Byte>>, index: nat, count: nat, start: nat, env: seq<Attempt>)
    requires WellFormed(p) && |chunks| <= |env| && !p.InFlight?
    ensures Submit(p, Some(q), chunks, index, count, start, env).invoked == []
  {
  }

  /** Fragment `i` from here is handed to the transport exactly when everything so far was in time. */
  lemma {:induction false} InvokedExactly(
      p: Progress, q: Query, chunks: seq<seq<Byte>>, k: nat, count: nat, start: nat, env: seq<Attempt>, i: nat)
    requires Midway(p, q, k, count) && p.InFlight? && count == k + |chunks| <= MAX_FRAGMENTS
    requires i < |chunks| <= |env|
    ensures i < |Submit(p, Some(q), chunks, k, count, start, env).invoked|
       <==> Proceeds(q, p.emittedAt, start, env, i)
    decreases |chunks|
  {
    var at, done := AdmittedAt(env[0], start), SettledAt(env[0], start);
    AdmittedInWindow(p, q, k, count, at);
    SubmitUnfolds(p, Some(q), chunks, k, count, start, env);
    if InWindow(q, p.emittedAt, at) && i > 0 {
      ProceedsTail(q, p.emittedAt, start, env, i);
      var p1 := Admit(p, Some(q), k, count, at).0;
      if env[0].outcome == Ok {
        SettledInTime(p1, q, k, count, done);
        var p2 := Settle(p1, Some(q), k, count, Ok, done).0;
        if done < q.submitBefore {
          InvokedExactly(p2, q, chunks[1..], k + 1, count, start, env[1..], i - 1);
        } else {
          GivenUpInvokesNothing(p2, q, chunks[1..], k + 1, count, start, env[1..]);
        }
      }
    }
  }

  /** The session's state after a write that completes, by the time its last fragment settled. */
  function CompletedProgress(q: Query, settledAt: nat): Progress {
    if settledAt < q.submitBefore
    then Awaiting(q.id, settledAt, SaturatingAdd(settledAt, DISCOVERY_TIMEOUT_MS))
    else PartialUncertain(q.id)
  }

  lemma {:induction false} CompletionProgress(
      p: Progress, q: Query, chunks: seq<seq<Byte>>, k: nat, count: nat, start: nat, env: seq<Attempt>)
    requires Midway(p, q, k, count) && p.InFlight? && count == k + |chunks| <= MAX_FRAGMENTS
    requires 0 < |chunks| <= |env|
    requires Submit(p, Some(q), chunks, k, count, start, env).result == Completed
    ensures Submit(p, Some(q), chunks, k, count, start, env).progress
         == CompletedProgress(q, SettledAt(env[|chunks| - 1], start))
    decreases |chunks|
  {
    var at, done := AdmittedAt(env[0], start), SettledAt(env[0], start);
    AdmittedInWindow(p, q, k, count, at);
    SubmitUnfolds(p, Some(q), chunks, k, count, start, env);
    var p1 := Admit(p, Some(q), k, count, at).0;
    SettledInTime(p1, q, k, count, done);
    var p2 := Settle(p1, Some(q), k, count, Ok, done).0;
    if |chunks| > 1 {
      if done >= q.submitBefore {
        WithdrawsAtOnce(p2, q, chunks[1..], k + 1, count, start, env[1..]);
        assert false;
      } else {
        CompletionProgress(p2, q, chunks[1..], k + 1, count, start, env[1..]);
      }
    }
  }

  lemma WithdrawsAtOnce(
      p: Progress, q: Query, chunks: seq<seq<Byte>>, index: nat, count: nat, start: nat, env: seq<Attempt>)
    requires WellFormed(p) && 0 < |chunks| <= |env| && !p.InFlight?
    ensures Submit(p, Some(q), chunks, index, count, start, env).result == Withdrawn
  {
  }

  /** What a write of a fresh query does, in terms of the clock readings and the transport's answers alone. */
  predicate SentExactly(t: Trace, q: Query, emittedAt: nat, count: nat, start: nat, env: seq<Attempt>)
    requires 0 < count <= |env|
  {
    && (forall k | 0 <= k < count :: k < |t.invoked| <==> Proceeds(q, emittedAt, start, env, k))
    && |t.delivered| <= count
    && (t.result == Withdrawn <==> |t.delivered| < count && !Proceeds(q, emittedAt, start, env, |t.delivered|))
    && (t.result == Completed <==> Proceeds(q, emittedAt, start, env, count - 1) && env[count - 1].outcome == Ok)
    && (t.result == Completed ==> t.progress == CompletedProgress(q, SettledAt(env[count - 1], start)))
  }

  /**
   For every fresh query of 1 to 32 fragments: a fragment is handed to the transport if and only if it and
   every earlier one is admitted inside the window and every earlier one was taken and settled before the
   deadline; the write is withdrawn at the first fragment for which that fails, and otherwise completes or
   fails with the transport. A completed write awaits its response from its last settlement.
   */
  lemma QueryIsSentExactly(p: Progress, q: Query, chunks: seq<seq<Byte>>, start: nat, env: seq<Attempt>)
    requires Fresh(p, q) && 0 < |chunks| <= MAX_FRAGMENTS && |chunks| <= |env|
    ensures SentExactly(Submit(p, Some(q), chunks, 0, |chunks|, start, env), q, p.emittedAt, |chunks|, start, env)
  {
    var count := |chunks|;
    var t := Submit(p, Some(q), chunks, 0, count, start, env);
    assert Midway(p, q, 0, count);
    forall k | 0 <= k < count
      ensures k < |t.invoked| <==> Proceeds(q, p.emittedAt, start, env, k)
    {
      InvokedExactly(p, q, chunks, 0, count, start, env, k);
    }
    WritesAreAccounted(p, Some(q), chunks, 0, count, start, env);
    AccountedResult(t, chunks, start, env);
    if t.result == Completed {
      CompletionProgress(p, q, chunks, 0, count, start, env);
    }
  }

  /** How the result follows from the calls made and the fragments delivered. */
  lemma AccountedResult(t: Trace, chunks: seq<seq<Byte>>, start: nat, env: seq<Attempt>)
    requires 0 < |chunks| <= |env| && Accounts(t, chunks, start, env)
    ensures t.result == Completed <==> |t.invoked| == |chunks| && env[|chunks| - 1].outcome == Ok
    ensures t.result == Withdrawn <==> |t.delivered| < |chunks| && |t.invoked| == |t.delivered|
  {
    if |t.delivered| == |chunks| {
      assert chunks[..|chunks|] == chunks;
    }
  }

  /** With every answer Ok and every reading in time the query is sent in full and awaited. */
  lemma TimelyQueryIsSent(p: Progress, q: Query, payload: seq<Byte>, mtu: nat, start: nat, env: seq<Attempt>)
    requires Fresh(p, q) && payload != [] && |payload| <= |env|
    requires |Chunks(payload, ChunkLength(mtu))| <= MAX_FRAGMENTS
    requires forall j | 0 <= j < |env| ::
               && env[j].outcome == Ok && p.emittedAt <= AdmittedAt(env[j], start)
               && SettledAt(env[j], start) < q.submitBefore
    ensures var chunks := Chunks(payload, ChunkLength(mtu));
            && 0 < |chunks| <= |env|
            && var t := Submit(p, Some(q), chunks, 0, |chunks|, start, env);
               && Flatten(t.delivered) == payload && t.result == Completed
               && var last := SettledAt(env[|chunks| - 1], start);
                  t.progress == Awaiting(q.id, last, SaturatingAdd(last, DISCOVERY_TIMEOUT_MS))
  {
    var chunks := Chunks(payload, ChunkLength(mtu));
    ChunksPartition(payload, ChunkLength(mtu));
    QueryIsSentExactly(p, q, chunks, start, env);
    DeliveredBytesArePrefix(p, Some(q), payload, mtu, start, env);
  }

  /** A fresh query admitted after its emission of which nothing can have been sent is known unsent. */
  lemma UntouchedIsKnownUnsent(p: Progress, q: Query, chunks: seq<seq<Byte>>, start: nat, env: seq<Attempt>)
    requires Fresh(p, q) && 0 < |chunks| <= |env| && p.emittedAt <= AdmittedAt(env[0], start)
    requires var t := Submit(p, Some(q), chunks, 0, |chunks|, start, env);
             |t.invoked| <= |env| && !Touched(t, env)
    ensures Submit(p, Some(q), chunks, 0, |chunks|, start, env).progress == KnownUnsent(q.id)
  {
    var count, at := |chunks|, AdmittedAt(env[0], start);
    var t := Submit(p, Some(q), chunks, 0, count, start, env);
    SubmitUnfolds(p, Some(q), chunks, 0, count, start, env);
    if Admit(p, Some(q), 0, count, at).2 {
      assert t.invoked[0] == at;
      assert env[0].outcome == Unsupported;
    }
  }

  // ---------------------------------------------------------------------------------------------
  // Receipts in any order
  // ---------------------------------------------------------------------------------------------

  /** A receipt as the session is offered it, from whatever driver and at whatever time. */
  datatype Notice = Notice(id: nat, index: nat, count: nat, status: Status, at: nat)

  /** A receipt of this query, from after its emission, that says that bytes may have been sent. */
  predicate Implicates(n: Notice, q: Query, emittedAt: nat) {
    n.id == q.id && n.at >= emittedAt && (n.status.Submitted? || n.status.SubmissionUnknown?)
  }

  function RecordAll(p: Progress, notices: seq<Notice>): (r: Progress)
    requires WellFormed(p)
    ensures WellFormed(r)
    decreases |notices|
  {
    if notices == [] then p
    else
      var n := notices[0];
      RecordAll(Record(p, n.id, n.index, n.count, n.status, n.at).0, notices[1..])
  }

  /** The query may still be called unsent: it is in flight, or was given up, without any submission. */
  predicate Unsent(p: Progress, q: Query, emittedAt: nat) {
    || p == KnownUnsent(q.id)
    || (p.InFlight? && p.write == q && p.emittedAt == emittedAt && !HasSubmission(p.submitted))
  }

  /** Some byte may have been sent, and no receipt can take that back. */
  predicate Tainted(p: Progress, q: Query) {
    && !p.KnownUnsent?
    && (p.InFlight? ==> p.write == q && HasSubmission(p.submitted))
  }

  lemma NoticeSettles(p: Progress, q: Query, emittedAt: nat, n: Notice)
    requires WellFormed(p) && Unsent(p, q, emittedAt)
    ensures var p' := Record(p, n.id, n.index, n.count, n.status, n.at).0;
            if Implicates(n, q, emittedAt) then Tainted(p', q)
            else Unsent(p', q, emittedAt) || Tainted(p', q)
  {
    if p.InFlight? && n.status.Submitted? && n.index < |p.submitted| {
      assert p.submitted[n.index := true][n.index];
    }
  }

  lemma TaintStays(p: Progress, q: Query, n: Notice)
    requires WellFormed(p) && Tainted(p, q)
    ensures Tainted(Record(p, n.id, n.index, n.count, n.status, n.at).0, q)
  {
    if p.InFlight? && n.index < |p.submitted| {
      var k :| 0 <= k < |p.submitted| && p.submitted[k];
      assert p.submitted[n.index := true][k];
    }
  }

  lemma {:induction false} TaintStaysForGood(p: Progress, q: Query, notices: seq<Notice>)
    requires WellFormed(p) && Tainted(p, q)
    ensures Tainted(RecordAll(p, notices), q)
    decreases |notices|
  {
    if notices != [] {
      var n := notices[0];
      TaintStays(p, q, n);
      TaintStaysForGood(Record(p, n.id, n.index, n.count, n.status, n.at).0, q, notices[1..]);
    }
  }

  /**
   For every sequence of receipts, late, repeated or contradictory: a query is called known unsent at the end only if
   no receipt of it said that bytes may have been sent, whether that came before or after it was given up.
   */
  lemma {:induction false} KnownUnsentIsNeverWrong(p: Progress, q: Query, emittedAt: nat, notices: seq<Notice>)
    requires WellFormed(p) && Unsent(p, q, emittedAt) && RecordAll(p, notices).KnownUnsent?
    ensures forall i | 0 <= i < |notices| :: !Implicates(notices[i], q, emittedAt)
    decreases |notices|
  {
    if notices != [] {
      var n := notices[0];
      var p' := Record(p, n.id, n.index, n.count, n.status, n.at).0;
      NoticeSettles(p, q, emittedAt, n);
      if Tainted(p', q) {
        TaintStaysForGood(p', q, notices[1..]);
      }
      KnownUnsentIsNeverWrong(p', q, emittedAt, notices[1..]);
    }
  }
}
