/**
 The two views of one protocol write: the bridge submits it fragment by fragment (`TransportWrite`),
 and the link records the fragments it delivered with its own clock (`Reconnect`).
 */
module LinkWrites {
  import opened Prelude
  import AQ = ApplicationQuery
  import TW = TransportWrite
  import Link = Reconnect

  /** The clock readings and native outcomes that the bridge sees for fragments with these delays. */
  function Attempts(s: Link.LinkState, fs: seq<Link.Fragment>, outcomes: seq<TW.NativeOutcome>): (env: seq<TW.Attempt>)
    requires |outcomes| == |fs|
    ensures |env| == |fs|
    decreases |fs|
  {
    if fs == [] then []
    else
      var admitting := Link.Wait(s, fs[0].admitDelay);
      var done := Link.Wait(admitting, fs[0].doneDelay);
      [TW.Attempt(Link.Now(admitting), outcomes[0], Link.Now(done))]
      + Attempts(Link.RunFragment(s, fs[0]), fs[1..], outcomes[1..])
  }

  function AsRecord(r: TW.WriteRecord): Link.Record {
    Link.Record(Link.Write(|r.bytes|), r.at)
  }

  function AsRecords(rs: seq<TW.WriteRecord>): seq<Link.Record> {
    if rs == [] then [] else [AsRecord(rs[0])] + AsRecords(rs[1..])
  }

  predicate Sized(fs: seq<Link.Fragment>, chunks: seq<seq<TW.Byte>>) {
    |fs| == |chunks| && forall i | 0 <= i < |fs| :: fs[i].len == |chunks[i]|
  }

  /** `l` is `s` after capturing exactly these writes. */
  predicate Captures(s: Link.LinkState, l: Link.LinkState, writes: seq<TW.WriteRecord>) {
    && l.records == s.records + AsRecords(writes)
    && l.report.writes == SaturatingAdd(s.report.writes, |writes|)
    && l.local == s.local && l.outer == s.outer
  }

  /** One delivered fragment is stamped alike in both views. */
  lemma {:induction false} FragmentIsCaptured(
      s: Link.LinkState, f: Link.Fragment, chunk: seq<TW.Byte>, outcome: TW.NativeOutcome)
    requires f.len == |chunk|
    ensures var env := Attempts(s, [f], [outcome]);
            Captures(s, Link.RunFragment(s, f), [TW.WriteRecord(TW.SettledAt(env[0], s.local), chunk)])
  {
    OneRecord(TW.WriteRecord(TW.SettledAt(Attempts(s, [f], [outcome])[0], s.local), chunk));
  }

  lemma {:induction false} OneRecord(write: TW.WriteRecord)
    ensures AsRecords([write]) == [AsRecord(write)]
  {
    assert AsRecords([write]) == [AsRecord(write)] + AsRecords([]);
  }

  lemma {:induction false} CapturesCompose(
      s: Link.LinkState, m: Link.LinkState, l: Link.LinkState, first: TW.WriteRecord, rest: seq<TW.WriteRecord>)
    requires Captures(s, m, [first]) && Captures(m, l, rest)
    ensures Captures(s, l, [first] + rest)
  {
    OneRecord(first);
    assert ([first] + rest)[1..] == rest;
  }

  lemma CapturesNothing(s: Link.LinkState, fs: seq<Link.Fragment>)
    requires s.report.writes <= U64_MAX
    ensures Captures(s, Link.RunFragments(s, fs[..0]), [])
  {
    assert s.records + AsRecords([]) == s.records;
  }

  /** The first fragment and the captures of the others. */
  lemma CapturesOneMore(
      s: Link.LinkState, fs: seq<Link.Fragment>, k: nat, first: TW.WriteRecord, rest: seq<TW.WriteRecord>)
    requires k < |fs| && Captures(s, Link.RunFragment(s, fs[0]), [first])
    requires Captures(Link.RunFragment(s, fs[0]), Link.RunFragments(Link.RunFragment(s, fs[0]), fs[1..][..k]), rest)
    ensures Captures(s, Link.RunFragments(s, fs[..k + 1]), [first] + rest)
  {
    var m := Link.RunFragment(s, fs[0]);
    assert fs[..k + 1][1..] == fs[1..][..k] && fs[..k + 1][0] == fs[0];
    CapturesCompose(s, m, Link.RunFragments(m, fs[1..][..k]), first, rest);
  }

  /** The link after the delivered fragments of `t` has captured exactly its records. */
  predicate Reaches(t: TW.Trace, s: Link.LinkState, fs: seq<Link.Fragment>) {
    |t.delivered| <= |fs| && Captures(s, Link.RunFragments(s, fs[..|t.delivered|]), t.records)
  }

  lemma ReachesOneMore(first: TW.Trace, rest: TW.Trace, s: Link.LinkState, fs: seq<Link.Fragment>)
    requires fs != [] && |first.delivered| == 1 && |first.records| == 1
    requires Captures(s, Link.RunFragment(s, fs[0]), first.records)
    requires Reaches(rest, Link.RunFragment(s, fs[0]), fs[1..])
    ensures Reaches(TW.After(first, rest), s, fs)
  {
    assert first.records == [first.records[0]];
    CapturesOneMore(s, fs, |rest.delivered|, first.records[0], rest.records);
  }

  lemma {:induction false} AttemptsTail(s: Link.LinkState, fs: seq<Link.Fragment>, outcomes: seq<TW.NativeOutcome>)
    requires fs != [] && |outcomes| == |fs|
    ensures var m := Link.RunFragment(s, fs[0]);
            && Attempts(s, fs, outcomes)[1..] == Attempts(m, fs[1..], outcomes[1..]) && m.local == s.local
            && Attempts(s, fs, outcomes)[0] == Attempts(s, [fs[0]], [outcomes[0]])[0]
  {
  }

  /**
   For every query, payload and mix of outcomes: the fragments that the bridge delivers are exactly the
   write records that the link captures, with the same stamps and lengths, and the link counts each.
   */
  lemma {:induction false} DeliveredFragmentsAreCaptured(
      p: AQ.Progress, query: Option<AQ.Query>, chunks: seq<seq<TW.Byte>>, index: nat, count: nat,
      s: Link.LinkState, fs: seq<Link.Fragment>, outcomes: seq<TW.NativeOutcome>)
    requires AQ.WellFormed(p) && Sized(fs, chunks) && |outcomes| == |fs| && s.report.writes <= U64_MAX
    ensures Reaches(TW.Submit(p, query, chunks, index, count, s.local, Attempts(s, fs, outcomes)), s, fs)
    decreases |chunks|
  {
    CapturesNothing(s, fs);
    if chunks != [] {
      var env := Attempts(s, fs, outcomes);
      var first := TW.FragmentTrace(p, query, chunks[0], index, count, s.local, env[0]);
      TW.SubmitUnfolds(p, query, chunks, index, count, s.local, env);
      DeliveredFragment(p, query, chunks[0], index, count, s.local, env[0]);
      if first.result == TW.Completed {
        var m := Link.RunFragment(s, fs[0]);
        AttemptsTail(s, fs, outcomes);
        DeliveredFragmentsAreCaptured(first.progress, query, chunks[1..], index + 1, count, m, fs[1..], outcomes[1..]);
        var rest := TW.Submit(first.progress, query, chunks[1..], index + 1, count, s.local, env[1..]);
        FragmentIsCaptured(s, fs[0], chunks[0], outcomes[0]);
        ReachesOneMore(first, rest, s, fs);
      }
    }
  }

  lemma DeliveredFragment(
      p: AQ.Progress, query: Option<AQ.Query>, chunk: seq<TW.Byte>, index: nat, count: nat, start: nat, a: TW.Attempt)
    requires AQ.WellFormed(p)
    ensures var t := TW.FragmentTrace(p, query, chunk, index, count, start, a);
            if t.result == TW.Completed
            then t.delivered == [chunk] && t.records == [TW.WriteRecord(TW.SettledAt(a, start), chunk)]
            else t.delivered == [] && t.records == []
  {
  }

  /** Bytes counted by captured write records. */
  function WrittenBytes(rs: seq<Link.Record>): nat {
    if rs == [] then 0 else (if rs[0].kind.Write? then rs[0].kind.len else 0) + WrittenBytes(rs[1..])
  }

  lemma {:induction false} RecordsCountBytes(rs: seq<TW.WriteRecord>, delivered: seq<seq<TW.Byte>>)
    requires |rs| == |delivered| && forall i | 0 <= i < |rs| :: rs[i].bytes == delivered[i]
    ensures WrittenBytes(AsRecords(rs)) == |TW.Flatten(delivered)|
  {
    if rs != [] {
      RecordsCountBytes(rs[1..], delivered[1..]);
      assert AsRecords(rs)[1..] == AsRecords(rs[1..]);
    }
  }

  /** A link never captures more bytes than the payload, and captures all of them exactly when the write completes. */
  lemma CapturedBytesArePayload(
      p: AQ.Progress, query: Option<AQ.Query>, payload: seq<TW.Byte>, mtu: nat,
      s: Link.LinkState, fs: seq<Link.Fragment>, outcomes: seq<TW.NativeOutcome>)
    requires AQ.WellFormed(p) && s.report.writes <= U64_MAX && |outcomes| == |fs|
    requires Sized(fs, TW.Chunks(payload, TW.ChunkLength(mtu)))
    ensures var chunks := TW.Chunks(payload, TW.ChunkLength(mtu));
            var t := TW.Submit(p, query, chunks, 0, |chunks|, s.local, Attempts(s, fs, outcomes));
            && Reaches(t, s, fs)
            && WrittenBytes(AsRecords(t.records)) <= |payload|
            && (WrittenBytes(AsRecords(t.records)) == |payload| <==> t.result == TW.Completed)
  {
    var chunks, env := TW.Chunks(payload, TW.ChunkLength(mtu)), Attempts(s, fs, outcomes);
    var t := TW.Submit(p, query, chunks, 0, |chunks|, s.local, env);
    DeliveredFragmentsAreCaptured(p, query, chunks, 0, |chunks|, s, fs, outcomes);
    TW.WritesAreAccounted(p, query, chunks, 0, |chunks|, s.local, env);
    RecordsCountBytes(t.records, t.delivered);
    TW.DeliveredIsPrefix(t, payload, mtu, s.local, env);
  }
}
