/**
 The bridge clock within one link, and the reconnect driver that strings bounded links together.

 Every clock reading is the previous one plus a delay chosen by the environment. A link samples the
 clock before each record, except that the loss of a link is stamped one past the last *outer*
 sample, which slow writes do not advance.
 */
module Reconnect {
  import opened Prelude

  datatype RecordKind = Link | LinkDown | Subscribe | Write(len: nat) | Notification(len: nat)

  datatype Record = Record(kind: RecordKind, at: nat)

  /** The report fields that the reconnect driver aggregates; counters saturate. */
  datatype Report = Report(
    protocolWrites: nat,
    writes: nat,
    subscribes: nat,
    notifications: nat,
    notificationBytes: nat,
    latestNotificationLen: Option<nat>,
    disconnects: nat,
    events: seq<nat>)

  const EMPTY_REPORT := Report(0, 0, 0, 0, 0, None, 0, [])

  /** One fragment: delay before admission, delay until the transport accepted it, length. */
  datatype Fragment = Fragment(admitDelay: nat, doneDelay: nat, len: nat)

  datatype Action =
    | DoSubscribe
    | DoWrite(fragments: seq<Fragment>)
    | DoDisconnect
    | Emit(event: nat)

  /** One session output, processed `delay` after the previous clock reading. */
  datatype Output = Output(delay: nat, action: Action)

  datatype Trigger = LinkedUp | Command(command: nat) | Tick | Notified(len: nat)

  /** One wake-up of the driver and the outputs the session answers with. */
  datatype Phase = Phase(delay: nat, trigger: Trigger, outputs: seq<Output>)

  datatype LinkState = LinkState(
    start: nat,
    elapsed: nat,
    outer: nat,
    local: nat,
    records: seq<Record>,
    report: Report,
    issued: seq<nat>)

  /** The clock: an offset plus elapsed time, saturating. */
  function Now(s: LinkState): nat {
    SaturatingAdd(s.start, s.elapsed)
  }

  function Wait(s: LinkState, delay: nat): LinkState {
    s.(elapsed := s.elapsed + delay)
  }

  function Keep(s: LinkState, kind: RecordKind, at: nat): LinkState {
    s.(records := s.records + [Record(kind, at)])
  }

  // ---------------------------------------------------------------------------------------------
  // One link
  // ---------------------------------------------------------------------------------------------

  /** A fragment is stamped after the transport accepted it; the caller's clock value does not advance. */
  function RunFragment(s: LinkState, f: Fragment): LinkState {
    var admitting := Wait(s, f.admitDelay);
    var admittedAt := Max(Now(admitting), s.local);
    var done := Wait(admitting, f.doneDelay);
    Keep(done, Write(f.len), Max(Now(done), admittedAt))
      .(report := s.report.(writes := SaturatingAdd(s.report.writes, 1)))
  }

  function RunFragments(s: LinkState, fs: seq<Fragment>): LinkState
    decreases |fs|
  {
    if fs == [] then s else RunFragments(RunFragment(s, fs[0]), fs[1..])
  }

  function RunOutput(s: LinkState, o: Output): LinkState {
    var waited := Wait(s, o.delay);
    var s' := waited.(local := Max(s.local, Now(waited)));
    match o.action
    case DoSubscribe =>
      Keep(s', Subscribe, s'.local).(report := s.report.(subscribes := SaturatingAdd(s.report.subscribes, 1)))
    case DoWrite(fragments) =>
      RunFragments(s'.(report := s.report.(protocolWrites := SaturatingAdd(s.report.protocolWrites, 1))), fragments)
    case DoDisconnect =>
      Keep(s', LinkDown, s'.local).(report := s.report.(disconnects := SaturatingAdd(s.report.disconnects, 1)))
    case Emit(event) => s'.(report := s.report.(events := s.report.events + [event]))
  }

  function RunOutputs(s: LinkState, outputs: seq<Output>): LinkState
    decreases |outputs|
  {
    if outputs == [] then s else RunOutputs(RunOutput(s, outputs[0]), outputs[1..])
  }

  /** A wake-up samples the outer clock; output processing starts from that sample. */
  function Wake(s: LinkState, delay: nat, trigger: Trigger): LinkState {
    var waited := Wait(s, delay);
    var outer := if trigger.LinkedUp? then s.outer else Max(s.outer, Now(waited));
    var s' := waited.(outer := outer, local := outer);
    match trigger
    case LinkedUp => Keep(s', Link, outer)
    case Command(c) => s'.(issued := s.issued + [c])
    case Tick => s'
    case Notified(len) =>
      Keep(s', Notification(len), outer)
        .(report := s.report.(notifications := SaturatingAdd(s.report.notifications, 1),
                              notificationBytes := SaturatingAdd(s.report.notificationBytes, len),
                              latestNotificationLen := Some(len)))
  }

  function RunPhase(s: LinkState, p: Phase): LinkState {
    RunOutputs(Wake(s, p.delay, p.trigger), p.outputs)
  }

  function RunPhases(s: LinkState, phases: seq<Phase>): LinkState
    decreases |phases|
  {
    if phases == [] then s else RunPhases(RunPhase(s, phases[0]), phases[1..])
  }

  /** An external loss is stamped one past the outer sample, whatever the clock says. */
  function Lose(s: LinkState, emitted: seq<nat>): LinkState {
    var at := SaturatingAdd(s.outer, 1);
    Keep(s.(outer := at), LinkDown, at)
      .(report := s.report.(disconnects := SaturatingAdd(s.report.disconnects, 1),
                            events := s.report.events + emitted))
  }

  function Fresh(start: nat): LinkState {
    LinkState(start, 0, start, start, [], EMPTY_REPORT, [])
  }

  /** What the environment does with one link; `onLoss` is what the session emits when it is told of the loss. */
  datatype Script = Script(
    linkUp: seq<Output>, onCommand: seq<Phase>, later: seq<Phase>, lost: bool, onLoss: seq<nat>)

  /** Link-up, then the commands in order, then ticks and notifications, then possibly a loss. */
  function PhasesOf(script: Script, commands: seq<nat>): seq<Phase>
    requires |commands| <= |script.onCommand|
  {
    [Phase(0, LinkedUp, script.linkUp)]
    + seq(|commands|, i requires 0 <= i < |commands| => script.onCommand[i].(trigger := Command(commands[i])))
    + seq(|script.later|, i requires 0 <= i < |script.later| => Later(script.later[i]))
  }

  /** After the commands only ticks and notifications wake the driver. */
  function Later(p: Phase): Phase {
    if p.trigger.Notified? then p else p.(trigger := Tick)
  }

  /** The link when its window ends, before a loss is recorded. */
  function Driven(script: Script, commands: seq<nat>, start: nat): LinkState
    requires |commands| <= |script.onCommand|
  {
    RunPhases(Fresh(start), PhasesOf(script, commands))
  }

  function RunLink(script: Script, commands: seq<nat>, start: nat): LinkState
    requires |commands| <= |script.onCommand|
  {
    var s := Driven(script, commands, start);
    if script.lost then Lose(s, script.onLoss) else s
  }

  // ---------------------------------------------------------------------------------------------
  // Timestamps within a link
  // ---------------------------------------------------------------------------------------------

  predicate Sorted(rs: seq<Record>) {
    forall i, j | 0 <= i < j < |rs| :: rs[i].at <= rs[j].at
  }

  predicate Within(rs: seq<Record>, low: nat, high: nat) {
    forall i | 0 <= i < |rs| :: low <= rs[i].at <= high
  }

  /** No sample is ahead of the clock, and the records so far are in order. */
  predicate InStep(s: LinkState) {
    && s.start <= U64_MAX
    && s.start <= s.outer <= Now(s) && s.start <= s.local <= Now(s)
    && Within(s.records, s.start, Now(s)) && Sorted(s.records)
  }

  /** `s'` has kept the records of `s` and is still in step. */
  predicate Continues(s: LinkState, s': LinkState) {
    InStep(s') && s.records <= s'.records && s'.start == s.start
  }

  lemma FragmentKeepsStep(s: LinkState, f: Fragment)
    requires InStep(s)
    ensures Continues(s, RunFragment(s, f))
  {
  }

  lemma {:induction false} FragmentsKeepStep(s: LinkState, fs: seq<Fragment>)
    requires InStep(s)
    ensures Continues(s, RunFragments(s, fs))
    decreases |fs|
  {
    if fs != [] {
      FragmentKeepsStep(s, fs[0]);
      FragmentsKeepStep(RunFragment(s, fs[0]), fs[1..]);
    }
  }

  lemma OutputKeepsStep(s: LinkState, o: Output)
    requires InStep(s)
    ensures Continues(s, RunOutput(s, o))
  {
    var waited := Wait(s, o.delay);
    var s' := waited.(local := Max(s.local, Now(waited)));
    if o.action.DoWrite? {
      FragmentsKeepStep(s'.(report := s.report.(protocolWrites := SaturatingAdd(s.report.protocolWrites, 1))),
                        o.action.fragments);
    }
  }

  lemma {:induction false} OutputsKeepStep(s: LinkState, outputs: seq<Output>)
    requires InStep(s)
    ensures Continues(s, RunOutputs(s, outputs))
    decreases |outputs|
  {
    if outputs != [] {
      OutputKeepsStep(s, outputs[0]);
      OutputsKeepStep(RunOutput(s, outputs[0]), outputs[1..]);
    }
  }

  lemma PhaseKeepsStep(s: LinkState, p: Phase)
    requires InStep(s) && (p.trigger.LinkedUp? ==> s.records == [])
    ensures Continues(s, RunPhase(s, p))
    ensures p.trigger.LinkedUp? ==> RunPhase(s, p).records != []
  {
    OutputsKeepStep(Wake(s, p.delay, p.trigger), p.outputs);
  }

  lemma {:induction false} PhasesKeepStep(s: LinkState, phases: seq<Phase>)
    requires InStep(s) && forall i | 0 <= i < |phases| :: !phases[i].trigger.LinkedUp?
    ensures Continues(s, RunPhases(s, phases))
    decreases |phases|
  {
    if phases != [] {
      PhaseKeepsStep(s, phases[0]);
      PhasesKeepStep(RunPhase(s, phases[0]), phases[1..]);
    }
  }

  /** The loss is stamped no earlier than the last record. */
  predicate LossIsInOrder(s: LinkState) {
    s.records != [] ==> s.records[|s.records| - 1].at <= SaturatingAdd(s.outer, 1)
  }

  /** Recording a loss keeps the records in order exactly when its stamp does not precede the last of them. */
  lemma LossKeepsOrder(s: LinkState, emitted: seq<nat>)
    requires Sorted(s.records)
    ensures Sorted(Lose(s, emitted).records) <==> LossIsInOrder(s)
  {
    var lost := Lose(s, emitted).records;
    assert lost[..|s.records|] == s.records;
    if s.records != [] {
      var last := |s.records| - 1;
      assert lost[last] == s.records[last] && lost[last + 1].at == SaturatingAdd(s.outer, 1);
      if LossIsInOrder(s) {
        forall i, j | 0 <= i < j < |lost|
          ensures lost[i].at <= lost[j].at
        {
          assert i < last ==> s.records[i].at <= s.records[last].at;
        }
      }
    }
  }

  lemma DrivenIsOrdered(script: Script, commands: seq<nat>, start: nat)
    requires |commands| <= |script.onCommand| && start <= U64_MAX
    ensures var s := Driven(script, commands, start);
            s.records != [] && Sorted(s.records) && Within(s.records, start, U64_MAX) && start <= s.outer
  {
    var phases := PhasesOf(script, commands);
    var first := RunPhase(Fresh(start), phases[0]);
    PhaseKeepsStep(Fresh(start), phases[0]);
    PhasesKeepStep(first, phases[1..]);
    var s := RunPhases(first, phases[1..]);
    assert Driven(script, commands, start) == s;
    assert first.records <= s.records;
  }

  /**
   Within one link every record is at or after the link's start, and the records of every script run in
   order exactly when the link was not lost or the loss is stamped no earlier than the record before it.
   */
  lemma LinkRecordsAreOrdered(script: Script, commands: seq<nat>, start: nat)
    requires |commands| <= |script.onCommand| && start <= U64_MAX
    ensures var l := RunLink(script, commands, start);
            var s := Driven(script, commands, start);
            && l.records != [] && Within(l.records, start, U64_MAX)
            && Sorted(s.records) && l.records[..|s.records|] == s.records
            && (script.lost ==> |l.records| == |s.records| + 1 && l.records[|s.records|].kind == LinkDown)
            && (Sorted(l.records) <==> (script.lost ==> LossIsInOrder(s)))
  {
    DrivenIsOrdered(script, commands, start);
    LossKeepsOrder(Driven(script, commands, start), script.onLoss);
  }

  lemma LinkHasRecords(script: Script, commands: seq<nat>, start: nat)
    requires |commands| <= |script.onCommand| && start <= U64_MAX
    ensures RunLink(script, commands, start).records != []
  {
    LinkRecordsAreOrdered(script, commands, start);
  }

  /** Such scripts exist: a slow write is stamped after the loss that follows it. */
  lemma LossMayPrecedeSlowWrite()
    ensures exists script: Script ::
              |script.onCommand| == 0 && !Sorted(RunLink(script, [], 0).records)
  {
    var slow := Output(0, DoWrite([Fragment(0, 5, 1)]));
    var script := Script([slow], [], [], true, []);
    var s0 := Fresh(0);
    var s1 := Wake(s0, 0, LinkedUp);
    var s2 := RunOutput(s1, slow);
    assert PhasesOf(script, []) == [Phase(0, LinkedUp, [slow])];
    var s1' := s1.(report := EMPTY_REPORT.(protocolWrites := 1));
    assert s2 == RunFragments(s1', [Fragment(0, 5, 1)]);
    assert s2 == RunFragments(RunFragment(s1', Fragment(0, 5, 1)), []);
    assert RunOutputs(s1, [slow]) == RunOutputs(s2, []) == s2;
    assert RunPhases(s0, [Phase(0, LinkedUp, [slow])]) == RunPhases(s2, []) == s2;
    var l := RunLink(script, [], 0);
    assert l == Lose(s2, []);
    assert l.records[1].at == 5 && l.records[2].at == 1;
  }

  // ---------------------------------------------------------------------------------------------
  // Driving one link
  // ---------------------------------------------------------------------------------------------

  /** The driver's nested loops over wake-ups, outputs and fragments. */
  method DriveLink(script: Script, commands: seq<nat>, start: nat) returns (l: LinkState)
    requires |commands| <= |script.onCommand|
    ensures l == RunLink(script, commands, start)
  {
    var phases := PhasesOf(script, commands);
    l := Fresh(start);
    var i := 0;
    while i < |phases|
      invariant i <= |phases|
      invariant RunPhases(l, phases[i..]) == RunPhases(Fresh(start), phases)
    {
      l := Wake(l, phases[i].delay, phases[i].trigger);
      l := ProcessOutputs(l, phases[i].outputs);
      assert phases[i..][1..] == phases[i + 1..];
      i := i + 1;
    }
    if script.lost {
      l := Lose(l, script.onLoss);
    }
  }

  method ProcessOutputs(s: LinkState, outputs: seq<Output>) returns (l: LinkState)
    ensures l == RunOutputs(s, outputs)
  {
    l := s;
    var i := 0;
    while i < |outputs|
      invariant i <= |outputs|
      invariant RunOutputs(l, outputs[i..]) == RunOutputs(s, outputs)
    {
      assert outputs[i..][1..] == outputs[i + 1..];
      l := RunOutput(l, outputs[i]);
      i := i + 1;
    }
  }

  // ---------------------------------------------------------------------------------------------
  // Reconnecting
  // ---------------------------------------------------------------------------------------------

  /** What the host boundary returns for one attempt. */
  datatype Attempt =
    | ConnectFailed(error: string)
    | MissingEndpoint
    | LinkFailed(error: string)
    | Connected(script: Script)

  datatype Outcome<+T> = Success(value: T) | Failure(error: string)

  function LatestAt(rs: seq<Record>): nat {
    if rs == [] then 0 else Max(rs[0].at, LatestAt(rs[1..]))
  }

  function NextStart(l: LinkState): nat {
    SaturatingAdd(LatestAt(l.records), 1)
  }

  predicate Reconnects(l: LinkState) {
    l.report.disconnects > 0 && exists i :: 0 <= i < |l.records| && l.records[i].kind == LinkDown
  }

  /** Every script can answer the commands it is given. */
  predicate Answers(host: seq<Attempt>, commands: seq<nat>) {
    forall i | 0 <= i < |host| && host[i].Connected? :: |commands| <= |host[i].script.onCommand|
  }

  /** The links driven from attempt `i` on; the host's answers are `host`. */
  function Links(host: seq<Attempt>, i: nat, start: nat, commands: seq<nat>): Outcome<seq<LinkState>>
    requires i <= |host| && Answers(host, commands)
    decreases |host| - i
  {
    if i == |host| then Success([])
    else
      match host[i]
      case ConnectFailed(error) => if i == 0 then Failure(error) else Success([])
      case MissingEndpoint => Failure("missing session endpoint")
      case LinkFailed(error) => Failure(error)
      case Connected(script) =>
        var l := RunLink(script, if i == 0 then commands else [], start);
        if !Reconnects(l) then Success([l]) else Prefixed([l], Links(host, i + 1, NextStart(l), commands))
  }

  function Prefixed(links: seq<LinkState>, rest: Outcome<seq<LinkState>>): Outcome<seq<LinkState>> {
    match rest
    case Failure(error) => Failure(error)
    case Success(more) => Success(links + more)
  }

  lemma PrefixedTwice(a: seq<LinkState>, b: seq<LinkState>, rest: Outcome<seq<LinkState>>)
    ensures Prefixed(a, Prefixed(b, rest)) == Prefixed(a + b, rest)
    ensures Prefixed([], rest) == rest && Prefixed(a, Success([])) == Success(a)
  {
    if rest.Success? {
      assert a + (b + rest.value) == a + b + rest.value;
      assert [] + rest.value == rest.value;
    }
    assert a + [] == a;
  }

  function Merge(into: Report, r: Report): Report {
    Report(SaturatingAdd(into.protocolWrites, r.protocolWrites),
           SaturatingAdd(into.writes, r.writes),
           SaturatingAdd(into.subscribes, r.subscribes),
           SaturatingAdd(into.notifications, r.notifications),
           SaturatingAdd(into.notificationBytes, r.notificationBytes),
           if r.latestNotificationLen.Some? then r.latestNotificationLen else into.latestNotificationLen,
           SaturatingAdd(into.disconnects, r.disconnects),
           into.events + r.events)
  }

  function MergeAll(into: Report, links: seq<LinkState>): Report
    decreases |links|
  {
    if links == [] then into else MergeAll(Merge(into, links[0].report), links[1..])
  }

  function AllRecords(links: seq<LinkState>): seq<Record> {
    if links == [] then [] else links[0].records + AllRecords(links[1..])
  }

  datatype AttemptReport = AttemptReport(attempt: nat, report: Report, issued: seq<nat>)

  datatype Capture = Capture(records: seq<Record>, report: Report, attempts: seq<AttemptReport>)

  function Numbered(links: seq<LinkState>, first: nat): seq<AttemptReport> {
    seq(|links|, k requires 0 <= k < |links| => AttemptReport(first + k, links[k].report, links[k].issued))
  }

  method MergeSessionReport(into: Report, report: Report) returns (merged: Report)
    ensures merged == Merge(into, report)
  {
    merged := into;
    merged := merged.(protocolWrites := SaturatingAdd(merged.protocolWrites, report.protocolWrites));
    merged := merged.(writes := SaturatingAdd(merged.writes, report.writes));
    merged := merged.(subscribes := SaturatingAdd(merged.subscribes, report.subscribes));
    merged := merged.(notifications := SaturatingAdd(merged.notifications, report.notifications));
    merged := merged.(notificationBytes := SaturatingAdd(merged.notificationBytes, report.notificationBytes));
    if report.latestNotificationLen.Some? {
      merged := merged.(latestNotificationLen := report.latestNotificationLen);
    }
    merged := merged.(events := merged.events + report.events);
    merged := merged.(disconnects := SaturatingAdd(merged.disconnects, report.disconnects));
  }

  lemma {:induction false} AppendLink(into: Report, links: seq<LinkState>, l: LinkState)
    ensures AllRecords(links + [l]) == AllRecords(links) + l.records
    ensures MergeAll(into, links + [l]) == Merge(MergeAll(into, links), l.report)
    decreases |links|
  {
    if links != [] {
      AppendLink(Merge(into, links[0].report), links[1..], l);
      assert (links + [l])[1..] == links[1..] + [l];
    } else {
      assert links + [l] == [l];
      assert AllRecords([l]) == l.records + AllRecords([]);
      assert MergeAll(into, [l]) == MergeAll(Merge(into, l.report), []);
    }
  }

  lemma NumberedAppend(links: seq<LinkState>, l: LinkState)
    ensures Numbered(links + [l], 1) == Numbered(links, 1) + [AttemptReport(|links| + 1, l.report, l.issued)]
  {
  }

  /** The bounded reconnect loop; `host` has one answer per permitted link. */
  method CaptureReconnecting(host: seq<Attempt>, commands: seq<nat>) returns (r: Outcome<Capture>)
    requires host != [] && Answers(host, commands)
    ensures match Links(host, 0, 0, commands)
            case Failure(error) => r == Failure(error)
            case Success(links) =>
              r == Success(Capture(AllRecords(links), MergeAll(EMPTY_REPORT, links), Numbered(links, 1)))
  {
    var records, report, attempts := [], EMPTY_REPORT, [];
    var start: nat := 0;
    ghost var links: seq<LinkState> := [];
    ghost var whole := Links(host, 0, 0, commands);
    PrefixedTwice([], [], whole);
    for i := 0 to |host|
      invariant start <= U64_MAX && |attempts| == |links| == i && (i > 0 <==> records != [])
      invariant records == AllRecords(links) && report == MergeAll(EMPTY_REPORT, links)
      invariant attempts == Numbered(links, 1)
      invariant whole == Prefixed(links, Links(host, i, start, commands))
    {
      match host[i] {
        case ConnectFailed(error) =>
          if records == [] {
            return Failure(error);
          }
          PrefixedTwice(links, [], whole);
          assert whole == Success(links);
          break;
        case MissingEndpoint => return Failure("missing session endpoint");
        case LinkFailed(error) => return Failure(error);
        case Connected(script) =>
          var l := DriveLink(script, if i == 0 then commands else [], start);
          LinkHasRecords(script, if i == 0 then commands else [], start);
          AppendLink(EMPTY_REPORT, links, l);
          start := NextStart(l);
          report := MergeSessionReport(report, l.report);
          attempts := attempts + [AttemptReport(i + 1, l.report, l.issued)];
          records := records + l.records;
          PrefixedTwice(links, [l], Links(host, i + 1, start, commands));
          PrefixedTwice(links, [l], Success([]));
          NumberedAppend(links, l);
          links := links + [l];
          if !Reconnects(l) {
            assert whole == Success(links);
            break;
          }
      }
    }
    PrefixedTwice(links, [], whole);
    assert whole == Success(links);
    r := Success(Capture(records, report, attempts));
  }

  // ---------------------------------------------------------------------------------------------
  // Order across links
  // ---------------------------------------------------------------------------------------------

  lemma {:induction false} LatestBounds(rs: seq<Record>)
    ensures forall i | 0 <= i < |rs| :: rs[i].at <= LatestAt(rs)
    ensures rs != [] ==> exists i :: 0 <= i < |rs| && rs[i].at == LatestAt(rs)
  {
    if |rs| > 0 {
      LatestBounds(rs[1..]);
      forall i | 0 <= i < |rs|
        ensures rs[i].at <= LatestAt(rs)
      {
        assert i > 0 ==> rs[i] == rs[1..][i - 1];
      }
      if rs[0].at != LatestAt(rs) {
        var k :| 0 <= k < |rs[1..]| && rs[1..][k].at == LatestAt(rs[1..]);
        assert rs[k + 1].at == LatestAt(rs);
      } else {
        assert rs[0].at == LatestAt(rs);
      }
    }
  }

  predicate AllWithin(links: seq<LinkState>, low: nat) {
    forall k | 0 <= k < |links| :: links[k].records != [] && Within(links[k].records, low, U64_MAX)
  }

  /** Each link starts one past the latest record of the one before it. */
  predicate Chained(links: seq<LinkState>, start: nat)
    decreases |links|
  {
    links != [] ==>
      && links[0].records != [] && Within(links[0].records, start, U64_MAX)
      && start <= NextStart(links[0]) && Chained(links[1..], NextStart(links[0]))
  }

  lemma NextStartIsLater(l: LinkState, start: nat)
    requires l.records != [] && Within(l.records, start, U64_MAX)
    ensures start <= NextStart(l) <= U64_MAX
  {
    LatestBounds(l.records);
  }

  lemma ChainedCons(l: LinkState, rest: seq<LinkState>, start: nat)
    requires l.records != [] && Within(l.records, start, U64_MAX) && Chained(rest, NextStart(l))
    ensures Chained([l] + rest, start)
  {
    NextStartIsLater(l, start);
    assert ([l] + rest)[1..] == rest;
  }

  lemma {:induction false} LinksAreChained(host: seq<Attempt>, i: nat, start: nat, commands: seq<nat>)
    requires i <= |host| && Answers(host, commands) && start <= U64_MAX
    requires Links(host, i, start, commands).Success?
    ensures Chained(Links(host, i, start, commands).value, start)
    decreases |host| - i
  {
    if i < |host| && host[i].Connected? {
      var given := if i == 0 then commands else [];
      var l := RunLink(host[i].script, given, start);
      LinkRecordsAreOrdered(host[i].script, given, start);
      if Reconnects(l) {
        NextStartIsLater(l, start);
        LinksAreChained(host, i + 1, NextStart(l), commands);
        ChainedCons(l, Links(host, i + 1, NextStart(l), commands).value, start);
      } else {
        ChainedCons(l, [], start);
      }
    }
  }

  lemma {:induction false} ChainedStaysAfter(links: seq<LinkState>, start: nat)
    requires Chained(links, start)
    ensures AllWithin(links, start)
    decreases |links|
  {
    if links != [] {
      ChainedStaysAfter(links[1..], NextStart(links[0]));
      assert forall k | 0 < k < |links| :: links[k] == links[1..][k - 1];
    }
  }

  /** Every record of every link driven from `start` is at or after `start`. */
  lemma LinksStayAfterStart(host: seq<Attempt>, i: nat, start: nat, commands: seq<nat>)
    requires i <= |host| && Answers(host, commands) && start <= U64_MAX
    requires Links(host, i, start, commands).Success?
    ensures AllWithin(Links(host, i, start, commands).value, start)
  {
    LinksAreChained(host, i, start, commands);
    ChainedStaysAfter(Links(host, i, start, commands).value, start);
  }

  /** All records of `b` are strictly later than all records of `a`. */
  predicate StrictlyLater(a: LinkState, b: LinkState) {
    forall i, j | 0 <= i < |a.records| && 0 <= j < |b.records| :: a.records[i].at < b.records[j].at
  }

  lemma LaterFromStart(l: LinkState, later: LinkState)
    requires l.records != [] && later.records != []
    requires Within(l.records, 0, U64_MAX) && Within(later.records, NextStart(l), U64_MAX)
    ensures StrictlyLater(l, later) <==> LatestAt(l.records) < U64_MAX
  {
    LatestBounds(l.records);
    var k :| 0 <= k < |l.records| && l.records[k].at == LatestAt(l.records);
    assert later.records[0].at <= U64_MAX;
  }

  /** Link `b` is strictly later than link `a` exactly when `a` did not reach the largest time. */
  predicate OrderedPair(links: seq<LinkState>, a: nat, b: nat)
    requires a < b < |links|
  {
    StrictlyLater(links[a], links[b]) <==> LatestAt(links[a].records) < U64_MAX
  }

  lemma {:induction false} ChainIsOrdered(links: seq<LinkState>, start: nat, a: nat, b: nat)
    requires Chained(links, start) && a < b < |links|
    ensures OrderedPair(links, a, b)
    decreases |links|
  {
    if a == 0 {
      ChainedStaysAfter(links[1..], NextStart(links[0]));
      assert links[b] == links[1..][b - 1];
      LaterFromStart(links[0], links[b]);
    } else {
      ChainIsOrdered(links[1..], NextStart(links[0]), a - 1, b - 1);
    }
  }

  /**
   For any two links of one capture the later one's timestamps all exceed the earlier one's, exactly
   when the earlier link did not reach the largest representable time.
   */
  lemma LinksAreStrictlyOrdered(host: seq<Attempt>, i: nat, start: nat, commands: seq<nat>, a: nat, b: nat)
    requires i <= |host| && Answers(host, commands) && start <= U64_MAX
    requires Links(host, i, start, commands).Success?
    requires a < b < |Links(host, i, start, commands).value|
    ensures OrderedPair(Links(host, i, start, commands).value, a, b)
  {
    LinksAreChained(host, i, start, commands);
    ChainIsOrdered(Links(host, i, start, commands).value, start, a, b);
  }

  // ---------------------------------------------------------------------------------------------
  // Totals and commands
  // ---------------------------------------------------------------------------------------------

  predicate SameKind(a: RecordKind, b: RecordKind) {
    (a.Write? && b.Write?) || (a.Notification? && b.Notification?) || a == b
  }

  function Count(rs: seq<Record>, kind: RecordKind): nat {
    if rs == [] then 0
    else Count(rs[..|rs| - 1], kind) + if SameKind(rs[|rs| - 1].kind, kind) then 1 else 0
  }

  function Saturated(n: nat): nat {
    if n > U64_MAX then U64_MAX else n
  }

  /** The counters are the saturated numbers of captured records of each kind. */
  predicate Tallied(rs: seq<Record>, r: Report) {
    && r.writes == Saturated(Count(rs, Write(0)))
    && r.subscribes == Saturated(Count(rs, Subscribe))
    && r.notifications == Saturated(Count(rs, Notification(0)))
    && r.disconnects == Saturated(Count(rs, LinkDown))
  }

  lemma CountAppend(rs: seq<Record>, r: Record, kind: RecordKind)
    ensures Count(rs + [r], kind) == Count(rs, kind) + if SameKind(r.kind, kind) then 1 else 0
  {
    assert (rs + [r])[..|rs|] == rs;
  }

  /** `b` counts one more record of this kind than `a`. */
  predicate Bumped(a: Report, b: Report, kind: RecordKind) {
    && b.writes == (if kind.Write? then SaturatingAdd(a.writes, 1) else a.writes)
    && b.subscribes == (if kind.Subscribe? then SaturatingAdd(a.subscribes, 1) else a.subscribes)
    && b.notifications == (if kind.Notification? then SaturatingAdd(a.notifications, 1) else a.notifications)
    && b.disconnects == (if kind.LinkDown? then SaturatingAdd(a.disconnects, 1) else a.disconnects)
  }

  lemma TalliedAppend(rs: seq<Record>, r: Record, before: Report, after: Report)
    requires Tallied(rs, before) && Bumped(before, after, r.kind)
    ensures Tallied(rs + [r], after)
  {
    CountAppend(rs, r, Write(0));
    CountAppend(rs, r, Subscribe);
    CountAppend(rs, r, Notification(0));
    CountAppend(rs, r, LinkDown);
  }

  lemma FragmentTallies(s: LinkState, f: Fragment)
    requires Tallied(s.records, s.report)
    ensures var s' := RunFragment(s, f); Tallied(s'.records, s'.report) && s'.issued == s.issued
  {
    var s' := RunFragment(s, f);
    TalliedAppend(s.records, s'.records[|s.records|], s.report, s'.report);
  }

  lemma {:induction false} FragmentsTally(s: LinkState, fs: seq<Fragment>)
    requires Tallied(s.records, s.report)
    ensures var s' := RunFragments(s, fs); Tallied(s'.records, s'.report) && s'.issued == s.issued
    decreases |fs|
  {
    if fs != [] {
      FragmentTallies(s, fs[0]);
      FragmentsTally(RunFragment(s, fs[0]), fs[1..]);
    }
  }

  lemma OutputTallies(s: LinkState, o: Output)
    requires Tallied(s.records, s.report)
    ensures var s' := RunOutput(s, o); Tallied(s'.records, s'.report) && s'.issued == s.issued
  {
    var waited := Wait(s, o.delay);
    var s1 := waited.(local := Max(s.local, Now(waited)));
    var s' := RunOutput(s, o);
    match o.action
    case DoSubscribe => TalliedAppend(s.records, Record(Subscribe, s1.local), s.report, s'.report);
    case DoDisconnect => TalliedAppend(s.records, Record(LinkDown, s1.local), s.report, s'.report);
    case DoWrite(fragments) =>
      FragmentsTally(s1.(report := s.report.(protocolWrites := SaturatingAdd(s.report.protocolWrites, 1))), fragments);
    case Emit(_) =>
  }

  lemma {:induction false} OutputsTally(s: LinkState, outputs: seq<Output>)
    requires Tallied(s.records, s.report)
    ensures var s' := RunOutputs(s, outputs); Tallied(s'.records, s'.report) && s'.issued == s.issued
    decreases |outputs|
  {
    if outputs != [] {
      OutputTallies(s, outputs[0]);
      OutputsTally(RunOutput(s, outputs[0]), outputs[1..]);
    }
  }

  function IssuedBy(phases: seq<Phase>): seq<nat> {
    if phases == [] then []
    else (if phases[0].trigger.Command? then [phases[0].trigger.command] else []) + IssuedBy(phases[1..])
  }

  lemma WakeTallies(s: LinkState, delay: nat, trigger: Trigger)
    requires Tallied(s.records, s.report)
    ensures var s' := Wake(s, delay, trigger);
            Tallied(s'.records, s'.report)
            && s'.issued == s.issued + if trigger.Command? then [trigger.command] else []
  {
    var s' := Wake(s, delay, trigger);
    if trigger.Notified? || trigger.LinkedUp? {
      TalliedAppend(s.records, s'.records[|s.records|], s.report, s'.report);
    }
  }

  lemma {:induction false} PhasesTally(s: LinkState, phases: seq<Phase>)
    requires Tallied(s.records, s.report)
    ensures var s' := RunPhases(s, phases);
            Tallied(s'.records, s'.report) && s'.issued == s.issued + IssuedBy(phases)
    decreases |phases|
  {
    if phases != [] {
      WakeTallies(s, phases[0].delay, phases[0].trigger);
      OutputsTally(Wake(s, phases[0].delay, phases[0].trigger), phases[0].outputs);
      PhasesTally(RunPhase(s, phases[0]), phases[1..]);
    }
  }

  lemma {:induction false} IssuedAppend(a: seq<Phase>, b: seq<Phase>)
    ensures IssuedBy(a + b) == IssuedBy(a) + IssuedBy(b)
  {
    if a == [] {
      assert a + b == b;
    } else {
      IssuedAppend(a[1..], b);
      assert (a + b)[0] == a[0] && (a + b)[1..] == a[1..] + b;
      var head := if a[0].trigger.Command? then [a[0].trigger.command] else [];
      assert head + (IssuedBy(a[1..]) + IssuedBy(b)) == head + IssuedBy(a[1..]) + IssuedBy(b);
    }
  }

  lemma {:induction false} CommandPhasesIssue(phases: seq<Phase>, commands: seq<nat>)
    requires |phases| == |commands|
    requires forall i | 0 <= i < |phases| :: phases[i].trigger == Command(commands[i])
    ensures IssuedBy(phases) == commands
  {
    if phases != [] {
      CommandPhasesIssue(phases[1..], commands[1..]);
      assert commands == [commands[0]] + commands[1..];
    }
  }

  lemma {:induction false} LaterPhasesIssueNothing(phases: seq<Phase>)
    requires forall i | 0 <= i < |phases| :: !phases[i].trigger.Command?
    ensures IssuedBy(phases) == []
  {
    if phases != [] {
      LaterPhasesIssueNothing(phases[1..]);
    }
  }

  /** A link issues exactly the commands it was given, and its counters are its captured records. */
  lemma LinkTallies(script: Script, commands: seq<nat>, start: nat)
    requires |commands| <= |script.onCommand|
    ensures var l := RunLink(script, commands, start);
            Tallied(l.records, l.report) && l.issued == commands
  {
    var first := [Phase(0, LinkedUp, script.linkUp)];
    var middle :=
      seq(|commands|, i requires 0 <= i < |commands| => script.onCommand[i].(trigger := Command(commands[i])));
    var last := seq(|script.later|, i requires 0 <= i < |script.later| => Later(script.later[i]));
    var phases := PhasesOf(script, commands);
    assert phases == first + middle + last;
    PhasesTally(Fresh(start), phases);
    IssuedAppend(first + middle, last);
    IssuedAppend(first, middle);
    LaterPhasesIssueNothing(first);
    CommandPhasesIssue(middle, commands);
    LaterPhasesIssueNothing(last);
    var s := RunPhases(Fresh(start), phases);
    TalliedAppend(s.records, Record(LinkDown, SaturatingAdd(s.outer, 1)), s.report, Lose(s, script.onLoss).report);
  }

  /** Commands go out on the first link only, and every link but the last was lost. */
  lemma {:induction false} CommandsAreNotReplayed(host: seq<Attempt>, i: nat, start: nat, commands: seq<nat>)
    requires i <= |host| && Answers(host, commands) && Links(host, i, start, commands).Success?
    ensures var links := Links(host, i, start, commands).value;
            && |links| <= |host| - i
            && (forall k | 0 <= k < |links| :: links[k].issued == if i + k == 0 then commands else [])
            && (forall k | 0 <= k < |links| - 1 :: Reconnects(links[k]))
            && (forall k | 0 <= k < |links| :: Tallied(links[k].records, links[k].report))
    decreases |host| - i
  {
    if i < |host| && host[i].Connected? {
      var given := if i == 0 then commands else [];
      var l := RunLink(host[i].script, given, start);
      LinkTallies(host[i].script, given, start);
      if Reconnects(l) {
        CommandsAreNotReplayed(host, i + 1, NextStart(l), commands);
      }
    }
  }

  lemma {:induction false} CountSplits(a: seq<Record>, b: seq<Record>, kind: RecordKind)
    ensures Count(a + b, kind) == Count(a, kind) + Count(b, kind)
  {
    if b == [] {
      assert a + b == a;
    } else {
      CountSplits(a, b[..|b| - 1], kind);
      assert (a + b)[..|a + b| - 1] == a + b[..|b| - 1];
    }
  }

  lemma MergeTallies(into: Report, before: seq<Record>, report: Report, rs: seq<Record>)
    requires Tallied(before, into) && Tallied(rs, report)
    ensures Tallied(before + rs, Merge(into, report))
  {
    CountSplits(before, rs, Write(0));
    CountSplits(before, rs, Subscribe);
    CountSplits(before, rs, Notification(0));
    CountSplits(before, rs, LinkDown);
  }

  /** Merging reports adds up to the saturated number of records in the concatenation. */
  lemma {:induction false} TotalsAreTallied(into: Report, before: seq<Record>, links: seq<LinkState>)
    requires Tallied(before, into)
    requires forall k | 0 <= k < |links| :: Tallied(links[k].records, links[k].report)
    ensures Tallied(before + AllRecords(links), MergeAll(into, links))
    decreases |links|
  {
    if links == [] {
      assert before + AllRecords(links) == before;
    } else {
      var l := links[0];
      MergeTallies(into, before, l.report, l.records);
      TotalsAreTallied(Merge(into, l.report), before + l.records, links[1..]);
      assert before + l.records + AllRecords(links[1..]) == before + AllRecords(links);
    }
  }

  function AllEvents(links: seq<LinkState>): seq<nat> {
    if links == [] then [] else links[0].report.events + AllEvents(links[1..])
  }

  /** Merging reports concatenates the events of all links in order, those of losses included. */
  lemma {:induction false} EventsAreConcatenated(into: Report, links: seq<LinkState>)
    ensures MergeAll(into, links).events == into.events + AllEvents(links)
    decreases |links|
  {
    if links == [] {
      assert into.events + AllEvents(links) == into.events;
    } else {
      EventsAreConcatenated(Merge(into, links[0].report), links[1..]);
      assert into.events + links[0].report.events + AllEvents(links[1..]) == into.events + AllEvents(links);
    }
  }

  /** For every capture the aggregate counters equal the captured records of all links together. */
  lemma CaptureTotals(host: seq<Attempt>, commands: seq<nat>)
    requires Answers(host, commands) && Links(host, 0, 0, commands).Success?
    ensures var links := Links(host, 0, 0, commands).value;
            Tallied(AllRecords(links), MergeAll(EMPTY_REPORT, links))
  {
    var links := Links(host, 0, 0, commands).value;
    CommandsAreNotReplayed(host, 0, 0, commands);
    TotalsAreTallied(EMPTY_REPORT, [], links);
    assert [] + AllRecords(links) == AllRecords(links);
  }

  /** A link was lost exactly when a loss was captured: the counter test adds nothing. */
  lemma ReconnectsIffLossCaptured(script: Script, commands: seq<nat>, start: nat)
    requires |commands| <= |script.onCommand|
    ensures var l := RunLink(script, commands, start);
            Reconnects(l) <==> Count(l.records, LinkDown) > 0
  {
    var l := RunLink(script, commands, start);
    LinkTallies(script, commands, start);
    CountIsPositive(l.records, LinkDown);
  }

  lemma {:induction false} CountIsPositive(rs: seq<Record>, kind: RecordKind)
    requires kind == LinkDown
    ensures Count(rs, kind) > 0 <==> exists i :: 0 <= i < |rs| && rs[i].kind == kind
  {
    if rs != [] {
      var n := |rs| - 1;
      CountIsPositive(rs[..n], kind);
      if rs[n].kind != kind && Count(rs, kind) > 0 {
        var i :| 0 <= i < |rs[..n]| && rs[..n][i].kind == kind;
        assert rs[i].kind == kind;
      }
      if exists i :: 0 <= i < |rs| && rs[i].kind == kind {
        var i :| 0 <= i < |rs| && rs[i].kind == kind;
        assert i < n ==> rs[..n][i].kind == kind;
      }
    }
  }
}
