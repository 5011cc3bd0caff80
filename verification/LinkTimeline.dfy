/**
 What one link captures, told without its clock samples: a timeline of plain elapsed time. The clamps by
 which the driver keeps its samples from running backwards never take effect on it.
 */
module LinkTimeline {
  import opened Prelude
  import opened Reconnect

  /** Something worth recording, and the time since the link's start at which it happened. */
  datatype Moment = Moment(kind: RecordKind, after: nat)

  function FragmentsDuration(fs: seq<Fragment>): nat {
    if fs == [] then 0 else fs[0].admitDelay + fs[0].doneDelay + FragmentsDuration(fs[1..])
  }

  function OutputDuration(o: Output): nat {
    o.delay + if o.action.DoWrite? then FragmentsDuration(o.action.fragments) else 0
  }

  function OutputsDuration(outputs: seq<Output>): nat {
    if outputs == [] then 0 else OutputDuration(outputs[0]) + OutputsDuration(outputs[1..])
  }

  /** A fragment is worth recording once the transport has taken it. */
  function FragmentMoments(after: nat, fs: seq<Fragment>): seq<Moment>
    decreases |fs|
  {
    if fs == [] then []
    else
      var taken := after + fs[0].admitDelay + fs[0].doneDelay;
      [Moment(Write(fs[0].len), taken)] + FragmentMoments(taken, fs[1..])
  }

  function OutputMoments(after: nat, o: Output): seq<Moment> {
    match o.action
    case DoSubscribe => [Moment(Subscribe, after + o.delay)]
    case DoWrite(fragments) => FragmentMoments(after + o.delay, fragments)
    case DoDisconnect => [Moment(LinkDown, after + o.delay)]
    case Emit(_) => []
  }

  function OutputsMoments(after: nat, outputs: seq<Output>): seq<Moment>
    decreases |outputs|
  {
    if outputs == [] then []
    else OutputMoments(after, outputs[0]) + OutputsMoments(after + OutputDuration(outputs[0]), outputs[1..])
  }

  function TriggerMoments(after: nat, trigger: Trigger): seq<Moment> {
    match trigger
    case LinkedUp => [Moment(Link, after)]
    case Notified(len) => [Moment(Notification(len), after)]
    case _ => []
  }

  function PhaseMoments(after: nat, p: Phase): seq<Moment> {
    TriggerMoments(after + p.delay, p.trigger) + OutputsMoments(after + p.delay, p.outputs)
  }

  function PhaseDuration(p: Phase): nat {
    p.delay + OutputsDuration(p.outputs)
  }

  function PhasesDuration(phases: seq<Phase>): nat {
    if phases == [] then 0 else PhaseDuration(phases[0]) + PhasesDuration(phases[1..])
  }

  function Moments(after: nat, phases: seq<Phase>): seq<Moment>
    decreases |phases|
  {
    if phases == [] then []
    else PhaseMoments(after, phases[0]) + Moments(after + PhaseDuration(phases[0]), phases[1..])
  }

  /** What a report says beside its counts of records. */
  datatype Gist = Gist(events: seq<nat>, protocolWrites: nat, bytes: nat, lastLength: Option<nat>)

  const SILENT := Gist([], 0, 0, None)

  function Join(a: Gist, b: Gist): Gist {
    Gist(a.events + b.events, a.protocolWrites + b.protocolWrites, a.bytes + b.bytes,
         if b.lastLength.Some? then b.lastLength else a.lastLength)
  }

  function OutputGist(o: Output): Gist {
    match o.action
    case Emit(event) => Gist([event], 0, 0, None)
    case DoWrite(_) => Gist([], 1, 0, None)
    case _ => SILENT
  }

  function OutputsGist(outputs: seq<Output>): Gist {
    if outputs == [] then SILENT else Join(OutputGist(outputs[0]), OutputsGist(outputs[1..]))
  }

  function TriggerGist(trigger: Trigger): Gist {
    if trigger.Notified? then Gist([], 0, trigger.len, Some(trigger.len)) else SILENT
  }

  function PhaseGist(p: Phase): Gist {
    Join(TriggerGist(p.trigger), OutputsGist(p.outputs))
  }

  function PhasesGist(phases: seq<Phase>): Gist {
    if phases == [] then SILENT
    else Join(PhaseGist(phases[0]), PhasesGist(phases[1..]))
  }

  function Woken(wake: nat, after: nat, p: Phase): nat {
    if p.trigger.LinkedUp? then wake else after + p.delay
  }

  /** When the driver last woke after link-up, if it did, and `wake` otherwise. */
  function LastWake(wake: nat, after: nat, phases: seq<Phase>): nat
    decreases |phases|
  {
    if phases == [] then wake
    else LastWake(Woken(wake, after, phases[0]), after + PhaseDuration(phases[0]), phases[1..])
  }

  function Stamped(start: nat, moments: seq<Moment>): seq<Record> {
    seq(|moments|, i requires 0 <= i < |moments| =>
          Record(moments[i].kind, SaturatingAdd(start, moments[i].after)))
  }

  lemma StampedAppend(start: nat, a: seq<Moment>, b: seq<Moment>)
    ensures Stamped(start, a + b) == Stamped(start, a) + Stamped(start, b)
  {
  }

  // ---------------------------------------------------------------------------------------------
  // The driver follows the timeline
  // ---------------------------------------------------------------------------------------------

  /** The samples of the link are between its start and its clock. */
  predicate Ticking(s: LinkState) {
    s.start <= U64_MAX && s.start <= s.outer <= Now(s) && s.start <= s.local <= Now(s)
  }

  /** `s'` has captured these moments since `s`. */
  predicate Captures(s: LinkState, s': LinkState, moments: seq<Moment>, duration: nat) {
    && s'.records == s.records + Stamped(s.start, moments)
    && s'.elapsed == s.elapsed + duration && s'.start == s.start && Ticking(s')
  }

  lemma CapturesTwice(
      s: LinkState, s1: LinkState, s2: LinkState, a: seq<Moment>, b: seq<Moment>, first: nat, second: nat)
    requires Captures(s, s1, a, first) && Captures(s1, s2, b, second)
    ensures Captures(s, s2, a + b, first + second)
  {
    StampedAppend(s.start, a, b);
  }

  lemma CapturesNothing(s: LinkState)
    requires Ticking(s)
    ensures Captures(s, s, [], 0)
  {
    assert s.records + Stamped(s.start, []) == s.records;
  }

  /** `b` says this beyond what `a` says. */
  predicate Adds(a: Report, b: Report, g: Gist) {
    && b.events == a.events + g.events
    && b.protocolWrites == SaturatingAdd(a.protocolWrites, g.protocolWrites)
    && b.notificationBytes == SaturatingAdd(a.notificationBytes, g.bytes)
    && b.latestNotificationLen == (if g.lastLength.Some? then g.lastLength else a.latestNotificationLen)
  }

  /** The counters that `Adds` speaks of fit their type. */
  predicate Fits(r: Report) {
    r.protocolWrites <= U64_MAX && r.notificationBytes <= U64_MAX
  }

  lemma AddsTwice(a: Report, b: Report, c: Report, g: Gist, h: Gist)
    requires Adds(a, b, g) && Adds(b, c, h)
    ensures Adds(a, c, Join(g, h))
  {
    assert a.events + g.events + h.events == a.events + (g.events + h.events);
  }

  lemma AddsNothing(a: Report)
    requires Fits(a)
    ensures Adds(a, a, SILENT)
  {
    assert a.events + [] == a.events;
  }

  lemma FragmentIsCaptured(s: LinkState, f: Fragment)
    requires Ticking(s)
    ensures var taken := s.elapsed + f.admitDelay + f.doneDelay;
            Captures(s, RunFragment(s, f), [Moment(Write(f.len), taken)], f.admitDelay + f.doneDelay)
    ensures RunFragment(s, f).report == s.report.(writes := SaturatingAdd(s.report.writes, 1))
    ensures RunFragment(s, f).outer == s.outer
  {
  }

  lemma {:induction false} FragmentsAreCaptured(s: LinkState, fs: seq<Fragment>)
    requires Ticking(s) && Fits(s.report)
    ensures Captures(s, RunFragments(s, fs), FragmentMoments(s.elapsed, fs), FragmentsDuration(fs))
    ensures RunFragments(s, fs).report == s.report.(writes := RunFragments(s, fs).report.writes)
    ensures RunFragments(s, fs).outer == s.outer
    decreases |fs|
  {
    if fs == [] {
      CapturesNothing(s);
    } else {
      var s1 := RunFragment(s, fs[0]);
      var taken := s.elapsed + fs[0].admitDelay + fs[0].doneDelay;
      FragmentIsCaptured(s, fs[0]);
      FragmentsAreCaptured(s1, fs[1..]);
      CapturesTwice(s, s1, RunFragments(s1, fs[1..]), [Moment(Write(fs[0].len), taken)],
                    FragmentMoments(taken, fs[1..]), fs[0].admitDelay + fs[0].doneDelay, FragmentsDuration(fs[1..]));
    }
  }

  lemma OutputIsCaptured(s: LinkState, o: Output)
    requires Ticking(s) && Fits(s.report)
    ensures var s' := RunOutput(s, o);
            && Captures(s, s', OutputMoments(s.elapsed, o), OutputDuration(o)) && s'.outer == s.outer
            && Adds(s.report, s'.report, OutputGist(o)) && Fits(s'.report)
  {
    var waited := Wait(s, o.delay);
    var s1 := waited.(local := Max(s.local, Now(waited)));
    assert s1.local == Now(s1) == SaturatingAdd(s.start, s.elapsed + o.delay);
    if o.action.DoWrite? {
      var s2 := s1.(report := s.report.(protocolWrites := SaturatingAdd(s.report.protocolWrites, 1)));
      FragmentsAreCaptured(s2, o.action.fragments);
    }
    AddsNothing(s.report);
  }

  lemma {:induction false} OutputsAreCaptured(s: LinkState, outputs: seq<Output>)
    requires Ticking(s) && Fits(s.report)
    ensures var s' := RunOutputs(s, outputs);
            && Captures(s, s', OutputsMoments(s.elapsed, outputs), OutputsDuration(outputs)) && s'.outer == s.outer
            && Adds(s.report, s'.report, OutputsGist(outputs)) && Fits(s'.report)
    decreases |outputs|
  {
    if outputs == [] {
      CapturesNothing(s);
      AddsNothing(s.report);
    } else {
      var s1, o := RunOutput(s, outputs[0]), outputs[0];
      var s2 := RunOutputs(s1, outputs[1..]);
      OutputIsCaptured(s, o);
      OutputsAreCaptured(s1, outputs[1..]);
      CapturesTwice(s, s1, s2, OutputMoments(s.elapsed, o), OutputsMoments(s1.elapsed, outputs[1..]),
                    OutputDuration(o), OutputsDuration(outputs[1..]));
      AddsTwice(s.report, s1.report, s2.report, OutputGist(o), OutputsGist(outputs[1..]));
    }
  }

  /** A link that was last woken `wake` after its start. */
  predicate Underway(s: LinkState, wake: nat) {
    Ticking(s) && Fits(s.report) && s.outer == SaturatingAdd(s.start, wake)
  }

  /** Link-up comes first and at once. */
  predicate Begins(s: LinkState, p: Phase) {
    p.trigger.LinkedUp? ==> s.records == [] && s.elapsed == 0 && p.delay == 0 && s.outer == s.start
  }

  lemma WakeIsCaptured(s: LinkState, wake: nat, p: Phase)
    requires Underway(s, wake) && Begins(s, p)
    ensures var s' := Wake(s, p.delay, p.trigger);
            && Captures(s, s', TriggerMoments(s.elapsed + p.delay, p.trigger), p.delay)
            && Underway(s', Woken(wake, s.elapsed, p)) && Adds(s.report, s'.report, TriggerGist(p.trigger))
  {
    AddsNothing(s.report);
    if p.trigger.Tick? || p.trigger.Command? {
      CapturesNothing(s);
    }
  }

  lemma PhaseIsCaptured(s: LinkState, wake: nat, p: Phase)
    requires Underway(s, wake) && Begins(s, p)
    ensures var s' := RunPhase(s, p);
            && Captures(s, s', PhaseMoments(s.elapsed, p), PhaseDuration(p))
            && Underway(s', Woken(wake, s.elapsed, p))
            && Adds(s.report, s'.report, PhaseGist(p))
  {
    var s1 := Wake(s, p.delay, p.trigger);
    WakeIsCaptured(s, wake, p);
    OutputsAreCaptured(s1, p.outputs);
    CapturesTwice(s, s1, RunPhase(s, p), TriggerMoments(s.elapsed + p.delay, p.trigger),
                  OutputsMoments(s1.elapsed, p.outputs), p.delay, OutputsDuration(p.outputs));
    AddsTwice(s.report, s1.report, RunPhase(s, p).report, TriggerGist(p.trigger), OutputsGist(p.outputs));
  }

  /** The wake-ups that a link can meet from here: link-up at its start, and only there. */
  predicate Follow(s: LinkState, phases: seq<Phase>) {
    && (phases != [] ==> Begins(s, phases[0]))
    && forall i | 1 <= i < |phases| :: !phases[i].trigger.LinkedUp?
  }

  lemma FollowTail(s: LinkState, s1: LinkState, phases: seq<Phase>)
    requires phases != [] && Follow(s, phases)
    ensures Follow(s1, phases[1..])
  {
    if |phases| > 1 {
      assert phases[1..][0] == phases[1];
    }
  }

  lemma {:induction false} PhasesKeepWaking(s: LinkState, wake: nat, phases: seq<Phase>)
    requires Underway(s, wake) && Follow(s, phases)
    ensures Underway(RunPhases(s, phases), LastWake(wake, s.elapsed, phases))
    decreases |phases|
  {
    if phases != [] {
      var s1 := RunPhase(s, phases[0]);
      PhaseIsCaptured(s, wake, phases[0]);
      FollowTail(s, s1, phases);
      PhasesKeepWaking(s1, Woken(wake, s.elapsed, phases[0]), phases[1..]);
    }
  }

  lemma {:induction false} PhasesAreCaptured(s: LinkState, wake: nat, phases: seq<Phase>)
    requires Underway(s, wake) && Follow(s, phases)
    ensures Captures(s, RunPhases(s, phases), Moments(s.elapsed, phases), PhasesDuration(phases))
    decreases |phases|
  {
    if phases == [] {
      CapturesNothing(s);
    } else {
      var s1 := RunPhase(s, phases[0]);
      PhaseIsCaptured(s, wake, phases[0]);
      FollowTail(s, s1, phases);
      PhasesAreCaptured(s1, Woken(wake, s.elapsed, phases[0]), phases[1..]);
      CapturesTwice(s, s1, RunPhases(s1, phases[1..]), PhaseMoments(s.elapsed, phases[0]),
                    Moments(s1.elapsed, phases[1..]), PhaseDuration(phases[0]), PhasesDuration(phases[1..]));
    }
  }

  lemma {:induction false} PhasesAreTold(s: LinkState, wake: nat, phases: seq<Phase>)
    requires Underway(s, wake) && Follow(s, phases)
    ensures Adds(s.report, RunPhases(s, phases).report, PhasesGist(phases))
    decreases |phases|
  {
    if phases == [] {
      AddsNothing(s.report);
    } else {
      var s1 := RunPhase(s, phases[0]);
      PhaseIsCaptured(s, wake, phases[0]);
      FollowTail(s, s1, phases);
      PhasesAreTold(s1, Woken(wake, s.elapsed, phases[0]), phases[1..]);
      AddsTwice(s.report, s1.report, RunPhases(s1, phases[1..]).report, PhaseGist(phases[0]), PhasesGist(phases[1..]));
    }
  }

  lemma LinkBegins(script: Script, commands: seq<nat>, start: nat)
    requires |commands| <= |script.onCommand|
    ensures Follow(Fresh(start), PhasesOf(script, commands))
  {
  }

  lemma DrivenFollowsTimeline(start: nat, phases: seq<Phase>)
    requires start <= U64_MAX && Follow(Fresh(start), phases)
    ensures var s := RunPhases(Fresh(start), phases);
            && s.records == Stamped(start, Moments(0, phases)) && Adds(EMPTY_REPORT, s.report, PhasesGist(phases))
            && s.outer == SaturatingAdd(start, LastWake(0, 0, phases)) && Fits(s.report)
  {
    PhasesKeepWaking(Fresh(start), 0, phases);
    PhasesAreCaptured(Fresh(start), 0, phases);
    PhasesAreTold(Fresh(start), 0, phases);
    assert [] + Stamped(start, Moments(0, phases)) == Stamped(start, Moments(0, phases));
  }

  lemma LossIsTold(s: LinkState, g: Gist, emitted: seq<nat>)
    requires Adds(EMPTY_REPORT, s.report, g) && Fits(s.report)
    ensures Lose(s, emitted).records == s.records + [Record(LinkDown, SaturatingAdd(s.outer, 1))]
    ensures Adds(EMPTY_REPORT, Lose(s, emitted).report, Join(g, SILENT.(events := emitted)))
    ensures Adds(EMPTY_REPORT, s.report, Join(g, SILENT))
  {
    AddsNothing(s.report);
    AddsTwice(EMPTY_REPORT, s.report, s.report, g, SILENT);
    AddsTwice(EMPTY_REPORT, s.report, Lose(s, emitted).report, g, SILENT.(events := emitted));
  }

  /** The link has captured the timeline of these wake-ups, and its loss if it was lost. */
  predicate FollowsTimeline(l: LinkState, start: nat, phases: seq<Phase>, lost: bool, onLoss: seq<nat>) {
    var lostAt := SaturatingAdd(SaturatingAdd(start, LastWake(0, 0, phases)), 1);
    && l.records == Stamped(start, Moments(0, phases)) + (if lost then [Record(LinkDown, lostAt)] else [])
    && Adds(EMPTY_REPORT, l.report, Join(PhasesGist(phases), if lost then SILENT.(events := onLoss) else SILENT))
  }

  lemma TimelineIsFollowed(start: nat, phases: seq<Phase>, lost: bool, onLoss: seq<nat>)
    requires start <= U64_MAX && Follow(Fresh(start), phases)
    ensures var s := RunPhases(Fresh(start), phases);
            FollowsTimeline(if lost then Lose(s, onLoss) else s, start, phases, lost, onLoss)
  {
    DrivenFollowsTimeline(start, phases);
    LossIsTold(RunPhases(Fresh(start), phases), PhasesGist(phases), onLoss);
  }

  /**
   For every script, a link captures exactly its timeline: the records in the order and at the time they happened,
   the emitted events in order, every protocol write and every notified byte. A loss is appended one past the last
   wake-up with the events the session emits on being told.
   */
  lemma LinkFollowsTimeline(script: Script, commands: seq<nat>, start: nat)
    requires |commands| <= |script.onCommand| && start <= U64_MAX
    ensures FollowsTimeline(RunLink(script, commands, start), start, PhasesOf(script, commands),
                            script.lost, script.onLoss)
  {
    LinkBegins(script, commands, start);
    TimelineIsFollowed(start, PhasesOf(script, commands), script.lost, script.onLoss);
  }

  // ---------------------------------------------------------------------------------------------
  // Every attempt of a capture
  // ---------------------------------------------------------------------------------------------

  function Given(k: nat, commands: seq<nat>): seq<nat> {
    if k == 0 then commands else []
  }

  /** The first link starts at `start` and every other one past the latest record of the link before it. */
  function StartOf(links: seq<LinkState>, start: nat, k: nat): nat
    requires k < |links|
  {
    if k == 0 then start else NextStart(links[k - 1])
  }

  /** The next link starts one past the latest record, wherever in the link that is. */
  lemma NextStartIsOnePast(l: LinkState)
    requires l.records != []
    ensures exists i :: 0 <= i < |l.records| && NextStart(l) == SaturatingAdd(l.records[i].at, 1)
                        && forall j | 0 <= j < |l.records| :: l.records[j].at <= l.records[i].at
  {
    LatestBounds(l.records);
    var i :| 0 <= i < |l.records| && l.records[i].at == LatestAt(l.records);
    assert NextStart(l) == SaturatingAdd(l.records[i].at, 1);
  }

  /** The links are those of the attempts from `i` on, driven one after the other. */
  predicate Drives(host: seq<Attempt>, i: nat, start: nat, commands: seq<nat>, links: seq<LinkState>)
    requires Answers(host, commands)
  {
    i + |links| <= |host| && forall k: nat | k < |links| :: DrivenAt(host, i, start, commands, links, k)
  }

  predicate DrivenAt(host: seq<Attempt>, i: nat, start: nat, commands: seq<nat>, links: seq<LinkState>, k: nat)
    requires Answers(host, commands) && k < |links| && i + |links| <= |host|
  {
    && host[i + k].Connected?
    && links[k] == RunLink(host[i + k].script, Given(i + k, commands), StartOf(links, start, k))
  }

  predicate AllLost(links: seq<LinkState>) {
    forall k | 0 <= k < |links| :: Reconnects(links[k])
  }

  /** Nothing more is attempted: the last link was not lost, no attempt is left, or a reconnection failed. */
  predicate Stops(host: seq<Attempt>, i: nat, links: seq<LinkState>)
    requires i + |links| <= |host|
  {
    || (links != [] && !Reconnects(links[|links| - 1]))
    || i + |links| == |host|
    || (host[i + |links|].ConnectFailed? && i + |links| > 0)
  }

  /** The attempt at `n` fails the whole capture with this error. */
  predicate Fails(host: seq<Attempt>, n: nat, error: string)
    requires n < |host|
  {
    match host[n]
    case ConnectFailed(e) => n == 0 && error == e
    case MissingEndpoint => error == "missing session endpoint"
    case LinkFailed(e) => error == e
    case Connected(_) => false
  }

  predicate DrivesUntil(host: seq<Attempt>, i: nat, start: nat, commands: seq<nat>, links: seq<LinkState>)
    requires Answers(host, commands)
  {
    && Drives(host, i, start, commands, links)
    && (links != [] ==> AllLost(links[..|links| - 1])) && Stops(host, i, links)
  }

  predicate DrivesIntoFailure(
      host: seq<Attempt>, i: nat, start: nat, commands: seq<nat>, links: seq<LinkState>, error: string)
    requires Answers(host, commands)
  {
    && Drives(host, i, start, commands, links) && AllLost(links)
    && i + |links| < |host| && Fails(host, i + |links|, error)
  }

  lemma DrivesOneMore(
      host: seq<Attempt>, i: nat, start: nat, commands: seq<nat>, l: LinkState, rest: seq<LinkState>)
    requires i < |host| && Answers(host, commands) && host[i].Connected?
    requires l == RunLink(host[i].script, Given(i, commands), start)
    requires Drives(host, i + 1, NextStart(l), commands, rest)
    ensures Drives(host, i, start, commands, [l] + rest)
  {
    var links := [l] + rest;
    forall k: nat | k < |links|
      ensures DrivenAt(host, i, start, commands, links, k)
    {
      if k > 0 {
        assert DrivenAt(host, i + 1, NextStart(l), commands, rest, k - 1);
        assert links[k] == rest[k - 1] && StartOf(links, start, k) == StartOf(rest, NextStart(l), k - 1);
        assert host[i + k] == host[i + 1 + (k - 1)];
      }
    }
  }

  lemma LostOneMore(l: LinkState, rest: seq<LinkState>)
    requires Reconnects(l) && AllLost(rest)
    ensures AllLost([l] + rest)
  {
    forall k | 0 <= k < |[l] + rest|
      ensures Reconnects(([l] + rest)[k])
    {
      assert k > 0 ==> ([l] + rest)[k] == rest[k - 1];
    }
  }

  lemma StopsOneMore(host: seq<Attempt>, i: nat, l: LinkState, rest: seq<LinkState>)
    requires i + 1 + |rest| <= |host| && Stops(host, i + 1, rest)
    ensures Stops(host, i, [l] + rest)
  {
    if rest != [] {
      assert ([l] + rest)[|rest|] == rest[|rest| - 1];
    }
  }

  /**
   A successful capture drives one attempt after the other for as long as links are lost, and stops only at a link
   that was not lost, at a reconnection that failed, or when no attempt is left. A failed one was driven in the same
   way into the attempt whose error it reports.
   */
  lemma {:induction false} EveryLossIsRetried(host: seq<Attempt>, i: nat, start: nat, commands: seq<nat>)
    requires i <= |host| && Answers(host, commands)
    ensures match Links(host, i, start, commands)
            case Success(links) => DrivesUntil(host, i, start, commands, links)
            case Failure(error) => exists links :: DrivesIntoFailure(host, i, start, commands, links, error)
    decreases |host| - i
  {
    if i < |host| {
      match host[i] {
        case Connected(script) =>
          var l := RunLink(script, Given(i, commands), start);
          var more := Links(host, i + 1, NextStart(l), commands);
          if Reconnects(l) {
            EveryLossIsRetried(host, i + 1, NextStart(l), commands);
            if more.Success? {
              RetriesSucceed(host, i, start, commands, l, more.value);
            } else {
              var rest :| DrivesIntoFailure(host, i + 1, NextStart(l), commands, rest, more.error);
              DrivesOneMore(host, i, start, commands, l, rest);
              LostOneMore(l, rest);
              assert DrivesIntoFailure(host, i, start, commands, [l] + rest, more.error);
            }
          } else {
            DrivesOneMore(host, i, start, commands, l, []);
            assert [l] + [] == [l];
          }
        case ConnectFailed(error) =>
          if i == 0 {
            assert DrivesIntoFailure(host, i, start, commands, [], error);
          }
        case MissingEndpoint => assert DrivesIntoFailure(host, i, start, commands, [], "missing session endpoint");
        case LinkFailed(error) => assert DrivesIntoFailure(host, i, start, commands, [], error);
      }
    }
  }

  lemma RetriesSucceed(
      host: seq<Attempt>, i: nat, start: nat, commands: seq<nat>, l: LinkState, rest: seq<LinkState>)
    requires i < |host| && Answers(host, commands) && host[i].Connected? && Reconnects(l)
    requires l == RunLink(host[i].script, Given(i, commands), start)
    requires DrivesUntil(host, i + 1, NextStart(l), commands, rest)
    ensures DrivesUntil(host, i, start, commands, [l] + rest)
  {
    DrivesOneMore(host, i, start, commands, l, rest);
    StopsOneMore(host, i, l, rest);
    if rest != [] {
      LostOneMore(l, rest[..|rest| - 1]);
      assert ([l] + rest)[..|rest|] == [l] + rest[..|rest| - 1];
    }
  }

  // ---------------------------------------------------------------------------------------------
  // The aggregate report
  // ---------------------------------------------------------------------------------------------

  function LinkGist(script: Script, commands: seq<nat>): Gist
    requires |commands| <= |script.onCommand|
  {
    Join(PhasesGist(PhasesOf(script, commands)), if script.lost then SILENT.(events := script.onLoss) else SILENT)
  }

  function JoinAll(gists: seq<Gist>): Gist {
    if gists == [] then SILENT else Join(gists[0], JoinAll(gists[1..]))
  }

  lemma MergeAdds(into: Report, r: Report, g: Gist)
    requires Fits(into) && Adds(EMPTY_REPORT, r, g)
    ensures Adds(into, Merge(into, r), g) && Fits(Merge(into, r))
  {
    assert [] + g.events == g.events;
  }

  lemma {:induction false} MergeAllAdds(into: Report, links: seq<LinkState>, gists: seq<Gist>)
    requires Fits(into) && |links| == |gists|
    requires forall k | 0 <= k < |links| :: Adds(EMPTY_REPORT, links[k].report, gists[k])
    ensures Adds(into, MergeAll(into, links), JoinAll(gists))
    decreases |links|
  {
    if links == [] {
      AddsNothing(into);
    } else {
      var merged := Merge(into, links[0].report);
      MergeAdds(into, links[0].report, gists[0]);
      MergeAllAdds(merged, links[1..], gists[1..]);
      AddsTwice(into, merged, MergeAll(merged, links[1..]), gists[0], JoinAll(gists[1..]));
    }
  }

  /** What the first `n` attempts told, one link after the other. */
  function Told(host: seq<Attempt>, commands: seq<nat>, n: nat): seq<Gist>
    requires Answers(host, commands) && n <= |host|
  {
    seq(n, k requires 0 <= k < n =>
          if host[k].Connected? then LinkGist(host[k].script, Given(k, commands)) else SILENT)
  }

  lemma LinkTellsGist(script: Script, commands: seq<nat>, start: nat)
    requires |commands| <= |script.onCommand| && start <= U64_MAX
    ensures Adds(EMPTY_REPORT, RunLink(script, commands, start).report, LinkGist(script, commands))
  {
    LinkFollowsTimeline(script, commands, start);
  }

  lemma LinkIsTold(host: seq<Attempt>, commands: seq<nat>, links: seq<LinkState>, k: nat)
    requires Answers(host, commands) && Drives(host, 0, 0, commands, links) && AllWithin(links, 0) && k < |links|
    ensures Adds(EMPTY_REPORT, links[k].report, Told(host, commands, |links|)[k])
  {
    if k > 0 {
      NextStartIsLater(links[k - 1], 0);
    }
    assert DrivenAt(host, 0, 0, commands, links, k);
    LinkTellsGist(host[k].script, Given(k, commands), StartOf(links, 0, k));
  }

  lemma DrivenLinksAreTold(host: seq<Attempt>, commands: seq<nat>, links: seq<LinkState>)
    requires Answers(host, commands) && Drives(host, 0, 0, commands, links) && AllWithin(links, 0)
    ensures Adds(EMPTY_REPORT, MergeAll(EMPTY_REPORT, links), JoinAll(Told(host, commands, |links|)))
  {
    forall k | 0 <= k < |links|
      ensures Adds(EMPTY_REPORT, links[k].report, Told(host, commands, |links|)[k])
    {
      LinkIsTold(host, commands, links, k);
    }
    MergeAllAdds(EMPTY_REPORT, links, Told(host, commands, |links|));
  }

  /** The aggregate report of every capture is what its links told, joined in order. */
  lemma CaptureTellsAll(host: seq<Attempt>, commands: seq<nat>)
    requires Answers(host, commands) && Links(host, 0, 0, commands).Success?
    ensures var links := Links(host, 0, 0, commands).value;
            && |links| <= |host|
            && Adds(EMPTY_REPORT, MergeAll(EMPTY_REPORT, links), JoinAll(Told(host, commands, |links|)))
  {
    EveryLossIsRetried(host, 0, 0, commands);
    LinksStayAfterStart(host, 0, 0, commands);
    DrivenLinksAreTold(host, commands, Links(host, 0, 0, commands).value);
  }
}
