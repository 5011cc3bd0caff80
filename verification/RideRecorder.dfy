/**
 The in-memory ride projection: lifecycle, clock and route points. Segment, telemetry and start
 reason of a point are fixed when it is admitted and are carried here as one opaque `context`.
 */
module RideRecorder {
  import opened Prelude

  /** Route points retained in memory. */
  const MAX_LIVE_POINTS := 4_096
  const MAX_ACCURACY_MM := 100_000

  datatype Lifecycle = Draft | Active | Paused | Stopped | Interrupted | Discarded | Saved | Imported

  datatype RideEvent = Start | Pause | Resume | Stop | Interrupt | Discard | Save | Import

  function Transition(state: Lifecycle, event: RideEvent): Option<Lifecycle> {
    match event
    case Start => if state.Draft? then Some(Active) else None
    case Import => if state.Draft? then Some(Imported) else None
    case Pause => if state.Active? then Some(Paused) else None
    case Resume => if state.Paused? || state.Interrupted? then Some(Active) else None
    case Stop => if state.Active? || state.Paused? then Some(Stopped) else None
    case Interrupt => if state.Active? || state.Paused? then Some(Interrupted) else None
    case Discard =>
      if state.Draft? || state.Active? || state.Paused? || state.Stopped? || state.Interrupted?
      then Some(Discarded) else None
    case Save => if state.Stopped? || state.Interrupted? then Some(Saved) else None
  }

  /** What each state allows: three states end the ride. */
  function Allowed(state: Lifecycle): set<RideEvent> {
    match state
    case Draft => {Start, Import, Discard}
    case Active => {Pause, Stop, Interrupt, Discard}
    case Paused => {Resume, Stop, Interrupt, Discard}
    case Interrupted => {Resume, Save, Discard}
    case Stopped => {Save, Discard}
    case Discarded => {}
    case Saved => {}
    case Imported => {}
  }

  /** The state that each event leads to, wherever it is allowed. */
  function Target(event: RideEvent): Lifecycle {
    match event
    case Start => Active
    case Resume => Active
    case Pause => Paused
    case Stop => Stopped
    case Interrupt => Interrupted
    case Discard => Discarded
    case Save => Saved
    case Import => Imported
  }

  function Play(state: Lifecycle, events: seq<RideEvent>): Lifecycle
    decreases |events|
  {
    if events == [] then state
    else
      var next := Transition(state, events[0]);
      Play(if next.Some? then next.value else state, events[1..])
  }

  /** The events of every state and the target of every event, and that an ended ride never moves again. */
  lemma {:induction false} LifecycleIsTable(state: Lifecycle, event: RideEvent, events: seq<RideEvent>)
    ensures Transition(state, event) == if event in Allowed(state) then Some(Target(event)) else None
    ensures Allowed(state) == {} ==> Play(state, events) == state
    decreases |events|
  {
    if events != [] {
      LifecycleIsTable(state, events[0], events[1..]);
    }
  }

  /** States in which a ride may be replaced by a new one. */
  predicate AllowsStart(state: Option<Lifecycle>) {
    state.None? || state.value in {Stopped, Interrupted, Saved, Discarded}
  }

  /** States in which an already admitted sample may still settle. */
  predicate SettlesSamples(state: Option<Lifecycle>) {
    state.Some? && state.value in {Active, Paused, Interrupted, Stopped, Saved}
  }

  type U64 = x: nat | x <= U64_MAX

  datatype Sample = Sample(at: U64, accuracyMm: Option<nat>, live: bool, place: nat)

  datatype Point = Point(sample: Sample, context: nat)

  /** A sample that passed route admission, bound to one recording. */
  datatype Admitted = Admitted(point: Point, generation: nat)

  datatype Admission = Accepted | Duplicate | OutOfOrder | AccuracyTooLow | UnrealisticJump

  datatype Recorder = Recorder(
    state: Option<Lifecycle>,
    generation: Option<nat>,
    interval: U64,
    createdAt: U64,
    lastMonotonic: U64,
    activeStartedAt: Option<U64>,
    latest: Option<Sample>,
    points: seq<Point>,
    pointCount: U64)

  const EMPTY := Recorder(None, None, 0, 0, 0, None, None, [], 0)

  /** The newest `MAX_LIVE_POINTS` points. */
  function Tail(points: seq<Point>): seq<Point> {
    if |points| > MAX_LIVE_POINTS then points[|points| - MAX_LIVE_POINTS..] else points
  }

  predicate EndsBy(points: seq<Point>, at: nat) {
    points != [] ==> points[|points| - 1].sample.at <= at
  }

  predicate EndsBefore(points: seq<Point>, at: nat) {
    points != [] ==> points[|points| - 1].sample.at < at
  }

  function StartRecorder(r: Recorder, at: U64, generation: Option<nat>): Option<Recorder> {
    if !AllowsStart(r.state) || generation.None? then None
    else Some(Recorder(Some(Active), generation, 0, at, at, Some(at), None, [], 0))
  }

  /** Dedicated location evidence stored beside the route. */
  datatype Observation = Nothing | Stationary(sample: Sample) | AtLastPoint(at: U64, place: nat)

  /** What storage knows about one ride. */
  datatype StoredRide = StoredRide(
    createdAt: U64, lastEvent: U64, points: seq<Point>, pointCount: U64, observation: Observation)

  function RestoreRecorder(lifecycle: Lifecycle, ride: StoredRide, generation: Option<nat>): Recorder {
    var points := Tail(ride.points);
    var routeLast := if points == [] then ride.createdAt else points[|points| - 1].sample.at;
    var last := Max(Max(ride.lastEvent, routeLast), ride.createdAt);
    var baseline := if points == [] then None else Some(points[|points| - 1].sample);
    var latest :=
      match ride.observation
      case Nothing => baseline
      case Stationary(sample) =>
        if sample.live && ride.createdAt <= sample.at <= last
           && (baseline.None? || baseline.value.at <= sample.at)
        then Some(sample) else baseline
      case AtLastPoint(at, place) =>
        if baseline.Some? && baseline.value.at <= at <= last
        then Some(baseline.value.(at := at, place := place)) else baseline;
    Recorder(Some(lifecycle), generation, 0, ride.createdAt, last,
             if lifecycle.Active? then Some(last) else None, latest, points, ride.pointCount)
  }

  predicate Resumes(previous: Lifecycle, next: Lifecycle) {
    (previous.Paused? || previous.Interrupted?) && next.Active?
  }

  /** Saving or discarding a finished ride leaves its clock where it was. */
  predicate KeepsClock(previous: Lifecycle, next: Lifecycle) {
    (previous.Stopped? || previous.Interrupted?) && (next.Saved? || next.Discarded?)
  }

  /** Applies a transition validated against `previous`; the stamp is clamped to the ride's clock. */
  function ApplyTransition(r: Recorder, previous: Lifecycle, next: Lifecycle, at: U64): Option<Recorder> {
    if r.state != Some(previous) then None
    else if Resumes(previous, next) && r.interval == U64_MAX then None
    else
      var stamp := Max(Max(at, r.createdAt), r.lastMonotonic);
      var active :=
        if (previous.Active? && (next.Paused? || next.Interrupted? || next.Stopped?))
           || ((previous.Paused? || previous.Interrupted?) && next.Stopped?) then None
        else if Resumes(previous, next) then Some(stamp)
        else r.activeStartedAt;
      Some(r.(state := Some(next),
              interval := if Resumes(previous, next) then r.interval + 1 else r.interval,
              lastMonotonic := if KeepsClock(previous, next) then r.lastMonotonic else stamp,
              activeStartedAt := active))
  }

  /** Route policy. `jump` is the verdict of the implied-speed check. */
  function CheckSample(r: Recorder, sample: Sample, jump: bool): Admission {
    if r.activeStartedAt.Some? && sample.at < r.activeStartedAt.value then OutOfOrder
    else if sample.accuracyMm.Some? && sample.accuracyMm.value > MAX_ACCURACY_MM then AccuracyTooLow
    else if r.latest.None? then Accepted
    else if sample == r.latest.value then Duplicate
    else if sample.at <= r.latest.value.at then OutOfOrder
    else if jump then UnrealisticJump
    else Accepted
  }

  function AdmitSample(r: Recorder, sample: Sample, jump: bool, context: nat): (Admission, Option<Admitted>) {
    if r.generation.None? then (OutOfOrder, None)
    else
      var verdict := CheckSample(r, sample, jump);
      if verdict.Accepted? then (Accepted, Some(Admitted(Point(sample, context), r.generation.value)))
      else (verdict, None)
  }

  predicate Records(r: Recorder, a: Admitted) {
    && SettlesSamples(r.state)
    && r.generation == Some(a.generation)
    && EndsBefore(r.points, a.point.sample.at)
  }

  /** Settles an admitted sample, or leaves the recorder alone. */
  function Record(r: Recorder, a: Admitted): Recorder {
    if !Records(r, a) then r
    else
      var sample := a.point.sample;
      r.(pointCount := SaturatingAdd(r.pointCount, 1),
         lastMonotonic := Max(r.lastMonotonic, sample.at),
         latest := if r.latest.None? || r.latest.value.at < sample.at then Some(sample) else r.latest,
         points := Tail(r.points + [a.point]))
  }

  function RecordAll(r: Recorder, samples: seq<Admitted>): Recorder
    decreases |samples|
  {
    if samples == [] then r else RecordAll(Record(r, samples[0]), samples[1..])
  }

  /** Advances observation clocks without adding a point. */
  function Observe(r: Recorder, sample: Sample): Recorder {
    r.(latest := Some(sample), lastMonotonic := Max(r.lastMonotonic, sample.at))
  }

  // ---------------------------------------------------------------------------------------------
  // Recording a batch
  // ---------------------------------------------------------------------------------------------

  /** The observation baseline is never behind the route, and the live tail is bounded. */
  predicate Anchored(r: Recorder) {
    && |r.points| <= MAX_LIVE_POINTS
    && (r.points != [] ==> r.latest.Some? && EndsBy(r.points, r.latest.value.at))
  }

  predicate Increasing(samples: seq<Admitted>) {
    forall i, j | 0 <= i < j < |samples| :: samples[i].point.sample.at < samples[j].point.sample.at
  }

  predicate AllOf(generation: Option<nat>, samples: seq<Admitted>) {
    forall i | 0 <= i < |samples| :: generation == Some(samples[i].generation)
  }

  /** Every sample of the batch belongs to this recording and continues its route in order. */
  predicate Continues(r: Recorder, samples: seq<Admitted>) {
    && Increasing(samples)
    && AllOf(r.generation, samples)
    && (samples != [] ==> SettlesSamples(r.state) && EndsBefore(r.points, samples[0].point.sample.at))
  }

  function PointsOf(samples: seq<Admitted>): seq<Point> {
    if samples == [] then [] else [samples[0].point] + PointsOf(samples[1..])
  }

  lemma TailOfTail(a: seq<Point>, b: seq<Point>)
    ensures Tail(Tail(a) + b) == Tail(a + b)
  {
    if |a| > MAX_LIVE_POINTS {
      var k := |a| - MAX_LIVE_POINTS;
      assert a + b == a[..k] + (Tail(a) + b);
    }
  }

  lemma TailKeepsLast(a: seq<Point>, last: Point)
    ensures var t := Tail(a + [last]); 0 < |t| <= MAX_LIVE_POINTS && t[|t| - 1] == last
  {
  }

  lemma RecordKeepsAnchor(r: Recorder, a: Admitted)
    requires Anchored(r)
    ensures Anchored(Record(r, a))
    ensures Record(r, a).state == r.state && Record(r, a).generation == r.generation
    ensures r.lastMonotonic <= Record(r, a).lastMonotonic
  {
    TailKeepsLast(r.points, a.point);
  }

  lemma FirstIsRecorded(r: Recorder, samples: seq<Admitted>)
    requires Anchored(r) && Continues(r, samples) && samples != []
    ensures Records(r, samples[0])
    ensures Anchored(Record(r, samples[0])) && Continues(Record(r, samples[0]), samples[1..])
    ensures Record(r, samples[0]).points != []
    ensures EndsBy(Record(r, samples[0]).points, samples[0].point.sample.at)
  {
    RecordKeepsAnchor(r, samples[0]);
    TailKeepsLast(r.points, samples[0].point);
  }

  lemma {:induction false} BatchKeepsAnchor(r: Recorder, samples: seq<Admitted>)
    requires Anchored(r)
    ensures var r' := RecordAll(r, samples);
            Anchored(r') && r'.state == r.state && r'.generation == r.generation && r.lastMonotonic <= r'.lastMonotonic
    decreases |samples|
  {
    if samples != [] {
      RecordKeepsAnchor(r, samples[0]);
      BatchKeepsAnchor(Record(r, samples[0]), samples[1..]);
    }
  }

  /** A continuing batch is recorded in full: nothing is refused, reordered or lost except by the live bound. */
  lemma {:induction false} BatchIsRecorded(r: Recorder, samples: seq<Admitted>)
    requires Anchored(r) && Continues(r, samples)
    ensures RecordAll(r, samples).points == Tail(r.points + PointsOf(samples))
    decreases |samples|
  {
    if samples == [] {
      assert r.points + PointsOf(samples) == r.points;
    } else {
      FirstIsRecorded(r, samples);
      BatchIsRecorded(Record(r, samples[0]), samples[1..]);
      RouteExtends(r.points, samples[0].point, PointsOf(samples[1..]));
    }
  }

  /** Every sample of a continuing batch is counted. */
  lemma {:induction false} BatchIsCounted(r: Recorder, samples: seq<Admitted>)
    requires Anchored(r) && Continues(r, samples)
    ensures RecordAll(r, samples).pointCount == SaturatingAdd(r.pointCount, |samples|)
    decreases |samples|
  {
    if samples != [] {
      FirstIsRecorded(r, samples);
      BatchIsCounted(Record(r, samples[0]), samples[1..]);
    }
  }

  lemma RouteExtends(route: seq<Point>, first: Point, rest: seq<Point>)
    ensures Tail(Tail(route + [first]) + rest) == Tail(route + ([first] + rest))
  {
    TailOfTail(route + [first], rest);
    assert route + [first] + rest == route + ([first] + rest);
  }

  /** After a continuing batch the route ends with the batch's last sample. */
  lemma {:induction false} BatchEnds(r: Recorder, samples: seq<Admitted>)
    requires Anchored(r) && Continues(r, samples) && samples != []
    ensures var points := RecordAll(r, samples).points;
            points != [] && points[|points| - 1] == samples[|samples| - 1].point
    decreases |samples|
  {
    FirstIsRecorded(r, samples);
    if |samples| == 1 {
      assert RecordAll(r, samples) == Record(r, samples[0]);
      TailKeepsLast(r.points, samples[0].point);
    } else {
      BatchEnds(Record(r, samples[0]), samples[1..]);
    }
  }

  // ---------------------------------------------------------------------------------------------
  // Admission against the ride's clock
  // ---------------------------------------------------------------------------------------------

  /** What a recorder admits it can also record, exactly while its lifecycle settles samples. */
  lemma AdmittedIsRecordable(r: Recorder, sample: Sample, jump: bool, context: nat)
    requires Anchored(r) && AdmitSample(r, sample, jump, context).1.Some?
    ensures var admitted := AdmitSample(r, sample, jump, context).1.value;
            && (Records(r, admitted) <==> SettlesSamples(r.state))
            && admitted.point.sample == sample && (r.latest.Some? ==> !jump && r.latest.value.at < sample.at)
  {
  }

  /** After a resume no sample from before the resume is admitted, whatever clock it carries. */
  lemma ResumeFencesOlderSamples(
      r: Recorder, previous: Lifecycle, at: U64, sample: Sample, jump: bool, context: nat)
    requires Resumes(previous, Active) && ApplyTransition(r, previous, Active, at).Some?
    ensures var r' := ApplyTransition(r, previous, Active, at).value;
            && r'.lastMonotonic == Max(Max(at, r.createdAt), r.lastMonotonic)
            && (AdmitSample(r', sample, jump, context).1.Some? ==>
                  r.lastMonotonic <= sample.at && at <= sample.at && r.createdAt <= sample.at)
            && r'.points == r.points && r'.latest == r.latest
  {
  }

  /** A restored ride's clock is the latest time storage knows, and an active one admits nothing older. */
  lemma RestoredClockCoversRide(
      lifecycle: Lifecycle, ride: StoredRide, generation: Option<nat>, sample: Sample, jump: bool, context: nat)
    ensures var r := RestoreRecorder(lifecycle, ride, generation);
            && ride.createdAt <= r.lastMonotonic && ride.lastEvent <= r.lastMonotonic
            && EndsBy(ride.points, r.lastMonotonic)
            && (r.latest.Some? ==> r.latest.value.at <= r.lastMonotonic) && Anchored(r)
            && (lifecycle.Active? && AdmitSample(r, sample, jump, context).1.Some? ==> r.lastMonotonic <= sample.at)
  {
  }

  /** Stored evidence of a later observation lies within the ride's clock and not before its route. */
  predicate IsPlausible(ride: StoredRide, at: nat, clock: nat) {
    ride.createdAt <= at <= clock && EndsBy(ride.points, at)
  }

  /**
   A restored ride keeps the newest points, and its clock is one of the times storage knows. Its last observation is
   the stored one exactly when that is live and plausible, or plausible beside a route, and else the last point.
   */
  lemma RestoredRideIsExact(lifecycle: Lifecycle, ride: StoredRide, generation: Option<nat>)
    ensures var r := RestoreRecorder(lifecycle, ride, generation);
            var route := ride.points;
            && r.points == Tail(route) && r.pointCount == ride.pointCount && r.createdAt == ride.createdAt
            && r.state == Some(lifecycle) && r.generation == generation && r.interval == 0
            && (|| r.lastMonotonic == ride.createdAt || r.lastMonotonic == ride.lastEvent
                || (route != [] && r.lastMonotonic == route[|route| - 1].sample.at))
            && r.activeStartedAt == (if lifecycle.Active? then Some(r.lastMonotonic) else None)
            && match ride.observation
               case Stationary(sample) =>
                 if sample.live && IsPlausible(ride, sample.at, r.lastMonotonic) then r.latest == Some(sample)
                 else r.latest == LastSample(route)
               case AtLastPoint(at, place) =>
                 if route != [] && EndsBy(route, at) && at <= r.lastMonotonic
                 then r.latest == Some(route[|route| - 1].sample.(at := at, place := place))
                 else r.latest == LastSample(route)
               case Nothing => r.latest == LastSample(route)
  {
  }

  function LastSample(route: seq<Point>): Option<Sample> {
    if route == [] then None else Some(route[|route| - 1].sample)
  }

  /** The part of a batch that belongs to the recorder's own recording. */
  function Own(r: Recorder, samples: seq<Admitted>): seq<Admitted> {
    if samples == [] then []
    else (if r.generation == Some(samples[0].generation) then [samples[0]] else []) + Own(r, samples[1..])
  }

  lemma {:induction false} OnlyOwnSamplesCount(r: Recorder, samples: seq<Admitted>)
    ensures RecordAll(r, samples) == RecordAll(r, Own(r, samples))
    decreases |samples|
  {
    if samples != [] {
      var r1 := Record(r, samples[0]);
      OwnDependsOnGeneration(r, r1, samples[1..]);
      OnlyOwnSamplesCount(r1, samples[1..]);
      if r.generation == Some(samples[0].generation) {
        assert Own(r, samples)[1..] == Own(r, samples[1..]);
      } else {
        assert Own(r, samples) == Own(r, samples[1..]);
      }
    }
  }

  lemma {:induction false} OwnDependsOnGeneration(a: Recorder, b: Recorder, samples: seq<Admitted>)
    requires a.generation == b.generation
    ensures Own(a, samples) == Own(b, samples)
  {
    if samples != [] {
      OwnDependsOnGeneration(a, b, samples[1..]);
    }
  }

  lemma {:induction false} OwnOfAppend(r: Recorder, samples: seq<Admitted>, last: Admitted)
    ensures Own(r, samples + [last])
         == Own(r, samples) + if r.generation == Some(last.generation) then [last] else []
  {
    if samples == [] {
      assert samples + [last] == [last];
      assert Own(r, [last]) == (if r.generation == Some(last.generation) then [last] else []) + Own(r, []);
    } else {
      OwnOfAppend(r, samples[1..], last);
      assert (samples + [last])[0] == samples[0] && (samples + [last])[1..] == samples[1..] + [last];
      var head := if r.generation == Some(samples[0].generation) then [samples[0]] else [];
      var end := if r.generation == Some(last.generation) then [last] else [];
      assert head + (Own(r, samples[1..]) + end) == head + Own(r, samples[1..]) + end;
    }
  }

  lemma {:induction false} RecordAllAppend(r: Recorder, samples: seq<Admitted>, last: Admitted)
    ensures RecordAll(r, samples + [last]) == Record(RecordAll(r, samples), last)
    decreases |samples|
  {
    if samples == [] {
      assert samples + [last] == [last];
      assert RecordAll(r, [last]) == RecordAll(Record(r, last), []);
    } else {
      RecordAllAppend(Record(r, samples[0]), samples[1..], last);
      assert (samples + [last])[1..] == samples[1..] + [last];
    }
  }
}
