/**
 BMS voltage summary: every identity's raw history, a stabilized value per identity (the lower
 median of a seven-sample window padded with the first reading) and the extremes over identities.
 */
module BatteryPage {
  import opened Prelude

  /** Complete page cycles retained for stabilizing a reading. */
  const HISTORY_CYCLES := 7

  const U16_MAX := 0xFFFF
  const I32_MAX := 0x7FFF_FFFF
  const I32_MIN := -0x8000_0000

  type Millivolts = v: int | I32_MIN <= v <= I32_MAX

  datatype Sample = Sample(voltage: Millivolts, observedAt: nat)

  /** One readback: `cells` is `None` for a page that carries no cell voltages. */
  datatype Readback = Readback(
    observedAt: Option<nat>,
    cells: Option<seq<Millivolts>>,
    firstIndex: Option<nat>,
    packIndex: Option<nat>,
    firstPackIndex: Option<nat>)

  datatype Observation = Observation(
    index: nat,
    packIndex: Option<nat>,
    packObservationIndex: Option<nat>,
    voltage: Millivolts,
    latestVoltage: Millivolts,
    samples: seq<Sample>)

  datatype Summary = Summary(
    observedCount: nat,
    lowestIndex: Option<nat>,
    highestIndex: Option<nat>,
    voltageSpread: Option<Millivolts>,
    observations: seq<Observation>)

  // ---------------------------------------------------------------------------------------------
  // Stabilized voltage
  // ---------------------------------------------------------------------------------------------

  predicate Sorted(s: seq<Millivolts>) {
    forall i, j | 0 <= i < j < |s| :: s[i] <= s[j]
  }

  lemma ElementsBound(r: seq<Millivolts>, s: seq<Millivolts>, x: Millivolts, low: Millivolts)
    requires multiset(r) == multiset(s) + multiset{x}
    requires low <= x && forall i | 0 <= i < |s| :: low <= s[i]
    ensures forall i | 0 <= i < |r| :: low <= r[i]
  {
    forall i | 0 <= i < |r|
      ensures low <= r[i]
    {
      assert r[i] in multiset(r);
      assert r[i] in multiset(s) ==> r[i] in s;
    }
  }

  function Insert(x: Millivolts, s: seq<Millivolts>): (r: seq<Millivolts>)
    requires Sorted(s)
    ensures Sorted(r) && multiset(r) == multiset(s) + multiset{x} && |r| == |s| + 1
  {
    if s == [] || x <= s[0] then
      [x] + s
    else
      assert s == [s[0]] + s[1..];
      var rest := Insert(x, s[1..]);
      assert forall i | 0 <= i < |rest| :: s[0] <= rest[i] by { ElementsBound(rest, s[1..], x, s[0]); }
      [s[0]] + rest
  }

  /** The library sort by voltage. */
  function Sort(s: seq<Millivolts>): (r: seq<Millivolts>)
    ensures Sorted(r) && multiset(r) == multiset(s) && |r| == |s|
  {
    if s == [] then []
    else
      assert s == [s[0]] + s[1..];
      Insert(s[0], Sort(s[1..]))
  }

  /** The first seven readings, padded with the first one. */
  function Window(samples: seq<Sample>): (w: seq<Millivolts>)
    ensures |w| == HISTORY_CYCLES
  {
    var seed := if samples == [] then 0 else samples[0].voltage;
    seq(HISTORY_CYCLES, i requires 0 <= i => if i < |samples| then samples[i].voltage else seed)
  }

  function Median(w: seq<Millivolts>): Millivolts
    requires |w| == HISTORY_CYCLES
  {
    Sort(w)[3]
  }

  function Stabilized(samples: seq<Sample>): Millivolts {
    Median(Window(samples))
  }

  /** Copies, resizes and sorts the window, then selects the middle element. */
  method StabilizedVoltage(samples: seq<Sample>) returns (v: Millivolts)
    ensures v == Stabilized(samples)
  {
    var seed: Millivolts := if samples == [] then 0 else samples[0].voltage;
    var values := [];
    for i := 0 to |samples|
      invariant values == seq(i, j requires 0 <= j < i => samples[j].voltage)
    {
      values := values + [samples[i].voltage];
    }
    if |values| > HISTORY_CYCLES {
      values := values[..HISTORY_CYCLES];
    }
    while |values| < HISTORY_CYCLES
      invariant |values| <= HISTORY_CYCLES
      invariant values == Window(samples)[..|values|]
    {
      assert Window(samples)[|values|] == seed;
      values := values + [seed];
    }
    assert values == Window(samples);
    values := Sort(values);
    v := values[(|values| - 1) / 2];
  }

  /** How many elements satisfy `x < bound`. */
  function CountBelow(s: seq<Millivolts>, bound: Millivolts): nat {
    if s == [] then 0 else CountBelow(s[1..], bound) + if s[0] < bound then 1 else 0
  }

  function CountAbove(s: seq<Millivolts>, bound: Millivolts): nat {
    if s == [] then 0 else CountAbove(s[1..], bound) + if s[0] > bound then 1 else 0
  }

  lemma CountsSplit(a: seq<Millivolts>, x: Millivolts, b: seq<Millivolts>, bound: Millivolts)
    ensures CountBelow(a + [x] + b, bound) == CountBelow([x] + (a + b), bound)
    ensures CountAbove(a + [x] + b, bound) == CountAbove([x] + (a + b), bound)
  {
    if a == [] {
      assert a + [x] + b == [x] + (a + b);
    } else {
      CountsSplit(a[1..], x, b, bound);
      assert (a + [x] + b)[1..] == a[1..] + [x] + b;
      assert ([x] + (a + b))[1..] == a + b;
      assert (a + b)[1..] == a[1..] + b;
      assert ([x] + (a[1..] + b))[1..] == a[1..] + b;
    }
  }

  lemma RemainderIsPermutation(s: seq<Millivolts>, a: seq<Millivolts>, x: Millivolts, b: seq<Millivolts>)
    requires multiset([x] + s) == multiset(a + [x] + b)
    ensures multiset(s) == multiset(a + b)
  {
    assert multiset(s) == multiset([x] + s) - multiset{x};
    assert multiset(a + b) == multiset(a + [x] + b) - multiset{x};
  }

  /** Counting does not depend on order. */
  lemma {:induction false} CountsArePermutationInvariant(s: seq<Millivolts>, t: seq<Millivolts>, bound: Millivolts)
    requires multiset(s) == multiset(t)
    ensures CountBelow(s, bound) == CountBelow(t, bound)
    ensures CountAbove(s, bound) == CountAbove(t, bound)
  {
    if s == [] {
      assert |multiset(t)| == |multiset(s)| == 0;
    } else {
      assert s == [s[0]] + s[1..];
      assert s[0] in multiset(t);
      var k :| 0 <= k < |t| && t[k] == s[0];
      var a, b := t[..k], t[k + 1..];
      assert t == a + [s[0]] + b;
      RemainderIsPermutation(s[1..], a, s[0], b);
      CountsArePermutationInvariant(s[1..], a + b, bound);
      CountsSplit(a, s[0], b, bound);
      assert ([s[0]] + (a + b))[1..] == a + b;
    }
  }

  /** If every element from `k` on is not below the bound, at most `k` are. */
  lemma CountBelowIsBounded(s: seq<Millivolts>, k: nat, bound: Millivolts)
    requires forall i | k <= i < |s| :: s[i] >= bound
    ensures CountBelow(s, bound) <= k
  {
    if s != [] {
      if k > 0 {
        CountBelowIsBounded(s[1..], k - 1, bound);
      } else {
        CountBelowIsBounded(s[1..], 0, bound);
      }
    }
  }

  lemma CountAboveIsBounded(s: seq<Millivolts>, k: nat, bound: Millivolts)
    requires forall i | 0 <= i < k && i < |s| :: s[i] <= bound
    ensures k <= |s| ==> CountAbove(s, bound) <= |s| - k
  {
    if s != [] {
      if k > 0 {
        CountAboveIsBounded(s[1..], k - 1, bound);
      } else {
        CountAboveIsBounded(s[1..], 0, bound);
      }
    }
  }

  /** The selected value is a reading with at most three readings on either side. */
  lemma MedianIsCentral(w: seq<Millivolts>)
    requires |w| == HISTORY_CYCLES
    ensures Median(w) in w
    ensures CountBelow(w, Median(w)) <= 3 && CountAbove(w, Median(w)) <= 3
  {
    var s := Sort(w);
    assert s[3] in multiset(s) && s[3] in multiset(w);
    CountsArePermutationInvariant(s, w, s[3]);
    MiddleIsCentral(s);
  }

  lemma MiddleIsCentral(s: seq<Millivolts>)
    requires |s| == HISTORY_CYCLES && Sorted(s)
    ensures CountBelow(s, s[3]) <= 3 && CountAbove(s, s[3]) <= 3
  {
    CountBelowIsBounded(s, 3, s[3]);
    CountAboveIsBounded(s, 4, s[3]);
  }

  /** That is an exact characterization: no other reading is as central. */
  lemma {:induction false} CentralReadingIsUnique(w: seq<Millivolts>, a: Millivolts, b: Millivolts)
    requires |w| == HISTORY_CYCLES && a in w && b in w
    requires CountBelow(w, a) <= 3 && CountAbove(w, a) <= 3
    requires CountBelow(w, b) <= 3 && CountAbove(w, b) <= 3
    ensures a == b
  {
    if a < b {
      CountsCover(w, a, b);
    } else if b < a {
      CountsCover(w, b, a);
    }
  }

  lemma CountsCover(w: seq<Millivolts>, a: Millivolts, b: Millivolts)
    requires a < b
    ensures CountBelow(w, b) + CountAbove(w, a) >= |w|
  {
  }

  /** A value held by at least four of the seven slots is the median. */
  lemma MajorityIsMedian(w: seq<Millivolts>, x: Millivolts)
    requires |w| == HISTORY_CYCLES
    requires |set i: nat | i < |w| && w[i] == x| >= 4
    ensures Median(w) == x
  {
    MedianIsCentral(w);
    var same := set i: nat | i < |w| && w[i] == x;
    SelectionBoundsMedian(w, same);
  }

  /** The indices of `keep` seen from the tail of the sequence. */
  function Shifted(keep: set<nat>): set<nat> {
    set k | k in keep && k > 0 :: k - 1
  }

  /** A count over a sequence dominates the size of any index set satisfying the predicate. */
  lemma {:induction false} SelectedBelow(w: seq<Millivolts>, keep: set<nat>, bound: Millivolts)
    requires forall k | k in keep :: k < |w| && w[k] < bound
    ensures |keep| <= CountBelow(w, bound)
  {
    if w == [] {
      assert keep == {};
    } else {
      ShiftedSize(keep);
      SelectedBelow(w[1..], Shifted(keep), bound);
    }
  }

  lemma {:induction false} SelectedAbove(w: seq<Millivolts>, keep: set<nat>, bound: Millivolts)
    requires forall k | k in keep :: k < |w| && w[k] > bound
    ensures |keep| <= CountAbove(w, bound)
  {
    if w == [] {
      assert keep == {};
    } else {
      ShiftedSize(keep);
      SelectedAbove(w[1..], Shifted(keep), bound);
    }
  }

  lemma {:induction false} ShiftedSize(keep: set<nat>)
    ensures |keep| == |Shifted(keep)| + if 0 in keep then 1 else 0
    decreases |keep|
  {
    if keep != {} {
      var x :| x in keep;
      ShiftedSize(keep - {x});
      forall y | y in Shifted(keep)
        ensures y in Shifted(keep - {x}) || y + 1 == x
      {
        var k :| k in keep && k > 0 && k - 1 == y;
        assert k != x ==> k in keep - {x};
      }
      if x > 0 {
        assert Shifted(keep) == Shifted(keep - {x}) + {x - 1};
      } else {
        assert Shifted(keep) == Shifted(keep - {x});
      }
    }
  }

  /**
   Robustness: for any four of the seven slots, the median lies between their extremes, whatever the
   other three hold.
   */
  lemma SelectionBoundsMedian(w: seq<Millivolts>, keep: set<nat>)
    requires |w| == HISTORY_CYCLES && |keep| >= 4
    requires forall k | k in keep :: k < |w|
    ensures exists low | low in keep :: w[low] <= Median(w)
    ensures exists high | high in keep :: w[high] >= Median(w)
  {
    var m := Median(w);
    MedianIsCentral(w);
    if forall k | k in keep :: w[k] > m {
      SelectedAbove(w, keep, m);
    }
    if forall k | k in keep :: w[k] < m {
      SelectedBelow(w, keep, m);
    }
  }

  /** Changing at most three slots leaves the median within the range of the unchanged ones. */
  lemma ThreeCorruptSamplesCannotMoveMedianOutside(w: seq<Millivolts>, t: seq<Millivolts>)
    requires |w| == |t| == HISTORY_CYCLES
    requires |set i: nat | i < HISTORY_CYCLES && w[i] == t[i]| >= 4
    ensures exists low: nat, high: nat ::
              && low < HISTORY_CYCLES && high < HISTORY_CYCLES
              && w[low] == t[low] && w[high] == t[high]
              && w[low] <= Median(t) <= w[high]
  {
    var same := set i: nat | i < HISTORY_CYCLES && w[i] == t[i];
    SelectionBoundsMedian(t, same);
    var low :| low in same && t[low] <= Median(t);
    var high :| high in same && t[high] >= Median(t);
    assert w[low] == t[low] && w[high] == t[high];
  }

  /** The first reading is reported until a fifth one arrives. */
  lemma FirstReadingHoldsUntilFifth(samples: seq<Sample>)
    requires 1 <= |samples| <= 4
    ensures Stabilized(samples) == samples[0].voltage
  {
    var w := Window(samples);
    var same := set i: nat | i < |w| && w[i] == samples[0].voltage;
    var padded: set<nat> := {0, 4, 5, 6};
    assert padded <= same;
    SubsetSize(padded, same);
    MajorityIsMedian(w, samples[0].voltage);
  }

  lemma {:induction false} SubsetSize(a: set<nat>, b: set<nat>)
    requires a <= b
    ensures |a| <= |b|
  {
    if a != {} {
      var x :| x in a;
      SubsetSize(a - {x}, b - {x});
    }
  }

  // ---------------------------------------------------------------------------------------------
  // Summary over identities
  // ---------------------------------------------------------------------------------------------

  function First(r: Readback): nat {
    if r.firstIndex.Some? then r.firstIndex.value else 0
  }

  /** `u16` checked addition. */
  function CheckedAdd(a: nat, b: nat): Option<nat> {
    if a + b <= U16_MAX then Some(a + b) else None
  }

  /** Whether a readback carries a timestamped reading of one identity. */
  predicate Reports(r: Readback, index: nat) {
    && r.observedAt.Some? && r.cells.Some?
    && First(r) <= index <= U16_MAX && index - First(r) < |r.cells.value|
  }

  function Reading(r: Readback, index: nat): Sample
    requires Reports(r, index)
  {
    Sample(r.cells.value[index - First(r)], r.observedAt.value)
  }

  function PackPosition(r: Readback, index: nat): Option<nat>
    requires Reports(r, index)
  {
    if r.firstPackIndex.None? then None else CheckedAdd(r.firstPackIndex.value, index - First(r))
  }

  /** The slot of a timestamped cell page that holds an identity: slots count on from the page's first identity. */
  predicate HoldsIdentity(r: Readback, slot: nat, index: nat) {
    && r.observedAt.Some? && r.cells.Some? && slot < |r.cells.value|
    && index == slot + (if r.firstIndex.Some? then r.firstIndex.value else 0)
  }

  /**
   A page reports an identity exactly when one of its slots holds it and it fits 16 bits. The reading is the voltage
   of that slot at the page's time, and the pack position counts on from the page's first one, as far as that fits.
   */
  lemma SlotsAreIdentities(r: Readback, index: nat)
    ensures Reports(r, index) <==> index <= U16_MAX && exists slot: nat :: HoldsIdentity(r, slot, index)
    ensures forall slot: nat | HoldsIdentity(r, slot, index) && index <= U16_MAX ::
              && Reading(r, index) == Sample(r.cells.value[slot], r.observedAt.value)
              && (PackPosition(r, index).Some? <==> r.firstPackIndex.Some? && r.firstPackIndex.value + slot <= U16_MAX)
              && (PackPosition(r, index).Some? ==> PackPosition(r, index).value == r.firstPackIndex.value + slot)
  {
    if Reports(r, index) {
      assert HoldsIdentity(r, index - First(r), index);
    }
  }

  /** The timestamped readings of one identity, oldest first. */
  function History(rs: seq<Readback>, index: nat): seq<Sample> {
    if rs == [] then []
    else
      var r := rs[|rs| - 1];
      History(rs[..|rs| - 1], index) + if Reports(r, index) then [Reading(r, index)] else []
  }

  /** The newest readback of one identity. */
  function Newest(rs: seq<Readback>, index: nat): (r: Readback)
    requires History(rs, index) != []
    ensures Reports(r, index) && r in rs
  {
    if Reports(rs[|rs| - 1], index) then rs[|rs| - 1] else Newest(rs[..|rs| - 1], index)
  }

  /** `o` retains the whole history of its identity and the placement given by the newest readback. */
  ghost predicate Retains(o: Observation, rs: seq<Readback>, index: nat) {
    && History(rs, index) != []
    && o.index == index
    && o.samples == History(rs, index)
    && o.latestVoltage == Reading(Newest(rs, index), index).voltage
    && o.packIndex == Newest(rs, index).packIndex
    && o.packObservationIndex == PackPosition(Newest(rs, index), index)
  }

  /** The part of `rs` seen for identity `i` once the first `slots` cells of its last readback are merged. */
  ghost function Seen(rs: seq<Readback>, slots: nat, i: nat): seq<Readback>
    requires rs != []
  {
    var r := rs[|rs| - 1];
    if Reports(r, i) && i - First(r) < slots then rs else rs[..|rs| - 1]
  }

  ghost predicate Holds(m: map<nat, Observation>, rs: seq<Readback>, i: nat) {
    && (i in m <==> History(rs, i) != [])
    && (i in m ==> Retains(m[i], rs, i))
  }

  ghost predicate HoldsSeen(m: map<nat, Observation>, rs: seq<Readback>, slots: nat, i: nat)
    requires rs != []
  {
    Holds(m, Seen(rs, slots, i), i)
  }

  ghost predicate Merged(m: map<nat, Observation>, rs: seq<Readback>, slots: nat)
    requires rs != []
  {
    forall i: nat :: HoldsSeen(m, rs, slots, i)
  }

  function MergeCell(m: map<nat, Observation>, r: Readback, index: nat): map<nat, Observation>
    requires Reports(r, index)
  {
    var sample := Reading(r, index);
    if index in m then
      m[index := m[index].(packIndex := r.packIndex,
                           packObservationIndex := PackPosition(r, index),
                           latestVoltage := sample.voltage,
                           samples := m[index].samples + [sample])]
    else
      m[index := Observation(index, r.packIndex, PackPosition(r, index), sample.voltage, sample.voltage, [sample])]
  }

  lemma MergeCellExtends(m: map<nat, Observation>, before: seq<Readback>, r: Readback, index: nat)
    requires Reports(r, index) && Holds(m, before, index)
    ensures Holds(MergeCell(m, r, index), before + [r], index)
  {
    var rs := before + [r];
    assert rs[..|rs| - 1] == before;
    assert History(rs, index) == History(before, index) + [Reading(r, index)];
    assert Newest(rs, index) == r;
  }

  lemma UnreportedIsUnchanged(m: map<nat, Observation>, before: seq<Readback>, r: Readback, i: nat)
    requires !Reports(r, i) && Holds(m, before, i)
    ensures Holds(m, before + [r], i)
  {
    var rs := before + [r];
    assert rs[..|rs| - 1] == before;
    assert History(rs, i) == History(before, i);
  }

  method Merge(m0: map<nat, Observation>, ghost before: seq<Readback>, r: Readback) returns (m: map<nat, Observation>)
    requires forall i: nat :: Holds(m0, before, i)
    ensures forall i: nat :: Holds(m, before + [r], i)
  {
    m := m0;
    ghost var rs := before + [r];
    assert rs[..|rs| - 1] == before;
    if r.observedAt.None? || r.cells.None? {
      forall i: nat ensures Holds(m, rs, i) { UnreportedIsUnchanged(m, before, r, i); }
      return;
    }
    var first, cells := First(r), r.cells.value;
    for slot := 0 to |cells|
      invariant Merged(m, rs, slot)
    {
      var index := first + slot;
      ghost var m1 := m;
      if slot <= U16_MAX && index <= U16_MAX {
        var sample := Sample(cells[slot], r.observedAt.value);
        var position := if r.firstPackIndex.None? then None else CheckedAdd(r.firstPackIndex.value, slot);
        if index in m {
          m := m[index := m[index].(packIndex := r.packIndex,
                                    packObservationIndex := position,
                                    latestVoltage := cells[slot],
                                    samples := m[index].samples + [sample])];
        } else {
          m := m[index := Observation(index, r.packIndex, position, cells[slot], cells[slot], [sample])];
        }
        assert m == MergeCell(m1, r, index);
      }
      ghost var done := slot + 1;
      forall i: nat
        ensures HoldsSeen(m, rs, done, i)
      {
        assert HoldsSeen(m1, rs, slot, i);
        if i == index && Reports(r, i) {
          MergeCellExtends(m1, before, r, i);
        } else {
          assert Seen(rs, done, i) == Seen(rs, slot, i);
        }
      }
    }
    forall i: nat
      ensures Holds(m, rs, i)
    {
      assert HoldsSeen(m, rs, |cells|, i);
      if !Reports(r, i) {
        UnreportedIsUnchanged(m, before, r, i);
      }
    }
  }

  predicate IsLeast(k: nat, keys: set<nat>) {
    k in keys && forall j | j in keys :: k <= j
  }

  lemma {:induction false} HasLeast(keys: set<nat>)
    requires keys != {}
    ensures exists k :: IsLeast(k, keys)
    decreases |keys|
  {
    var x :| x in keys;
    if keys == {x} {
      assert IsLeast(x, keys);
    } else {
      var others := keys - {x};
      assert keys == others + {x};
      HasLeast(others);
      var y :| IsLeast(y, others);
      assert IsLeast(if x <= y then x else y, keys);
    }
  }

  predicate Increasing(s: seq<nat>) {
    forall i, j | 0 <= i < j < |s| :: s[i] < s[j]
  }

  lemma Prepended(k: nat, rest: seq<nat>, keys: set<nat>)
    requires IsLeast(k, keys) && Increasing(rest) && forall j :: j in rest <==> j in keys - {k}
    ensures Increasing([k] + rest) && forall j :: j in [k] + rest <==> j in keys
  {
    forall i | 0 <= i < |rest|
      ensures k < rest[i]
    {
      assert rest[i] in rest;
    }
  }

  /** Ascending iteration order of the table. */
  function Ascending(keys: set<nat>): (s: seq<nat>)
    ensures forall k :: k in s <==> k in keys
    ensures Increasing(s)
    ensures |s| == |keys|
    decreases |keys|
  {
    if keys == {} then []
    else
      HasLeast(keys);
      var k :| IsLeast(k, keys);
      var rest := Ascending(keys - {k});
      Prepended(k, rest, keys);
      [k] + rest
  }

  /** Lexicographic order on (voltage, index). */
  predicate LowerOrTiedFirst(a: Observation, b: Observation) {
    a.voltage < b.voltage || (a.voltage == b.voltage && a.index <= b.index)
  }

  predicate HigherOrTiedFirst(a: Observation, b: Observation) {
    a.voltage > b.voltage || (a.voltage == b.voltage && a.index <= b.index)
  }

  /** `i32::saturating_sub`. */
  function SaturatingDelta(a: Millivolts, b: Millivolts): Millivolts {
    if a - b > I32_MAX then I32_MAX else if a - b < I32_MIN then I32_MIN else a - b
  }

  method Extremes(obs: seq<Observation>) returns (low: nat, high: nat)
    requires obs != []
    requires forall i, j | 0 <= i < j < |obs| :: obs[i].index < obs[j].index
    ensures low < |obs| && forall j | 0 <= j < |obs| :: LowerOrTiedFirst(obs[low], obs[j])
    ensures high < |obs| && forall j | 0 <= j < |obs| :: HigherOrTiedFirst(obs[high], obs[j])
  {
    low, high := 0, 0;
    for k := 1 to |obs|
      invariant low < k && forall j | 0 <= j < k :: LowerOrTiedFirst(obs[low], obs[j])
      invariant high < k && forall j | 0 <= j < k :: HigherOrTiedFirst(obs[high], obs[j])
    {
      if obs[k].voltage < obs[low].voltage {
        low := k;
      }
      if obs[k].voltage > obs[high].voltage {
        high := k;
      }
    }
  }

  /** Builds the whole table, oldest readback first. */
  method Collect(readbacks: seq<Readback>) returns (m: map<nat, Observation>)
    ensures forall i: nat :: Holds(m, readbacks, i)
    ensures forall i | i in m :: m[i].voltage == Stabilized(m[i].samples)
  {
    m := map[];
    for k := 0 to |readbacks|
      invariant forall i: nat :: Holds(m, readbacks[..k], i)
    {
      assert readbacks[..k + 1] == readbacks[..k] + [readbacks[k]];
      m := Merge(m, readbacks[..k], readbacks[k]);
    }
    assert readbacks[..|readbacks|] == readbacks;
    var rest := m.Keys;
    while rest != {}
      invariant rest <= m.Keys
      invariant forall i: nat :: Holds(m, readbacks, i)
      invariant forall i | i in m && i !in rest :: m[i].voltage == Stabilized(m[i].samples)
      decreases |rest|
    {
      var i :| i in rest;
      var v := StabilizedVoltage(m[i].samples);
      ghost var m1 := m;
      m := m[i := m[i].(voltage := v)];
      rest := rest - {i};
      forall j: nat ensures Holds(m, readbacks, j) { assert Holds(m1, readbacks, j); }
    }
  }

  /** The listed observations are exactly the identities with a history, in ascending order, stabilized. */
  ghost predicate Lists(obs: seq<Observation>, readbacks: seq<Readback>) {
    && (forall i, j | 0 <= i < j < |obs| :: obs[i].index < obs[j].index)
    && (forall i: nat :: History(readbacks, i) != [] <==> Includes(obs, i))
    && (forall k | 0 <= k < |obs| :: RetainsStabilized(obs[k], readbacks))
  }

  ghost predicate RetainsStabilized(o: Observation, readbacks: seq<Readback>) {
    Retains(o, readbacks, o.index) && o.voltage == Stabilized(History(readbacks, o.index))
  }

  predicate Includes(obs: seq<Observation>, i: nat) {
    exists k :: 0 <= k < |obs| && obs[k].index == i
  }

  lemma EntryIsListed(m: map<nat, Observation>, readbacks: seq<Readback>, i: nat)
    requires i in m && Holds(m, readbacks, i) && m[i].voltage == Stabilized(m[i].samples)
    ensures m[i].index == i <= U16_MAX && RetainsStabilized(m[i], readbacks)
  {
    assert Reports(Newest(readbacks, i), i);
  }

  lemma KeysAreIncluded(obs: seq<Observation>, keys: seq<nat>, i: nat)
    requires |obs| == |keys| && forall k | 0 <= k < |keys| :: obs[k].index == keys[k]
    ensures i in keys <==> Includes(obs, i)
  {
    if i in keys {
      var k :| 0 <= k < |keys| && keys[k] == i;
      assert obs[k].index == i;
    }
  }

  /** The table's values in ascending key order. */
  method Values(m: map<nat, Observation>) returns (obs: seq<Observation>)
    ensures var keys := Ascending(m.Keys);
            |obs| == |keys| && forall j | 0 <= j < |keys| :: keys[j] in m && obs[j] == m[keys[j]]
  {
    var keys := Ascending(m.Keys);
    obs := [];
    for k := 0 to |keys|
      invariant |obs| == k
      invariant forall j | 0 <= j < k :: keys[j] in m && obs[j] == m[keys[j]]
    {
      assert keys[k] in keys;
      obs := obs + [m[keys[k]]];
    }
  }

  /** The values are exactly the observations of the readbacks. */
  method List(m: map<nat, Observation>, ghost readbacks: seq<Readback>) returns (obs: seq<Observation>)
    requires forall i: nat :: Holds(m, readbacks, i)
    requires forall i | i in m :: m[i].voltage == Stabilized(m[i].samples)
    ensures Lists(obs, readbacks) && |obs| <= U16_MAX + 1
  {
    obs := Values(m);
    TableIsListed(m, readbacks, Ascending(m.Keys), obs);
  }

  lemma TableIsListed(m: map<nat, Observation>, readbacks: seq<Readback>, keys: seq<nat>, obs: seq<Observation>)
    requires forall i: nat :: Holds(m, readbacks, i)
    requires forall i | i in m :: m[i].voltage == Stabilized(m[i].samples)
    requires Increasing(keys) && forall i :: i in keys <==> i in m.Keys
    requires |obs| == |keys| && forall j | 0 <= j < |keys| :: keys[j] in m && obs[j] == m[keys[j]]
    ensures Lists(obs, readbacks) && |obs| <= U16_MAX + 1
  {
    forall j | 0 <= j < |keys|
      ensures obs[j].index == keys[j] <= U16_MAX
      ensures RetainsStabilized(obs[j], readbacks)
    {
      assert Holds(m, readbacks, keys[j]);
      EntryIsListed(m, readbacks, keys[j]);
    }
    forall i: nat
      ensures History(readbacks, i) != [] <==> Includes(obs, i)
    {
      assert Holds(m, readbacks, i) && (i in m.Keys <==> i in keys);
      KeysAreIncluded(obs, keys, i);
    }
    IncreasingIsBounded(keys, U16_MAX);
  }

  /**
   The summary: one entry per identity that has a timestamped reading, each with its whole history
   and stabilized value; the true extremes with smallest-index ties; their non-negative saturated
   difference.
   */
  method Summarize(readbacks: seq<Readback>) returns (s: Summary)
    ensures Lists(s.observations, readbacks)
    ensures s.observedCount == |s.observations| <= U16_MAX + 1
    ensures s.observations == [] ==> s.lowestIndex.None? && s.highestIndex.None? && s.voltageSpread.None?
    ensures s.observations != [] ==>
              exists low, high | 0 <= low < |s.observations| && 0 <= high < |s.observations| ::
                && s.lowestIndex == Some(s.observations[low].index)
                && s.highestIndex == Some(s.observations[high].index)
                && (forall j | 0 <= j < |s.observations| :: LowerOrTiedFirst(s.observations[low], s.observations[j]))
                && (forall j | 0 <= j < |s.observations| :: HigherOrTiedFirst(s.observations[high], s.observations[j]))
                && s.voltageSpread
                == Some(SaturatingDelta(s.observations[high].voltage, s.observations[low].voltage))
                && s.voltageSpread.value >= 0
  {
    var m := Collect(readbacks);
    var obs := List(m, readbacks);
    if |obs| == 0 {
      return Summary(0, None, None, None, obs);
    }
    var low, high := Extremes(obs);
    assert HigherOrTiedFirst(obs[high], obs[low]);
    s := Summary(|obs|, Some(obs[low].index), Some(obs[high].index),
                 Some(SaturatingDelta(obs[high].voltage, obs[low].voltage)), obs);
  }

  lemma {:induction false} IncreasingIsBounded(keys: seq<nat>, bound: nat)
    requires Increasing(keys)
    requires forall i | 0 <= i < |keys| :: keys[i] <= bound
    ensures |keys| <= bound + 1
  {
    if |keys| > 1 {
      assert keys[0] < keys[|keys| - 1];
      assert forall i | 0 <= i < |keys| - 1 :: keys[i] < keys[|keys| - 1];
      IncreasingIsBounded(keys[..|keys| - 1], bound - 1);
    }
  }
}
