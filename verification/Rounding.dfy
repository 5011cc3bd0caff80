/**
 Rounding a binary64 value to a 32-bit integer by binary search under the IEEE 754 total order
 (section 5.10 of IEEE 754-2008), in which negative zero is below positive zero.
 */
module Rounding {

  const I32_MIN := -0x8000_0000
  const I32_MAX := 0x7FFF_FFFF

  /** A binary64 value; `Finite(0.0)` is positive zero. */
  datatype Float = NaN | NegativeInfinity | PositiveInfinity | NegativeZero | Finite(value: real)

  datatype Ordering = Less | Equal | Greater

  /** Numeric value of a float that is not a special value. */
  function Value(x: Float): real
    requires x.NegativeZero? || x.Finite?
  {
    if x.NegativeZero? then 0.0 else x.value
  }

  predicate AtMost(x: Float, bound: int) {
    x.NegativeInfinity? || ((x.NegativeZero? || x.Finite?) && Value(x) <= bound as real)
  }

  predicate AtLeast(x: Float, bound: int) {
    x.PositiveInfinity? || ((x.NegativeZero? || x.Finite?) && Value(x) >= bound as real)
  }

  /** Nearest integer, ties away from zero. */
  function HalfAwayFromZero(v: real): int {
    if v >= 0.0 then (v + 0.5).Floor else -((-v + 0.5).Floor)
  }

  /** `f64::round`: a negative value that rounds to zero keeps its sign. */
  function Round(x: Float): (r: Float)
    requires x.NegativeZero? || x.Finite?
    ensures r.NegativeZero? || r.Finite?
  {
    var n := HalfAwayFromZero(Value(x));
    if x.NegativeZero? || (n == 0 && x.value < 0.0) then NegativeZero else Finite(n as real)
  }

  /** `f64::total_cmp` of an integer against a rounded value. */
  function TotalCompare(candidate: int, x: Float): Ordering
    requires x.NegativeZero? || x.Finite?
  {
    match x
    case NegativeZero => if candidate < 0 then Less else Greater
    case Finite(v) =>
      if (candidate as real) < v then Less else if (candidate as real) > v then Greater else Equal
  }

  /** What the conversion means for every input. */
  function Nearest(x: Float): int {
    if x.NaN? then 0
    else if AtMost(x, I32_MIN) then I32_MIN
    else if AtLeast(x, I32_MAX) then I32_MAX
    else HalfAwayFromZero(Value(x))
  }

  lemma RoundedIsInRange(v: real)
    requires I32_MIN as real < v < I32_MAX as real
    ensures I32_MIN <= HalfAwayFromZero(v) <= I32_MAX
  {
  }

  method RoundToI32(x: Float) returns (r: int)
    ensures r == Nearest(x)
    ensures I32_MIN <= r <= I32_MAX
  {
    if x.NaN? {
      return 0;
    }
    if AtMost(x, I32_MIN) {
      return I32_MIN;
    }
    if AtLeast(x, I32_MAX) {
      return I32_MAX;
    }
    RoundedIsInRange(Value(x));
    var rounded := Round(x);
    ghost var target := HalfAwayFromZero(Value(x));
    var low, high := I32_MIN, I32_MAX;
    while low <= high
      invariant I32_MIN <= low && high <= I32_MAX
      invariant rounded.Finite? ==> low <= target <= high
      invariant rounded.NegativeZero? ==> low <= 0 && high >= -1
    {
      var midpoint := low + (high - low) / 2;
      match TotalCompare(midpoint, rounded) {
        case Less => low := midpoint + 1;
        case Greater => high := midpoint - 1;
        case Equal => return midpoint;
      }
    }
    return 0;
  }

  function Distance(v: real, n: int): real {
    if v >= n as real then v - n as real else n as real - v
  }

  /** The result is a nearest integer, and of two nearest ones the one further from zero. */
  lemma RoundsToNearest(v: real, n: int)
    ensures var r := HalfAwayFromZero(v);
            && Distance(v, r) <= 0.5
            && Distance(v, r) <= Distance(v, n)
            && (Distance(v, n) == Distance(v, r) && n != r ==>
                  if v >= 0.0 then r == n + 1 else r == n - 1)
  {
    var r := HalfAwayFromZero(v);
    if n > r {
      assert n as real >= r as real + 1.0;
    } else if n < r {
      assert n as real <= r as real - 1.0;
    }
  }

  /** Rounding is odd and monotone over all numbers, and exact on integers. */
  lemma RoundingIsOddAndMonotone(v: real, w: real, n: int)
    ensures HalfAwayFromZero(-v) == -HalfAwayFromZero(v)
    ensures v <= w ==> HalfAwayFromZero(v) <= HalfAwayFromZero(w)
    ensures HalfAwayFromZero(n as real) == n
  {
  }

  /** The only inputs that leave the search without a match are the ones rounded to negative zero. */
  lemma OnlyNegativeZeroIsUnmatched(x: Float)
    requires x.NegativeZero? || x.Finite?
    ensures (forall candidate: int :: TotalCompare(candidate, Round(x)) != Equal)
       <==> x.NegativeZero? || -0.5 < x.value < 0.0
    ensures Round(x).NegativeZero? ==> HalfAwayFromZero(Value(x)) == 0
  {
    if Round(x).Finite? {
      assert TotalCompare(HalfAwayFromZero(Value(x)), Round(x)) == Equal;
    }
  }
}
