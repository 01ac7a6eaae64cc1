/** src/Ozzy.Core/Disruptor/Collections/Histogram.cs. The accepted observations are kept as a history
    variable; everything the class answers is related to them. */
module Histogram {
  import opened Slots

  datatype Result<T> = Ok(value: T) | Throws

  // ---- What the fields stand for -------------------------------------------------------

  function Larger(a: int, b: int): int { if a > b then a else b }

  function Smaller(a: int, b: int): int { if a < b then a else b }

  predicate BoundsOk(bounds: seq<int>) {
    && (forall k :: 0 <= k < |bounds| ==> bounds[k] > 0)
    && (forall j, k :: 0 <= j < k < |bounds| ==> bounds[j] < bounds[k])
  }

  /** A linear scan for the first bound at or above the value. */
  function Bin(bounds: seq<int>, value: int): (bin: nat)
    ensures bin <= |bounds|
  {
    if bounds == [] then 0
    else
      var bin := Bin(bounds[..|bounds| - 1], value);
      if bin < |bounds| - 1 || value <= bounds[bin] then bin else |bounds|
  }

  lemma {:induction false} BinIsFirst(bounds: seq<int>, value: int)
    ensures var bin := Bin(bounds, value);
      && (forall k :: 0 <= k < bin ==> bounds[k] < value)
      && (bin < |bounds| ==> value <= bounds[bin])
  {
    if bounds != [] {
      var shorter := bounds[..|bounds| - 1];
      BinIsFirst(shorter, value);
      assert forall k :: 0 <= k < |shorter| ==> shorter[k] == bounds[k];
    }
  }

  function Bump(counts: seq<nat>, bin: nat): (r: seq<nat>)
    ensures |r| == |counts|
  {
    if bin < |counts| then counts[bin := counts[bin] + 1] else counts
  }

  /** How many observations fall into each bin. */
  function Tallies(bounds: seq<int>, observations: seq<int>): (counts: seq<nat>)
    ensures |counts| == |bounds|
  {
    if observations == [] then seq(|bounds|, _ => 0)
    else
      var last := |observations| - 1;
      Bump(Tallies(bounds, observations[..last]), Bin(bounds, observations[last]))
  }

  /** The largest of 0 and the values. */
  function MaxOf(values: seq<int>): (m: int)
    ensures m >= 0 && forall k :: 0 <= k < |values| ==> values[k] <= m
  {
    if values == [] then 0
    else
      var last := values[|values| - 1];
      assert values == values[..|values| - 1] + [last];
      Larger(MaxOf(values[..|values| - 1]), last)
  }

  predicate Accepted(bounds: seq<int>, observations: seq<int>) {
    forall k :: 0 <= k < |observations| ==> Bin(bounds, observations[k]) < |bounds|
  }

  ghost predicate Represents(bounds: seq<int>, counts: seq<int>, min: int, max: int, observations: seq<int>) {
    && BoundsOk(bounds) && (forall k :: 0 <= k < |bounds| ==> bounds[k] <= MAX_LONG)
    && Accepted(bounds, observations) && counts == Tallies(bounds, observations)
    && min == MinOf(observations) && max == MaxOf(observations)
  }

  function SumOf(values: seq<int>): int {
    if values == [] then 0 else SumOf(values[..|values| - 1]) + values[|values| - 1]
  }

  // ---- Sums over bins and sums over observations ---------------------------------------

  lemma {:induction false} SumStep(values: seq<int>, i: nat)
    requires i < |values|
    ensures SumOf(values[..i + 1]) == SumOf(values[..i]) + values[i]
  {
    assert values[..i + 1][..i] == values[..i];
  }

  lemma {:induction false} SumMonotone(values: seq<nat>, i: nat, j: nat)
    requires i <= j <= |values|
    ensures SumOf(values[..i]) <= SumOf(values[..j])
  {
    if i < j {
      SumMonotone(values, i, j - 1);
      SumStep(values, j - 1);
    }
  }

  lemma {:induction false} SumOfBump(counts: seq<nat>, bin: nat, i: nat)
    requires i <= |counts|
    ensures SumOf(Bump(counts, bin)[..i]) == SumOf(counts[..i]) + if bin < i then 1 else 0
  {
    if i > 0 {
      SumOfBump(counts, bin, i - 1);
      SumStep(counts, i - 1);
      SumStep(Bump(counts, bin), i - 1);
    }
  }

  lemma {:induction false} SumOfZeros(n: nat, i: nat)
    requires i <= n
    ensures SumOf(seq(n, _ => 0)[..i]) == 0
  {
    if i > 0 {
      SumOfZeros(n, i - 1);
      SumStep(seq(n, _ => 0), i - 1);
    }
  }

  /** How many observations are at or below a bound. */
  function AtOrBelow(observations: seq<int>, bound: int): (n: nat)
    ensures n <= |observations|
  {
    if observations == [] then 0
    else
      var last := |observations| - 1;
      AtOrBelow(observations[..last], bound) + if observations[last] <= bound then 1 else 0
  }

  /** The counters up to a bin count exactly the observations at or below its bound. */
  lemma {:induction false} PrefixCounts(bounds: seq<int>, observations: seq<int>, i: nat)
    requires BoundsOk(bounds) && i < |bounds|
    ensures SumOf(Tallies(bounds, observations)[..i + 1]) == AtOrBelow(observations, bounds[i])
  {
    if observations == [] {
      SumOfZeros(|bounds|, i + 1);
    } else {
      var last := |observations| - 1;
      PrefixCounts(bounds, observations[..last], i);
      BinIsFirst(bounds, observations[last]);
      SumOfBump(Tallies(bounds, observations[..last]), Bin(bounds, observations[last]), i + 1);
    }
  }

  /** Nothing accepted is lost and nothing is counted twice. */
  lemma {:induction false} CountsConserve(bounds: seq<int>, observations: seq<int>)
    requires Accepted(bounds, observations)
    ensures SumOf(Tallies(bounds, observations)) == |observations|
  {
    var counts := Tallies(bounds, observations);
    assert counts[..|bounds|] == counts;
    if observations == [] {
      SumOfZeros(|bounds|, |bounds|);
    } else {
      var last := |observations| - 1;
      var before := Tallies(bounds, observations[..last]);
      assert before[..|bounds|] == before;
      CountsConserve(bounds, observations[..last]);
      assert Bin(bounds, observations[last]) < |bounds|;
      SumOfBump(before, Bin(bounds, observations[last]), |bounds|);
    }
  }

  /** Merging counters is replaying the other histogram's observations. */
  lemma {:induction false} MergeIsReplay(bounds: seq<int>, a: seq<int>, b: seq<int>)
    ensures forall i :: 0 <= i < |bounds| ==>
      Tallies(bounds, a + b)[i] == Tallies(bounds, a)[i] + Tallies(bounds, b)[i]
    ensures MinOf(a + b) == Smaller(MinOf(a), MinOf(b)) && MaxOf(a + b) == Larger(MaxOf(a), MaxOf(b))
  {
    if b == [] {
      assert a + b == a;
    } else {
      var last := |b| - 1;
      MergeIsReplay(bounds, a, b[..last]);
      assert (a + b)[..|a + b| - 1] == a + b[..last];
    }
  }

  // ---- The mean ------------------------------------------------------------------------

  /** The interval of a bin, clipped to what was observed. */
  function Lower(bounds: seq<int>, min: int, bin: nat): int
    requires bin < |bounds|
  {
    if bin == 0 then min else Larger(bounds[bin - 1] + 1, min)
  }

  function Upper(bounds: seq<int>, max: int, bin: nat): int
    requires bin < |bounds|
  {
    Smaller(bounds[bin], max)
  }

  function MidPoint(bounds: seq<int>, min: int, max: int, bin: nat): int
    requires bin < |bounds|
  {
    Lower(bounds, min, bin) + (Upper(bounds, max, bin) - Lower(bounds, min, bin)) / 2
  }

  /** Mid points times counters over the first n bins. */
  function MidTotal(bounds: seq<int>, counts: seq<int>, min: int, max: int, n: nat): int
    requires n <= |bounds| == |counts|
  {
    if n == 0 then 0
    else MidTotal(bounds, counts, min, max, n - 1) + MidPoint(bounds, min, max, n - 1) * counts[n - 1]
  }

  /** Math.Round to two decimals, midpoints away from zero. */
  function RoundToCents(x: real): real {
    if x >= 0.0 then (x * 100.0 + 0.5).Floor as real / 100.0
    else -((-x * 100.0 + 0.5).Floor as real / 100.0)
  }

  function MeanOf(bounds: seq<int>, counts: seq<int>, min: int, max: int): real
    requires |bounds| == |counts|
  {
    if SumOf(counts) == 0 then 0.0
    else RoundToCents(MidTotal(bounds, counts, min, max, |bounds|) as real / SumOf(counts) as real)
  }

  /** r is x to the nearest hundredth, and away from zero if two are equally near. */
  ghost predicate NearestCent(r: real, x: real) {
    exists n: int :: IsCents(r, n) && -1.0 <= 2.0 * (n as real - 100.0 * x) <= 1.0
      && (2.0 * (n as real - 100.0 * x) == 1.0 ==> x > 0.0) && (2.0 * (n as real - 100.0 * x) == -1.0 ==> x < 0.0)
  }

  ghost predicate IsCents(r: real, n: int) { 100.0 * r == n as real }

  lemma RoundsToCent(x: real)
    ensures NearestCent(RoundToCents(x), x)
  {
    var n := if x >= 0.0 then (x * 100.0 + 0.5).Floor else -(-x * 100.0 + 0.5).Floor;
    assert IsCents(RoundToCents(x), n);
  }

  lemma RoundingIsClose(x: real)
    ensures -0.005 <= RoundToCents(x) - x <= 0.005
  {
  }

  lemma RoundingKeepsRange(x: real, lo: int, hi: int)
    requires lo as real <= x <= hi as real
    ensures lo as real <= RoundToCents(x) <= hi as real
  {
    if x >= 0.0 {
      var f := (x * 100.0 + 0.5).Floor;
      assert f as real <= hi as real * 100.0 + 0.5;
      assert f <= hi * 100;
      assert f as real > lo as real * 100.0 - 0.5;
      assert f >= lo * 100;
    } else {
      var f := (-x * 100.0 + 0.5).Floor;
      assert f as real <= -(lo as real) * 100.0 + 0.5;
      assert f <= -lo * 100;
      assert f as real > -(hi as real) * 100.0 - 0.5;
      assert f >= -hi * 100;
    }
  }

  lemma {:induction false} MidTotalOfBump(bounds: seq<int>, counts: seq<nat>, min: int, max: int, bin: nat, n: nat)
    requires n <= |bounds| == |counts| && bin < |bounds|
    ensures MidTotal(bounds, Bump(counts, bin), min, max, n)
      == MidTotal(bounds, counts, min, max, n) + if bin < n then MidPoint(bounds, min, max, bin) else 0
  {
    if n > 0 {
      MidTotalOfBump(bounds, counts, min, max, bin, n - 1);
      if bin == n - 1 {
        var m := MidPoint(bounds, min, max, bin);
        assert m * (counts[bin] + 1) == m * counts[bin] + m;
      }
    }
  }

  lemma {:induction false} MidTotalOfZeros(bounds: seq<int>, min: int, max: int, n: nat)
    requires n <= |bounds|
    ensures MidTotal(bounds, seq(|bounds|, _ => 0), min, max, n) == 0
  {
    if n > 0 { MidTotalOfZeros(bounds, min, max, n - 1); }
  }

  /** The clipped interval of its bin contains an observation. */
  lemma ClippedAround(bounds: seq<int>, min: int, max: int, value: int)
    requires BoundsOk(bounds) && Bin(bounds, value) < |bounds| && min <= value <= max
    ensures var bin := Bin(bounds, value);
      min <= Lower(bounds, min, bin) <= value <= Upper(bounds, max, bin) <= max
  {
    BinIsFirst(bounds, value);
  }

  /** The clipped interval of a bin is exactly what falls into the bin and into the observed range. */
  lemma ClippedExactly(bounds: seq<int>, min: int, max: int, bin: nat, value: int)
    requires BoundsOk(bounds) && bin < |bounds|
    ensures Lower(bounds, min, bin) <= value <= Upper(bounds, max, bin)
      <==> min <= value <= max && Bin(bounds, value) == bin
  {
    BinIsFirst(bounds, value);
    if Lower(bounds, min, bin) <= value <= Upper(bounds, max, bin) {
      forall k | 0 <= k < bin ensures bounds[k] < value { assert bounds[k] <= bounds[bin - 1]; }
      BinIs(bounds, value, bin);
    }
  }

  /** A mid point lies in the middle of its interval, or half below it. */
  lemma MidPointIsMiddle(bounds: seq<int>, min: int, max: int, bin: nat)
    requires bin < |bounds|
    ensures var lower, upper := Lower(bounds, min, bin), Upper(bounds, max, bin);
      0 <= lower + upper - 2 * MidPoint(bounds, min, max, bin) <= 1
  {
  }

  /** `width` is at least half the clipped interval of every bin that holds an observation. */
  ghost predicate HalfWidth(bounds: seq<int>, observations: seq<int>, min: int, max: int, width: int) {
    forall k :: 0 <= k < |observations| && Bin(bounds, observations[k]) < |bounds| ==>
      var bin := Bin(bounds, observations[k]);
      Upper(bounds, max, bin) - Lower(bounds, min, bin) <= 2 * width
  }

  lemma {:induction false} MidTotalIsClose(bounds: seq<int>, observations: seq<int>, min: int, max: int, width: int)
    requires BoundsOk(bounds) && Accepted(bounds, observations) && HalfWidth(bounds, observations, min, max, width)
    requires forall k :: 0 <= k < |observations| ==> min <= observations[k] <= max
    ensures var total := MidTotal(bounds, Tallies(bounds, observations), min, max, |bounds|);
      && min * |observations| <= total <= max * |observations|
      && SumOf(observations) - width * |observations| <= total <= SumOf(observations) + width * |observations|
  {
    if observations == [] {
      MidTotalOfZeros(bounds, min, max, |bounds|);
    } else {
      var last := |observations| - 1;
      var v := observations[last];
      MidTotalIsClose(bounds, observations[..last], min, max, width);
      assert Bin(bounds, v) < |bounds|;
      MidTotalOfBump(bounds, Tallies(bounds, observations[..last]), min, max, Bin(bounds, v), |bounds|);
      ClippedAround(bounds, min, max, v);
      OneMore(min, last); OneMore(max, last); OneMore(width, last);
    }
  }

  lemma OneMore(a: int, n: nat)
    ensures a * (n + 1) == a * n + a
  {
  }

  lemma {:induction false} ProductAsReal(a: int, n: nat)
    ensures (a * n) as real == a as real * n as real
  {
    if n > 0 {
      ProductAsReal(a, n - 1);
      OneMore(a, n - 1);
      assert n as real == (n - 1) as real + 1.0;
    }
  }

  lemma QuotientRange(total: int, n: nat, lo: int, hi: int)
    requires n > 0 && lo * n <= total <= hi * n
    ensures lo as real <= total as real / n as real <= hi as real
  {
    ProductAsReal(lo, n);
    ProductAsReal(hi, n);
    var q := total as real / n as real;
    assert q * n as real == total as real;
    CancelFactor(lo as real, q, n as real);
    CancelFactor(q, hi as real, n as real);
  }

  lemma CancelFactor(x: real, y: real, n: real)
    requires n > 0.0 && x * n <= y * n
    ensures x <= y
  {
    assert (y - x) * n >= 0.0;
  }

  lemma QuotientsClose(a: int, b: int, n: nat, width: int)
    requires n > 0 && b - width * n <= a <= b + width * n
    ensures -(width as real) <= a as real / n as real - b as real / n as real <= width as real
  {
    OneMore(width, n);
    assert (-width) * n == -(width * n);
    QuotientRange(a - b, n, -width, width);
    assert (a - b) as real / n as real == a as real / n as real - b as real / n as real;
  }

  /** The mean lies between Min and Max, and misses the true mean by at most the largest half width
      of a non-empty clipped bin and the rounding to two decimals. */
  lemma MeanIsClose(bounds: seq<int>, counts: seq<int>, min: int, max: int, observations: seq<int>, width: int)
    requires Represents(bounds, counts, min, max, observations) && observations != []
    requires HalfWidth(bounds, observations, min, max, width)
    ensures min as real <= MeanOf(bounds, counts, min, max) <= max as real
    ensures var error := MeanOf(bounds, counts, min, max) - SumOf(observations) as real / |observations| as real;
      -(width as real) - 0.005 <= error <= width as real + 0.005
  {
    CountsConserve(bounds, observations);
    assert forall k :: 0 <= k < |observations| ==> min <= observations[k] <= max;
    MidTotalIsClose(bounds, observations, min, max, width);
    var total := MidTotal(bounds, counts, min, max, |bounds|);
    QuotientRange(total, |observations|, min, max);
    QuotientsClose(total, SumOf(observations), |observations|, width);
    RoundingKeepsRange(total as real / |observations| as real, min, max);
    RoundingIsClose(total as real / |observations| as real);
  }

  // ---- Percentiles ---------------------------------------------------------------------

  /** Math.Round: to the nearest integer, midpoints to the even one. */
  function RoundHalfEven(x: real): int {
    var f := x.Floor;
    if x - f as real < 0.5 then f
    else if x - f as real > 0.5 then f + 1
    else if f % 2 == 0 then f else f + 1
  }

  /** k is a nearest integer to x, and the even one of two. */
  predicate NearestEven(k: int, x: real) {
    && -1.0 <= 2.0 * (k as real - x) <= 1.0
    && (2.0 * (k as real - x) == 1.0 || 2.0 * (k as real - x) == -1.0 ==> k % 2 == 0)
  }

  lemma NearestIsUnique(j: int, k: int, x: real)
    requires NearestEven(j, x) && NearestEven(k, x)
    ensures j == k
  {
    assert -1.0 <= (j - k) as real <= 1.0;
  }

  /** k is the given share of a population, to the nearest integer. */
  predicate IsShare(k: int, total: nat, factor: real) { NearestEven(k, total as real * factor) }

  lemma ShareIsUnique(k: int, total: nat, factor: real)
    requires IsShare(k, total, factor)
    ensures forall j :: IsShare(j, total, factor) ==> j == k
  {
    forall j | IsShare(j, total, factor) ensures j == k { NearestIsUnique(j, k, total as real * factor); }
  }

  lemma RoundsToNearest(x: real)
    ensures NearestEven(RoundHalfEven(x), x)
  {
  }

  /** The rounded share of a population. */
  function Share(total: nat, factor: real): (k: nat)
    requires 0.0 < factor < 1.0
    ensures k <= total && IsShare(k, total, factor)
  {
    ShareRange(total, factor);
    RoundsToNearest(total as real * factor);
    RoundHalfEven(total as real * factor)
  }

  lemma ShareRange(total: nat, factor: real)
    requires 0.0 < factor < 1.0
    ensures 0 <= RoundHalfEven(total as real * factor) <= total
  {
    ShareOfReal(total as real, factor);
    RoundingStaysBelow(total as real * factor, total);
  }

  lemma RoundingStaysBelow(x: real, total: nat)
    requires 0.0 <= x <= total as real
    ensures 0 <= RoundHalfEven(x) <= total
  {
    if x.Floor >= total { assert x == total as real; }
  }

  lemma ShareOfReal(total: real, factor: real)
    requires total >= 0.0 && 0.0 < factor < 1.0
    ensures 0.0 <= total * factor <= total
  {
    assert total * (1.0 - factor) == total - total * factor;
  }

  /** The least bound with at least n of the observations at or below it. */
  ghost predicate IsLeastBound(bounds: seq<int>, observations: seq<int>, n: int, bound: int) {
    && bound in bounds && AtOrBelow(observations, bound) >= n
    && forall b :: b in bounds && b < bound ==> AtOrBelow(observations, b) < n
  }

  /** The scan from the top stops at bin i: there the counters up to i first reach n. */
  lemma LeastBoundAt(bounds: seq<int>, observations: seq<int>, n: int, i: nat)
    requires BoundsOk(bounds) && i < |bounds|
    requires SumOf(Tallies(bounds, observations)[..i]) < n <= SumOf(Tallies(bounds, observations)[..i + 1])
    ensures IsLeastBound(bounds, observations, n, bounds[i])
  {
    var counts := Tallies(bounds, observations);
    PrefixCounts(bounds, observations, i);
    forall b | b in bounds && b < bounds[i] ensures AtOrBelow(observations, b) < n {
      var j :| 0 <= j < |bounds| && bounds[j] == b;
      assert j < i;
      PrefixCounts(bounds, observations, j);
      SumMonotone(counts, j + 1, i);
    }
  }

  // ---- The class -----------------------------------------------------------------------

  class Histogram {
    const upperBounds: array<int>
    const counts: array<int>
    var minValue: int
    var maxValue: int
    /** The accepted observations, in order. */
    ghost var observations: seq<int>

    ghost predicate Valid()
      reads this, upperBounds, counts
    {
      && upperBounds != counts
      && Represents(upperBounds[..], counts[..], minValue, maxValue, observations)
    }

    /** The constructor of the original, which throws for bounds that are not positive or not
        strictly increasing. The parameter's elements are 64-bit. */
    static method Create(upperBounds: array<int>) returns (h: Histogram?)
      requires forall k :: 0 <= k < upperBounds.Length ==> upperBounds[k] <= MAX_LONG
      ensures h != null <==> BoundsOk(upperBounds[..])
      ensures h != null ==>
        && fresh(h) && fresh(h.upperBounds) && fresh(h.counts) && h.Valid()
        && h.upperBounds[..] == upperBounds[..] && h.observations == []
    {
      var ok := ValidateBounds(upperBounds);
      if !ok { return null; }
      h := new Histogram(upperBounds);
    }

    static method ValidateBounds(upperBounds: array<int>) returns (ok: bool)
      ensures ok <==> BoundsOk(upperBounds[..])
    {
      var lastBound := -1;
      for i := 0 to upperBounds.Length
        invariant lastBound == if i == 0 then -1 else upperBounds[i - 1]
        invariant BoundsOk(upperBounds[..i])
      {
        var bound := upperBounds[i];
        if bound <= 0 {
          assert upperBounds[..][i] <= 0;
          return false;
        }
        if bound <= lastBound {
          assert upperBounds[..][i - 1] >= upperBounds[..][i];
          return false;
        }
        lastBound := bound;
      }
      assert upperBounds[..upperBounds.Length] == upperBounds[..];
      return true;
    }

    constructor (upperBounds: array<int>)
      requires BoundsOk(upperBounds[..]) && forall k :: 0 <= k < upperBounds.Length ==> upperBounds[k] <= MAX_LONG
      ensures Valid() && fresh(this.upperBounds) && fresh(counts)
      ensures this.upperBounds[..] == upperBounds[..] && observations == []
    {
      this.upperBounds := new int[upperBounds.Length](
        i requires 0 <= i < upperBounds.Length reads upperBounds => upperBounds[i]);
      counts := new int[upperBounds.Length](_ => 0);
      minValue, maxValue, observations := MAX_LONG, 0, [];
      new;
      assert this.upperBounds[..] == upperBounds[..];
      assert counts[..] == Tallies(this.upperBounds[..], []);
    }

    /** The binary search picks the bin a linear scan would pick. */
    method FindBin(value: int) returns (high: nat)
      requires BoundsOk(upperBounds[..]) && upperBounds.Length > 0
      ensures high < upperBounds.Length
      ensures Bin(upperBounds[..], value) == if value <= upperBounds[high] then high else upperBounds.Length
    {
      var low := 0;
      high := upperBounds.Length - 1;
      while low < high
        invariant 0 <= low <= high < upperBounds.Length
        invariant forall k :: 0 <= k < low ==> upperBounds[k] < value
        invariant high < upperBounds.Length - 1 ==> value <= upperBounds[high]
      {
        var mid := low + (high - low) / 2;
        if upperBounds[mid] < value {
          assert forall k :: 0 <= k < mid ==> upperBounds[..][k] < upperBounds[..][mid];
          low := mid + 1;
        } else {
          high := mid;
        }
      }
      BinIs(upperBounds[..], value, if value <= upperBounds[high] then high else upperBounds.Length);
    }

    /** An observation is accepted when some bound reaches it. Without any bound the original indexes
        below its array and throws. */
    method AddObservation(value: int) returns (accepted: Result<bool>)
      requires Valid()
      modifies this, counts
      ensures Valid()
      ensures accepted == if upperBounds.Length == 0 then Throws
                          else Ok(Bin(upperBounds[..], value) < upperBounds.Length)
      ensures observations == old(observations) + if accepted == Ok(true) then [value] else []
    {
      if upperBounds.Length == 0 { return Throws; }
      var high := FindBin(value);
      if value <= upperBounds[high] {
        Track(value, high);
        return Ok(true);
      }
      return Ok(false);
    }

    method Track(value: int, high: nat)
      requires Valid() && Bin(upperBounds[..], value) == high < upperBounds.Length
      modifies this, counts
      ensures Valid() && observations == old(observations) + [value]
    {
      ghost var before := counts[..];
      OneMoreObservation(upperBounds[..], before, minValue, maxValue, observations, value);
      counts[high] := counts[high] + 1;
      TrackRange(value);
      observations := observations + [value];
      assert counts[..] == before[high := before[high] + 1];
    }

    method TrackRange(value: int)
      modifies this`minValue, this`maxValue
      ensures minValue == Smaller(old(minValue), value) && maxValue == Larger(old(maxValue), value)
    {
      if value < minValue { minValue := value; }
      if value > maxValue { maxValue := value; }
    }

    /** Merging a histogram with other bounds throws and changes nothing. Otherwise the counters are
        those of both sets of observations. The class stands for both sets together exactly when the
        other one is not empty: the range of an empty histogram, from long.MaxValue to 0, is tracked as
        if it had been observed. */
    method AddObservations(histogram: Histogram) returns (r: Result<()>)
      requires Valid() && histogram.Valid()
      requires histogram == this || histogram.counts != counts
      requires histogram.counts != upperBounds && histogram.upperBounds != counts
      modifies this, counts
      ensures r.Ok? <==> upperBounds[..] == histogram.upperBounds[..]
      ensures r.Throws? ==> Valid() && observations == old(observations)
      ensures r.Ok? ==> observations == old(observations + histogram.observations)
      ensures r.Ok? ==> counts[..] == Tallies(upperBounds[..], observations)
      ensures r.Ok? ==>
        (Valid() <==> old(histogram.observations) != [] || (old(maxValue) == MAX_LONG && old(minValue) <= 0))
    {
      var same := SameBounds(histogram);
      if !same { return Throws; }
      ghost var a, b := observations, histogram.observations;
      ghost var ca, cb := counts[..], histogram.counts[..];
      AddCounts(histogram);
      Merged(upperBounds[..], ca, minValue, maxValue, a, cb, histogram.minValue, histogram.maxValue, b, counts[..]);
      TrackRange(histogram.minValue);
      TrackRange(histogram.maxValue);
      observations := a + b;
      return Ok(());
    }

    /** Also right when a histogram is added to itself. */
    method AddCounts(histogram: Histogram)
      requires counts.Length == histogram.counts.Length
      requires histogram == this || histogram.counts != counts
      modifies counts
      ensures forall k :: 0 <= k < counts.Length ==> counts[k] == old(counts[k]) + old(histogram.counts[k])
    {
      for i := 0 to counts.Length
        invariant forall k :: 0 <= k < i ==> counts[k] == old(counts[k]) + old(histogram.counts[k])
        invariant forall k :: i <= k < counts.Length ==> counts[k] == old(counts[k])
        invariant forall k :: i <= k < counts.Length ==> histogram.counts[k] == old(histogram.counts[k])
      {
        counts[i] := counts[i] + histogram.counts[i];
      }
    }

    method SameBounds(histogram: Histogram) returns (same: bool)
      ensures same <==> upperBounds[..] == histogram.upperBounds[..]
    {
      if upperBounds.Length != histogram.upperBounds.Length { return false; }
      for i := 0 to upperBounds.Length
        invariant forall k :: 0 <= k < i ==> upperBounds[k] == histogram.upperBounds[k]
      {
        if upperBounds[i] != histogram.upperBounds[i] {
          assert upperBounds[..][i] != histogram.upperBounds[..][i];
          return false;
        }
      }
      return true;
    }

    method Clear()
      requires Valid()
      modifies this, counts
      ensures Valid() && observations == []
    {
      maxValue := 0;
      minValue := MAX_LONG;
      for i := 0 to counts.Length
        invariant forall k :: 0 <= k < i ==> counts[k] == 0
        invariant minValue == MAX_LONG && maxValue == 0
      {
        counts[i] := 0;
      }
      observations := [];
      assert counts[..] == Tallies(upperBounds[..], []);
    }

    method Count() returns (count: int)
      requires Valid()
      ensures count == |observations| == SumOf(counts[..])
    {
      count := 0;
      for i := 0 to counts.Length
        invariant count == SumOf(counts[..i])
      {
        SumStep(counts[..], i);
        assert counts[..][..i] == counts[..i] && counts[..][..i + 1] == counts[..i + 1];
        count := count + counts[i];
      }
      assert counts[..counts.Length] == counts[..];
      CountsConserve(upperBounds[..], observations);
    }

    /** The mean of no observation is 0. Any other is, to the nearest hundredth, the sum of the mid points of
        the bins, each times its counter, over the number of observations: MeanIsClose relates it to the true
        mean, MidPointIsMiddle and ClippedExactly say what a mid point is. */
    method Mean() returns (mean: real)
      requires Valid()
      ensures mean == MeanOf(upperBounds[..], counts[..], minValue, maxValue)
      ensures observations == [] ==> mean == 0.0
      ensures observations != [] ==>
        NearestCent(mean, MidTotal(upperBounds[..], counts[..], minValue, maxValue, upperBounds.Length) as real
                          / |observations| as real)
    {
      var count := Count();
      if count == 0 { return 0.0; }
      BinsAreOk(upperBounds[..], counts[..], minValue, maxValue, observations);
      var total := SumOfMidPoints();
      RoundsToCent(total as real / count as real);
      return RoundToCents(total as real / count as real);
    }

    method SumOfMidPoints() returns (total: int)
      requires upperBounds.Length == counts.Length && BinsOk(upperBounds[..], counts[..], minValue, maxValue)
      ensures total == MidTotal(upperBounds[..], counts[..], minValue, maxValue, upperBounds.Length)
    {
      if counts.Length == 0 { return 0; }
      var lowerBound := if counts[0] > 0 then minValue else 0;
      total := 0;
      for i := 0 to upperBounds.Length
        invariant total == MidTotal(upperBounds[..], counts[..], minValue, maxValue, i)
        invariant i < upperBounds.Length && counts[i] > 0 ==> lowerBound == Lower(upperBounds[..], minValue, i)
      {
        assert BinOk(upperBounds[..], counts[..], minValue, maxValue, i);
        if counts[i] != 0 {
          var upperBound := Smaller(upperBounds[i], maxValue);
          var midPoint := lowerBound + Halved(upperBound - lowerBound);
          total := total + midPoint * counts[i];
        }
        lowerBound := Larger(upperBounds[i] + 1, minValue);
      }
    }

    /** The factor must lie strictly between 0 and 1. With k the integer nearest to that share of the
        observations, the even one of two, the answer is the least bound with more than k of them at or
        below it; if k is all of them, the least with all of them, the highest non-empty one. Without
        observations it is 0. */
    method GetUpperBoundForFactor(factor: real) returns (bound: Result<int>)
      requires Valid()
      ensures bound.Throws? <==> factor <= 0.0 || factor >= 1.0
      ensures bound.Ok? && observations == [] ==> bound.value == 0
      ensures bound.Ok? && observations != [] ==> forall k :: IsShare(k, |observations|, factor) ==>
        IsLeastBound(upperBounds[..], observations, Smaller(k + 1, |observations|), bound.value)
    {
      if factor <= 0.0 || factor >= 1.0 { return Throws; }
      var totalCount := Count();
      var k := Share(totalCount, factor);
      var i := ScanFromTop(totalCount, totalCount - k);
      if i < 0 { return Ok(0); }
      LeastBoundAt(upperBounds[..], observations, Smaller(k + 1, totalCount), i);
      ShareIsUnique(k, totalCount, factor);
      return Ok(upperBounds[i]);
    }

    /** The highest non-empty bin from which on at least `tailTotal` observations lie, or -1. */
    method ScanFromTop(ghost totalCount: nat, tailTotal: int) returns (i: int)
      requires NonNegative(counts[..]) && totalCount == SumOf(counts[..]) && 0 <= tailTotal <= totalCount
      ensures -1 <= i < counts.Length && (i == -1 <==> totalCount == 0)
      ensures i >= 0 ==>
        SumOf(counts[..][..i]) < Smaller(totalCount - tailTotal + 1, totalCount) <= SumOf(counts[..][..i + 1])
    {
      var tailCount := 0;
      i := counts.Length - 1;
      assert counts[..][..counts.Length] == counts[..];
      while i >= 0
        invariant -1 <= i < counts.Length
        invariant tailCount == totalCount - SumOf(counts[..][..i + 1])
        invariant tailCount == 0 || 0 <= tailCount < tailTotal
      {
        SumStep(counts[..], i);
        assert counts[..][i] >= 0;
        if counts[i] != 0 {
          tailCount := tailCount + counts[i];
          if tailCount >= tailTotal {
            SumIsNonNegative(counts[..], i);
            return;
          }
        }
        i := i - 1;
      }
    }
  }

  /** C# division by two truncates towards zero. */
  function Halved(x: int): int {
    if x >= 0 then x / 2 else -(-x / 2)
  }

  lemma BinIs(bounds: seq<int>, value: int, bin: nat)
    requires BoundsOk(bounds) && bin <= |bounds|
    requires forall k :: 0 <= k < bin ==> bounds[k] < value
    requires bin < |bounds| ==> value <= bounds[bin]
    ensures Bin(bounds, value) == bin
  {
    BinIsFirst(bounds, value);
  }

  predicate NonNegative(values: seq<int>) {
    forall k :: 0 <= k < |values| ==> values[k] >= 0
  }

  lemma {:induction false} SumIsNonNegative(values: seq<int>, i: nat)
    requires NonNegative(values) && i <= |values|
    ensures SumOf(values[..i]) >= 0
  {
    if i > 0 {
      SumIsNonNegative(values, i - 1);
      SumStep(values, i - 1);
    }
  }

  lemma TalliesOfOneMore(bounds: seq<int>, observations: seq<int>, value: int)
    ensures Tallies(bounds, observations + [value]) == Bump(Tallies(bounds, observations), Bin(bounds, value))
  {
    assert (observations + [value])[..|observations|] == observations;
  }

  lemma RangeOfOneMore(observations: seq<int>, value: int)
    ensures value <= MAX_LONG ==> MinOf(observations + [value]) == Smaller(MinOf(observations), value)
    ensures MaxOf(observations + [value]) == Larger(MaxOf(observations), value)
  {
    assert (observations + [value])[..|observations|] == observations;
  }

  /** One accepted observation more, as the fields record it. */
  lemma OneMoreObservation(bounds: seq<int>, counts: seq<int>, min: int, max: int, observations: seq<int>, value: int)
    requires Represents(bounds, counts, min, max, observations) && Bin(bounds, value) < |bounds| == |counts|
    ensures var bin := Bin(bounds, value);
      Represents(bounds, counts[bin := counts[bin] + 1],
        Smaller(min, value), Larger(max, value), observations + [value])
  {
    TalliesOfOneMore(bounds, observations, value);
    RangeOfOneMore(observations, value);
    BinIsFirst(bounds, value);
    assert Accepted(bounds, observations + [value]);
  }

  ghost predicate BinOk(bounds: seq<int>, counts: seq<int>, min: int, max: int, bin: nat)
    requires bin < |bounds| == |counts|
  {
    counts[bin] >= 0 && (counts[bin] > 0 ==> Lower(bounds, min, bin) <= Upper(bounds, max, bin))
  }

  ghost predicate BinsOk(bounds: seq<int>, counts: seq<int>, min: int, max: int)
    requires |bounds| == |counts|
  {
    forall bin :: 0 <= bin < |bounds| ==> BinOk(bounds, counts, min, max, bin)
  }

  /** A bin with a positive counter has a proper clipped interval. */
  lemma BinsAreOk(bounds: seq<int>, counts: seq<int>, min: int, max: int, observations: seq<int>)
    requires Represents(bounds, counts, min, max, observations)
    ensures |bounds| == |counts| && BinsOk(bounds, counts, min, max)
  {
    forall bin | 0 <= bin < |bounds| ensures BinOk(bounds, counts, min, max, bin) {
      if counts[bin] > 0 {
        var k := Witness(bounds, observations, bin);
        ClippedAround(bounds, min, max, observations[k]);
      }
    }
  }

  lemma {:induction false} Witness(bounds: seq<int>, observations: seq<int>, bin: nat) returns (k: nat)
    requires bin < |bounds| && Tallies(bounds, observations)[bin] > 0
    ensures k < |observations| && Bin(bounds, observations[k]) == bin
  {
    k := |observations| - 1;
    if Bin(bounds, observations[k]) != bin {
      k := Witness(bounds, observations[..k], bin);
    }
  }

  /** When the tracked range of a merge is the range of all observations. */
  lemma MergeRange(bounds: seq<int>, a: seq<int>, b: seq<int>)
    requires Accepted(bounds, a) && Accepted(bounds, b) && forall k :: 0 <= k < |bounds| ==> bounds[k] <= MAX_LONG
    ensures var min := Smaller(Smaller(MinOf(a), MinOf(b)), MaxOf(b));
      var max := Larger(Larger(MaxOf(a), MinOf(b)), MaxOf(b));
      (min == MinOf(a + b) && max == MaxOf(a + b)) <==> b != [] || (MaxOf(a) == MAX_LONG && MinOf(a) <= 0)
    ensures Accepted(bounds, a + b)
  {
    MergeIsReplay(bounds, a, b);
    if b != [] {
      BinIsFirst(bounds, b[0]);
      assert Bin(bounds, b[0]) < |bounds| && MinOf(b) <= b[0] <= MaxOf(b);
    } else {
      MaxIsLong(bounds, a);
    }
    forall k | 0 <= k < |a + b| ensures Bin(bounds, (a + b)[k]) < |bounds| {
      assert (a + b)[k] == if k < |a| then a[k] else b[k - |a|];
    }
  }

  /** What the fields stand for after a merge. */
  lemma Merged(bounds: seq<int>, ca: seq<int>, minA: int, maxA: int, a: seq<int>,
               cb: seq<int>, minB: int, maxB: int, b: seq<int>, counts: seq<int>)
    requires Represents(bounds, ca, minA, maxA, a) && Represents(bounds, cb, minB, maxB, b)
    requires |counts| == |ca| == |cb| && forall k :: 0 <= k < |counts| ==> counts[k] == ca[k] + cb[k]
    ensures counts == Tallies(bounds, a + b)
    ensures Represents(bounds, counts, Smaller(Smaller(minA, minB), maxB), Larger(Larger(maxA, minB), maxB), a + b)
      <==> b != [] || (maxA == MAX_LONG && minA <= 0)
  {
    MergedCounters(bounds, ca, a, cb, b, counts);
    MergeRange(bounds, a, b);
  }

  lemma MergedCounters(bounds: seq<int>, ca: seq<int>, a: seq<int>, cb: seq<int>, b: seq<int>, counts: seq<int>)
    requires ca == Tallies(bounds, a) && cb == Tallies(bounds, b) && |counts| == |ca| == |cb|
    requires forall k :: 0 <= k < |counts| ==> counts[k] == ca[k] + cb[k]
    ensures counts == Tallies(bounds, a + b)
  {
    MergeIsReplay(bounds, a, b);
    assert |counts| == |Tallies(bounds, a + b)|;
  }

  lemma {:induction false} MaxIsLong(bounds: seq<int>, a: seq<int>)
    requires Accepted(bounds, a) && forall k :: 0 <= k < |bounds| ==> bounds[k] <= MAX_LONG
    ensures MaxOf(a) <= MAX_LONG
  {
    if a != [] {
      MaxIsLong(bounds, a[..|a| - 1]);
      assert Bin(bounds, a[|a| - 1]) < |bounds|;
      BinIsFirst(bounds, a[|a| - 1]);
    }
  }
}
