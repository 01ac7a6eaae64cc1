/** Slot arithmetic of the ring and of the pending array: src/Ozzy.Core/Disruptor/Util.cs,
    the masked indexers of RingBuffer.cs and MultiThreadedClaimStrategy.cs. */
module Slots {

  /** Position of a sequence in a cyclic array of the given size. */
  function Slot(sequence: int, size: nat): (slot: nat)
    requires size > 0
    ensures slot < size
  {
    sequence % size
  }

  /** Two different sequences that share a slot are at least one lap apart: a window of `size`
      consecutive sequences maps into the array without collisions. */
  lemma SlotsApart(x: int, y: int, size: nat)
    requires size > 0 && x < y && Slot(x, size) == Slot(y, size)
    ensures y - x >= size
  {
    var qx, qy := x / size, y / size;
    MulStrict(size, qx, qy, y - x);
  }

  lemma MulStrict(size: nat, qx: int, qy: int, d: int)
    requires d > 0 && d == size * qy - size * qx
    ensures d >= size
  {
    assert size * qy - size * qx == size * (qy - qx);
    if qy <= qx {
      MulMonotone(size, qy, qx);
    } else {
      MulMonotone(size, 1, qy - qx);
    }
  }

  lemma MulMonotone(size: nat, a: int, b: int)
    requires a <= b
    ensures size * a <= size * b
  {
    assert size * (b - a) >= 0;
  }

  lemma NextLapSharesSlot(x: int, size: nat)
    requires size > 0
    ensures Slot(x + size, size) == Slot(x, size)
  {
    assert x + size == size * (x / size + 1) + x % size;
    ModOfSum(size, x / size + 1, x % size);
  }

  lemma ModOfSum(size: nat, q: int, r: int)
    requires 0 <= r < size
    ensures (size * q + r) % size == r
  {
    var x := size * q + r;
    var p := x / size;
    assert x == size * p + x % size;
    if r < x % size {
      MulStrict(size, p, q, x % size - r);
    } else if x % size < r {
      MulStrict(size, q, p, r - x % size);
    }
  }

  // ---- The masked indexers -------------------------------------------------------------

  ghost function Pow2(k: nat): (p: nat)
    ensures p >= 1
  {
    if k == 0 then 1 else 2 * Pow2(k - 1)
  }

  /** Bitwise and of two non-negative integers, bit by bit. */
  function BitAnd(x: nat, y: nat): (z: nat)
    ensures z <= x && z <= y
  {
    if x == 0 || y == 0 then 0
    else 2 * BitAnd(x / 2, y / 2) + (if x % 2 == 1 && y % 2 == 1 then 1 else 0)
  }

  /** `(int)sequence & mask`: the cast keeps the low 32 bits, also of a negative sequence. */
  function MaskedIndex(sequence: int, mask: nat): (index: nat)
    ensures index <= mask
  {
    BitAnd(sequence % 0x1_0000_0000, mask)
  }

  lemma {:induction false} MaskOfPowerOfTwo(x: nat, k: nat)
    ensures BitAnd(x, Pow2(k) - 1) == x % Pow2(k)
  {
    if k == 0 || x == 0 {
    } else {
      var half := Pow2(k - 1);
      MaskOfPowerOfTwo(x / 2, k - 1);
      assert (2 * half - 1) / 2 == half - 1 && (2 * half - 1) % 2 == 1;
      assert x == 2 * (x / 2) + x % 2;
      DoubledMod(x, half);
    }
  }

  lemma DoubledMod(x: nat, half: nat)
    requires half > 0
    ensures x % (2 * half) == 2 * ((x / 2) % half) + x % 2
  {
    var q, r := (x / 2) / half, (x / 2) % half;
    assert x / 2 == half * q + r;
    assert 2 * (half * q) == (2 * half) * q;
    ModOfSum(2 * half, q, 2 * r + x % 2);
  }

  lemma {:induction false} Pow2Sum(a: nat, b: nat)
    ensures Pow2(a + b) == Pow2(a) * Pow2(b)
  {
    if a > 0 { Pow2Sum(a - 1, b); }
  }

  lemma ModOfMod(x: int, a: nat, b: nat)
    requires a > 0 && b > 0
    ensures a * b > 0 && (x % (a * b)) % a == x % a
  {
    assert a * b > 0;
    var q, r := x / (a * b), x % (a * b);
    assert x == (a * b) * q + r;
    assert (a * b) * q == a * (b * q);
    assert r == a * (r / a) + r % a;
    assert x == a * (b * q + r / a) + r % a by { assert a * (b * q + r / a) == a * (b * q) + a * (r / a); }
    ModOfSum(a, b * q + r / a, r % a);
  }

  /** The masked indexer of a power-of-two array is the sequence modulo the array's size, for
      every 64-bit sequence, negative ones included. */
  lemma MaskIsSlot(sequence: int, size: nat, k: nat)
    requires k <= 31 && size == Pow2(k)
    ensures MaskedIndex(sequence, size - 1) == Slot(sequence, size)
  {
    MaskOfPowerOfTwo(sequence % 0x1_0000_0000, k);
    Pow2Sum(k, 32 - k);
    assert Pow2(32) == 0x1_0000_0000 by { Pow2Of32(); }
    ModOfMod(sequence, Pow2(k), Pow2(32 - k));
  }

  lemma Pow2Of32()
    ensures Pow2(32) == 0x1_0000_0000
  {
    Pow2Sum(2, 2); Pow2Sum(4, 4); Pow2Sum(8, 8); Pow2Sum(16, 16);
  }

  /** Util.IsPowerOf2. */
  predicate IsPowerOf2(x: int) {
    x > 0 && BitAnd(x, x - 1) == 0
  }

  /** The bit trick accepts exactly the powers of two. */
  lemma IsPowerOf2Exact(x: int)
    ensures IsPowerOf2(x) <==> exists k: nat :: x == Pow2(k)
  {
    if IsPowerOf2(x) {
      var k := ExponentOf(x);
    }
    forall k: nat | x == Pow2(k) ensures IsPowerOf2(x) {
      Pow2IsPowerOf2(k);
    }
  }

  lemma ClearLowestBitOfEven(half: nat)
    requires half > 0
    ensures BitAnd(2 * half, 2 * half - 1) == 2 * BitAnd(half, half - 1)
  {
    assert (2 * half) / 2 == half && (2 * half) % 2 == 0;
    assert (2 * half - 1) / 2 == half - 1;
  }

  lemma {:induction false} Pow2IsPowerOf2(k: nat)
    ensures IsPowerOf2(Pow2(k))
  {
    if k > 0 {
      Pow2IsPowerOf2(k - 1);
      ClearLowestBitOfEven(Pow2(k - 1));
    }
  }

  lemma {:induction false} ExponentOf(x: int) returns (k: nat)
    requires IsPowerOf2(x)
    ensures x == Pow2(k)
    decreases x
  {
    if x == 1 { return 0; }
    BitAndSelf(x / 2);
    if x % 2 == 0 {
      ClearLowestBitOfEven(x / 2);
      var half := ExponentOf(x / 2);
      k := half + 1;
    }
  }

  lemma {:induction false} BitAndSelf(x: nat)
    ensures BitAnd(x, x) == x
  {
    if x > 0 { BitAndSelf(x / 2); }
  }

  /** Util.CeilingNextPowerOfTwo. It promises the next power of two from `x` inclusive; because the
      doubling starts at 2 it keeps that promise exactly when `x` is above 1, so a buffer of one
      slot is refused by the ring buffer although one is a power of two. */
  method CeilingNextPowerOfTwo(x: int) returns (result: nat)
    requires x <= 0x4000_0000
    ensures exists k: nat :: result == Pow2(k)
    ensures result >= 2 && result >= x
    ensures (forall k: nat :: Pow2(k) >= x ==> result <= Pow2(k)) <==> x > 1
    ensures x > 1 ==> (result == x <==> exists k: nat :: x == Pow2(k))
  {
    result := 2;
    ghost var n: nat := 1;
    while result < x
      invariant n >= 1 && result == Pow2(n)
      invariant result > 2 ==> result < 2 * x
      decreases x - result
    {
      result := 2 * result;
      n := n + 1;
    }
    assert result == Pow2(n);
    if x > 1 {
      assert Pow2(n - 1) < x;
      forall k: nat | Pow2(k) >= x ensures result <= Pow2(k) {
        if k < n { Pow2Monotone(k, n - 1); } else { Pow2Monotone(n, k); }
      }
    } else {
      assert Pow2(0) >= x && result > Pow2(0);
    }
  }

  lemma {:induction false} Pow2Monotone(a: nat, b: nat)
    requires a <= b
    ensures Pow2(a) <= Pow2(b)
  {
    if a < b { Pow2Monotone(a, b - 1); }
  }

  // ---- The minimum scan ----------------------------------------------------------------

  /** long.MaxValue, the answer for an empty array. */
  const MAX_LONG: int := 0x7FFF_FFFF_FFFF_FFFF

  predicate LowerBound(m: int, values: seq<int>) {
    forall i :: 0 <= i < |values| ==> m <= values[i]
  }

  /** The least of long.MaxValue and the values: what one undisturbed scan returns. */
  function MinOf(values: seq<int>): (m: int)
    ensures LowerBound(m, values)
    ensures m <= MAX_LONG && (m == MAX_LONG || m in values)
  {
    if values == [] then MAX_LONG
    else
      var rest := MinOf(values[..|values| - 1]);
      var last := values[|values| - 1];
      assert values == values[..|values| - 1] + [last];
      if rest < last then rest else last
  }

  /** Util.GetMinimumSequence over an array nobody writes during the scan. */
  method GetMinimumSequence(sequences: array<int>) returns (min: int)
    ensures min == MinOf(sequences[..])
  {
    if sequences.Length == 0 { return MAX_LONG; }
    min := MAX_LONG;
    for i := 0 to sequences.Length
      invariant min == MinOf(sequences[..i])
    {
      var sequence := sequences[i];
      assert sequences[..i + 1][..i] == sequences[..i];
      min := if min < sequence then min else sequence;
    }
    assert sequences[..sequences.Length] == sequences[..];
  }

  /** Where a least value stands. */
  function IndexOfLeast(values: seq<int>): (least: nat)
    requires |values| > 0
    ensures least < |values| && LowerBound(values[least], values)
  {
    if |values| == 1 then 0
    else
      var last := |values| - 1;
      var rest := IndexOfLeast(values[..last]);
      assert forall i :: 0 <= i < last ==> values[..last][i] == values[i];
      if values[rest] < values[last] then rest else last
  }

  /** A scan that others may disturb reads one value per step: `index` are done, `min` so far. */
  datatype Scan = Scan(index: nat, min: int) {
    function Read(value: int): Scan {
      Scan(index + 1, if min < value then min else value)
    }
  }

  const FRESH_SCAN := Scan(0, MAX_LONG)
}
