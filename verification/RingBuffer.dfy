/** src/Ozzy.Core/Disruptor/RingBuffer.cs: the size check, the filling of the entries and the masked
    indexer. */
module RingBuffer {
  import opened Slots

  class RingBuffer<T(0)> {
    const entries: array<T>
    const indexMask: nat

    ghost predicate Valid() {
      IsPowerOf2(entries.Length) && entries.Length <= 0x4000_0000 && indexMask == entries.Length - 1
    }

    /** The constructor of the original, which throws unless the size equals its own ceiling. It
        accepts exactly the powers of two from 2 on. */
    static method Create(bufferSize: int, eventFactory: nat -> T) returns (ring: RingBuffer?<T>)
      requires bufferSize <= 0x4000_0000
      ensures ring != null <==> bufferSize > 1 && exists k: nat :: bufferSize == Pow2(k)
      ensures ring != null ==>
        && fresh(ring) && fresh(ring.entries) && ring.Valid() && ring.entries.Length == bufferSize
        && forall i :: 0 <= i < bufferSize ==> ring.entries[i] == eventFactory(i)
    {
      var ceiling := CeilingNextPowerOfTwo(bufferSize);
      if ceiling != bufferSize { return null; }
      IsPowerOf2Exact(bufferSize);
      ring := new RingBuffer(bufferSize, eventFactory);
    }

    constructor (bufferSize: nat, eventFactory: nat -> T)
      requires IsPowerOf2(bufferSize) && bufferSize <= 0x4000_0000
      ensures Valid() && fresh(entries) && entries.Length == bufferSize
      ensures forall i :: 0 <= i < bufferSize ==> entries[i] == eventFactory(i)
    {
      indexMask := bufferSize - 1;
      entries := new T[bufferSize];
      new;
      for i := 0 to entries.Length
        invariant forall k :: 0 <= k < i ==> entries[k] == eventFactory(k)
      {
        entries[i] := eventFactory(i);
      }
    }

    /** The indexer finds the entry of the sequence's slot. */
    method Get(sequence: int) returns (entry: T)
      requires Valid()
      ensures entry == entries[Slot(sequence, entries.Length)]
    {
      MaskOfRing(sequence, entries.Length);
      return entries[MaskedIndex(sequence, indexMask)];
    }
  }

  lemma MaskOfRing(sequence: int, size: nat)
    requires IsPowerOf2(size) && size <= 0x4000_0000
    ensures MaskedIndex(sequence, size - 1) == Slot(sequence, size)
  {
    var k := ExponentOf(size);
    if k > 31 {
      Pow2Of32();
      Pow2Monotone(32, k);
    }
    MaskIsSlot(sequence, size, k);
  }

  /** Two sequences meet in one entry exactly when whole laps lie between them, so no two sequences of
      a window as large as the ring do. */
  lemma SameEntryExactly(x: int, y: int, size: nat)
    requires IsPowerOf2(size) && size <= 0x4000_0000
    ensures MaskedIndex(x, size - 1) == MaskedIndex(y, size - 1) <==> (x - y) % size == 0
    ensures 0 < x - y < size ==> MaskedIndex(x, size - 1) != MaskedIndex(y, size - 1)
  {
    MaskOfRing(x, size);
    MaskOfRing(y, size);
    SameSlotExactly(x, y, size);
  }

  lemma SameSlotExactly(x: int, y: int, size: nat)
    requires size > 0
    ensures Slot(x, size) == Slot(y, size) <==> (x - y) % size == 0
    ensures 0 < x - y < size ==> Slot(x, size) != Slot(y, size)
  {
    if 0 < x - y && Slot(x, size) == Slot(y, size) { SlotsApart(y, x, size); }
    var p, q := x / size, y / size;
    var r, s := x - size * p, y - size * q;
    assert r == x % size && s == y % size;
    RemainderOfDifference(size, p, r, q, s);
  }

  lemma RemainderOfDifference(size: nat, p: int, r: int, q: int, s: int)
    requires 0 <= r < size && 0 <= s < size
    ensures (size * p + r - (size * q + s)) % size == 0 <==> r == s
  {
    assert size * (p - q) == size * p - size * q;
    if r >= s {
      ModOfSum(size, p - q, r - s);
    } else {
      assert size * (p - q - 1) == size * (p - q) - size;
      ModOfSum(size, p - q - 1, r - s + size);
    }
  }
}
