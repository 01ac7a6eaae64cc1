/** The claim strategies run by one caller at a time, on real arrays: MultiThreadedClaimStrategy.cs,
    MultiThreadedLowContentionClaimStrategy.cs and the capacity test of
    AbstractMultiThreadedClaimStrategy.cs. */
module ClaimStrategy {
  import opened Slots
  import PublishProtocol

  /** End of the longest contiguous run of `published` that starts right above `start`. */
  ghost function RunEnd(start: int, published: set<int>): (end: int)
    ensures start <= end
    ensures forall x :: start < x <= end ==> x in published
    ensures end + 1 !in published
    decreases set x | x in published && x > start
  {
    if start + 1 in published then
      assert (set x | x in published && x > start) == (set x | x in published && x > start + 1) + {start + 1};
      RunEnd(start + 1, published)
    else start
  }

  /** The three promises of RunEnd determine it. */
  lemma RunEndUnique(start: int, published: set<int>, end: int)
    requires start <= end && (forall x :: start < x <= end ==> x in published) && end + 1 !in published
    ensures end == RunEnd(start, published)
  {
    var e := RunEnd(start, published);
    assert e + 1 !in published && end + 1 !in published;
  }

  lemma RunEndGrows(start: int, published: set<int>, more: set<int>)
    requires published <= more
    ensures RunEnd(start, published) <= RunEnd(start, more)
  {
    var e, f := RunEnd(start, published), RunEnd(start, more);
    assert f + 1 !in published;
  }

  /** A published number right above a covered prefix is covered too. */
  lemma RunEndCovers(start: int, published: set<int>, end: int, n: int)
    requires end == RunEnd(start, published) && (n in published || n <= end) && n <= end + 1
    ensures n <= end
  {
  }

  class Sequence {
    var value: int
    constructor (initial: int)
      ensures value == initial
    {
      value := initial;
    }
  }

  /** The entries in the window above the cursor show which of its sequences were written. The slot
      of cursor + 1 is left out: it is read only after the cursor has moved, so the zeros of a fresh
      array never count as a publication of sequence 0. */
  ghost predicate Shows(entries: seq<int>, cursor: int, written: set<int>) {
    && |entries| > 0
    && (forall k :: 0 <= k < |entries| ==> entries[k] <= cursor + |entries|)
    && (forall x :: cursor + 1 < x <= cursor + |entries| ==> (x in written <==> entries[Slot(x, |entries|)] == x))
  }

  /** Array and cursor represent the set of published sequences. */
  ghost predicate Represents(entries: seq<int>, cursor: int, start: int, published: set<int>) {
    && start >= -1 && cursor == RunEnd(start, published)
    && Shows(entries, cursor, published)
    && (forall x :: x in published ==> start < x <= cursor + |entries|)
  }

  lemma FreshRepresents(entries: seq<int>, start: int)
    requires |entries| > 0 && start >= -1 && forall k :: 0 <= k < |entries| ==> entries[k] == 0
    ensures Represents(entries, start, start, {})
  {
  }

  /** Writing an entry of the window shows exactly one sequence more. */
  lemma WriteAbove(entries: seq<int>, cursor: int, written: set<int>, x: int)
    requires Shows(entries, cursor, written) && cursor < x <= cursor + |entries|
    ensures Shows(entries[Slot(x, |entries|) := x], cursor, written + {x})
  {
    forall y | cursor + 1 < y <= cursor + |entries| && y != x
      ensures Slot(y, |entries|) != Slot(x, |entries|)
    {
      if Slot(y, |entries|) == Slot(x, |entries|) {
        if x < y { SlotsApart(x, y, |entries|); } else { SlotsApart(y, x, |entries|); }
      }
    }
  }

  /** Writing a covered sequence again hides what stands in its slot for a later lap. */
  lemma WriteBelow(entries: seq<int>, cursor: int, written: set<int>, left: set<int>, x: int)
    requires Shows(entries, cursor, written) && x <= cursor
    requires forall y :: y > cursor ==> (y in left <==> y in written && Slot(y, |entries|) != Slot(x, |entries|))
    ensures Shows(entries[Slot(x, |entries|) := x], cursor, left)
  {
  }

  /** No sequence of lo..hi at or below the cursor shares its slot with y. */
  ghost predicate Survives(y: int, cursor: int, lo: int, hi: int, size: nat)
    requires size > 0
  {
    forall x :: lo <= x <= hi && x <= cursor ==> Slot(x, size) != Slot(y, size)
  }

  /** The published sequences of which a call for lo..hi leaves a trace, with its own. */
  ghost function AfterCall(published: set<int>, cursor: int, lo: int, hi: int, size: nat): set<int>
    requires size > 0
  {
    (set y | y in published && (y <= cursor || Survives(y, cursor, lo, hi, size))) + PublishProtocol.Range(lo, hi)
  }

  /** Nothing above the batch is erased. A batch that begins above the cursor never erases anything. */
  ghost predicate Harmless(published: set<int>, cursor: int, lo: int, hi: int, size: nat)
    requires size > 0
  {
    forall y :: y in published && y > cursor && y > hi ==> Survives(y, cursor, lo, hi, size)
  }

  lemma HarmlessExactly(published: set<int>, cursor: int, lo: int, hi: int, size: nat)
    requires size > 0
    ensures Harmless(published, cursor, lo, hi, size) <==>
      AfterCall(published, cursor, lo, hi, size) == published + PublishProtocol.Range(lo, hi)
    ensures lo > cursor ==> Harmless(published, cursor, lo, hi, size)
  {
    var after, all := AfterCall(published, cursor, lo, hi, size), published + PublishProtocol.Range(lo, hi);
    if Harmless(published, cursor, lo, hi, size) {
      forall y ensures y in after <==> y in all {
        if y in published && y > cursor && y > hi { assert Survives(y, cursor, lo, hi, size); }
        if y in published && cursor < y && y < lo { NothingBelowBatch(y, cursor, lo, hi, size); }
      }
    } else {
      var y :| y in published && y > cursor && y > hi && !Survives(y, cursor, lo, hi, size);
      assert y in all && y !in after;
    }
  }

  lemma NothingBelowBatch(y: int, cursor: int, lo: int, hi: int, size: nat)
    requires size > 0 && cursor < lo
    ensures Survives(y, cursor, lo, hi, size)
  {
  }

  /** Before the first write of a batch. */
  lemma NothingWritten(published: set<int>, cursor: int, lo: int, size: nat)
    requires size > 0
    ensures AfterCall(published, cursor, lo, lo - 1, size) == published
  {
  }

  /** Moving the cursor up within the window keeps what the entries show. */
  lemma ShowsAfterMove(entries: seq<int>, cursor: int, written: set<int>, moved: int)
    requires Shows(entries, cursor, written) && cursor <= moved
    requires forall x :: x in written ==> x <= cursor + |entries|
    ensures Shows(entries, moved, written)
  {
  }

  /** What a call means for the set of published sequences that the array still shows. */
  lemma CallAbove(start: int, cursor: int, published: set<int>, first: int, last: int, size: nat)
    requires size > 0 && cursor == RunEnd(start, published) && start <= first < last && cursor < last <= cursor + size
    requires forall x :: x in published ==> start < x <= cursor + size
    ensures var after := AfterCall(published, cursor, first + 1, last, size);
      && PublishProtocol.Max(first, cursor) + 1 in after
      && (forall x :: start < x <= cursor ==> x in after)
      && (forall x :: x in after ==> start < x <= cursor + size)
      && (cursor < first ==> cursor + 1 !in after)
  {
  }

  /** A call for covered sequences leaves the cursor alone. */
  lemma CallCovered(entries: seq<int>, start: int, cursor: int, published: set<int>, lo: int, hi: int)
    requires |entries| > 0 && start >= -1 && cursor == RunEnd(start, published) && start < lo && hi <= cursor
    requires forall x :: x in published ==> start < x <= cursor + |entries|
    requires Shows(entries, cursor, AfterCall(published, cursor, lo, hi, |entries|))
    ensures Represents(entries, cursor, start, AfterCall(published, cursor, lo, hi, |entries|))
  {
    RunEndUnique(start, AfterCall(published, cursor, lo, hi, |entries|), cursor);
  }

  /** The result represents the published sequences with the batch exactly if the call was harmless. */
  lemma CallExactly(entries: seq<int>, moved: int, start: int, cursor: int, published: set<int>, lo: int, hi: int)
    requires |entries| > 0 && start < lo && hi <= cursor + |entries| && cursor <= moved
    requires forall x :: x in published ==> start < x <= cursor + |entries|
    requires Represents(entries, moved, start, AfterCall(published, cursor, lo, hi, |entries|))
    ensures Represents(entries, moved, start, published + PublishProtocol.Range(lo, hi))
      <==> Harmless(published, cursor, lo, hi, |entries|)
  {
    HarmlessExactly(published, cursor, lo, hi, |entries|);
  }

  class MultiThreadedClaimStrategy {
    const pendingPublication: array<int>

    /** The strategy and the cursor stand for the published sequences. */
    ghost predicate Stands(cursor: Sequence, start: int, published: set<int>)
      reads cursor, pendingPublication
    {
      Represents(pendingPublication[..], cursor.value, start, published)
    }

    /** A pending size that is not a power of two is refused. */
    static method Create(pendingBufferSize: int) returns (strategy: MultiThreadedClaimStrategy?)
      ensures strategy != null <==> IsPowerOf2(pendingBufferSize)
      ensures strategy != null ==>
        && fresh(strategy) && fresh(strategy.pendingPublication)
        && strategy.pendingPublication.Length == pendingBufferSize
        && forall start :: start >= -1 ==> Represents(strategy.pendingPublication[..], start, start, {})
    {
      if !IsPowerOf2(pendingBufferSize) { return null; }
      strategy := new MultiThreadedClaimStrategy(pendingBufferSize);
      forall start | start >= -1 ensures Represents(strategy.pendingPublication[..], start, start, {}) {
        FreshRepresents(strategy.pendingPublication[..], start);
      }
    }

    constructor (pendingBufferSize: nat)
      requires pendingBufferSize > 0
      ensures fresh(pendingPublication) && pendingPublication.Length == pendingBufferSize
      ensures forall k :: 0 <= k < pendingBufferSize ==> pendingPublication[k] == 0
    {
      pendingPublication := new int[pendingBufferSize](_ => 0);
    }

    /** A lone caller publishes any batch of sequences above the start that reaches at most to the end of
        the pending window; beyond it it would spin for ever. Afterwards array and cursor represent the
        published sequences with the batch, exactly if the call is harmless: a sequence that the cursor
        has covered already is written all the same, and may erase one of the next lap. */
    method SerialisePublishing(sequence: int, cursor: Sequence, batchSize: int,
                               ghost start: int, ghost published: set<int>)
      requires batchSize >= 1 && start <= sequence - batchSize && sequence - cursor.value <= pendingPublication.Length
      requires Stands(cursor, start, published)
      modifies cursor, pendingPublication
      ensures cursor.value >= old(cursor.value) && pendingPublication.Length > 0
      ensures Stands(cursor, start,
        AfterCall(published, old(cursor.value), sequence - batchSize + 1, sequence, pendingPublication.Length))
      ensures Stands(cursor, start, published + PublishProtocol.Range(sequence - batchSize + 1, sequence))
        <==> Harmless(published, old(cursor.value), sequence - batchSize + 1, sequence, pendingPublication.Length)
    {
      ghost var c := cursor.value;
      WriteEntries(sequence, batchSize, cursor.value, published);
      MoveIfBehind(sequence, cursor, batchSize, start, published);
      CallExactly(pendingPublication[..], cursor.value, start, c, published, sequence - batchSize + 1, sequence);
    }

    /** The second half, after the writes. */
    method MoveIfBehind(sequence: int, cursor: Sequence, batchSize: int, ghost start: int, ghost published: set<int>)
      requires batchSize >= 1 && -1 <= start <= sequence - batchSize
      requires pendingPublication.Length > 0 && sequence - cursor.value <= pendingPublication.Length
      requires cursor.value == RunEnd(start, published)
      requires forall x :: x in published ==> start < x <= cursor.value + pendingPublication.Length
      requires Shows(pendingPublication[..], cursor.value,
        AfterCall(published, cursor.value, sequence - batchSize + 1, sequence, pendingPublication.Length))
      modifies cursor
      ensures cursor.value >= old(cursor.value)
      ensures Stands(cursor, start,
        AfterCall(published, old(cursor.value), sequence - batchSize + 1, sequence, pendingPublication.Length))
    {
      ghost var after :=
          AfterCall(published, cursor.value, sequence - batchSize + 1, sequence, pendingPublication.Length);
      var cursorSequence := cursor.value;
      if cursorSequence >= sequence {
        CallCovered(pendingPublication[..], start, cursor.value, published, sequence - batchSize + 1, sequence);
        return;
      }
      CallAbove(start, cursor.value, published, sequence - batchSize, sequence, pendingPublication.Length);
      MoveCursor(PublishProtocol.Max(sequence - batchSize, cursorSequence), cursor, start, after);
    }

    method WriteEntries(sequence: int, batchSize: int, ghost cursor: int, ghost published: set<int>)
      requires batchSize >= 1 && sequence - cursor <= pendingPublication.Length
      requires Shows(pendingPublication[..], cursor, published)
      modifies pendingPublication
      ensures pendingPublication.Length > 0
      ensures Shows(pendingPublication[..], cursor,
        AfterCall(published, cursor, sequence - batchSize + 1, sequence, pendingPublication.Length))
    {
      WriteEachOnce(sequence - batchSize + 1, sequence, cursor, published);
      Write(sequence, cursor, sequence - batchSize + 1, sequence, published);
    }

    method WriteEachOnce(lo: int, sequence: int, ghost cursor: int, ghost published: set<int>)
      requires lo <= sequence && sequence - cursor <= pendingPublication.Length
      requires Shows(pendingPublication[..], cursor, published)
      modifies pendingPublication
      ensures pendingPublication.Length > 0
      ensures Shows(pendingPublication[..], cursor,
        AfterCall(published, cursor, lo, sequence, pendingPublication.Length))
    {
      NothingWritten(published, cursor, lo, pendingPublication.Length);
      var pendingSequence := lo;
      while pendingSequence <= sequence
        invariant lo <= pendingSequence <= sequence + 1
        invariant Shows(pendingPublication[..], cursor,
          AfterCall(published, cursor, lo, pendingSequence - 1, pendingPublication.Length))
      {
        Write(pendingSequence, cursor, lo, pendingSequence - 1, published);
        pendingSequence := pendingSequence + 1;
      }
    }

    /** One entry; `done` is the last sequence of the batch written so far. */
    method Write(x: int, ghost cursor: int, ghost lo: int, ghost done: int, ghost published: set<int>)
      requires pendingPublication.Length > 0 && lo <= x <= cursor + pendingPublication.Length
      requires (x == done || x == done + 1)
      requires Shows(pendingPublication[..], cursor, AfterCall(published, cursor, lo, done, pendingPublication.Length))
      modifies pendingPublication
      ensures Shows(pendingPublication[..], cursor, AfterCall(published, cursor, lo, x, pendingPublication.Length))
    {
      ghost var before, size := pendingPublication[..], pendingPublication.Length;
      ghost var written, after :=
          AfterCall(published, cursor, lo, done, size), AfterCall(published, cursor, lo, x, size);
      if x > cursor { WriteAbove(before, cursor, written, x); } else { WriteBelow(before, cursor, written, after, x); }
      pendingPublication[Slot(x, pendingPublication.Length)] := x;
      assert pendingPublication[..] == before[Slot(x, size) := x];
    }

    /** The compare-and-set loop. With one caller the first attempt fails exactly when the published
        batch does not touch the cursor. */
    method MoveCursor(expected: int, cursor: Sequence, ghost start: int, ghost written: set<int>)
      requires start >= -1 && start <= cursor.value <= expected && expected + 1 in written
      requires Shows(pendingPublication[..], cursor.value, written)
      requires forall x :: start < x <= cursor.value ==> x in written
      requires forall x :: x in written ==> start < x <= cursor.value + pendingPublication.Length
      requires cursor.value < expected ==> cursor.value + 1 !in written
      modifies cursor
      ensures Represents(pendingPublication[..], cursor.value, start, written) && cursor.value >= old(cursor.value)
    {
      var size := pendingPublication.Length;
      ghost var c := cursor.value;
      var expectedSequence := expected;
      var nextSequence := expected + 1;
      var moved := cursor.value == expectedSequence;
      if moved { cursor.value := nextSequence; }
      while moved
        invariant c <= cursor.value <= c + size
        invariant forall x :: start < x <= cursor.value ==> x in written
        invariant moved ==> c < cursor.value == nextSequence
        invariant !moved ==> cursor.value + 1 !in written
        decreases c + size - cursor.value, moved
      {
        expectedSequence := nextSequence;
        nextSequence := nextSequence + 1;
        assert pendingPublication[Slot(nextSequence, size)] == pendingPublication[..][Slot(nextSequence, size)];
        if pendingPublication[Slot(nextSequence, size)] != nextSequence {
          moved := false;
        } else {
          moved := cursor.value == expectedSequence;
          if moved { cursor.value := nextSequence; }
        }
      }
      RunEndUnique(start, written, cursor.value);
      ShowsAfterMove(pendingPublication[..], c, written, cursor.value);
    }
  }

  class LowContentionClaimStrategy {
    constructor () {}

    /** A lone caller that is not next in line would spin for ever. The cursor ends where the other
        strategy's cursor ends for the same publications. */
    method SerialisePublishing(sequence: int, cursor: Sequence, batchSize: int,
                               ghost start: int, ghost published: set<int>)
      requires batchSize >= 0 && sequence - batchSize == cursor.value
      requires cursor.value == RunEnd(start, published) && forall x :: x in published ==> x <= cursor.value
      modifies cursor
      ensures var after := published + PublishProtocol.Range(sequence - batchSize + 1, sequence);
        cursor.value == RunEnd(start, after) == sequence && forall x :: x in after ==> x <= cursor.value
    {
      cursor.value := sequence;
      RunEndUnique(start, published + PublishProtocol.Range(sequence - batchSize + 1, sequence), sequence);
    }
  }

  // ---- Lists of publish calls ----------------------------------------------------------

  datatype Call = Call(sequence: int, batchSize: int)

  ghost function Union(calls: seq<Call>): set<int> {
    if calls == [] then {} else
      var last := calls[|calls| - 1];
      Union(calls[..|calls| - 1]) + PublishProtocol.Range(last.sequence - last.batchSize + 1, last.sequence)
  }

  lemma {:induction false} UnionMember(calls: seq<Call>, x: int)
    ensures x in Union(calls) <==> exists c :: c in calls && c.sequence - c.batchSize < x <= c.sequence
  {
    if calls != [] {
      UnionMember(calls[..|calls| - 1], x);
      var last := calls[|calls| - 1];
      assert calls == calls[..|calls| - 1] + [last];
    }
  }

  /** The order of the calls, and calls repeated, do not matter: the cursor depends on the set of
      published ranges only. */
  lemma OrderAndRepetitionIrrelevant(start: int, first: seq<Call>, second: seq<Call>)
    requires forall c :: c in first <==> c in second
    ensures RunEnd(start, Union(first)) == RunEnd(start, Union(second))
  {
    forall x ensures x in Union(first) <==> x in Union(second) {
      UnionMember(first, x);
      UnionMember(second, x);
    }
    assert Union(first) == Union(second);
  }

  /** A call above the start that fits the window it finds and erases nothing. Repeating a call fits as
      long as no later lap has taken its slots. */
  ghost predicate Fits(start: int, published: set<int>, size: nat, call: Call) {
    && call.batchSize >= 1 && start <= call.sequence - call.batchSize && size > 0
    && call.sequence - RunEnd(start, published) <= size
    && Harmless(published, RunEnd(start, published), call.sequence - call.batchSize + 1, call.sequence, size)
  }

  /** Each call fits at its turn. */
  ghost predicate Admissible(start: int, size: nat, calls: seq<Call>) {
    forall i :: 0 <= i < |calls| ==> Fits(start, Union(calls[..i]), size, calls[i])
  }

  lemma UnionStep(calls: seq<Call>, i: nat)
    requires i < |calls|
    ensures Union(calls[..i + 1])
      == Union(calls[..i]) + PublishProtocol.Range(calls[i].sequence - calls[i].batchSize + 1, calls[i].sequence)
  {
    assert calls[..i + 1][..i] == calls[..i];
  }

  method PublishFitting(strategy: MultiThreadedClaimStrategy, cursor: Sequence, call: Call,
                        ghost start: int, ghost published: set<int>)
    requires Fits(start, published, strategy.pendingPublication.Length, call)
    requires strategy.Stands(cursor, start, published)
    modifies cursor, strategy.pendingPublication
    ensures strategy.Stands(cursor, start,
      published + PublishProtocol.Range(call.sequence - call.batchSize + 1, call.sequence))
  {
    strategy.SerialisePublishing(call.sequence, cursor, call.batchSize, start, published);
  }

  /** The i-th call of an admissible history. */
  method PublishCall(strategy: MultiThreadedClaimStrategy, cursor: Sequence, calls: seq<Call>, i: nat, ghost start: int)
    requires i < |calls| && Fits(start, Union(calls[..i]), strategy.pendingPublication.Length, calls[i])
    requires strategy.Stands(cursor, start, Union(calls[..i]))
    modifies cursor, strategy.pendingPublication
    ensures strategy.Stands(cursor, start, Union(calls[..i + 1]))
  {
    UnionStep(calls, i);
    PublishFitting(strategy, cursor, calls[i], start, Union(calls[..i]));
  }

  /** A whole history of publications ends at the end of the contiguous run of all of them. */
  method PublishAll(strategy: MultiThreadedClaimStrategy, cursor: Sequence, calls: seq<Call>)
    requires strategy.Stands(cursor, cursor.value, {})
    requires Admissible(cursor.value, strategy.pendingPublication.Length, calls)
    modifies cursor, strategy.pendingPublication
    ensures cursor.value == RunEnd(old(cursor.value), Union(calls))
  {
    ghost var start := cursor.value;
    for i := 0 to |calls|
      invariant strategy.Stands(cursor, start, Union(calls[..i]))
    {
      assert Fits(start, Union(calls[..i]), strategy.pendingPublication.Length, calls[i]);
      PublishCall(strategy, cursor, calls, i, start);
    }
    assert calls[..|calls|] == calls;
  }

  /** The same calls in another order, and repeated, bring two strategies to the same cursor, whatever
      the sizes of their pending arrays. */
  method TwoHistories(a: MultiThreadedClaimStrategy, ca: Sequence, first: seq<Call>,
                      b: MultiThreadedClaimStrategy, cb: Sequence, second: seq<Call>)
    requires ca != cb && a.pendingPublication != b.pendingPublication && ca.value == cb.value
    requires a.Stands(ca, ca.value, {}) && b.Stands(cb, cb.value, {})
    requires Admissible(ca.value, a.pendingPublication.Length, first)
    requires Admissible(cb.value, b.pendingPublication.Length, second)
    requires forall call :: call in first <==> call in second
    modifies ca, cb, a.pendingPublication, b.pendingPublication
    ensures ca.value == cb.value == RunEnd(old(ca.value), Union(first))
  {
    OrderAndRepetitionIrrelevant(ca.value, first, second);
    PublishAll(a, ca, first);
    PublishAll(b, cb, second);
  }

  // ---- Capacity ------------------------------------------------------------------------

  class CapacityTest {
    const bufferSize: nat
    var claimSequence: int
    /** The calling thread's cached minimum: never above a consumer, so possibly stale but safe. */
    var minGatingSequence: int

    constructor (bufferSize: nat)
      ensures this.bufferSize == bufferSize && claimSequence == -1 && minGatingSequence == -1
    {
      this.bufferSize := bufferSize;
      claimSequence, minGatingSequence := -1, -1;
    }

    /** The stale cache never changes the answer: it is exactly whether the slowest consumer has left
        room, and the cache stays a lower bound. */
    method HasAvailableCapacity(sequence: int, availableCapacity: int, dependents: array<int>) returns (available: bool)
      requires minGatingSequence <= MinOf(dependents[..])
      modifies this`minGatingSequence
      ensures available <==> sequence + availableCapacity - bufferSize <= MinOf(dependents[..])
      ensures old(minGatingSequence) <= minGatingSequence <= MinOf(dependents[..])
    {
      var wrapPoint := sequence + availableCapacity - bufferSize;
      if wrapPoint > minGatingSequence {
        var minSequence := GetMinimumSequence(dependents);
        minGatingSequence := minSequence;
        if wrapPoint > minSequence { return false; }
      }
      return true;
    }

    /** TryNext: claims `delta` sequences exactly when there is room, otherwise claims nothing (the
        original throws InsufficientCapacityException). */
    method CheckAndIncrement(availableCapacity: int, delta: int, dependents: array<int>)
      returns (claimed: bool, next: int)
      requires minGatingSequence <= MinOf(dependents[..])
      modifies this
      ensures claimed <==> old(claimSequence) + availableCapacity - bufferSize <= MinOf(dependents[..])
      ensures claimSequence == next == if claimed then old(claimSequence) + delta else old(claimSequence)
      ensures minGatingSequence <= MinOf(dependents[..])
      ensures claimed && delta <= availableCapacity ==>
        forall i :: 0 <= i < dependents.Length ==> next - bufferSize <= dependents[i]
    {
      next := claimSequence;
      claimed := HasAvailableCapacity(next, availableCapacity, dependents);
      if claimed {
        next := next + delta;
        claimSequence := next;
      }
      assert LowerBound(MinOf(dependents[..]), dependents[..]);
    }
  }
}
