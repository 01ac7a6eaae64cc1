/** src/Ozzy.DomainModel/DomainEventsLoop.cs, one caller at a time: the gap filler and the way of a
    record into the ring. */
module DomainEventsLoop {
  import opened Slots
  import C = ClaimStrategy
  import P = PublishProtocol

  type Payload = int

  /** A stored domain event record, or the empty record that stands for a missing number. */
  datatype Entry = Stored(sequence: int, payload: Payload) | Empty(sequence: int)

  /** What belongs at number n. */
  function Truth(store: map<int, Payload>, n: int): Entry {
    if n in store then Stored(n, store[n]) else Empty(n)
  }

  /** What the reader returns: the first records above the checkpoint, sorted, at most `max`. */
  ghost predicate IsPage(store: map<int, Payload>, checkpoint: int, max: int, page: seq<Entry>) {
    |page| <= max && AllStored(store, page) && Ascending(checkpoint, page) && Complete(store, checkpoint, max, page)
  }

  ghost predicate AllStored(store: map<int, Payload>, page: seq<Entry>) {
    forall k :: 0 <= k < |page| ==> page[k].sequence in store && page[k] == Truth(store, page[k].sequence)
  }

  /** No stored record is left out, up to the last one of the page and, if the page is not full, at all. */
  ghost predicate Complete(store: map<int, Payload>, checkpoint: int, max: int, page: seq<Entry>) {
    && (page != [] ==> forall n :: n in store && checkpoint < n <= page[|page| - 1].sequence ==> Has(page, n))
    && (|page| < max ==> forall n :: n in store && checkpoint < n ==> Has(page, n))
  }

  ghost predicate Has(page: seq<Entry>, n: int) {
    exists k :: 0 <= k < |page| && page[k].sequence == n
  }

  ghost predicate Ascending(checkpoint: int, page: seq<Entry>) {
    && (forall k :: 0 <= k < |page| ==> checkpoint < page[k].sequence)
    && (forall a, b :: 0 <= a < b < |page| ==> page[a].sequence < page[b].sequence)
  }

  /** The numbers from checkpoint + 1 on, one entry each, with the stored records in their places. */
  ghost predicate Dense(store: map<int, Payload>, checkpoint: int, entries: seq<Entry>) {
    forall k :: 0 <= k < |entries| ==> entries[k] == Truth(store, checkpoint + 1 + k)
  }

  lemma {:induction false} AtLeast(checkpoint: int, page: seq<Entry>, k: nat)
    requires Ascending(checkpoint, page) && k < |page|
    ensures page[k].sequence >= checkpoint + 1 + k
  {
    if k > 0 { AtLeast(checkpoint, page, k - 1); }
  }

  lemma {:induction false} AtMost(checkpoint: int, page: seq<Entry>, k: nat)
    requires Ascending(checkpoint, page) && k < |page|
    ensures page[k].sequence <= page[|page| - 1].sequence - (|page| - 1 - k)
    decreases |page| - k
  {
    if k < |page| - 1 { AtMost(checkpoint, page, k + 1); }
  }

  lemma FullPageIsConsecutive(checkpoint: int, page: seq<Entry>)
    requires Ascending(checkpoint, page) && page != []
    requires page[|page| - 1].sequence - checkpoint == |page|
    ensures forall k :: 0 <= k < |page| ==> page[k].sequence == checkpoint + 1 + k
  {
    forall k | 0 <= k < |page| ensures page[k].sequence == checkpoint + 1 + k {
      AtLeast(checkpoint, page, k);
      AtMost(checkpoint, page, k);
    }
  }

  /** The count shortcut is a pigeonhole: as many records as numbers leave no gap. */
  lemma FullPageHasNoGaps(store: map<int, Payload>, checkpoint: int, page: seq<Entry>)
    requires AllStored(store, page) && Ascending(checkpoint, page) && page != []
    requires page[|page| - 1].sequence - checkpoint == |page|
    ensures Dense(store, checkpoint, page)
  {
    FullPageIsConsecutive(checkpoint, page);
  }

  /** A number between two neighbours of a page is not in the store. */
  lemma BetweenIsMissing(store: map<int, Payload>, checkpoint: int, max: int, page: seq<Entry>, j: nat, n: int)
    requires IsPage(store, checkpoint, max, page) && j < |page| && checkpoint < n < page[j].sequence
    requires j > 0 ==> page[j - 1].sequence < n
    ensures n !in store
  {
    forall k | 0 <= k < |page| ensures page[k].sequence != n {
      if k < j - 1 { assert page[k].sequence < page[j - 1].sequence; }
    }
    assert !Has(page, n);
  }

  /** GetEventsFromDurableStore after the read: exactly checkpoint + 1 .. last, records in place and
      empty records elsewhere, whichever branch produced it. */
  method FillGaps(ghost store: map<int, Payload>, checkpoint: int, ghost max: int, page: seq<Entry>)
    returns (result: seq<Entry>)
    requires IsPage(store, checkpoint, max, page)
    ensures Dense(store, checkpoint, result)
    ensures |result| == if page == [] then 0 else page[|page| - 1].sequence - checkpoint
  {
    if page == [] { return page; }
    var lastSeq := page[|page| - 1].sequence;
    var eventsCount := lastSeq - checkpoint;
    if eventsCount == |page| {
      FullPageHasNoGaps(store, checkpoint, page);
      return page;
    }
    result := [];
    var index := checkpoint + 1;
    for j := 0 to |page|
      invariant index == checkpoint + 1 + |result|
      invariant Dense(store, checkpoint, result)
      invariant index == if j == 0 then checkpoint + 1 else page[j - 1].sequence + 1
    {
      while page[j].sequence > index
        invariant index == checkpoint + 1 + |result|
        invariant Dense(store, checkpoint, result)
        invariant (if j == 0 then checkpoint + 1 else page[j - 1].sequence + 1) <= index <= page[j].sequence
        decreases page[j].sequence - index
      {
        BetweenIsMissing(store, checkpoint, max, page, j, index);
        result := result + [Empty(index)];
        index := index + 1;
      }
      result := result + [page[j]];
      index := index + 1;
    }
  }

  /** Consumers only move up. */
  ghost predicate MovedUp(before: seq<int>, after: seq<int>) {
    |after| == |before| && forall k :: 0 <= k < |before| ==> before[k] <= after[k]
  }

  /** What was published at number n and not yet passed by every consumer is in n's slot, and nothing is
      more than a lap above the slowest consumer. */
  ghost predicate Holds(ring: seq<Entry>, contents: map<int, Entry>, slowest: int) {
    |ring| > 0 &&
    forall n :: n in contents ==> n <= slowest + |ring| && (n > slowest ==> ring[Slot(n, |ring|)] == contents[n])
  }

  /** Writing a number with room, above the slowest consumer, overwrites nothing still to be read. */
  lemma WriteHolds(ring: seq<Entry>, contents: map<int, Entry>, slowest: int, message: Entry)
    requires Holds(ring, contents, slowest) && slowest < message.sequence <= slowest + |ring|
    ensures Holds(ring[Slot(message.sequence, |ring|) := message], contents[message.sequence := message], slowest)
  {
    var m := message.sequence;
    forall n | n in contents && n > slowest && n != m ensures Slot(n, |ring|) != Slot(m, |ring|) {
      if Slot(n, |ring|) == Slot(m, |ring|) {
        if n < m { SlotsApart(n, m, |ring|); } else { SlotsApart(m, n, |ring|); }
      }
    }
  }

  /** The ring with its cursor, claim strategy and consumers, as the loop uses them. */
  class Loop {
    const entries: array<Entry>
    const strategy: C.MultiThreadedClaimStrategy
    const cursor: C.Sequence
    /** The gating sequences: where the processors stand. */
    const positions: array<int>
    /** 0 - not started, 1 - starting, 2 - started. */
    var stage: int
    ghost var start: int
    /** What was published at each number. */
    ghost var contents: map<int, Entry>

    /** Start: the ring begins at the least checkpoint, each processor at its own. */
    constructor (bufferSize: nat, pendingSize: nat, checkpoints: array<int>)
      requires bufferSize > 0 && pendingSize > 0 && checkpoints.Length > 0
      requires forall p :: 0 <= p < checkpoints.Length ==> checkpoints[p] >= -1
      ensures Valid() && stage == 2 && contents == map[] && fresh(entries) && fresh(positions)
      ensures start == cursor.value == MinOf(checkpoints[..]) && positions[..] == checkpoints[..]
      ensures entries.Length == bufferSize && strategy.pendingPublication.Length == pendingSize
    {
      var minCheckpoint := GetMinimumSequence(checkpoints);
      entries := new Entry[bufferSize](_ => Empty(0));
      positions := new int[checkpoints.Length](
        i requires 0 <= i < checkpoints.Length reads checkpoints => checkpoints[i]);
      strategy := new C.MultiThreadedClaimStrategy(pendingSize);
      cursor := new C.Sequence(minCheckpoint);
      stage, start, contents := 2, minCheckpoint, map[];
      new;
      assert positions[..] == checkpoints[..];
      C.FreshRepresents(strategy.pendingPublication[..], minCheckpoint);
    }

    ghost predicate Valid()
      reads this, cursor, entries, positions, strategy.pendingPublication
    {
      && positions != strategy.pendingPublication && strategy.Stands(cursor, start, contents.Keys)
      && Holds(entries[..], contents, MinOf(positions[..])) && MinOf(positions[..]) <= cursor.value
    }

    method RemainingCapacity() returns (r: int)
      ensures r == entries.Length - (cursor.value - MinOf(positions[..]))
    {
      var consumed := GetMinimumSequence(positions);
      r := entries.Length - (cursor.value - consumed);
    }

    /** The environment between two looks: each processor behind the cursor moves on, how far is open. */
    method LetConsumersRun()
      requires Valid()
      modifies positions
      ensures Valid() && MovedUp(old(positions[..]), positions[..])
      ensures old(MinOf(positions[..])) < cursor.value && old(MinOf(positions[..])) < MAX_LONG ==>
        MinOf(positions[..]) > old(MinOf(positions[..]))
    {
      ghost var before := positions[..];
      for i := 0 to positions.Length
        invariant forall k :: 0 <= k < i ==> Moved(before[k], positions[k], cursor.value)
        invariant forall k :: i <= k < positions.Length ==> positions[k] == before[k]
      {
        var to: int := *;
        if positions[i] < cursor.value {
          positions[i] := if positions[i] < to <= cursor.value then to else positions[i] + 1;
        }
      }
      MinMoves(before, positions[..], cursor.value);
    }

    /** The wait in front of a write. It ends, because the number is at most a ring above the cursor:
        when all processors have reached the cursor there is room. */
    method WaitForRoom(sequence: int)
      requires Valid() && sequence - cursor.value <= entries.Length && sequence <= MAX_LONG
      modifies positions
      ensures Valid() && MovedUp(old(positions[..]), positions[..])
      ensures sequence <= MinOf(positions[..]) + entries.Length
    {
      var remaining := RemainingCapacity();
      while cursor.value + remaining < sequence
        invariant Valid() && MovedUp(old(positions[..]), positions[..])
        invariant remaining == entries.Length - (cursor.value - MinOf(positions[..]))
        decreases sequence - MinOf(positions[..])
      {
        LetConsumersRun();
        remaining := RemainingCapacity();
      }
    }

    /** AddEventToDisruptor. A record at or below the cursor is dropped; any other waits for room, is
        written into its slot and published alone. What some processor has still to read stays in its
        slot: that is part of Valid. Beyond the pending window the lone caller would spin for ever. */
    method AddEventToDisruptor(message: Entry)
      requires Valid() && message.sequence <= MAX_LONG
      requires message.sequence - cursor.value <= strategy.pendingPublication.Length
      requires message.sequence - cursor.value <= entries.Length
      modifies this`contents, cursor, entries, positions, strategy.pendingPublication
      ensures Valid() && cursor.value >= old(cursor.value) && MovedUp(old(positions[..]), positions[..])
      ensures message.sequence <= old(cursor.value) ==>
        contents == old(contents) && cursor.value == old(cursor.value) && entries[..] == old(entries[..])
      ensures message.sequence > old(cursor.value) ==>
        && contents == old(contents)[message.sequence := message]
        && entries[..] == old(entries[..])[Slot(message.sequence, entries.Length) := message]
    {
      if message.sequence <= cursor.value { return; }
      WaitForRoom(message.sequence);
      Write(message);
    }

    method Write(message: Entry)
      requires Valid() && cursor.value < message.sequence <= MinOf(positions[..]) + entries.Length
      requires message.sequence - cursor.value <= strategy.pendingPublication.Length
      modifies this`contents, cursor, entries, strategy.pendingPublication
      ensures Valid() && cursor.value >= old(cursor.value)
      ensures contents == old(contents)[message.sequence := message]
      ensures entries[..] == old(entries[..])[Slot(message.sequence, entries.Length) := message]
    {
      WriteHolds(entries[..], contents, MinOf(positions[..]), message);
      entries[Slot(message.sequence, entries.Length)] := message;
      Publish(message.sequence, contents.Keys);
      contents := contents[message.sequence := message];
      assert contents.Keys == old(contents).Keys + {message.sequence};
    }

    /** One sequence above the cursor. */
    method Publish(sequence: int, ghost published: set<int>)
      requires strategy.Stands(cursor, start, published) && cursor.value < sequence
      requires sequence - cursor.value <= strategy.pendingPublication.Length
      modifies cursor, strategy.pendingPublication
      ensures strategy.Stands(cursor, start, published + {sequence}) && cursor.value >= old(cursor.value)
    {
      StartIsBelow(published);
      OneIsHarmless(published, cursor.value, sequence, strategy.pendingPublication.Length);
      strategy.SerialisePublishing(sequence, cursor, 1, start, published);
    }

    lemma StartIsBelow(published: set<int>)
      requires strategy.Stands(cursor, start, published)
      ensures start <= cursor.value && strategy.pendingPublication.Length > 0
    {
    }

    /** AddEventForProcessing: a fast message is refused before the loop has started, and when it lies
        more than a whole ring ahead of the cursor, where it would have to wait for records still to come. */
    method AddEventForProcessing(message: Entry) returns (accepted: bool)
      requires Valid() && message.sequence <= MAX_LONG
      requires stage == 2 && message.sequence - cursor.value <= entries.Length ==>
        message.sequence - cursor.value <= strategy.pendingPublication.Length
      modifies this`contents, cursor, entries, positions, strategy.pendingPublication
      ensures Valid() && cursor.value >= old(cursor.value)
      ensures accepted <==> stage == 2 && message.sequence - old(cursor.value) <= entries.Length
      ensures accepted && message.sequence > old(cursor.value) ==>
        && contents == old(contents)[message.sequence := message]
        && entries[..] == old(entries[..])[Slot(message.sequence, entries.Length) := message]
      ensures !accepted || message.sequence <= old(cursor.value) ==>
        contents == old(contents) && cursor.value == old(cursor.value) && entries[..] == old(entries[..])
    {
      if stage != 2 { return false; }
      if message.sequence - cursor.value > entries.Length { return false; }
      AddEventToDisruptor(message);
      return true;
    }

    /** A number at most one above the cursor is covered afterwards. */
    method AddNext(message: Entry)
      requires Valid() && message.sequence <= MAX_LONG && message.sequence <= cursor.value + 1
      modifies this`contents, cursor, entries, positions, strategy.pendingPublication
      ensures Valid() && cursor.value >= message.sequence && cursor.value >= old(cursor.value)
      ensures contents == old(contents) || contents == old(contents)[message.sequence := message]
    {
      AddEventToDisruptor(message);
      C.RunEndCovers(start, contents.Keys, cursor.value, message.sequence);
    }

    /** PollData: a dense list from right above the cursor on is published completely, however long it is;
        the cursor ends at or above its last number. Numbers that somebody has published before may be
        published again, with what belongs there. */
    method PollData(ghost store: map<int, Payload>, checkpoint: int, events: seq<Entry>)
      requires Valid() && checkpoint <= cursor.value && checkpoint + |events| <= MAX_LONG
      requires Dense(store, checkpoint, events)
      modifies this`contents, cursor, entries, positions, strategy.pendingPublication
      ensures Valid() && cursor.value >= checkpoint + |events|
      ensures Polled(old(contents), contents, store, checkpoint, checkpoint + |events|)
    {
      for k := 0 to |events|
        invariant Valid() && cursor.value >= checkpoint + k
        invariant Polled(old(contents), contents, store, checkpoint, checkpoint + k)
      {
        assert events[k] == Truth(store, checkpoint + 1 + k);
        AddPolled(old(contents), store, checkpoint, events[k]);
      }
    }

    /** One entry of the list; `before` is what was published when the poll began. */
    method AddPolled(ghost before: map<int, Entry>, ghost store: map<int, Payload>,
                     ghost checkpoint: int, message: Entry)
      requires Valid() && message.sequence <= MAX_LONG && checkpoint < message.sequence <= cursor.value + 1
      requires message == Truth(store, message.sequence)
      requires Polled(before, contents, store, checkpoint, message.sequence - 1)
      modifies this`contents, cursor, entries, positions, strategy.pendingPublication
      ensures Valid() && cursor.value >= message.sequence && cursor.value >= old(cursor.value)
      ensures Polled(before, contents, store, checkpoint, message.sequence)
    {
      ghost var mid := contents;
      AddNext(message);
      PolledMore(before, mid, contents, store, checkpoint, message);
    }
  }

  /** A single sequence above the cursor erases nothing. */
  lemma OneIsHarmless(published: set<int>, cursor: int, sequence: int, size: nat)
    requires size > 0 && cursor < sequence
    ensures C.Harmless(published, cursor, sequence, sequence, size)
    ensures P.Range(sequence, sequence) == {sequence}
  {
    C.HarmlessExactly(published, cursor, sequence, sequence, size);
  }

  /** Nothing published is forgotten, and what is new or changed is the truth about a polled number. */
  ghost predicate Polled(before: map<int, Entry>, after: map<int, Entry>, store: map<int, Payload>, lo: int, hi: int) {
    && before.Keys <= after.Keys
    && forall n :: n in after ==>
         (n in before && after[n] == before[n]) || (lo < n <= hi && after[n] == Truth(store, n))
  }

  lemma PolledMore(before: map<int, Entry>, mid: map<int, Entry>, after: map<int, Entry>, store: map<int, Payload>,
                   lo: int, message: Entry)
    requires Polled(before, mid, store, lo, message.sequence - 1) && message == Truth(store, message.sequence)
    requires lo < message.sequence && (after == mid || after == mid[message.sequence := message])
    ensures Polled(before, after, store, lo, message.sequence)
  {
  }

  ghost predicate Moved(from: int, to: int, cursor: int) {
    if from < cursor then from < to <= cursor else to == from
  }

  lemma MinMoves(before: seq<int>, after: seq<int>, cursor: int)
    requires |before| == |after| && MinOf(before) <= cursor
    requires forall k :: 0 <= k < |before| ==> Moved(before[k], after[k], cursor)
    ensures MinOf(before) <= MinOf(after) <= cursor
    ensures MinOf(before) < cursor && MinOf(before) < MAX_LONG ==> MinOf(after) > MinOf(before)
  {
    var low, high := MinOf(before), MinOf(after);
    forall k | 0 <= k < |after| ensures low <= after[k] && (low < cursor ==> low < after[k]) {
      assert LowerBound(low, before) && Moved(before[k], after[k], cursor);
    }
    assert LowerBound(high, after);
    if low != MAX_LONG {
      var k :| 0 <= k < |before| && before[k] == low;
      assert Moved(before[k], after[k], cursor);
    } else if before != [] {
      assert LowerBound(low, before) && Moved(before[0], after[0], cursor);
    }
  }
}
