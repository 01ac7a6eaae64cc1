/** The consumer loop of src/Ozzy.Core/Disruptor/BatchEventProcessor.cs by itself: what it makes of the
    answers of its barrier and of a handler that may throw. */
module BatchProcessing {
  import opened Slots

  /** One answer of the barrier: the highest available sequence, or an alert, after which the loop
      goes on only while it is still marked as running. */
  datatype Wait = Available(sequence: int) | Alerted(running: bool)

  datatype Delivery<T> = Delivery(sequence: int, event: T, endOfBatch: bool)

  /** Where a batch that may go up to `available` ends: at the first sequence whose handler throws. */
  function BatchEnd(from: int, available: int, throwing: set<int>): (end: int)
    ensures end >= from && (end <= available || end == from) && (from < available ==> end > from)
    ensures end < available ==> end in throwing
    ensures forall x :: from < x < end ==> x !in throwing
    decreases available - from
  {
    if from >= available then from
    else if from + 1 in throwing then from + 1
    else BatchEnd(from + 1, available, throwing)
  }

  /** Where the loop stands after these answers. */
  function Reached(from: int, waits: seq<Wait>, throwing: set<int>): (to: int)
    ensures to >= from
    decreases |waits|
  {
    if waits == [] then from
    else if waits[0].Available? then
      Reached(BatchEnd(from, waits[0].sequence, throwing), waits[1..], throwing)
    else if waits[0].running then Reached(from, waits[1..], throwing)
    else from
  }

  function Repeat(available: int, times: nat): (waits: seq<Wait>)
    ensures |waits| == times && forall k :: 0 <= k < times ==> waits[k] == Available(available)
  {
    if times == 0 then [] else [Available(available)] + Repeat(available, times - 1)
  }

  /** Throwing handlers do not stop the consumer: each costs at most one more wait, so after as many
      answers as there are new sequences it stands at the last of them. */
  lemma {:induction false} EverythingIsReached(from: int, available: int, throwing: set<int>, times: nat)
    requires from <= available && times >= available - from
    ensures Reached(from, Repeat(available, times), throwing) == available
    decreases times
  {
    if times > 0 {
      var end := BatchEnd(from, available, throwing);
      assert Repeat(available, times)[1..] == Repeat(available, times - 1);
      assert from < available ==> end > from;
      EverythingIsReached(end, available, throwing, times - 1);
    }
  }

  /** The loop goes on over the answers: none of them stops it. */
  ghost predicate GoesOn(waits: seq<Wait>) {
    forall k :: 0 <= k < |waits| ==> waits[k].Available? || waits[k].running
  }

  /** One answer after the other: where the loop stands after the first ones it begins with the next. */
  lemma {:induction false} ReachedInTurn(from: int, first: seq<Wait>, next: seq<Wait>, throwing: set<int>)
    requires GoesOn(first)
    ensures Reached(from, first + next, throwing) == Reached(Reached(from, first, throwing), next, throwing)
    decreases |first|
  {
    if first == [] {
      assert first + next == next;
    } else {
      assert (first + next)[0] == first[0] && (first + next)[1..] == first[1..] + next;
      assert GoesOn(first[1..]);
      var to := if first[0].Available? then BatchEnd(from, first[0].sequence, throwing) else from;
      ReachedInTurn(to, first[1..], next, throwing);
    }
  }

  /** An alert during which the loop is still marked as running changes nothing, and one after which it is not
      ends the loop, whatever would come next. */
  lemma AlertsExactly(from: int, before: seq<Wait>, after: seq<Wait>, throwing: set<int>)
    requires GoesOn(before)
    ensures Reached(from, before + [Alerted(true)] + after, throwing) == Reached(from, before + after, throwing)
    ensures Reached(from, before + [Alerted(false)] + after, throwing) == Reached(from, before, throwing)
  {
    var to := Reached(from, before, throwing);
    ReachedInTurn(from, before, after, throwing);
    forall running: bool ensures
      Reached(from, before + [Alerted(running)] + after, throwing) == Reached(to, [Alerted(running)] + after, throwing)
    {
      assert before + [Alerted(running)] + after == before + ([Alerted(running)] + after);
      ReachedInTurn(from, before, [Alerted(running)] + after, throwing);
    }
    assert ([Alerted(true)] + after)[1..] == after;
  }

  /** Where no handler throws the loop stands at the largest answer it has had, or where it began. */
  lemma {:induction false} ReachesLargest(from: int, waits: seq<Wait>, k: nat)
    requires GoesOn(waits)
    ensures k < |waits| && waits[k].Available? ==> waits[k].sequence <= Reached(from, waits, {})
    ensures Reached(from, waits, {}) == from || Available(Reached(from, waits, {})) in waits
    decreases |waits|
  {
    if waits != [] {
      assert GoesOn(waits[1..]);
      var to := if waits[0].Available? then BatchEnd(from, waits[0].sequence, {}) else from;
      ReachesLargest(to, waits[1..], if k > 0 then k - 1 else 0);
    }
  }

  class BatchEventProcessor<T> {
    const ringBuffer: array<T>
    var sequence: int
    /** The calls of the event handler, and of the exception handler. */
    ghost var deliveries: seq<Delivery<T>>
    ghost var failures: seq<int>

    constructor (ringBuffer: array<T>, sequence: int)
      ensures this.ringBuffer == ringBuffer && this.sequence == sequence && deliveries == [] && failures == []
    {
      this.ringBuffer, this.sequence, deliveries, failures := ringBuffer, sequence, [], [];
    }

    /** One delivery for each sequence from `first` on, each with the event of its own slot. */
    ghost predicate Consecutive(first: int)
      reads this, ringBuffer
    {
      ringBuffer.Length > 0 &&
      forall k :: 0 <= k < |deliveries| ==>
        && deliveries[k].sequence == first + k
        && deliveries[k].event == ringBuffer[Slot(first + k, ringBuffer.Length)]
    }

    ghost predicate FailuresAre(throwing: set<int>)
      reads this
    {
      forall x :: x in failures <==> x in throwing && exists k :: 0 <= k < |deliveries| && deliveries[k].sequence == x
    }

    /** From the given one on the deliveries are marked as the end of their batch exactly at `available`. */
    ghost predicate EndsAre(from: nat, available: int)
      reads this
    {
      forall k :: from <= k < |deliveries| ==> (deliveries[k].endOfBatch <==> deliveries[k].sequence == available)
    }

    /** Run, for the given answers of the barrier. Each sequence up to the end is delivered once and in
        order; one whose handler throws is reported once and counts as handled. Between two waits the
        published position and the deliveries agree. */
    method Run(waits: seq<Wait>, throwing: set<int>)
      requires ringBuffer.Length > 0 && deliveries == [] && failures == []
      modifies this
      ensures sequence == Reached(old(sequence), waits, throwing)
      ensures |deliveries| == sequence - old(sequence) && Consecutive(old(sequence) + 1)
      ensures FailuresAre(throwing)
    {
      ghost var start := sequence;
      var nextSequence := sequence + 1;
      for i := 0 to |waits|
        invariant sequence == nextSequence - 1
        invariant Reached(start, waits, throwing) == Reached(sequence, waits[i..], throwing)
        invariant |deliveries| == sequence - start && Consecutive(start + 1)
        invariant FailuresAre(throwing)
      {
        match waits[i] {
          case Alerted(running) =>
            if !running { return; }
          case Available(available) =>
            nextSequence := HandleBatch(nextSequence, available, throwing, start);
        }
      }
    }

    /** The inner loop. The published position moves only behind the batch. */
    method HandleBatch(first: int, available: int, throwing: set<int>, ghost start: int) returns (nextSequence: int)
      requires ringBuffer.Length > 0 && sequence == first - 1
      requires |deliveries| == sequence - start && Consecutive(start + 1) && FailuresAre(throwing)
      modifies this
      ensures sequence == nextSequence - 1 == BatchEnd(first - 1, available, throwing)
      ensures |old(deliveries)| <= |deliveries|
      ensures EndsAre(|old(deliveries)|, available)
      ensures |deliveries| == sequence - start && Consecutive(start + 1) && FailuresAre(throwing)
    {
      nextSequence := first;
      while nextSequence <= available
        invariant sequence == first - 1 <= nextSequence - 1
        invariant |old(deliveries)| <= |deliveries| && EndsAre(|old(deliveries)|, available)
        invariant BatchEnd(first - 1, available, throwing) == BatchEnd(nextSequence - 1, available, throwing)
        invariant |deliveries| == nextSequence - 1 - start && Consecutive(start + 1) && FailuresAre(throwing)
      {
        var event := ringBuffer[Slot(nextSequence, ringBuffer.Length)];
        Deliver(Delivery(nextSequence, event, nextSequence == available), throwing, start);
        if nextSequence in throwing {
          sequence := nextSequence;
          nextSequence := nextSequence + 1;
          return;
        }
        nextSequence := nextSequence + 1;
      }
      sequence := nextSequence - 1;
    }

    /** One call of the event handler, followed by one of the exception handler if it throws. */
    ghost method Deliver(delivery: Delivery<T>, throwing: set<int>, start: int)
      requires FailuresAre(throwing) && Consecutive(start + 1)
      requires delivery.sequence == start + 1 + |deliveries|
      requires delivery.event == ringBuffer[Slot(delivery.sequence, ringBuffer.Length)]
      modifies this`deliveries, this`failures
      ensures deliveries == old(deliveries) + [delivery] && FailuresAre(throwing) && Consecutive(start + 1)
    {
      ghost var before := deliveries;
      deliveries := deliveries + [delivery];
      if delivery.sequence in throwing { failures := failures + [delivery.sequence]; }
      forall x
        ensures x in failures <==> x in throwing && exists k :: 0 <= k < |deliveries| && deliveries[k].sequence == x
      {
        if exists k :: 0 <= k < |before| && before[k].sequence == x {
          var k :| 0 <= k < |before| && before[k].sequence == x;
          assert deliveries[k].sequence == x;
        }
        assert deliveries[|before|].sequence == delivery.sequence;
      }
    }
  }
}
