/** What the slots hold: at every step of every run a filled slot keeps its event until every consumer has
    passed it, provided the configuration is well started. */
module RingInvariant {
  import opened Slots
  import opened RingPipeline
  import opened RingBase
  import P = PublishProtocol

  // ---- No slot is filled twice too early -----------------------------------------------

  /** The processor that began no later than the ring has not overtaken the cursor. */
  lemma SomeoneBelowCursor(c: Config, s: State)
    requires Shape(c, s) && c.Anchored() && PositionsOk(c, s) && c.publish.start <= s.publish.cursor
    ensures forall m :: Floor(s, m) ==> m <= s.publish.cursor
  {
    var j :| 0 <= j < |c.starts| && c.starts[j] <= c.publish.start;
    assert PositionOk(s, s.consumers[j], c.graph.deps[j], c.starts[j]);
    assert s.consumers[j].sequence <= s.publish.cursor;
  }

  /** A covered sequence has been filled in by its owner. */
  lemma CoveredIsNotOwned(c: Config, s: State, i: nat, x: int)
    requires Shape(c, s) && P.Inv(c.publish, s.publish) && EventsOk(c, s) && i < |s.producers|
    requires s.publish.publishers[i].Owns(x) && x <= s.publish.cursor
    ensures Filled(s.producers[i], x)
  {
    assert P.PublisherOk(c.publish, s.publish, s.publish.publishers[i]);
    assert x in s.publish.written;
  }

  /** The sequences of lo + 1..hi that the first n publishers, i excepted, own. */
  ghost function OwnedByOthers(s: P.State, n: nat, i: nat, lo: int, hi: int): (r: set<int>)
    requires n <= |s.publishers|
    ensures forall x :: x in r <==> lo < x <= hi && exists j :: 0 <= j < n && j != i && s.publishers[j].Owns(x)
  {
    set x | lo < x <= hi && P.Between(lo, x, hi) && exists j :: 0 <= j < n && j != i && s.publishers[j].Owns(x)
  }

  lemma {:induction false} RangeSize(lo: int, hi: int)
    requires lo <= hi + 1
    ensures |P.Range(lo, hi)| == hi - lo + 1
    decreases hi - lo
  {
    if lo > hi {
      assert P.Range(lo, hi) == {};
    } else {
      RangeSize(lo, hi - 1);
      assert P.Range(lo, hi) == P.Range(lo, hi - 1) + {hi};
    }
  }

  lemma SubsetSize(a: set<int>, b: set<int>)
    requires a <= b
    ensures |a| <= |b|
  {
    assert b == a + (b - a);
  }

  /** Each of them owns at most a batch. */
  lemma {:induction false} OthersOwnLittle(s: P.State, n: nat, i: nat, lo: int, hi: int, batch: nat)
    requires n <= |s.publishers|
    requires forall j, x :: 0 <= j < n && j != i && lo < x <= hi && s.publishers[j].Owns(x) ==>
      s.publishers[j].batch <= batch
    ensures |OwnedByOthers(s, n, i, lo, hi)| <= (if i < n then n - 1 else n) * batch
  {
    var all := OwnedByOthers(s, n, i, lo, hi);
    if n == 0 {
      assert all == {};
    } else {
      OthersOwnLittle(s, n - 1, i, lo, hi, batch);
      var rest := OwnedByOthers(s, n - 1, i, lo, hi);
      var p := s.publishers[n - 1];
      if n - 1 == i || p.Idle? || all == rest {
        assert all <= rest;
        SubsetSize(all, rest);
        OneMore(n, i, batch);
      } else {
        var x :| x in all && x !in rest;
        assert p.Owns(x);
        var own := P.Range(p.Lo(), p.hi);
        RangeSize(p.Lo(), p.hi);
        assert all <= rest + own;
        SubsetSize(all, rest + own);
        assert |rest + own| <= |rest| + |own|;
        OneMore(n, i, batch);
      }
    }
  }

  lemma OneMore(n: nat, i: nat, batch: nat)
    requires n > 0
    ensures (if i < n then n - 1 else n) * batch ==
      (if i < n - 1 then n - 2 else n - 1) * batch + (if n - 1 == i then 0 else batch)
  {
  }

  /** Above thread i's batch and one pending window, an unblocked sequence belongs to somebody else's batch,
      and that batch passes the guard. */
  lemma AboveTheWindow(c: Config, s: State, i: nat, x: int, y: int) returns (j: nat)
    requires P.Inv(c.publish, s.publish) && i < |s.publish.publishers| && s.publish.publishers[i].Guard?
    requires Unblocked(s.publish, x) && y <= x <= s.publish.claim
    requires s.publish.publishers[i].batch <= c.publish.pendingSize
    requires y > s.publish.publishers[i].Lo() - 1 + c.publish.pendingSize
    ensures j < |s.publish.publishers| && j != i && s.publish.publishers[j].Owns(y)
  {
    P.GuardedIsUncovered(c.publish, s.publish, i);
    assert P.PublisherOk(c.publish, s.publish, s.publish.publishers[i]);
    assert y !in s.publish.written;
    j :| 0 <= j < |s.publish.publishers| && s.publish.publishers[j].Owns(y);
  }

  lemma OwnersPass(c: Config, s: State, j: nat, x: int, y: int)
    requires P.PublishersOk(c.publish, s.publish) && P.Shape(c.publish, s.publish) && j < |s.publish.publishers|
    requires Unblocked(s.publish, x) && y <= x && s.publish.publishers[j].Owns(y)
    ensures s.publish.publishers[j].batch <= c.LargestBatch()
  {
    assert P.PublisherOk(c.publish, s.publish, s.publish.publishers[j]);
  }

  /** Counting: so the claimed sequences reach at most one window and a batch for each other thread above
      thread i's first one. */
  lemma ClaimsReach(c: Config, s: State, i: nat, x: int)
    requires P.Inv(c.publish, s.publish) && i < |s.publish.publishers| && s.publish.publishers[i].Guard?
    requires Unblocked(s.publish, x) && s.publish.publishers[i].Lo() <= x <= s.publish.claim
    ensures x - s.publish.publishers[i].Lo() + 1 <= c.publish.pendingSize + (c.publish.threads - 1) * c.LargestBatch()
  {
    var p, n := s.publish.publishers[i], |s.publish.publishers|;
    var lo := p.Lo() - 1 + c.publish.pendingSize;
    OwnersPass(c, s, i, x, p.Lo());
    if lo <= x {
      var owned := OwnedByOthers(s.publish, n, i, lo, x);
      forall j, y | 0 <= j < n && j != i && lo < y <= x && s.publish.publishers[j].Owns(y)
        ensures s.publish.publishers[j].batch <= c.LargestBatch()
      {
        OwnersPass(c, s, j, x, y);
      }
      OthersOwnLittle(s.publish, n, i, lo, x, c.LargestBatch());
      forall y | y in P.Range(lo + 1, x) ensures y in owned {
        var j := AboveTheWindow(c, s, i, x, y);
      }
      RangeSize(lo + 1, x);
      SubsetSize(P.Range(lo + 1, x), owned);
    } else {
      assert (c.publish.threads - 1) * c.LargestBatch() >= 0;
    }
  }

  /** In a roomy ring nothing that can be published is filled a lap above an unfilled sequence. */
  lemma RoomyIsWithinLap(c: Config, s: State, i: nat, x: int)
    requires BaseInv(c, s) && c.Roomy() && i < |s.producers| && s.producers[i].Filling?
    requires x in s.events && Unblocked(s.publish, x)
    ensures x < s.producers[i].next + c.bufferSize
  {
    var q := s.publish.publishers[i];
    assert ProducerOk(c, s, s.producers[i], q);
    assert c.publish.threads < 2 && x >= q.Lo() ==> q.Owns(x);
    if x >= s.producers[i].next + c.bufferSize && c.publish.threads >= 2 { ClaimsReach(c, s, i, x); }
  }

  /** In an anchored ring nothing at all is. */
  lemma AnchoredIsWithinLap(c: Config, s: State, i: nat, x: int)
    requires BaseInv(c, s) && c.Anchored() && i < |s.producers| && s.producers[i].Filling? && x in s.events
    ensures x < s.producers[i].next + c.bufferSize
  {
    var next := s.producers[i].next;
    assert ProducerOk(c, s, s.producers[i], s.publish.publishers[i]);
    if x >= next + c.bufferSize {
      assert Floor(s, x - c.bufferSize);
      SomeoneBelowCursor(c, s);
      assert s.publish.publishers[i].Owns(next);
      CoveredIsNotOwned(c, s, i, next);
    }
  }

  /** Filling a slot: the claimed sequence is within one lap of the slowest consumer, so what it
      overwrites has been passed by everybody. */
  lemma FillKeepsRing(c: Config, s: State, i: nat, e: Event)
    requires Inv(c, s) && i < |s.producers| && s.producers[i].Filling?
    ensures RingOk(c, Produce(c, s, i, e))
  {
    var t := Produce(c, s, i, e);
    var p := s.producers[i];
    assert ProducerOk(c, s, p, s.publish.publishers[i]);
    forall x | x in t.events && !Floor(t, x) && Unblocked(t.publish, x)
      ensures t.ring[Slot(x, |t.ring|)] == t.events[x]
    {
      assert !Floor(s, x);
      if x != p.next && Slot(x, c.bufferSize) == Slot(p.next, c.bufferSize) {
        SlotTakenOnce(c, s, i, x);
      }
    }
  }

  lemma SlotTakenOnce(c: Config, s: State, i: nat, x: int)
    requires BaseInv(c, s) && c.WellStarted() && i < |s.producers| && s.producers[i].Filling?
    requires x in s.events && x != s.producers[i].next && Unblocked(s.publish, x)
    requires Slot(x, c.bufferSize) == Slot(s.producers[i].next, c.bufferSize)
    ensures Floor(s, x)
  {
    var next := s.producers[i].next;
    assert ProducerOk(c, s, s.producers[i], s.publish.publishers[i]);
    if x < next {
      SlotsApart(x, next, c.bufferSize);
    } else {
      SlotsApart(next, x, c.bufferSize);
      if c.Anchored() { AnchoredIsWithinLap(c, s, i, x); } else { RoomyIsWithinLap(c, s, i, x); }
    }
  }

  // ---- Every step keeps the invariant --------------------------------------------------

  lemma InitInv(c: Config, blank: Event)
    requires c.Valid() && c.WellStarted()
    ensures Inv(c, Initial(c, blank))
  {
    InitBase(c, blank);
  }

  /** A batch too large for the pending array stays where it is. */
  lemma AdvanceKeepsOversized(c: Config, s: State, i: nat)
    requires P.Inv(c.publish, s.publish) && i < |s.publish.publishers|
    ensures forall x :: Unblocked(P.Advance(s.publish, i), x) ==> Unblocked(s.publish, x)
  {
    var t := P.Advance(s.publish, i);
    P.AdvanceGrows(s.publish, i);
    forall j | 0 <= j < |s.publish.publishers| && Oversized(s.publish.publishers[j], |s.publish.pending|)
      ensures t.publishers[j] == s.publish.publishers[j]
    {
      if j == i { P.GuardedIsUncovered(c.publish, s.publish, i); }
    }
  }

  lemma ClaimKeepsOversized(s: P.State, i: nat, delta: int)
    requires i < |s.publishers| && s.publishers[i].Idle?
    ensures forall x :: Unblocked(P.Claim(s, i, delta), x) ==> Unblocked(s, x)
  {
    var t := P.Claim(s, i, delta);
    forall j | 0 <= j < |s.publishers| && Oversized(s.publishers[j], |s.pending|)
      ensures t.publishers[j] == s.publishers[j]
    {
    }
  }

  /** What neither ring nor events nor positions changes, the slots survive. */
  lemma RingStays(c: Config, s: State, t: State)
    requires RingOk(c, s) && LogsOk(c, s) && t.ring == s.ring && t.events == s.events && t.consumers == s.consumers
    requires forall x :: Unblocked(t.publish, x) ==> Unblocked(s.publish, x)
    ensures RingOk(c, t) && LogsOk(c, t)
  {
    assert forall m :: Floor(s, m) <==> Floor(t, m);
  }

  lemma BeginKeepsInv(c: Config, s: State, i: nat, r: Request)
    requires Inv(c, s) && i < |s.producers| && s.producers[i].Resting? && Allowed(c, r)
    ensures Inv(c, Begin(c, s, i, r))
  {
    BeginKeepsBase(c, s, i, r);
    assert ProducerOk(c, s, s.producers[i], s.publish.publishers[i]);
    if r.NextBatch? { ClaimKeepsOversized(s.publish, i, r.size); }
    RingStays(c, s, Begin(c, s, i, r));
  }

  /** Scanning, claiming and publishing do not touch the slots. */
  lemma OthersKeepRing(c: Config, s: State, i: nat, e: Event)
    requires BaseInv(c, s) && RingOk(c, s) && LogsOk(c, s) && i < |s.producers| && !s.producers[i].Filling?
    ensures RingOk(c, Produce(c, s, i, e)) && LogsOk(c, Produce(c, s, i, e))
  {
    assert ProducerOk(c, s, s.producers[i], s.publish.publishers[i]);
    if s.producers[i].Publishing? {
      AdvanceKeepsOversized(c, s, i);
    } else if s.publish.publishers[i].Idle? {
      ClaimKeepsOversized(s.publish, i, 1);
    }
    RingStays(c, s, Produce(c, s, i, e));
  }

  lemma LogsStay(c: Config, s: State, t: State)
    requires LogsOk(c, s) && t.consumers == s.consumers
    requires forall x :: x in s.events ==> x in t.events && t.events[x] == s.events[x]
    ensures LogsOk(c, t)
  {
    forall j | 0 <= j < |t.consumers| && j < |c.starts| ensures LogOk(c, t.consumers[j].log, c.starts[j], t.events) {
      LogStaysHonest(c, s.consumers[j].log, c.starts[j], s.events, t.events);
    }
  }

  lemma LogStaysHonest(c: Config, log: seq<(int, Event)>, start: int, events: map<int, Event>, more: map<int, Event>)
    requires LogOk(c, log, start, events)
    requires forall x :: x in events ==> x in more && more[x] == events[x]
    ensures LogOk(c, log, start, more)
  {
  }

  lemma ProduceKeepsInv(c: Config, s: State, i: nat, e: Event)
    requires Inv(c, s) && i < |s.producers|
    ensures Inv(c, Produce(c, s, i, e))
  {
    ProduceKeepsBase(c, s, i, e);
    if s.producers[i].Filling? {
      assert ProducerOk(c, s, s.producers[i], s.publish.publishers[i]);
      NextIsUnfilled(c, s, i);
      FillKeepsRing(c, s, i, e);
      LogsStay(c, s, Produce(c, s, i, e));
    } else {
      OthersKeepRing(c, s, i, e);
    }
  }

  // ---- Consumer steps ------------------------------------------------------------------

  /** Whatever is covered can be published. */
  lemma CoveredIsUnblocked(c: Config, s: State, x: int)
    requires P.Inv(c.publish, s.publish) && x <= s.publish.cursor
    ensures Unblocked(s.publish, x)
  {
    forall i | 0 <= i < |s.publish.publishers| && Oversized(s.publish.publishers[i], |s.publish.pending|)
      ensures x < s.publish.publishers[i].Lo()
    {
      P.GuardedIsUncovered(c.publish, s.publish, i);
    }
  }

  /** What a covered sequence above its own position a consumer finds in the ring. */
  lemma SlotHoldsEvent(c: Config, s: State, j: nat, x: int)
    requires Inv(c, s) && j < |s.consumers| && s.consumers[j].sequence < x <= s.publish.cursor && x > c.publish.start
    ensures x in s.events && s.ring[Slot(x, c.bufferSize)] == s.events[x]
  {
    assert x in s.publish.written;
    assert !Floor(s, x);
    CoveredIsUnblocked(c, s, x);
  }

  /** Handling one sequence appends one honest entry. */
  lemma HandleKeepsLog(c: Config, s: State, j: nat, throws: bool)
    requires Shape(c, s) && j < |s.consumers| && s.consumers[j].phase.Handling? && j < |c.starts|
    requires LogOk(c, s.consumers[j].log, c.starts[j], s.events)
    requires |s.consumers[j].log| == s.consumers[j].next - 1 - c.starts[j]
    requires s.consumers[j].next <= s.consumers[j].phase.available
    requires var x := s.consumers[j].next;
      x > c.publish.start ==> x in s.events && s.ring[Slot(x, c.bufferSize)] == s.events[x]
    ensures LogOk(c, Consume(c, s, j, throws).consumers[j].log, c.starts[j], s.events)
  {
    var k, q := s.consumers[j], Consume(c, s, j, throws).consumers[j];
    forall n | 0 <= n < |q.log| ensures Honest(c, q.log[n], c.starts[j] + 1 + n, s.events) {
      if n < |k.log| { assert q.log[n] == k.log[n]; }
    }
  }

  lemma ConsumeKeepsLog(c: Config, s: State, j: nat, throws: bool)
    requires Inv(c, s) && j < |s.consumers|
    ensures LogOk(c, Consume(c, s, j, throws).consumers[j].log, c.starts[j], s.events)
  {
    var k := s.consumers[j];
    assert PositionOk(s, k, c.graph.deps[j], c.starts[j]);
    assert LogOk(c, k.log, c.starts[j], s.events);
    if k.phase.Handling? && k.next <= k.phase.available {
      if k.next > c.publish.start { SlotHoldsEvent(c, s, j, k.next); }
      HandleKeepsLog(c, s, j, throws);
    }
  }

  lemma ConsumeKeepsRing(c: Config, s: State, j: nat, throws: bool)
    requires Shape(c, s) && RingOk(c, s) && j < |s.consumers| && s.consumers[j].sequence <= s.consumers[j].next - 1
    ensures RingOk(c, Consume(c, s, j, throws))
  {
    var t := Consume(c, s, j, throws);
    ConsumeOnlyOwn(c, s, j, throws);
    assert forall m :: Floor(s, m) ==> Floor(t, m);
  }

  lemma ConsumeKeepsInv(c: Config, s: State, j: nat, throws: bool)
    requires Inv(c, s) && j < |s.consumers|
    ensures Inv(c, Consume(c, s, j, throws))
  {
    var t := Consume(c, s, j, throws);
    assert PositionOk(s, s.consumers[j], c.graph.deps[j], c.starts[j]);
    ConsumeKeepsBase(c, s, j, throws);
    ConsumeKeepsRing(c, s, j, throws);
    ConsumeOnlyOwn(c, s, j, throws);
    forall k | 0 <= k < |t.consumers| && k < |c.starts| ensures LogOk(c, t.consumers[k].log, c.starts[k], t.events) {
      if k == j { ConsumeKeepsLog(c, s, j, throws); } else { assert t.consumers[k] == s.consumers[k]; }
    }
  }

  // ---- Runs ----------------------------------------------------------------------------

  lemma StepKeepsInv(c: Config, s: State, t: State)
    requires Inv(c, s) && Next(c, s, t)
    ensures Inv(c, t)
  {
    if i, r :| BeginStep(c, s, t, i, r) {
      BeginKeepsInv(c, s, i, r);
    } else if i: nat, e: Event :| ProduceStep(c, s, t, i, e) {
      ProduceKeepsInv(c, s, i, e);
    } else {
      var j, throws :| ConsumeStep(c, s, t, j, throws);
      ConsumeKeepsInv(c, s, j, throws);
    }
  }

  lemma {:induction false} RunInv(c: Config, run: seq<State>)
    requires IsRun(c, run) && c.WellStarted()
    ensures Inv(c, run[|run| - 1])
  {
    if |run| == 1 {
      var blank :| run[0] == Initial(c, blank);
      InitInv(c, blank);
    } else {
      Shorter(c, run, |run| - 1);
      RunInv(c, run[..|run| - 1]);
      assert StepAt(c, run, |run| - 1);
      StepKeepsInv(c, run[|run| - 2], run[|run| - 1]);
    }
  }

  lemma StateInv(c: Config, run: seq<State>, k: nat)
    requires IsRun(c, run) && c.WellStarted() && k < |run|
    ensures Inv(c, run[k])
  {
    Shorter(c, run, k + 1);
    RunInv(c, run[..k + 1]);
  }
}
