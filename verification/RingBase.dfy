/** What every step of the ring's machine keeps in every configuration whose barriers are aligned: the
    protocol of publishing, scans and cached minima, which sequences are filled, and where the consumers
    stand. What is in the slots is the subject of module RingInvariant. */
module RingBase {
  import opened Slots
  import opened RingPipeline
  import P = PublishProtocol

  lemma InitBase(c: Config, blank: Event)
    requires c.Valid() && c.Aligned()
    ensures BaseInv(c, Initial(c, blank))
  {
    P.InitInv(c.publish);
  }

  // ---- Producers -----------------------------------------------------------------------

  /** A claim: thread i gets fresh sequences, all of them unfilled. */
  lemma ClaimKeepsEvents(c: Config, s: State, t: State, i: nat)
    requires Shape(c, s) && EventsOk(c, s) && i < |s.producers| && s.publish.publishers[i].Idle?
    requires exists delta :: delta >= 1 && t.publish == P.Claim(s.publish, i, delta)
    requires var p := t.producers;
      && |p| == |s.producers| && (forall j :: 0 <= j < |p| && j != i ==> p[j] == s.producers[j])
      && !p[i].Publishing? && (p[i].Filling? ==> p[i].next == s.publish.claim + 1)
    requires t.events == s.events && t.consumers == s.consumers
    ensures EventsOk(c, t)
  {
    forall j, x | 0 <= j < |t.producers| && j < |t.publish.publishers| && t.publish.publishers[j].Owns(x)
      ensures x in t.events <==> Filled(t.producers[j], x)
    {
      if j == i {
        assert x > s.publish.claim;
      } else {
        assert s.publish.publishers[j].Owns(x);
      }
    }
  }

  /** Steps that leave the consumers alone and change the phase of thread i only. */
  lemma SamePeersOk(c: Config, s: State, t: State, i: nat)
    requires Shape(c, s) && Shape(c, t) && ProducersOk(c, s) && i < |s.producers|
    requires t.consumers == s.consumers
    requires forall j :: 0 <= j < |s.producers| && j != i ==>
      t.producers[j] == s.producers[j] && t.publish.publishers[j] == s.publish.publishers[j]
    requires ProducerOk(c, t, t.producers[i], t.publish.publishers[i])
    ensures ProducersOk(c, t)
  {
    forall j | 0 <= j < |t.producers| && j < |t.publish.publishers|
      ensures ProducerOk(c, t, t.producers[j], t.publish.publishers[j])
    {
      if j != i { assert ProducerOk(c, s, s.producers[j], s.publish.publishers[j]); }
    }
  }

  /** Consumers do not mind producers: the cursor only grows. */
  lemma PositionsStay(c: Config, s: State, t: State)
    requires PositionsOk(c, s) && t.consumers == s.consumers && s.publish.cursor <= t.publish.cursor
    ensures PositionsOk(c, t)
  {
    forall j | 0 <= j < |t.consumers| ensures PositionOk(t, t.consumers[j], c.graph.deps[j], c.starts[j]) {
      assert PositionOk(s, s.consumers[j], c.graph.deps[j], c.starts[j]);
    }
  }

  lemma CachesStay(s: State, t: State)
    requires CachesOk(s) && t.consumers == s.consumers && t.cached == s.cached
    ensures CachesOk(t)
  {
    forall i | 0 <= i < |t.cached| ensures Floor(t, t.cached[i]) { assert Floor(s, s.cached[i]); }
  }

  lemma ClaimBatchKeepsBase(c: Config, s: State, i: nat, delta: int)
    requires BaseInv(c, s) && i < |s.producers| && s.publish.publishers[i].Idle? && 1 <= delta <= c.publish.maxBatch
    ensures BaseInv(c, ClaimBatch(c, s, i, delta))
  {
    var t := ClaimBatch(c, s, i, delta);
    P.ClaimKeepsInv(c.publish, s.publish, i, delta);
    ClaimKeepsEvents(c, s, t, i);
    CachesStay(s, t);
    assert Floor(s, s.cached[i]);
    SamePeersOk(c, s, t, i);
    PositionsStay(c, s, t);
  }

  /** Thread i has seen room for one sequence and claims it with a compare-and-set. */
  lemma TryClaimKeepsBase(c: Config, s: State, i: nat, e: Event)
    requires BaseInv(c, s) && i < |s.producers| && s.producers[i].TryClaim?
    requires s.publish.claim == s.producers[i].sequence
    ensures BaseInv(c, Produce(c, s, i, e))
  {
    var t := Produce(c, s, i, e);
    assert ProducerOk(c, s, s.producers[i], s.publish.publishers[i]);
    P.ClaimKeepsInv(c.publish, s.publish, i, 1);
    ClaimKeepsEvents(c, s, t, i);
    CachesStay(s, t);
    SamePeersOk(c, s, t, i);
    PositionsStay(c, s, t);
  }

  lemma BeginKeepsBase(c: Config, s: State, i: nat, r: Request)
    requires BaseInv(c, s) && i < |s.producers| && s.producers[i].Resting? && Allowed(c, r)
    ensures BaseInv(c, Begin(c, s, i, r))
  {
    var t := Begin(c, s, i, r);
    assert ProducerOk(c, s, s.producers[i], s.publish.publishers[i]);
    if r.NextBatch? {
      ClaimBatchKeepsBase(c, s, i, r.size);
    } else {
      assert Floor(s, s.cached[i]);
      SamePeersOk(c, s, t, i);
      CachesStay(s, t);
      PositionsStay(c, s, t);
      IdleKeepsEvents(c, s, t, i);
    }
  }

  lemma IdleKeepsEvents(c: Config, s: State, t: State, i: nat)
    requires Shape(c, s) && EventsOk(c, s) && i < |s.producers|
    requires t.publish == s.publish && t.events == s.events && t.consumers == s.consumers
    requires |t.producers| == |s.producers|
    requires forall j :: 0 <= j < |s.producers| && j != i ==> t.producers[j] == s.producers[j]
    requires t.publish.publishers[i].Idle?
      || (s.producers[i].FreeSlotScan? && (t.producers[i].FreeSlotScan?
          || (t.producers[i].Filling? && s.publish.publishers[i] == P.Guard(t.producers[i].hi, t.producers[i].batch)
              && t.producers[i].next == t.producers[i].hi - t.producers[i].batch + 1)))
    ensures EventsOk(c, t)
  {
    forall j, x | 0 <= j < |t.producers| && j < |t.publish.publishers| && t.publish.publishers[j].Owns(x)
      ensures x in t.events <==> Filled(t.producers[j], x)
    {
      assert s.publish.publishers[j].Owns(x);
      assert x in s.events <==> Filled(s.producers[j], x);
    }
  }

  ghost predicate ScanTurn(s: State, i: nat)
    requires i < |s.producers|
  {
    var p := s.producers[i];
    p.CapacityScan? || p.TryScan? || p.FreeSlotScan? || (p.TryClaim? && s.publish.claim != p.sequence)
  }

  lemma ScanKeepsOwn(c: Config, s: State, i: nat, e: Event)
    requires Shape(c, s) && PositionsOk(c, s) && CachesOk(s) && i < |s.producers| && ScanTurn(s, i)
    requires P.PublisherOk(c.publish, s.publish, s.publish.publishers[i])
    requires ProducerOk(c, s, s.producers[i], s.publish.publishers[i])
    ensures var t := Produce(c, s, i, e);
      && CachesOk(t) && ProducerOk(c, t, t.producers[i], t.publish.publishers[i])
  {
    var p := s.producers[i];
    assert Floor(s, s.cached[i]);
    if p.TryClaim? {
    } else if p.scan.index >= |c.gates| {
      FinishedScanIsFloor(c, s, p.scan);
      ScanEnds(c, s, i, e);
    } else {
      ScanGoesOn(c, s, i, e);
    }
  }

  lemma ScanGoesOn(c: Config, s: State, i: nat, e: Event)
    requires Shape(c, s) && CachesOk(s) && i < |s.producers| && ScanTurn(s, i) && !s.producers[i].TryClaim?
    requires s.producers[i].scan.index < |c.gates| && ProducerOk(c, s, s.producers[i], s.publish.publishers[i])
    ensures var t := Produce(c, s, i, e);
      && CachesOk(t) && ProducerOk(c, t, t.producers[i], t.publish.publishers[i])
  {
  }

  lemma ScanEnds(c: Config, s: State, i: nat, e: Event)
    requires Shape(c, s) && CachesOk(s) && i < |s.producers| && ScanTurn(s, i) && !s.producers[i].TryClaim?
    requires s.producers[i].scan.index >= |c.gates| && Floor(s, s.producers[i].scan.min)
    requires P.PublisherOk(c.publish, s.publish, s.publish.publishers[i])
    requires ProducerOk(c, s, s.producers[i], s.publish.publishers[i])
    ensures var t := Produce(c, s, i, e);
      && CachesOk(t) && ProducerOk(c, t, t.producers[i], t.publish.publishers[i])
  {
  }

  /** What a scanning step leaves alone, and where it may lead. */
  lemma ScanLeavesAlone(c: Config, s: State, i: nat, e: Event)
    requires Shape(c, s) && i < |s.producers| && ScanTurn(s, i)
    requires ProducerOk(c, s, s.producers[i], s.publish.publishers[i])
    ensures var t := Produce(c, s, i, e); var p := s.producers[i];
      && t == s.(producers := s.producers[i := t.producers[i]], cached := t.cached) && Shape(c, t)
      && (p.FreeSlotScan? ==>
            t.producers[i].FreeSlotScan? || t.producers[i] == Filling(p.hi, p.batch, p.hi - p.batch + 1))
      && (!p.FreeSlotScan? ==> t.publish.publishers[i].Idle?)
  {
  }

  lemma ScanKeepsBase(c: Config, s: State, i: nat, e: Event)
    requires BaseInv(c, s) && i < |s.producers| && ScanTurn(s, i)
    ensures BaseInv(c, Produce(c, s, i, e))
  {
    var t := Produce(c, s, i, e);
    assert ProducerOk(c, s, s.producers[i], s.publish.publishers[i]);
    assert P.PublisherOk(c.publish, s.publish, s.publish.publishers[i]);
    ScanLeavesAlone(c, s, i, e);
    ScanKeepsOwn(c, s, i, e);
    SamePeersOk(c, s, t, i);
    PositionsStay(c, s, t);
    IdleKeepsEvents(c, s, t, i);
  }

  /** The next sequence to fill is owned and unfilled. */
  lemma NextIsUnfilled(c: Config, s: State, i: nat)
    requires Shape(c, s) && EventsOk(c, s) && i < |s.producers| && s.producers[i].Filling?
    requires ProducerOk(c, s, s.producers[i], s.publish.publishers[i])
    ensures s.producers[i].next !in s.events && s.publish.publishers[i].Owns(s.producers[i].next)
  {
    assert s.publish.publishers[i].Owns(s.producers[i].next);
  }

  lemma FillKeepsBase(c: Config, s: State, i: nat, e: Event)
    requires BaseInv(c, s) && i < |s.producers| && s.producers[i].Filling?
    ensures BaseInv(c, Produce(c, s, i, e))
  {
    var t := Produce(c, s, i, e);
    assert ProducerOk(c, s, s.producers[i], s.publish.publishers[i]);
    SamePeersOk(c, s, t, i);
    CachesStay(s, t);
    PositionsStay(c, s, t);
    FillKeepsEvents(c, s, i, e);
  }

  lemma FillKeepsEvents(c: Config, s: State, i: nat, e: Event)
    requires Shape(c, s) && P.Ownership(c.publish, s.publish) && P.PublishersOk(c.publish, s.publish)
    requires EventsOk(c, s) && i < |s.producers|
    requires s.producers[i].Filling? && ProducerOk(c, s, s.producers[i], s.publish.publishers[i])
    ensures EventsOk(c, Produce(c, s, i, e))
  {
    var t := Produce(c, s, i, e);
    var next := s.producers[i].next;
    assert s.publish.publishers[i].Owns(next);
    assert P.PublisherOk(c.publish, s.publish, s.publish.publishers[i]);
    forall j, x | 0 <= j < |t.producers| && j < |t.publish.publishers| && t.publish.publishers[j].Owns(x)
      ensures x in t.events <==> Filled(t.producers[j], x)
    {
      assert x in s.events <==> Filled(s.producers[j], x);
      if j != i { assert x != next; }
    }
    forall x | x in t.events ensures c.publish.start < x <= t.publish.claim && Floor(t, x - c.bufferSize) {
      if x == next { assert Floor(s, s.producers[i].hi - c.bufferSize); }
    }
  }

  /** A step inside SerialisePublishing. */
  lemma PublishKeepsBase(c: Config, s: State, i: nat, e: Event)
    requires BaseInv(c, s) && i < |s.producers| && s.producers[i].Publishing?
    ensures BaseInv(c, Produce(c, s, i, e))
  {
    var t := Produce(c, s, i, e);
    assert ProducerOk(c, s, s.producers[i], s.publish.publishers[i]);
    assert P.AdvanceStep(s.publish, t.publish, i);
    P.StepKeepsInv(c.publish, s.publish, t.publish);
    P.AdvanceGrows(s.publish, i);
    assert P.PublisherOk(c.publish, s.publish, s.publish.publishers[i]);
    P.AdvanceOwn(c.publish, s.publish, i);
    SamePeersOk(c, s, t, i);
    CachesStay(s, t);
    PositionsStay(c, s, t);
    PublishKeepsEvents(c, s, i, e);
  }

  lemma PublishKeepsEvents(c: Config, s: State, i: nat, e: Event)
    requires Shape(c, s) && EventsOk(c, s) && i < |s.producers| && s.producers[i].Publishing?
    requires P.PublisherOk(c.publish, s.publish, s.publish.publishers[i])
    ensures EventsOk(c, Produce(c, s, i, e))
  {
    var t := Produce(c, s, i, e);
    var q := s.publish.publishers[i];
    P.AdvanceGrows(s.publish, i);
    P.AdvanceOwn(c.publish, s.publish, i);
    if q.Writing? { assert q.Owns(q.next); }
    forall j, x | 0 <= j < |t.producers| && j < |t.publish.publishers| && t.publish.publishers[j].Owns(x)
      ensures x in t.events <==> Filled(t.producers[j], x)
    {
      assert s.publish.publishers[j].Owns(x);
    }
  }

  lemma ProduceKeepsBase(c: Config, s: State, i: nat, e: Event)
    requires BaseInv(c, s) && i < |s.producers|
    ensures BaseInv(c, Produce(c, s, i, e))
  {
    var p := s.producers[i];
    assert ProducerOk(c, s, p, s.publish.publishers[i]);
    if p.Resting? {
    } else if p.ReadyToClaim? {
      ClaimBatchKeepsBase(c, s, i, 1);
    } else if p.Filling? {
      FillKeepsBase(c, s, i, e);
    } else if p.Publishing? {
      PublishKeepsBase(c, s, i, e);
    } else if p.TryClaim? && s.publish.claim == p.sequence {
      TryClaimKeepsBase(c, s, i, e);
    } else {
      ScanKeepsBase(c, s, i, e);
    }
  }

  // ---- Consumers -----------------------------------------------------------------------

  lemma ConsumeOnlyOwn(c: Config, s: State, j: nat, throws: bool)
    requires Shape(c, s) && j < |s.consumers| && s.consumers[j].sequence <= s.consumers[j].next - 1
    ensures var t := Consume(c, s, j, throws);
      && t == SetConsumer(s, j, t.consumers[j])
      && s.consumers[j].sequence <= t.consumers[j].sequence
      && s.consumers[j].next <= t.consumers[j].next
  {
  }

  /** A consumer that has not finished a barrier scan. */
  lemma PhaseKeepsPosition(c: Config, s: State, j: nat, throws: bool)
    requires Shape(c, s) && j < |s.consumers| && j < |c.starts|
    requires PositionOk(s, s.consumers[j], c.graph.deps[j], c.starts[j])
    requires s.consumers[j].phase.ScanningBarrier? ==> s.consumers[j].phase.scan.index < |c.graph.deps[j]|
    ensures PositionOk(s, Consume(c, s, j, throws).consumers[j], c.graph.deps[j], c.starts[j])
  {
  }

  lemma ConsumeKeepsOwn(c: Config, s: State, j: nat, throws: bool)
    requires Shape(c, s) && c.Aligned() && PositionsOk(c, s) && j < |s.consumers| && c.publish.start <= s.publish.cursor
    ensures PositionOk(s, Consume(c, s, j, throws).consumers[j], c.graph.deps[j], c.starts[j])
  {
    var k := s.consumers[j];
    assert PositionOk(s, k, c.graph.deps[j], c.starts[j]);
    if k.phase.ScanningBarrier? && k.phase.scan.index >= |c.graph.deps[j]| {
      ScanBoundsBarrier(c, s, j);
    } else {
      PhaseKeepsPosition(c, s, j, throws);
    }
  }

  /** A finished barrier scan is bounded by the cursor, because an anchor of the barrier is. */
  lemma ScanBoundsBarrier(c: Config, s: State, j: nat)
    requires Shape(c, s) && c.Aligned() && PositionsOk(c, s) && c.publish.start <= s.publish.cursor
    requires j < |s.consumers| && s.consumers[j].phase.ScanningBarrier?
    requires s.consumers[j].phase.scan.index >= |c.graph.deps[j]|
    ensures BarrierOk(s, c.graph.deps[j], s.consumers[j].phase.scan.min)
  {
    var deps := c.graph.deps[j];
    var scan := s.consumers[j].phase.scan;
    assert PositionOk(s, s.consumers[j], deps, c.starts[j]);
    forall d | d in deps && d < |s.consumers| ensures scan.min <= s.consumers[d].sequence {
      var x :| 0 <= x < |deps| && deps[x] == d;
    }
    assert c.HasAnchor(j);
    var d :| d in deps && d < |c.starts| && c.starts[d] <= P.Max(c.publish.start, c.starts[j] + 1);
    assert PositionOk(s, s.consumers[d], c.graph.deps[d], c.starts[d]);
  }

  lemma ConsumeKeepsBase(c: Config, s: State, j: nat, throws: bool)
    requires BaseInv(c, s) && j < |s.consumers|
    ensures BaseInv(c, Consume(c, s, j, throws))
  {
    var t := Consume(c, s, j, throws);
    assert PositionOk(s, s.consumers[j], c.graph.deps[j], c.starts[j]);
    ConsumeOnlyOwn(c, s, j, throws);
    ConsumeKeepsOwn(c, s, j, throws);
    FloorsGrow(c, s, t, j);
    PositionsStayOrdered(c, s, t, j);
  }

  lemma FloorsGrow(c: Config, s: State, t: State, j: nat)
    requires Shape(c, s) && ProducersOk(c, s) && CachesOk(s) && EventsOk(c, s)
    requires j < |s.consumers| == |t.consumers| && t == SetConsumer(s, j, t.consumers[j])
    requires s.consumers[j].sequence <= t.consumers[j].sequence
    ensures ProducersOk(c, t) && CachesOk(t) && EventsOk(c, t)
  {
    assert forall m :: Floor(s, m) ==> Floor(t, m);
    forall i | 0 <= i < |t.producers| && i < |t.publish.publishers|
      ensures ProducerOk(c, t, t.producers[i], t.publish.publishers[i])
    {
      assert ProducerOk(c, s, s.producers[i], s.publish.publishers[i]);
    }
  }

  /** A position only grows, so what was a bound on somebody else's behalf stays one. */
  lemma PositionsStayOrdered(c: Config, s: State, t: State, j: nat)
    requires PositionsOk(c, s) && j < |s.consumers| == |t.consumers| && t == SetConsumer(s, j, t.consumers[j])
    requires s.consumers[j].sequence <= t.consumers[j].sequence
    requires PositionOk(s, t.consumers[j], c.graph.deps[j], c.starts[j])
    ensures PositionsOk(c, t)
  {
    forall i | 0 <= i < |t.consumers| ensures PositionOk(t, t.consumers[i], c.graph.deps[i], c.starts[i]) {
      if i != j { assert PositionOk(s, s.consumers[i], c.graph.deps[i], c.starts[i]); }
    }
  }

  // ---- Runs ----------------------------------------------------------------------------

  lemma StepKeepsBase(c: Config, s: State, t: State)
    requires BaseInv(c, s) && Next(c, s, t)
    ensures BaseInv(c, t)
  {
    if i, r :| BeginStep(c, s, t, i, r) {
      BeginKeepsBase(c, s, i, r);
    } else if i: nat, e: Event :| ProduceStep(c, s, t, i, e) {
      ProduceKeepsBase(c, s, i, e);
    } else {
      var j, throws :| ConsumeStep(c, s, t, j, throws);
      ConsumeKeepsBase(c, s, j, throws);
    }
  }

  lemma {:induction false} RunBase(c: Config, run: seq<State>)
    requires IsRun(c, run) && c.Aligned()
    ensures BaseInv(c, run[|run| - 1])
  {
    if |run| == 1 {
      var blank :| run[0] == Initial(c, blank);
      InitBase(c, blank);
    } else {
      Shorter(c, run, |run| - 1);
      RunBase(c, run[..|run| - 1]);
      assert StepAt(c, run, |run| - 1);
      StepKeepsBase(c, run[|run| - 2], run[|run| - 1]);
    }
  }
}
