/** What holds of every run of the ring's machine, for handlers, producers and the DSL's HasBacklog. */
module RingResults {
  import opened Slots
  import opened RingPipeline
  import opened RingBase
  import opened RingInvariant
  import P = PublishProtocol
  import G = ProcessorGraph

  // ---- What holds of every run ---------------------------------------------------------

  ghost predicate Extends(s: State, t: State) {
    && |s.consumers| == |t.consumers| && s.publish.cursor <= t.publish.cursor
    && (forall x :: x in s.events ==> x in t.events && t.events[x] == s.events[x])
    && (forall j :: 0 <= j < |s.consumers| ==>
          s.consumers[j].log <= t.consumers[j].log && s.consumers[j].sequence <= t.consumers[j].sequence)
  }

  lemma ProduceExtends(c: Config, s: State, i: nat, e: Event)
    requires Shape(c, s) && i < |s.producers| && (s.producers[i].Filling? ==> s.producers[i].next !in s.events)
    ensures Extends(s, Produce(c, s, i, e))
  {
    if s.producers[i].Publishing? { P.AdvanceGrows(s.publish, i); }
  }

  lemma ConsumeExtends(c: Config, s: State, j: nat, throws: bool)
    requires Shape(c, s) && j < |s.consumers| && s.consumers[j].sequence <= s.consumers[j].next - 1
    ensures Extends(s, Consume(c, s, j, throws))
  {
  }

  /** One step never rewrites an event, and only extends what a consumer has been given. */
  lemma StepExtends(c: Config, s: State, t: State)
    requires Inv(c, s) && Next(c, s, t)
    ensures Extends(s, t)
  {
    if i, r :| BeginStep(c, s, t, i, r) {
    } else if i: nat, e: Event :| ProduceStep(c, s, t, i, e) {
      if s.producers[i].Filling? {
        assert ProducerOk(c, s, s.producers[i], s.publish.publishers[i]);
        NextIsUnfilled(c, s, i);
      }
      ProduceExtends(c, s, i, e);
    } else {
      var j: nat, throws: bool :| ConsumeStep(c, s, t, j, throws);
      assert PositionOk(s, s.consumers[j], c.graph.deps[j], c.starts[j]);
      ConsumeExtends(c, s, j, throws);
    }
  }

  lemma RunStepExtends(c: Config, run: seq<State>, k: nat)
    requires IsRun(c, run) && c.WellStarted() && 0 < k < |run|
    ensures Extends(run[k - 1], run[k])
  {
    StateInv(c, run, k - 1);
    assert StepAt(c, run, k);
    StepExtends(c, run[k - 1], run[k]);
  }

  lemma {:induction false} RunExtends(c: Config, run: seq<State>, a: nat, b: nat)
    requires IsRun(c, run) && c.WellStarted() && a <= b < |run|
    ensures Extends(run[a], run[b])
    decreases b - a
  {
    if a == b {
    } else {
      RunExtends(c, run, a, b - 1);
      RunStepExtends(c, run, b);
    }
  }

  /** What consumer j has been given at s is, without gap or repetition, the sequences from its own start
      on, and a part of what it has been given at t. Each above the ring's start comes with the event that
      its owner wrote for it, which is still its event at t, and a processor of j's barrier has been given
      the same. */
  ghost predicate SeesWhatWasWritten(c: Config, s: State, t: State, j: nat)
    requires j < |s.consumers| == |t.consumers| == |c.starts| == |c.graph.deps|
  {
    var log := s.consumers[j].log;
    && log <= t.consumers[j].log
    && (forall n :: 0 <= n < |log| ==> log[n].0 == c.starts[j] + 1 + n)
    && (forall n :: 0 <= n < |log| && log[n].0 > c.publish.start ==>
          Genuine(log[n], log[n].0, s.events) && Genuine(log[n], log[n].0, t.events))
    && (forall d :: d in c.graph.deps[j] && d < |s.consumers| ==>
          s.consumers[j].next - 1 <= s.consumers[d].sequence && Agree(c, s, j, d))
  }

  /** End to end: at any two moments of every run. */
  lemma HandlersSeeWhatWasWritten(c: Config, run: seq<State>, a: nat, b: nat, j: nat)
    requires IsRun(c, run) && c.WellStarted() && a <= b < |run| && j < |c.graph.deps|
    ensures j < |run[a].consumers| == |run[b].consumers| == |c.starts| == |c.graph.deps|
    ensures SeesWhatWasWritten(c, run[a], run[b], j)
  {
    StateInv(c, run, a);
    RunExtends(c, run, a, b);
    StatesSee(c, run[a], run[b], j);
  }

  lemma StatesSee(c: Config, s: State, t: State, j: nat)
    requires PositionsOk(c, s) && LogsOk(c, s) && Extends(s, t)
    requires j < |s.consumers| == |t.consumers| == |c.starts| == |c.graph.deps|
    ensures SeesWhatWasWritten(c, s, t, j)
  {
    var log := s.consumers[j].log;
    assert PositionOk(s, s.consumers[j], c.graph.deps[j], c.starts[j]);
    assert LogOk(c, log, c.starts[j], s.events);
    LogStaysHonest(c, log, c.starts[j], s.events, t.events);
    forall d | d in c.graph.deps[j] && d < |s.consumers|
      ensures s.consumers[j].next - 1 <= s.consumers[d].sequence && Agree(c, s, j, d)
    {
      LogsAgree(c, s, j, d);
    }
  }

  /** What j has been given above the ring's start and above d's own, d has been given as well. */
  ghost predicate Agree(c: Config, s: State, j: nat, d: nat)
    requires j < |s.consumers| == |c.starts| && d < |s.consumers|
  {
    forall n :: 0 <= n < |s.consumers[j].log| && s.consumers[j].log[n].0 > P.Max(c.publish.start, c.starts[d]) ==>
      s.consumers[j].log[n] in s.consumers[d].log
  }

  lemma LogsAgree(c: Config, s: State, j: nat, d: nat)
    requires PositionsOk(c, s) && LogsOk(c, s) && j < |s.consumers| && d < |s.consumers| && d in c.graph.deps[j]
    ensures Agree(c, s, j, d)
  {
    assert PositionOk(s, s.consumers[j], c.graph.deps[j], c.starts[j]);
    assert PositionOk(s, s.consumers[d], c.graph.deps[d], c.starts[d]);
    var lj, ld := s.consumers[j].log, s.consumers[d].log;
    assert LogOk(c, lj, c.starts[j], s.events) && LogOk(c, ld, c.starts[d], s.events);
    forall n | 0 <= n < |lj| && lj[n].0 > P.Max(c.publish.start, c.starts[d]) ensures lj[n] in ld {
      assert Honest(c, lj[n], c.starts[j] + 1 + n, s.events);
      var m := lj[n].0 - c.starts[d] - 1;
      assert Honest(c, ld[m], c.starts[d] + 1 + m, s.events);
      assert lj[n] == ld[m];
    }
  }

  /** A processor that begins below the ring's start, as every chained one does on a ring that starts
      above -1, is first given the slots up to there, for which nothing was ever written. So a log is
      genuine throughout exactly if its processor begins no earlier than the ring, or has read nothing. */
  lemma GenuineExactly(c: Config, run: seq<State>, k: nat, j: nat)
    requires IsRun(c, run) && c.WellStarted() && k < |run| && j < |c.graph.deps|
    ensures |run[k].consumers| == |c.starts| == |c.graph.deps|
    ensures var log := run[k].consumers[j].log;
      (forall n :: 0 <= n < |log| ==> Genuine(log[n], log[n].0, run[k].events))
      <==> (log == [] || c.starts[j] >= c.publish.start)
  {
    StateInv(c, run, k);
    StateGenuine(c, run[k], j);
  }

  lemma StateGenuine(c: Config, s: State, j: nat)
    requires PositionsOk(c, s) && LogsOk(c, s) && EventsOk(c, s) && j < |s.consumers|
    ensures var log := s.consumers[j].log;
      (forall n :: 0 <= n < |log| ==> Genuine(log[n], log[n].0, s.events))
      <==> (log == [] || c.starts[j] >= c.publish.start)
  {
    assert forall x :: x in s.events ==> x > c.publish.start;
    assert LogOk(c, s.consumers[j].log, c.starts[j], s.events);
    LogIsGenuine(c, s.consumers[j].log, c.starts[j], s.events);
  }

  lemma LogIsGenuine(c: Config, log: seq<(int, Event)>, start: int, events: map<int, Event>)
    requires LogOk(c, log, start, events) && forall x :: x in events ==> x > c.publish.start
    ensures (forall n :: 0 <= n < |log| ==> Genuine(log[n], log[n].0, events))
      <==> (log == [] || start >= c.publish.start)
  {
    if log != [] && start < c.publish.start {
      assert Honest(c, log[0], start + 1, events);
      assert !Genuine(log[0], log[0].0, events);
    }
    forall n | 0 <= n < |log| ensures log[n].0 == start + 1 + n { assert Honest(c, log[n], start + 1 + n, events); }
  }

  /** No producer overwrites what is still to be read: a sequence that is covered and that some
      consumer has not passed is found in its slot, at every step of every run. */
  lemma UnreadEventsSurvive(c: Config, run: seq<State>, k: nat, j: nat, x: int)
    requires IsRun(c, run) && c.WellStarted() && k < |run| && j < |run[k].consumers|
    requires run[k].consumers[j].sequence < x <= run[k].publish.cursor && x > c.publish.start
    ensures x in run[k].events && |run[k].ring| == c.bufferSize
    ensures run[k].ring[Slot(x, c.bufferSize)] == run[k].events[x]
  {
    StateInv(c, run, k);
    SlotHoldsEvent(c, run[k], j, x);
  }

  /** In every reachable state the slowest end of chain is the slowest processor of the graph. */
  lemma EndsAreSlowest(c: Config, run: seq<State>, k: nat)
    requires IsRun(c, run) && c.WellStarted() && k < |run|
    ensures |Sequences(run[k])| == |c.graph.deps|
    ensures MinOf(G.Select(Sequences(run[k]), c.gates)) == MinOf(Sequences(run[k]))
  {
    StateInv(c, run, k);
    ConsumersAreOrdered(c, run[k]);
    G.EndsGateEverybody(c.graph, Sequences(run[k]), c.gates);
  }

  /** HasBacklog returned false: it read the cursor at step a, the k-th end of chain at step
      seen[k], and each time found the cursor's value. If publishing had stopped, every processor
      of the graph, not only the ends, has now handled everything between its start and the cursor. */
  lemma NoBacklogMeansDone(c: Config, run: seq<State>, a: nat, seen: seq<nat>, b: nat)
    requires IsRun(c, run) && c.WellStarted() && a <= b < |run| && |seen| == |c.gates|
    requires forall k :: 0 <= k < |seen| ==> a <= seen[k] <= b && c.gates[k] < |run[seen[k]].consumers|
    requires forall k :: 0 <= k < |seen| ==> run[seen[k]].consumers[c.gates[k]].sequence == run[a].publish.cursor
    requires run[b].publish.cursor == run[a].publish.cursor
    ensures |run[b].consumers| == |c.starts|
    ensures forall j :: 0 <= j < |run[b].consumers| ==>
      && run[b].consumers[j].sequence == P.Max(run[b].publish.cursor, c.starts[j])
      && |run[b].consumers[j].log| == run[b].consumers[j].sequence - c.starts[j]
  {
    StateInv(c, run, b);
    var s := run[b];
    ConsumersAreOrdered(c, s);
    forall j | 0 <= j < |s.consumers|
      ensures s.consumers[j].sequence == P.Max(s.publish.cursor, c.starts[j])
      ensures |s.consumers[j].log| == s.consumers[j].sequence - c.starts[j]
    {
      var e := G.EndBelow(c.graph, Sequences(s), j);
      assert e in c.gates;
      var k :| 0 <= k < |c.gates| && c.gates[k] == e;
      RunExtends(c, run, seen[k], b);
      assert PositionOk(s, s.consumers[j], c.graph.deps[j], c.starts[j]);
    }
  }

  /** Producers never run further ahead than the ring is large: an event filled in is at most one
      lap above every consumer, in every state, despite stale caches and scans. */
  lemma AtMostOneLap(c: Config, run: seq<State>, k: nat, x: int, j: nat)
    requires IsRun(c, run) && c.WellStarted() && k < |run| && x in run[k].events && j < |run[k].consumers|
    ensures x <= run[k].consumers[j].sequence + c.bufferSize
  {
    StateInv(c, run, k);
  }

  /** The test Cursor + RemainingCapacity() >= m reads the cursor at step a, then the k-th gating sequence
      at step seen[k], then the cursor again at step d. Although the three belong to different moments, a
      number it lets pass is within a lap of every consumer, then and later. */
  lemma RacyCapacityTest(c: Config, run: seq<State>, a: nat, seen: seq<nat>, values: seq<int>, d: nat, b: nat, m: int)
    requires IsRun(c, run) && c.WellStarted() && a <= d <= b < |run| && |seen| == |values| == |c.gates|
    requires forall k :: 0 <= k < |seen| ==> a <= seen[k] <= d && c.gates[k] < |run[seen[k]].consumers|
    requires forall k :: 0 <= k < |seen| ==> values[k] == run[seen[k]].consumers[c.gates[k]].sequence
    requires m <= run[a].publish.cursor + (c.bufferSize - (run[d].publish.cursor - MinOf(values)))
    ensures forall j :: 0 <= j < |run[b].consumers| ==> m <= run[b].consumers[j].sequence + c.bufferSize
  {
    StateInv(c, run, b);
    RunExtends(c, run, a, d);
    var s := run[b];
    ConsumersAreOrdered(c, s);
    forall j | 0 <= j < |s.consumers| ensures m <= s.consumers[j].sequence + c.bufferSize {
      var e := G.EndBelow(c.graph, Sequences(s), j);
      assert e in c.gates;
      var k :| 0 <= k < |c.gates| && c.gates[k] == e;
      RunExtends(c, run, seen[k], b);
      assert LowerBound(MinOf(values), values);
    }
  }
}
