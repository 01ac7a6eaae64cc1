/** The processors of the graph reach the cursor, and an event that a producer pushes through the ring
    arrives at every handler. */
module RingDelivery {
  import opened Slots
  import opened RingPipeline
  import opened RingBase
  import opened RingInvariant
  import opened RingSchedules
  import P = PublishProtocol
  import G = ProcessorGraph

  // ---- One processor -------------------------------------------------------------------

  /** It waits for a sequence above the cursor, and its published position says so. */
  ghost predicate CaughtUp(c: Config, s: State, v: nat) {
    && v < |s.consumers| && v < |c.starts| && s.consumers[v].phase.Waiting?
    && s.consumers[v].sequence == s.consumers[v].next - 1 == P.Max(s.publish.cursor, c.starts[v])
  }

  ghost function Unread(s: State, v: nat): nat
    requires v < |s.consumers|
  {
    if s.consumers[v].next <= s.publish.cursor then s.publish.cursor - s.consumers[v].next + 1 else 0
  }

  /** How many steps until it hands out the next sequence, or has nothing more to do. */
  ghost function Rank(c: Config, s: State, v: nat): nat
    requires Shape(c, s) && v < |s.consumers|
  {
    var k, d := s.consumers[v], |c.graph.deps[v]|;
    match k.phase
    case Waiting => 2 * d + 4
    case ScanningBarrier(scan) =>
      (if scan.index < d then d - scan.index else 0) + if scan.min >= k.next then 1 else d + 2
    case Handling(available) => if k.next <= available then 0 else 2 * d + 6
    case Updating => 2 * d + 5
  }

  /** The barrier of v has been passed by the processors it names. */
  ghost predicate BarrierOpen(c: Config, s: State, v: nat)
    requires Shape(c, s) && v < |s.consumers|
  {
    forall d :: d in c.graph.deps[v] && d < |s.consumers| ==> d != v && s.consumers[d].sequence >= s.publish.cursor
  }

  lemma ConsumeMoves(c: Config, s: State, v: nat)
    requires Shape(c, s) && v < |s.consumers| && BarrierOpen(c, s, v) && s.publish.cursor <= MAX_LONG
    requires PositionOk(s, s.consumers[v], c.graph.deps[v], c.starts[v]) && v < |c.starts| && !CaughtUp(c, s, v)
    ensures var t := Consume(c, s, v, false);
      && Shape(c, t) && OnlyProcessor(s, t, v) && BarrierOpen(c, t, v)
      && (Unread(t, v) < Unread(s, v) || (Unread(t, v) == Unread(s, v) && Rank(c, t, v) < Rank(c, s, v)))
  {
    var k := s.consumers[v];
    if k.phase.ScanningBarrier? && k.phase.scan.index < |c.graph.deps[v]| {
      var d := c.graph.deps[v][k.phase.scan.index];
      assert d in c.graph.deps[v];
    }
  }

  lemma OnlyProcessorTwice(s: State, t: State, u: State, v: nat)
    requires OnlyProcessor(s, t, v) && OnlyProcessor(t, u, v)
    ensures OnlyProcessor(s, u, v)
  {
  }

  /** Processor v alone reads, handles and publishes its position up to the cursor. */
  lemma {:induction false} CatchUp(c: Config, s: State, v: nat) returns (t: State)
    requires Ready(c, s) && c.Aligned() && v < |s.consumers| && BarrierOpen(c, s, v) && s.publish.cursor <= MAX_LONG
    ensures Ready(c, t) && OnlyProcessor(s, t, v) && CaughtUp(c, t, v)
    decreases Unread(s, v), Rank(c, s, v)
  {
    PositionOf(c, s, v);
    if CaughtUp(c, s, v) { return s; }
    ConsumeMoves(c, s, v);
    ReachConsume(c, s, v);
    t := CatchUp(c, Consume(c, s, v, false), v);
    OnlyProcessorTwice(s, Consume(c, s, v, false), t, v);
  }

  lemma PositionOf(c: Config, s: State, v: nat)
    requires Ready(c, s) && c.Aligned() && v < |s.consumers|
    ensures v < |c.starts| && PositionOk(s, s.consumers[v], c.graph.deps[v], c.starts[v])
  {
    ReachableBase(c, s);
  }

  // ---- All processors ------------------------------------------------------------------

  /** From s to t only processors have moved. */
  ghost predicate OnlyProcessors(s: State, t: State) {
    && t.publish == s.publish && t.ring == s.ring && t.events == s.events && t.producers == s.producers
    && |t.consumers| == |s.consumers|
  }

  ghost predicate FirstCaughtUp(c: Config, s: State, n: nat) {
    forall v :: 0 <= v < n ==> CaughtUp(c, s, v)
  }

  lemma FirstOpens(c: Config, s: State, v: nat)
    requires Shape(c, s) && v < |s.consumers| && FirstCaughtUp(c, s, v)
    ensures BarrierOpen(c, s, v)
  {
    forall d | d in c.graph.deps[v] && d < |s.consumers| ensures d != v && s.consumers[d].sequence >= s.publish.cursor {
      assert d < v && CaughtUp(c, s, d);
    }
  }

  lemma OneMoreCaughtUp(c: Config, s: State, t: State, v: nat)
    requires FirstCaughtUp(c, s, v) && OnlyProcessor(s, t, v) && CaughtUp(c, t, v)
    ensures FirstCaughtUp(c, t, v + 1)
  {
    forall u | 0 <= u < v + 1 ensures CaughtUp(c, t, u) {
      if u < v { assert CaughtUp(c, s, u) && t.consumers[u] == s.consumers[u]; }
    }
  }

  /** In the order of their creation, each behind its barrier. */
  lemma {:induction false} CatchUpFirst(c: Config, s: State, n: nat) returns (t: State)
    requires Ready(c, s) && c.Aligned() && n <= |s.consumers| && s.publish.cursor <= MAX_LONG
    ensures Ready(c, t) && OnlyProcessors(s, t) && FirstCaughtUp(c, t, n)
    decreases n
  {
    t := s;
    if n > 0 {
      var u := CatchUpFirst(c, s, n - 1);
      FirstOpens(c, u, n - 1);
      t := CatchUp(c, u, n - 1);
      OneMoreCaughtUp(c, u, t, n - 1);
    }
  }

  /** From every reachable state of a ring with aligned barriers the processors alone reach the cursor: every
      one has then been given everything from its own start to the cursor, and published its position. */
  lemma ProcessorsCatchUp(c: Config, s: State) returns (t: State)
    requires Reachable(c, s) && c.Aligned() && s.publish.cursor <= MAX_LONG
    ensures Ready(c, t) && OnlyProcessors(s, t) && |t.consumers| == |c.starts|
    ensures forall v :: 0 <= v < |t.consumers| ==> CaughtUp(c, t, v)
    ensures forall v :: 0 <= v < |t.consumers| ==> |t.consumers[v].log| == t.consumers[v].sequence - c.starts[v]
  {
    ReachableBase(c, s);
    t := CatchUpFirst(c, s, |s.consumers|);
    forall v | 0 <= v < |t.consumers| ensures |t.consumers[v].log| == t.consumers[v].sequence - c.starts[v] {
      PositionOf(c, t, v);
      assert CaughtUp(c, t, v);
    }
  }

  // ---- One event -----------------------------------------------------------------------

  /** Nobody publishes, and everything claimed is covered. */
  ghost predicate AtRest(c: Config, s: State) {
    && Shape(c, s) && s.publish.cursor == s.publish.claim
    && forall i :: 0 <= i < |s.producers| ==> s.producers[i].Resting? && s.publish.publishers[i].Idle?
  }

  lemma CaughtUpFloor(c: Config, s: State)
    requires FirstCaughtUp(c, s, |s.consumers|)
    ensures Floor(s, s.publish.cursor)
  {
    forall v | 0 <= v < |s.consumers| ensures s.publish.cursor <= s.consumers[v].sequence { assert CaughtUp(c, s, v); }
  }

  /** Thread i claims, fills and publishes the next sequence; nobody else moves. */
  lemma PushOne(c: Config, s: State, i: nat, e: Event) returns (t: State)
    requires Ready(c, s) && c.Aligned() && AtRest(c, s) && i < |s.producers| && s.publish.cursor <= MAX_LONG
    requires Floor(s, s.publish.cursor)
    ensures Ready(c, t) && AtRest(c, t) && t.publish.cursor == s.publish.cursor + 1
    ensures t.publish.cursor in t.events && t.events[t.publish.cursor] == e && t.consumers == s.consumers
  {
    ReachableBase(c, s);
    var n := s.publish.cursor + 1;
    var s1 := ClaimWithRoom(c, s, i, 1, s.publish.cursor);
    var s2 := FillAll(c, s1, i, e, n, 1, n);
    UnclaimedIsHidden(c, s2, n + 1);
    t := PublishInLine(c, s2, i, n, 1, n);
    RestAgain(c, s, s1, s2, t, i);
  }

  lemma RestAgain(c: Config, s: State, s1: State, s2: State, t: State, i: nat)
    requires AtRest(c, s) && Shape(c, t) && OnlyThread(s, s1, i) && OnlyThread(s1, s2, i) && OnlyThread(s2, t, i)
    requires i < |t.producers| && t.producers[i].Resting? && t.publish.publishers[i].Idle?
    requires t.publish.cursor == t.publish.claim
    ensures AtRest(c, t)
  {
    forall j | 0 <= j < |t.producers| ensures t.producers[j].Resting? && t.publish.publishers[j].Idle? {
      if j != i { assert t.producers[j] == s.producers[j] && t.publish.publishers[j] == s.publish.publishers[j]; }
    }
  }

  /** An event pushed through a ring at rest arrives: the next sequence is claimed, filled with e and published
      by thread i, and then every processor that does not begin above it is given it, with e. */
  lemma EventArrives(c: Config, s: State, i: nat, e: Event) returns (t: State)
    requires Reachable(c, s) && c.WellStarted() && AtRest(c, s) && i < |s.producers| && s.publish.cursor < MAX_LONG
    ensures Reachable(c, t) && AtRest(c, t) && t.publish.cursor == s.publish.cursor + 1 && |t.consumers| == |c.starts|
    ensures forall v :: 0 <= v < |t.consumers| && c.starts[v] <= s.publish.cursor ==>
      && t.consumers[v].sequence == t.publish.cursor
      && t.consumers[v].log != [] && t.consumers[v].log[|t.consumers[v].log| - 1] == (t.publish.cursor, e)
  {
    ReachableBase(c, s);
    var s1 := ProcessorsCatchUp(c, s);
    CaughtUpFloor(c, s1);
    var s2 := PushOne(c, s1, i, e);
    t := ProcessorsCatchUp(c, s2);
    forall v | 0 <= v < |t.consumers| && c.starts[v] <= s.publish.cursor
      ensures t.consumers[v].sequence == t.publish.cursor && t.consumers[v].log != []
      ensures t.consumers[v].log[|t.consumers[v].log| - 1] == (t.publish.cursor, e)
    {
      GivenLast(c, t, v);
    }
  }

  /** What a processor at the cursor was given last is the event of the cursor. */
  lemma GivenLast(c: Config, t: State, v: nat)
    requires Ready(c, t) && c.WellStarted() && v < |t.consumers| && CaughtUp(c, t, v) && c.starts[v] < t.publish.cursor
    requires t.publish.cursor > c.publish.start
    ensures t.consumers[v].sequence == t.publish.cursor && t.consumers[v].log != [] && t.publish.cursor in t.events
    ensures t.consumers[v].log[|t.consumers[v].log| - 1] == (t.publish.cursor, t.events[t.publish.cursor])
  {
    PositionOf(c, t, v);
    LogOf(c, t, v);
    LastOfLog(c, t.consumers[v].log, c.starts[v], t.publish.cursor, t.events);
  }

  lemma LogOf(c: Config, t: State, v: nat)
    requires Ready(c, t) && c.WellStarted() && v < |t.consumers| && v < |c.starts|
    ensures LogOk(c, t.consumers[v].log, c.starts[v], t.events)
  {
    var run :| IsRun(c, run) && run[|run| - 1] == t;
    RunInv(c, run);
  }

  lemma LastOfLog(c: Config, log: seq<(int, Event)>, start: int, n: int, events: map<int, Event>)
    requires LogOk(c, log, start, events) && |log| == n - start > 0 && n > c.publish.start
    ensures n in events && log[|log| - 1] == (n, events[n])
  {
    assert Honest(c, log[|log| - 1], start + 1 + (|log| - 1), events);
  }

  // ---- A handler that throws -----------------------------------------------------------

  /** It has handled its event: it ends the batch, and its processor publishes the position behind it. */
  lemma ThrowingEndsBatch(c: Config, s: State, v: nat)
    requires Shape(c, s) && v < |s.consumers| && s.consumers[v].phase.Handling?
    requires s.consumers[v].next <= s.consumers[v].phase.available
    ensures var t := Consume(c, s, v, true); var n := s.consumers[v].next;
      && Shape(c, t) && t.consumers[v].log == s.consumers[v].log + [(n, s.ring[Slot(n, c.bufferSize)])]
      && var u := Consume(c, t, v, false);
        u.consumers[v].sequence == n && u.consumers[v].next == n + 1 && u.consumers[v].phase.Waiting?
        && u.consumers[v].log == t.consumers[v].log
  {
  }
}
