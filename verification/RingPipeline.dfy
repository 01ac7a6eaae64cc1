/** Producers, ring and consumers end to end: AbstractMultiThreadedClaimStrategy.cs claims and waits,
    the producer fills its slots, SerialisePublishing (module PublishProtocol, with all its
    interleavings) moves the cursor, and BatchEventProcessor.cs consumes behind the barriers of a
    processor graph. One step is one atomic access of shared memory. */
module RingPipeline {
  import opened Slots
  import P = PublishProtocol
  import G = ProcessorGraph

  type Event = int

  /** `gates` lists the ends of chain of the graph, `starts` says where each processor begins: the DSL
      builds such graphs. */
  datatype Config = Config(publish: P.Config, bufferSize: nat, graph: G.Graph, gates: seq<nat>, starts: seq<int>) {
    ghost predicate Valid() {
      && publish.Valid() && bufferSize > 0
      && G.WellFormed(graph) && |graph.deps| > 0 && G.Lists(gates, graph.ends)
      && (forall k :: 0 <= k < |gates| ==> gates[k] < |graph.deps|)
      && G.Ordered(graph, starts) && (forall v :: 0 <= v < |starts| ==> starts[v] >= -1)
    }

    /** Some processor begins no later than the ring. */
    ghost predicate Anchored() {
      exists j :: 0 <= j < |starts| && starts[j] <= publish.start
    }

    /** A barrier is not met from the beginning on by processors that all begin ahead of the cursor. */
    ghost predicate Aligned() {
      forall v :: 0 <= v < |graph.deps| && v < |starts| && graph.deps[v] != [] ==> HasAnchor(v)
    }

    ghost predicate HasAnchor(v: nat)
      requires v < |graph.deps| && v < |starts|
    {
      exists d :: d in graph.deps[v] && d < |starts| && starts[d] <= P.Max(publish.start, starts[v] + 1)
    }

    /** The largest batch that passes the guard of SerialisePublishing. */
    function LargestBatch(): nat {
      if publish.maxBatch < publish.pendingSize then publish.maxBatch else publish.pendingSize
    }

    /** What all threads but one can have claimed above an unfilled sequence, and still publish, fits into
        the ring: one pending window, and a batch for each of them. */
    ghost predicate Roomy() {
      publish.threads < 2 || publish.pendingSize + (publish.threads - 1) * LargestBatch() <= bufferSize
    }

    ghost predicate WellStarted() { Aligned() && (Anchored() || Roomy()) }
  }

  datatype Producer =
    | Resting
    | CapacityScan(wrapPoint: int, scan: Scan)
    | ReadyToClaim
    | TryScan(sequence: int, capacity: int, scan: Scan)
    | TryClaim(sequence: int, capacity: int)
    | FreeSlotScan(hi: int, batch: int, scan: Scan)
    | Filling(hi: int, batch: int, next: int)
    | Publishing

  datatype Phase = Waiting | ScanningBarrier(scan: Scan) | Handling(available: int) | Updating

  /** `log` records what the handler was given: sequence and the content of the slot. */
  datatype Consumer = Consumer(sequence: int, next: int, phase: Phase, log: seq<(int, Event)>)

  /** `events` is a history variable: what its owner wrote for each sequence. */
  datatype State = State(
    publish: P.State,
    ring: seq<Event>,
    events: map<int, Event>,
    producers: seq<Producer>,
    cached: seq<int>,
    consumers: seq<Consumer>)

  function Initial(c: Config, blank: Event): State
    requires c.Valid()
  {
    State(P.Initial(c.publish), seq(c.bufferSize, _ => blank), map[],
          seq(c.publish.threads, _ => Resting), seq(c.publish.threads, _ => -1),
          seq(|c.starts|, j requires 0 <= j < |c.starts| => Consumer(c.starts[j], c.starts[j] + 1, Waiting, [])))
  }

  // ---- Producers -----------------------------------------------------------------------

  function SetProducer(s: State, i: nat, p: Producer): State
    requires i < |s.producers|
  {
    s.(producers := s.producers[i := p])
  }

  /** AddAndGet on the claim sequence, then the local test of the cached minimum. */
  function ClaimBatch(c: Config, s: State, i: nat, delta: int): State
    requires i < |s.producers| && i < |s.publish.publishers| && i < |s.cached|
  {
    var hi := s.publish.claim + delta;
    SetProducer(s, i, if hi - c.bufferSize > s.cached[i] then FreeSlotScan(hi, delta, FRESH_SCAN)
                      else Filling(hi, delta, hi - delta + 1))
    .(publish := P.Claim(s.publish, i, delta))
  }

  /** The test at the top of CheckAndIncrement's loop. */
  function TryAgain(c: Config, s: State, i: nat, capacity: int): State
    requires i < |s.producers| && i < |s.cached|
  {
    SetProducer(s, i, if s.publish.claim + capacity - c.bufferSize > s.cached[i]
                      then TryScan(s.publish.claim, capacity, FRESH_SCAN) else TryClaim(s.publish.claim, capacity))
  }

  datatype Request = NextOne | TryNext(availableCapacity: int) | NextBatch(size: int)

  /** A resting thread calls Next(), TryNext(n) or Next(batch). */
  function Begin(c: Config, s: State, i: nat, r: Request): State
    requires i < |s.producers| && i < |s.publish.publishers| && i < |s.cached|
  {
    match r
    case NextOne =>
      var wrap := s.publish.claim + 1 - c.bufferSize;
      SetProducer(s, i, if wrap > s.cached[i] then CapacityScan(wrap, FRESH_SCAN) else ReadyToClaim)
    case TryNext(n) => TryAgain(c, s, i, n)
    case NextBatch(size) => ClaimBatch(c, s, i, size)
  }

  /** One read of a scan over the gating sequences. */
  function ReadGate(c: Config, s: State, scan: Scan): Scan
    requires scan.index < |c.gates| && c.gates[scan.index] < |s.consumers|
  {
    scan.Read(s.consumers[c.gates[scan.index]].sequence)
  }

  /** The next step of a producer that is not resting; `e` is the event it fills in. */
  function Produce(c: Config, s: State, i: nat, e: Event): State
    requires Shape(c, s) && i < |s.producers|
  {
    match s.producers[i]
    case Resting => s
    case CapacityScan(wrap, scan) =>
      if scan.index < |c.gates| then SetProducer(s, i, CapacityScan(wrap, ReadGate(c, s, scan)))
      else if wrap > scan.min then SetProducer(s, i, CapacityScan(wrap, FRESH_SCAN))
      else SetProducer(s, i, ReadyToClaim).(cached := s.cached[i := scan.min])
    case ReadyToClaim => ClaimBatch(c, s, i, 1)
    case TryScan(sequence, n, scan) =>
      if scan.index < |c.gates| then SetProducer(s, i, TryScan(sequence, n, ReadGate(c, s, scan)))
      else SetProducer(s, i, if sequence + n - c.bufferSize > scan.min then Resting else TryClaim(sequence, n))
           .(cached := s.cached[i := scan.min])
    case TryClaim(sequence, n) =>
      if s.publish.claim == sequence
      then SetProducer(s, i, Filling(sequence + 1, 1, sequence + 1)).(publish := P.Claim(s.publish, i, 1))
      else TryAgain(c, s, i, n)
    case FreeSlotScan(hi, batch, scan) =>
      if scan.index < |c.gates| then SetProducer(s, i, FreeSlotScan(hi, batch, ReadGate(c, s, scan)))
      else if hi - c.bufferSize > scan.min then SetProducer(s, i, FreeSlotScan(hi, batch, FRESH_SCAN))
      else SetProducer(s, i, Filling(hi, batch, hi - batch + 1)).(cached := s.cached[i := scan.min])
    case Filling(hi, batch, next) =>
      SetProducer(s, i, if next < hi then Filling(hi, batch, next + 1) else Publishing)
      .(ring := s.ring[Slot(next, c.bufferSize) := e], events := s.events[next := e])
    case Publishing =>
      var publish := P.Advance(s.publish, i);
      SetProducer(s, i, if publish.publishers[i].Idle? then Resting else Publishing).(publish := publish)
  }

  // ---- Consumers -----------------------------------------------------------------------

  function SetConsumer(s: State, j: nat, k: Consumer): State
    requires j < |s.consumers|
  {
    s.(consumers := s.consumers[j := k])
  }

  /** The next step of consumer j. A handler that throws has handled its event; it ends the batch. */
  function Consume(c: Config, s: State, j: nat, throws: bool): State
    requires Shape(c, s) && j < |s.consumers|
  {
    var k := s.consumers[j];
    var deps := c.graph.deps[j];
    match k.phase
    case Waiting =>
      if s.publish.cursor < k.next then s
      else if deps == [] then SetConsumer(s, j, k.(phase := Handling(s.publish.cursor)))
      else SetConsumer(s, j, k.(phase := ScanningBarrier(FRESH_SCAN)))
    case ScanningBarrier(scan) =>
      if scan.index < |deps| then
        assert deps[scan.index] in deps;
        SetConsumer(s, j, k.(phase := ScanningBarrier(scan.Read(s.consumers[deps[scan.index]].sequence))))
      else if scan.min < k.next then SetConsumer(s, j, k.(phase := ScanningBarrier(FRESH_SCAN)))
      else SetConsumer(s, j, k.(phase := Handling(scan.min)))
    case Handling(available) =>
      if k.next <= available then
        SetConsumer(s, j, k.(log := k.log + [(k.next, s.ring[Slot(k.next, c.bufferSize)])], next := k.next + 1,
                             phase := if throws then Updating else Handling(available)))
      else SetConsumer(s, j, k.(phase := Updating))
    case Updating => SetConsumer(s, j, k.(sequence := k.next - 1, phase := Waiting))
  }

  // ---- Steps ---------------------------------------------------------------------------

  /** Batches are not empty; TryNext refuses a capacity below one. */
  ghost predicate Allowed(c: Config, r: Request) {
    match r
    case NextOne => true
    case TryNext(n) => n >= 1
    case NextBatch(size) => 1 <= size <= c.publish.maxBatch
  }

  ghost predicate BeginStep(c: Config, s: State, t: State, i: nat, r: Request) {
    Shape(c, s) && i < |s.producers| && s.producers[i].Resting? && Allowed(c, r) && t == Begin(c, s, i, r)
  }

  ghost predicate ProduceStep(c: Config, s: State, t: State, i: nat, e: Event) {
    Shape(c, s) && i < |s.producers| && t == Produce(c, s, i, e)
  }

  ghost predicate ConsumeStep(c: Config, s: State, t: State, j: nat, throws: bool) {
    Shape(c, s) && j < |s.consumers| && t == Consume(c, s, j, throws)
  }

  ghost predicate Next(c: Config, s: State, t: State) {
    || (exists i, r :: BeginStep(c, s, t, i, r))
    || (exists i, e :: ProduceStep(c, s, t, i, e))
    || (exists j, throws :: ConsumeStep(c, s, t, j, throws))
  }

  ghost predicate IsRun(c: Config, run: seq<State>) {
    && c.Valid() && |run| > 0 && (exists blank :: run[0] == Initial(c, blank))
    && forall k :: 0 < k < |run| ==> StepAt(c, run, k)
  }

  ghost predicate StepAt(c: Config, run: seq<State>, k: nat)
    requires 0 < k < |run|
  {
    Next(c, run[k - 1], run[k])
  }

  // ---- The invariant -------------------------------------------------------------------

  ghost predicate Shape(c: Config, s: State) {
    && c.Valid() && |s.ring| == c.bufferSize && |s.consumers| == |c.graph.deps|
    && |s.publish.pending| == c.publish.pendingSize
    && |s.producers| == |s.cached| == |s.publish.publishers| == c.publish.threads
  }

  /** No consumer is below m. */
  ghost predicate Floor(s: State, m: int) {
    forall j :: 0 <= j < |s.consumers| ==> m <= s.consumers[j].sequence
  }

  /** The reads of a scan done so far are still lower bounds: sequences only grow. */
  ghost predicate GateScanOk(c: Config, s: State, scan: Scan) {
    forall x :: 0 <= x < scan.index && x < |c.gates| && c.gates[x] < |s.consumers| ==>
      scan.min <= s.consumers[c.gates[x]].sequence
  }

  ghost predicate ProducerOk(c: Config, s: State, p: Producer, q: P.Publisher) {
    match p
    case Resting => q.Idle?
    case CapacityScan(wrap, scan) => q.Idle? && GateScanOk(c, s, scan)
    case ReadyToClaim => q.Idle?
    case TryScan(sequence, n, scan) => q.Idle? && GateScanOk(c, s, scan) && n >= 1
    case TryClaim(sequence, n) => q.Idle? && n >= 1 && Floor(s, sequence + 1 - c.bufferSize)
    case FreeSlotScan(hi, batch, scan) => q == P.Guard(hi, batch) && GateScanOk(c, s, scan)
    case Filling(hi, batch, next) =>
      q == P.Guard(hi, batch) && hi - batch + 1 <= next <= hi && Floor(s, hi - c.bufferSize)
    case Publishing => !q.Idle?
  }

  ghost predicate ProducersOk(c: Config, s: State) {
    forall i :: 0 <= i < |s.producers| && i < |s.publish.publishers| ==>
      ProducerOk(c, s, s.producers[i], s.publish.publishers[i])
  }

  /** The cached minimum, however stale, is below every consumer. */
  ghost predicate CachesOk(s: State) {
    forall i :: 0 <= i < |s.cached| ==> Floor(s, s.cached[i])
  }

  ghost predicate Filled(p: Producer, x: int) {
    p.Publishing? || (p.Filling? && x < p.next)
  }

  /** A claimed sequence has its event exactly when its owner has filled it in. */
  ghost predicate EventsOk(c: Config, s: State) {
    && s.publish.written <= s.events.Keys
    && (forall i, x :: 0 <= i < |s.producers| && i < |s.publish.publishers| && s.publish.publishers[i].Owns(x) ==>
          (x in s.events <==> Filled(s.producers[i], x)))
    && (forall x :: x in s.events ==> c.publish.start < x <= s.publish.claim && Floor(s, x - c.bufferSize))
  }

  /** A single publisher is in the middle of what was claimed last. */
  ghost predicate Solo(s: P.State) {
    |s.publishers| == 1 && !s.publishers[0].Idle? ==> s.publishers[0].hi == s.claim
  }

  /** The publisher stands before the guard with a batch that will never pass it. */
  predicate Oversized(p: P.Publisher, pendingSize: nat) { p.Guard? && p.batch > pendingSize }

  /** No batch at or below x blocks the cursor for ever. */
  ghost predicate Unblocked(s: P.State, x: int) {
    forall i :: 0 <= i < |s.publishers| && Oversized(s.publishers[i], |s.pending|) ==> x < s.publishers[i].Lo()
  }

  /** Until every consumer has passed x, its slot holds the event written for x, unless the cursor can
      never reach x. */
  ghost predicate RingOk(c: Config, s: State) {
    c.bufferSize == |s.ring| > 0 &&
    forall x :: x in s.events && !Floor(s, x) && Unblocked(s.publish, x) ==> s.ring[Slot(x, |s.ring|)] == s.events[x]
  }

  /** No processor of the barrier is below the limit. */
  ghost predicate DepsOk(s: State, deps: seq<nat>, limit: int) {
    forall d :: d in deps && d < |s.consumers| ==> limit <= s.consumers[d].sequence
  }

  ghost predicate BarrierOk(s: State, deps: seq<nat>, limit: int) {
    limit <= s.publish.cursor && DepsOk(s, deps, limit)
  }

  /** A log entry for x carries the event written for x. */
  ghost predicate Genuine(entry: (int, Event), x: int, events: map<int, Event>) {
    entry.0 == x && x in events && entry.1 == events[x]
  }

  /** The same for a sequence above the ring's start; below it nothing was ever written. */
  ghost predicate Honest(c: Config, entry: (int, Event), x: int, events: map<int, Event>) {
    entry.0 == x && (x > c.publish.start ==> Genuine(entry, x, events))
  }

  ghost predicate BarrierScanOk(s: State, scan: Scan, deps: seq<nat>) {
    forall x :: 0 <= x < scan.index && x < |deps| && deps[x] < |s.consumers| ==>
      scan.min <= s.consumers[deps[x]].sequence
  }

  ghost predicate PositionOk(s: State, k: Consumer, deps: seq<nat>, start: int) {
    && start <= k.sequence <= k.next - 1
    && (k.next - 1 <= s.publish.cursor || k.next - 1 == start) && DepsOk(s, deps, k.next - 1)
    && (k.phase.Waiting? ==> k.sequence == k.next - 1)
    && (k.phase.ScanningBarrier? ==>
          && deps != [] && k.sequence == k.next - 1 && k.next <= s.publish.cursor
          && BarrierScanOk(s, k.phase.scan, deps))
    && (k.phase.Handling? ==> k.next - 1 <= k.phase.available && BarrierOk(s, deps, k.phase.available))
    && |k.log| == k.next - 1 - start
  }

  ghost predicate PositionsOk(c: Config, s: State) {
    |s.consumers| == |c.graph.deps| == |c.starts| &&
    forall j :: 0 <= j < |s.consumers| ==> PositionOk(s, s.consumers[j], c.graph.deps[j], c.starts[j])
  }

  ghost predicate LogOk(c: Config, log: seq<(int, Event)>, start: int, events: map<int, Event>) {
    forall n :: 0 <= n < |log| ==> Honest(c, log[n], start + 1 + n, events)
  }

  ghost predicate LogsOk(c: Config, s: State) {
    forall j :: 0 <= j < |s.consumers| && j < |c.starts| ==> LogOk(c, s.consumers[j].log, c.starts[j], s.events)
  }

  /** What holds also where producers may lap an unfilled slot. */
  ghost predicate BaseInv(c: Config, s: State) {
    && Shape(c, s) && c.Aligned() && P.Inv(c.publish, s.publish) && Solo(s.publish) && ProducersOk(c, s) && CachesOk(s)
    && EventsOk(c, s) && PositionsOk(c, s)
  }

  ghost predicate Inv(c: Config, s: State) {
    BaseInv(c, s) && c.WellStarted() && RingOk(c, s) && LogsOk(c, s)
  }

  ghost function Sequences(s: State): (r: seq<int>)
    ensures |r| == |s.consumers|
    ensures forall j :: 0 <= j < |r| ==> r[j] == s.consumers[j].sequence
  {
    seq(|s.consumers|, j requires 0 <= j < |s.consumers| => s.consumers[j].sequence)
  }

  /** Downstream never overtakes upstream. */
  lemma ConsumersAreOrdered(c: Config, s: State)
    requires c.Valid() && PositionsOk(c, s)
    ensures G.Ordered(c.graph, Sequences(s))
  {
    forall v, d | 0 <= v < |c.graph.deps| && d in c.graph.deps[v] && d < |s.consumers|
      ensures s.consumers[v].sequence <= s.consumers[d].sequence
    {
      assert PositionOk(s, s.consumers[v], c.graph.deps[v], c.starts[v]);
    }
  }

  /** A finished scan of the ends of chain bounds every consumer, although its reads happened at
      different times. */
  lemma FinishedScanIsFloor(c: Config, s: State, scan: Scan)
    requires Shape(c, s) && PositionsOk(c, s) && GateScanOk(c, s, scan) && scan.index >= |c.gates|
    ensures Floor(s, scan.min)
  {
    ConsumersAreOrdered(c, s);
    forall j | 0 <= j < |s.consumers| ensures scan.min <= s.consumers[j].sequence {
      var e := G.EndBelow(c.graph, Sequences(s), j);
      assert e in c.gates;
      var x :| 0 <= x < |c.gates| && c.gates[x] == e;
      assert scan.min <= s.consumers[c.gates[x]].sequence;
    }
  }

  lemma Shorter(c: Config, run: seq<State>, n: nat)
    requires IsRun(c, run) && 0 < n <= |run|
    ensures IsRun(c, run[..n])
  {
    var shorter := run[..n];
    forall k | 0 < k < |shorter| ensures StepAt(c, shorter, k) {
      assert StepAt(c, run, k);
    }
  }
}
