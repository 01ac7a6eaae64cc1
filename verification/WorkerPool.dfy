/** A pool of workers that share one work sequence: WorkProcessor.cs and WorkerPool.cs, between Start
    and Halt. One step is one atomic access. Producers, each with a cached minimum, fill the sequences
    they have claimed in any order, and the cursor may follow at any distance over filled ones. */
module WorkerPool {
  import opened Slots

  type Event = int

  datatype Config = Config(start: int, bufferSize: nat, producers: nat, workers: nat) {
    ghost predicate Valid() { bufferSize > 0 && workers > 0 }
  }

  /** `Claiming`: about to increment the work sequence. `Claimed(n)`: has incremented it to n, its own
      sequence is not written yet. `Waiting(n)`: waits for n or is about to handle it. */
  datatype Phase = Claiming | Claimed(n: int) | Waiting(n: int)
  {
    predicate Holds(x: int) { !Claiming? && n == x }
  }

  datatype Worker = Worker(sequence: int, phase: Phase)

  /** A producer's cached minimum of the worker sequences, and its scan of them in progress. */
  datatype Producer = Producer(floor: int, scan: Scan)

  /** DrainAndHalt: `cursor` is the value its loop test read before it scanned the workers. */
  datatype Drain = NotDraining | Draining(cursor: int, scan: Scan) | Drained(cursor: int)

  datatype Entry = Entry(worker: nat, sequence: int, event: Event)

  datatype State = State(
    cursor: int,
    ring: seq<Event>,
    events: map<int, Event>,
    producers: seq<Producer>,
    workSequence: int,
    workers: seq<Worker>,
    log: seq<Entry>,
    drain: Drain)

  /** Right after Start: work sequence and worker sequences stand at the cursor. */
  function Started(c: Config, ring: seq<Event>): State
    requires c.Valid() && |ring| == c.bufferSize
  {
    State(c.start, ring, map[], seq(c.producers, _ => Producer(c.start, FRESH_SCAN)), c.start,
          seq(c.workers, _ => Worker(c.start, Claiming)), [], NotDraining)
  }

  datatype Step =
    | Fill(p: nat, n: int, e: Event)
    | MoveCursor(to: int)
    | GateScan(p: nat)
    | Work(w: nat)
    | DrainTest

  function ReadWorker(s: State, scan: Scan): Scan
    requires scan.index < |s.workers|
  {
    scan.Read(s.workers[scan.index].sequence)
  }

  function Handle(s: State, w: nat, n: int): State
    requires w < |s.workers| && |s.ring| > 0
  {
    s.(workers := s.workers[w := s.workers[w].(phase := Claiming)],
       log := s.log + [Entry(w, n, s.ring[Slot(n, |s.ring|)])])
  }

  /** One step; a step whose guard fails changes nothing. A handler that throws has handled. */
  function Apply(c: Config, s: State, step: Step): State
    requires Shape(c, s)
  {
    match step
    case Fill(p, n, e) => if p < |s.producers| then FillStep(c, s, p, n, e) else s
    case MoveCursor(to) =>
      if s.cursor <= to && (forall x :: s.cursor < x <= to ==> x in s.events) then s.(cursor := to) else s
    case GateScan(p) => if p < |s.producers| then GateStep(s, p) else s
    case Work(w) =>
      if w < |s.workers| then WorkStep(s, w) else s
    case DrainTest => s.(drain := DrainStep(s))
  }

  /** Producer p fills a sequence that nobody has filled, if its cached minimum lets it. */
  function FillStep(c: Config, s: State, p: nat, n: int, e: Event): State
    requires Shape(c, s) && p < |s.producers|
  {
    if n <= c.start || n in s.events || n - c.bufferSize > s.producers[p].floor then s
    else s.(ring := s.ring[Slot(n, c.bufferSize) := e], events := s.events[n := e])
  }

  function GateStep(s: State, p: nat): State
    requires p < |s.producers|
  {
    var q := s.producers[p];
    s.(producers := s.producers[p := if q.scan.index < |s.workers| then q.(scan := ReadWorker(s, q.scan))
                                     else Producer(q.scan.min, FRESH_SCAN)])
  }

  function WorkStep(s: State, w: nat): State
    requires w < |s.workers| && |s.ring| > 0
  {
    match s.workers[w].phase
    case Claiming =>
      s.(workSequence := s.workSequence + 1,
         workers := s.workers[w := s.workers[w].(phase := Claimed(s.workSequence + 1))])
    case Claimed(n) => s.(workers := s.workers[w := Worker(n - 1, Waiting(n))])
    case Waiting(n) => if s.cursor < n then s else Handle(s, w, n)
  }

  function DrainStep(s: State): Drain {
    match s.drain
    case NotDraining => Draining(s.cursor, FRESH_SCAN)
    case Draining(cursor, scan) =>
      if scan.index < |s.workers| then Draining(cursor, ReadWorker(s, scan))
      else if cursor > scan.min then Draining(s.cursor, FRESH_SCAN)
      else Drained(cursor)
    case Drained(_) => s.drain
  }

  ghost predicate Shape(c: Config, s: State) {
    c.Valid() && |s.ring| == c.bufferSize && |s.workers| == c.workers
  }

  ghost predicate IsRun(c: Config, run: seq<State>) {
    && c.Valid() && |run| > 0
    && Shape(c, run[0]) && run[0] == Started(c, run[0].ring)
    && forall k :: 0 < k < |run| ==> StepAt(c, run, k)
  }

  ghost predicate StepAt(c: Config, run: seq<State>, k: nat)
    requires 0 < k < |run|
  {
    Next(c, run[k - 1], run[k])
  }

  lemma Shorter(c: Config, run: seq<State>, n: nat)
    requires IsRun(c, run) && 0 < n <= |run|
    ensures IsRun(c, run[..n])
  {
    forall k | 0 < k < n ensures StepAt(c, run[..n], k) { assert StepAt(c, run, k); }
  }

  ghost predicate Takes(c: Config, s: State, t: State, step: Step) {
    Shape(c, s) && t == Apply(c, s, step)
  }

  ghost predicate Next(c: Config, s: State, t: State) {
    exists step :: Takes(c, s, t, step)
  }

  // ---- The invariant -------------------------------------------------------------------

  ghost predicate Handled(s: State, x: int) {
    exists k :: 0 <= k < |s.log| && s.log[k].sequence == x
  }

  ghost predicate Floor(s: State, m: int) {
    forall w :: 0 <= w < |s.workers| ==> m <= s.workers[w].sequence
  }

  ghost predicate ScanOk(s: State, scan: Scan) {
    forall w :: 0 <= w < scan.index && w < |s.workers| ==> scan.min <= s.workers[w].sequence
  }

  ghost predicate WorkersOk(c: Config, s: State) {
    && c.start <= s.workSequence
    && (forall w :: 0 <= w < |s.workers| ==>
          var k := s.workers[w];
          && c.start <= k.sequence <= s.workSequence
          && (!k.phase.Claiming? ==> k.sequence < k.phase.n && c.start < k.phase.n <= s.workSequence)
          && (k.phase.Waiting? ==> k.sequence == k.phase.n - 1))
    && (forall v, w :: 0 <= v < w < |s.workers| && !s.workers[v].phase.Claiming? && !s.workers[w].phase.Claiming? ==>
          s.workers[v].phase.n != s.workers[w].phase.n)
  }

  /** Every claimed sequence is held by a worker or handled, never both, never twice. */
  ghost predicate OnceOnly(c: Config, s: State) {
    && (forall a, b :: 0 <= a < b < |s.log| ==> s.log[a].sequence != s.log[b].sequence)
    && (forall a :: 0 <= a < |s.log| ==> c.start < s.log[a].sequence <= s.workSequence)
    && (forall a, w :: 0 <= a < |s.log| && 0 <= w < |s.workers| ==> !s.workers[w].phase.Holds(s.log[a].sequence))
    && (forall x :: c.start < x <= s.workSequence ==>
          Handled(s, x) || exists w :: 0 <= w < |s.workers| && s.workers[w].phase.Holds(x))
  }

  ghost predicate ProducerOk(c: Config, s: State) {
    && c.start <= s.cursor && (forall x :: c.start < x <= s.cursor ==> x in s.events)
    && (forall x :: x in s.events ==> c.start < x && Floor(s, x - c.bufferSize))
    && (forall p :: 0 <= p < |s.producers| ==> Floor(s, s.producers[p].floor) && ScanOk(s, s.producers[p].scan))
  }

  /** A slot keeps its event until every worker has passed it. A worker passes a sequence only when it
      claims the next one, so the entry it hands to its handler is its own during the whole call. */
  ghost predicate RingOk(s: State) {
    |s.ring| > 0 && forall x :: x in s.events && !Floor(s, x) ==> s.ring[Slot(x, |s.ring|)] == s.events[x]
  }

  ghost predicate LogOk(s: State) {
    forall a :: 0 <= a < |s.log| ==>
      s.log[a].sequence in s.events && s.log[a].event == s.events[s.log[a].sequence]
  }

  ghost predicate DrainOk(c: Config, s: State) {
    match s.drain
    case NotDraining => true
    case Draining(cursor, scan) => ScanOk(s, scan) && cursor <= s.cursor
    case Drained(cursor) => cursor <= s.cursor && forall x :: c.start < x <= cursor ==> Handled(s, x)
  }

  ghost predicate Inv(c: Config, s: State) {
    && Shape(c, s) && WorkersOk(c, s) && OnceOnly(c, s) && ProducerOk(c, s)
    && RingOk(s) && LogOk(s) && DrainOk(c, s)
  }

  /** An unhandled sequence stays above the slowest worker, also between the shared increment and the
      worker's own write. */
  lemma UnhandledIsAboveSlowest(c: Config, s: State, x: int) returns (w: nat)
    requires Shape(c, s) && WorkersOk(c, s) && OnceOnly(c, s) && x > c.start && !Handled(s, x)
    ensures w < |s.workers| && s.workers[w].sequence < x
  {
    if x > s.workSequence { return 0; }
    w :| 0 <= w < |s.workers| && s.workers[w].phase.Holds(x);
  }

  lemma InitInv(c: Config, ring: seq<Event>)
    requires c.Valid() && |ring| == c.bufferSize
    ensures Inv(c, Started(c, ring))
  {
  }

  /** Filling n does not touch the event of another sequence that some worker has not passed. */
  lemma FillKeepsOthers(c: Config, s: State, n: int, x: int)
    requires Shape(c, s) && WorkersOk(c, s) && OnceOnly(c, s) && ProducerOk(c, s) && LogOk(s)
    requires n > c.start && n !in s.events && Floor(s, n - c.bufferSize)
    requires x in s.events && !Floor(s, x)
    ensures Slot(x, c.bufferSize) != Slot(n, c.bufferSize)
  {
    if Slot(x, c.bufferSize) == Slot(n, c.bufferSize) {
      if x < n {
        SlotsApart(x, n, c.bufferSize);
      } else {
        SlotsApart(n, x, c.bufferSize);
        var w := UnhandledIsAboveSlowest(c, s, n);
      }
    }
  }

  lemma FillKeepsRing(c: Config, s: State, p: nat, n: int, e: Event)
    requires Inv(c, s) && p < |s.producers|
    ensures RingOk(FillStep(c, s, p, n, e))
  {
    var t := FillStep(c, s, p, n, e);
    if t != s {
      SameWork(c, s, t);
      assert Floor(s, n - c.bufferSize);
      forall x | x in t.events && !Floor(t, x) ensures t.ring[Slot(x, |t.ring|)] == t.events[x] {
        assert !Floor(s, x);
        if x != n { FillKeepsOthers(c, s, n, x); }
      }
    }
  }

  lemma FillKeepsInv(c: Config, s: State, p: nat, n: int, e: Event)
    requires Inv(c, s) && p < |s.producers|
    ensures Inv(c, FillStep(c, s, p, n, e))
  {
    var t := FillStep(c, s, p, n, e);
    FillKeepsRing(c, s, p, n, e);
    SameWork(c, s, t);
    FillKeepsProducers(c, s, p, n, e);
    FillKeepsLog(c, s, p, n, e);
  }

  lemma FillKeepsProducers(c: Config, s: State, p: nat, n: int, e: Event)
    requires Shape(c, s) && ProducerOk(c, s) && p < |s.producers|
    ensures Shape(c, FillStep(c, s, p, n, e)) && ProducerOk(c, FillStep(c, s, p, n, e))
  {
    var t := FillStep(c, s, p, n, e);
    assert forall m :: Floor(s, m) <==> Floor(t, m);
    assert forall scan :: ScanOk(s, scan) <==> ScanOk(t, scan);
    assert Floor(s, s.producers[p].floor);
  }

  lemma FillKeepsLog(c: Config, s: State, p: nat, n: int, e: Event)
    requires Shape(c, s) && LogOk(s) && DrainOk(c, s) && p < |s.producers|
    ensures LogOk(FillStep(c, s, p, n, e)) && DrainOk(c, FillStep(c, s, p, n, e))
  {
    var t := FillStep(c, s, p, n, e);
    assert forall x :: Handled(s, x) <==> Handled(t, x);
  }

  /** What producers, ring and drain rely on survives when worker sequences only move up. */
  lemma RestStaysOk(c: Config, s: State, t: State)
    requires ProducerOk(c, s) && RingOk(s) && LogOk(s) && DrainOk(c, s)
    requires t == s.(workers := t.workers, workSequence := t.workSequence) && |t.workers| == |s.workers|
    requires forall w :: 0 <= w < |s.workers| ==> s.workers[w].sequence <= t.workers[w].sequence
    ensures ProducerOk(c, t) && RingOk(t) && LogOk(t) && DrainOk(c, t)
  {
    assert forall m :: Floor(s, m) ==> Floor(t, m);
    assert forall scan :: ScanOk(s, scan) ==> ScanOk(t, scan);
    assert forall x :: Handled(s, x) <==> Handled(t, x);
  }

  lemma ClaimKeepsOnce(c: Config, s: State, w: nat)
    requires Shape(c, s) && WorkersOk(c, s) && OnceOnly(c, s) && w < |s.workers| && s.workers[w].phase.Claiming?
    ensures WorkersOk(c, WorkStep(s, w)) && OnceOnly(c, WorkStep(s, w))
  {
    var t := WorkStep(s, w);
    assert forall x :: Handled(s, x) <==> Handled(t, x);
    forall x | c.start < x <= t.workSequence
      ensures Handled(t, x) || exists v :: 0 <= v < |t.workers| && t.workers[v].phase.Holds(x)
    {
      if x == t.workSequence {
        assert t.workers[w].phase.Holds(x);
      } else if !Handled(s, x) {
        var v :| 0 <= v < |s.workers| && s.workers[v].phase.Holds(x);
        assert t.workers[v].phase.Holds(x);
      }
    }
  }

  lemma ClaimKeepsInv(c: Config, s: State, w: nat)
    requires Inv(c, s) && w < |s.workers| && s.workers[w].phase.Claiming?
    ensures Inv(c, WorkStep(s, w))
  {
    ClaimKeepsOnce(c, s, w);
    RestStaysOk(c, s, WorkStep(s, w));
  }

  lemma WriteSequenceKeepsOnce(c: Config, s: State, w: nat)
    requires Shape(c, s) && WorkersOk(c, s) && OnceOnly(c, s) && w < |s.workers| && s.workers[w].phase.Claimed?
    ensures WorkersOk(c, WorkStep(s, w)) && OnceOnly(c, WorkStep(s, w))
  {
    var t := WorkStep(s, w);
    assert forall x :: Handled(s, x) <==> Handled(t, x);
    forall x | c.start < x <= t.workSequence
      ensures Handled(t, x) || exists v :: 0 <= v < |t.workers| && t.workers[v].phase.Holds(x)
    {
      if !Handled(s, x) {
        var v :| 0 <= v < |s.workers| && s.workers[v].phase.Holds(x);
        assert t.workers[v].phase.Holds(x);
      }
    }
  }

  lemma WriteSequenceKeepsInv(c: Config, s: State, w: nat)
    requires Inv(c, s) && w < |s.workers| && s.workers[w].phase.Claimed?
    ensures Inv(c, WorkStep(s, w))
  {
    WriteSequenceKeepsOnce(c, s, w);
    RestStaysOk(c, s, WorkStep(s, w));
  }

  lemma HandleGrowsHandled(s: State, w: nat, n: int)
    requires w < |s.workers| && |s.ring| > 0
    ensures forall x :: Handled(Handle(s, w, n), x) <==> Handled(s, x) || x == n
  {
    var t := Handle(s, w, n);
    assert t.log[|s.log|].sequence == n;
    forall x | Handled(s, x) ensures Handled(t, x) {
      var k :| 0 <= k < |s.log| && s.log[k].sequence == x;
      assert t.log[k].sequence == x;
    }
  }

  lemma HandleKeepsWorkers(c: Config, s: State, w: nat)
    requires Shape(c, s) && WorkersOk(c, s) && w < |s.workers| && s.workers[w].phase.Waiting?
    ensures WorkersOk(c, Handle(s, w, s.workers[w].phase.n))
  {
  }

  lemma HandleKeepsOnce(c: Config, s: State, w: nat)
    requires Shape(c, s) && WorkersOk(c, s) && OnceOnly(c, s) && w < |s.workers| && s.workers[w].phase.Waiting?
    ensures OnceOnly(c, Handle(s, w, s.workers[w].phase.n)) && !Handled(s, s.workers[w].phase.n)
  {
    var n := s.workers[w].phase.n;
    var t := Handle(s, w, n);
    HandleGrowsHandled(s, w, n);
    assert s.workers[w].phase.Holds(n);
    forall x | c.start < x <= t.workSequence
      ensures Handled(t, x) || exists v :: 0 <= v < |t.workers| && t.workers[v].phase.Holds(x)
    {
      if !Handled(t, x) {
        var v :| 0 <= v < |s.workers| && s.workers[v].phase.Holds(x);
        assert t.workers[v].phase.Holds(x);
      }
    }
  }

  lemma HandleKeepsInv(c: Config, s: State, w: nat)
    requires Inv(c, s) && w < |s.workers| && s.workers[w].phase.Waiting? && s.workers[w].phase.n <= s.cursor
    ensures Inv(c, Handle(s, w, s.workers[w].phase.n))
  {
    var n := s.workers[w].phase.n;
    HandleGrowsHandled(s, w, n);
    HandleKeepsWorkers(c, s, w);
    HandleKeepsOnce(c, s, w);
    assert !Floor(s, n);
    assert n in s.events && s.ring[Slot(n, |s.ring|)] == s.events[n];
  }

  /** Steps that do not touch workers and log. */
  lemma SameWork(c: Config, s: State, t: State)
    requires WorkersOk(c, s) && OnceOnly(c, s)
    requires t.workers == s.workers && t.workSequence == s.workSequence && t.log == s.log
    ensures WorkersOk(c, t) && OnceOnly(c, t)
    ensures forall x :: Handled(s, x) <==> Handled(t, x)
  {
    assert forall x :: Handled(s, x) <==> Handled(t, x);
  }

  lemma DrainKeepsInv(c: Config, s: State)
    requires Inv(c, s)
    ensures Inv(c, Apply(c, s, DrainTest))
  {
    var t := Apply(c, s, DrainTest);
    SameWork(c, s, t);
    DrainStepOk(c, s);
  }

  lemma DrainStepOk(c: Config, s: State)
    requires Shape(c, s) && WorkersOk(c, s) && OnceOnly(c, s) && DrainOk(c, s)
    ensures DrainOk(c, s.(drain := DrainStep(s)))
  {
    var t := s.(drain := DrainStep(s));
    SameWork(c, s, t);
    if s.drain.Draining? && t.drain.Drained? {
      forall x | c.start < x <= t.drain.cursor ensures Handled(t, x) {
        if !Handled(s, x) {
          var w := UnhandledIsAboveSlowest(c, s, x);
        }
      }
    }
  }

  lemma MoveCursorKeepsInv(c: Config, s: State, to: int)
    requires Inv(c, s)
    ensures Inv(c, Apply(c, s, MoveCursor(to)))
  {
    var t := Apply(c, s, MoveCursor(to));
    SameWork(c, s, t);
    assert forall m :: Floor(s, m) ==> Floor(t, m);
    assert forall scan :: ScanOk(s, scan) ==> ScanOk(t, scan);
  }

  lemma GateKeepsProducers(c: Config, s: State, p: nat)
    requires Shape(c, s) && ProducerOk(c, s) && p < |s.producers|
    ensures ProducerOk(c, GateStep(s, p))
  {
    var t := GateStep(s, p);
    assert forall m :: Floor(s, m) <==> Floor(t, m);
    assert forall scan :: ScanOk(s, scan) <==> ScanOk(t, scan);
    assert Floor(s, s.producers[p].floor) && ScanOk(s, s.producers[p].scan);
  }

  lemma GateKeepsInv(c: Config, s: State, p: nat)
    requires Inv(c, s) && p < |s.producers|
    ensures Inv(c, GateStep(s, p))
  {
    GateKeepsProducers(c, s, p);
    SameWork(c, s, GateStep(s, p));
    assert forall scan :: ScanOk(s, scan) <==> ScanOk(GateStep(s, p), scan);
  }

  lemma StepKeepsInv(c: Config, s: State, step: Step)
    requires Inv(c, s)
    ensures Inv(c, Apply(c, s, step))
  {
    match step
    case Fill(p, n, e) => if p < |s.producers| { FillKeepsInv(c, s, p, n, e); }
    case MoveCursor(to) => MoveCursorKeepsInv(c, s, to);
    case GateScan(p) => if p < |s.producers| { GateKeepsInv(c, s, p); }
    case DrainTest => DrainKeepsInv(c, s);
    case Work(w) =>
      if w < |s.workers| {
        if s.workers[w].phase.Claiming? {
          ClaimKeepsInv(c, s, w);
        } else if s.workers[w].phase.Claimed? {
          WriteSequenceKeepsInv(c, s, w);
        } else if s.workers[w].phase.n <= s.cursor {
          HandleKeepsInv(c, s, w);
        }
      }
  }

  lemma NextKeepsInv(c: Config, s: State, t: State)
    requires Inv(c, s) && Next(c, s, t)
    ensures Inv(c, t)
  {
    var step :| Takes(c, s, t, step);
    StepKeepsInv(c, s, step);
  }

  lemma {:induction false} RunInv(c: Config, run: seq<State>)
    requires IsRun(c, run)
    ensures Inv(c, run[|run| - 1])
  {
    if |run| == 1 {
      InitInv(c, run[0].ring);
    } else {
      Shorter(c, run, |run| - 1);
      RunInv(c, run[..|run| - 1]);
      assert StepAt(c, run, |run| - 1);
      NextKeepsInv(c, run[|run| - 2], run[|run| - 1]);
    }
  }

  // ---- What holds of every run ---------------------------------------------------------

  /** The worker that was given the entry has not moved on: its handler may still be at work. */
  ghost predicate Busy(s: State, entry: Entry) {
    entry.worker < |s.workers| && s.workers[entry.worker].sequence < entry.sequence
  }

  /** No sequence goes to two workers, each handler sees the event written for its sequence, what some
      worker has not passed is untouched in the ring, and that includes whatever is still to be handled
      and what a handler is working on. */
  lemma ExactlyOnce(c: Config, run: seq<State>)
    requires IsRun(c, run)
    ensures var s := run[|run| - 1];
      && (forall a, b :: 0 <= a < b < |s.log| ==> s.log[a].sequence != s.log[b].sequence)
      && LogOk(s) && RingOk(s)
      && (forall x :: x in s.events && !Handled(s, x) ==> !Floor(s, x))
      && (forall a :: 0 <= a < |s.log| && Busy(s, s.log[a]) ==>
            s.ring[Slot(s.log[a].sequence, |s.ring|)] == s.log[a].event)
  {
    RunInv(c, run);
    var s := run[|run| - 1];
    forall x | x in s.events && !Handled(s, x) ensures !Floor(s, x) {
      var w := UnhandledIsAboveSlowest(c, s, x);
    }
    forall a | 0 <= a < |s.log| && Busy(s, s.log[a])
      ensures s.ring[Slot(s.log[a].sequence, |s.ring|)] == s.log[a].event
    {
      assert !Floor(s, s.log[a].sequence);
    }
  }

  /** When the wait of DrainAndHalt ends, everything up to the cursor it compared with is handled. */
  lemma DrainedMeansHandled(c: Config, run: seq<State>, x: int)
    requires IsRun(c, run) && run[|run| - 1].drain.Drained? && c.start < x <= run[|run| - 1].drain.cursor
    ensures Handled(run[|run| - 1], x)
  {
    RunInv(c, run);
  }
}
