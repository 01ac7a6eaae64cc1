/** Whole runs of the domain events loop: stores, a fast channel that may lose, repeat, delay and
    reorder, polling, processors with their own checkpoints, crashes and restarts.
    DomainEventsLoop.cs, DomainEventsProcessor.cs, EfCheckpointManager.cs.

    A call of AddEventToDisruptor is one step, taken when its waits are over. Assumed of the store:
    a fast message is a committed record, and a number that a poll has found missing is not
    committed later. */
module DomainEventRuns {
  import opened Slots
  import opened DomainEventsLoop
  import C = ClaimStrategy

  /** `initial` holds the processors' checkpoints before the first start. */
  datatype Config = Config(bufferSize: nat, pendingSize: nat, initial: seq<int>) {
    ghost predicate Valid() {
      && bufferSize > 0 && pendingSize > 0 && |initial| > 0
      && forall p :: 0 <= p < |initial| ==> initial[p] >= -1
    }
  }

  /** A processor of the running session. `begin` is the checkpoint it started from, `checkpoint` the
      stored one, `saving` says that the checkpoint of the record before `next` is about to be saved.
      `log` is what it has been given in this session. History over all sessions: the numbers `offered`
      to the handler, those for which it reported success, and those whose save was completed. */
  datatype Processor = Processor(
    begin: int, sequence: int, next: int, checkpoint: int, saving: bool,
    log: seq<Entry>, offered: set<int>, succeeded: set<int>, saved: set<int>)

  /** What is settled: the records committed, and the numbers a poll has found missing. */
  datatype History = History(store: map<int, Payload>, gaps: set<int>)

  datatype Poll = NotPolling | Polling(checkpoint: int, entries: seq<Entry>, index: nat)

  datatype State = State(
    history: History,
    start: int,
    cursor: int,
    published: set<int>,
    ring: seq<Entry>,
    poll: Poll,
    processors: seq<Processor>)

  datatype Step =
    | Commit(n: int, payload: Payload)
    | FastMessage(n: int)
    | StartPoll(max: int, page: seq<Entry>)
    | AddPolled
    | EndPoll
    | Handle(p: nat, handled: bool)
    | SaveCheckpoint(p: nat, failed: bool)
    | UpdateSequence(p: nat)
    | Restart

  function Restarted(q: Processor): Processor {
    q.(begin := q.checkpoint, sequence := q.checkpoint, next := q.checkpoint + 1, saving := false, log := [])
  }

  function Checkpoints(ps: seq<Processor>): seq<int> {
    seq(|ps|, p requires 0 <= p < |ps| => ps[p].checkpoint)
  }

  /** Start: the ring begins at the least checkpoint, each processor at its own. */
  ghost function Session(c: Config, history: History, ps: seq<Processor>): State
    requires |ps| > 0
  {
    var start := ps[IndexOfLeast(Checkpoints(ps))].checkpoint;
    State(history, start, start, {}, seq(c.bufferSize, _ => Empty(0)), NotPolling,
          seq(|ps|, p requires 0 <= p < |ps| => Restarted(ps[p])))
  }

  ghost function NewProcessors(c: Config): seq<Processor> {
    seq(|c.initial|, p requires 0 <= p < |c.initial| => Processor(0, 0, 0, c.initial[p], false, [], {}, {}, {}))
  }

  ghost function Initial(c: Config): State
    requires c.Valid()
  {
    Session(c, History(map[], {}), NewProcessors(c))
  }

  /** No processor is more than a whole ring behind number n. */
  ghost predicate WithinLap(bufferSize: nat, ps: seq<Processor>, n: int) {
    forall p :: 0 <= p < |ps| ==> n - bufferSize <= ps[p].sequence
  }

  /** The waits of AddEventToDisruptor and SerialisePublishing are over for number n. */
  ghost predicate CanAdd(c: Config, s: State, n: int) {
    WithinLap(c.bufferSize, s.processors, n) && n - s.cursor <= c.pendingSize
  }

  ghost function Add(s: State, e: Entry): State
    requires |s.ring| > 0
  {
    if e.sequence <= s.cursor then s
    else
      var published := s.published + {e.sequence};
      s.(published := published, cursor := C.RunEnd(s.start, published),
         ring := s.ring[Slot(e.sequence, |s.ring|) := e])
  }

  /** The page size of a poll is left open: the cursor and the remaining capacity are read at
      different moments. */
  ghost predicate Enabled(c: Config, s: State, step: Step) {
    match step
    case Commit(n, _) => !Decided(s.history, n)
    case FastMessage(n) => n in s.history.store && n - s.cursor <= c.bufferSize && CanAdd(c, s, n)
    case StartPoll(max, page) => s.poll.NotPolling? && IsPage(s.history.store, s.cursor, max, page)
    case AddPolled =>
      s.poll.Polling? && s.poll.index < |s.poll.entries| && CanAdd(c, s, s.poll.entries[s.poll.index].sequence)
    case EndPoll => s.poll.Polling? && s.poll.index == |s.poll.entries|
    case Handle(p, _) => p < |s.processors| && !s.processors[p].saving && s.processors[p].next <= s.cursor
    case SaveCheckpoint(p, _) => p < |s.processors| && s.processors[p].saving
    case UpdateSequence(p) => p < |s.processors| && !s.processors[p].saving
    case Restart => true
  }

  function Set(s: State, p: nat, q: Processor): State
    requires p < |s.processors|
  {
    s.(processors := s.processors[p := q])
  }

  /** OnNext: an empty record is skipped; a stored one is offered to the handler, and only when that
      reports success its checkpoint is going to be saved. */
  function OnNext(q: Processor, e: Entry, handled: bool): Processor {
    q.(log := q.log + [e], next := q.next + 1, saving := e.Stored? && handled,
       offered := if e.Stored? then q.offered + {q.next} else q.offered,
       succeeded := if e.Stored? && handled then q.succeeded + {q.next} else q.succeeded)
  }

  /** SaveCheckpoint of EfCheckpointManager never lowers the stored number. A save that throws leaves
      the database alone, and the batch processor goes on behind the record. */
  function Save(q: Processor, failed: bool): Processor {
    if failed then q.(saving := false)
    else q.(checkpoint := if q.checkpoint < q.next - 1 then q.next - 1 else q.checkpoint,
            saving := false, saved := q.saved + {q.next - 1})
  }

  /** The polled list, as FillGaps makes it. */
  ghost function Filled(store: map<int, Payload>, checkpoint: int, page: seq<Entry>): seq<Entry> {
    var last := if page == [] then checkpoint else page[|page| - 1].sequence;
    seq(if last > checkpoint then last - checkpoint else 0, k => Truth(store, checkpoint + 1 + k))
  }

  ghost function MissingIn(entries: seq<Entry>): set<int> {
    set k | 0 <= k < |entries| && entries[k].Empty? :: entries[k].sequence
  }

  ghost function BeginPoll(s: State, page: seq<Entry>): State {
    var entries := Filled(s.history.store, s.cursor, page);
    s.(poll := Polling(s.cursor, entries, 0), history := s.history.(gaps := s.history.gaps + MissingIn(entries)))
  }

  ghost function Apply(c: Config, s: State, step: Step): State
    requires |s.ring| > 0 && |s.processors| > 0 && Enabled(c, s, step)
  {
    match step
    case Commit(n, payload) => s.(history := s.history.(store := s.history.store[n := payload]))
    case FastMessage(n) => Add(s, Truth(s.history.store, n))
    case StartPoll(_, page) => BeginPoll(s, page)
    case AddPolled => Add(s, s.poll.entries[s.poll.index]).(poll := s.poll.(index := s.poll.index + 1))
    case EndPoll => s.(poll := NotPolling)
    case Handle(p, handled) =>
      var q := s.processors[p];
      Set(s, p, OnNext(q, s.ring[Slot(q.next, |s.ring|)], handled))
    case SaveCheckpoint(p, failed) => Set(s, p, Save(s.processors[p], failed))
    case UpdateSequence(p) => Set(s, p, s.processors[p].(sequence := s.processors[p].next - 1))
    case Restart => Session(c, s.history, s.processors)
  }

  ghost predicate Takes(c: Config, s: State, t: State, step: Step) {
    |s.ring| > 0 && |s.processors| > 0 && Enabled(c, s, step) && t == Apply(c, s, step)
  }

  ghost predicate Next(c: Config, s: State, t: State) {
    exists step :: Takes(c, s, t, step)
  }

  ghost predicate IsRun(c: Config, run: seq<State>) {
    && c.Valid() && |run| > 0 && run[0] == Initial(c)
    && forall k :: 0 < k < |run| ==> StepAt(c, run, k)
  }

  ghost predicate StepAt(c: Config, run: seq<State>, k: nat)
    requires 0 < k < |run|
  {
    Next(c, run[k - 1], run[k])
  }

  // ---- The invariant -------------------------------------------------------------------

  ghost predicate Decided(h: History, n: int) { n in h.store || n in h.gaps }

  ghost predicate Consistent(h: History) { forall n :: n in h.gaps ==> n !in h.store }

  /** What was settled stays settled, with the same record. */
  ghost predicate Extends(h: History, later: History) {
    forall n :: Decided(h, n) ==> Decided(later, n) && Truth(later.store, n) == Truth(h.store, n)
  }

  ghost predicate CursorOk(s: State) {
    s.start >= -1 && s.cursor == C.RunEnd(s.start, s.published)
  }

  ghost predicate PublishedOk(h: History, start: int, bufferSize: nat, published: set<int>, ps: seq<Processor>) {
    forall n :: n in published ==> start < n && Decided(h, n) && WithinLap(bufferSize, ps, n)
  }

  /** Every processor has left number n behind. */
  ghost predicate Passed(ps: seq<Processor>, n: int) {
    forall p :: 0 <= p < |ps| ==> n <= ps[p].sequence
  }

  ghost predicate RingOk(h: History, published: set<int>, ring: seq<Entry>, ps: seq<Processor>) {
    |ring| > 0 && forall n :: n in published && !Passed(ps, n) ==> ring[Slot(n, |ring|)] == Truth(h.store, n)
  }

  ghost predicate PollOk(h: History, cursor: int, poll: Poll) {
    poll.Polling? ==>
      && poll.index <= |poll.entries| && poll.checkpoint + poll.index <= cursor
      && Dense(h.store, poll.checkpoint, poll.entries)
      && (forall k :: 0 <= k < |poll.entries| ==> Decided(h, poll.entries[k].sequence))
  }

  ghost predicate PositionOk(start: int, cursor: int, initial: int, q: Processor) {
    && start <= q.begin && initial <= q.begin <= q.checkpoint <= q.next - 1
    && q.begin <= q.sequence <= q.next - 1
    && (q.next - 1 <= cursor || q.next - 1 == q.begin)
  }

  ghost predicate RecordOk(h: History, initial: int, q: Processor) {
    && (q.saving ==> q.next - 1 in q.offered && q.next - 1 in q.succeeded)
    && (q.checkpoint == initial || q.checkpoint in q.succeeded) && q.saved <= q.succeeded <= q.offered
    && |q.log| == q.next - 1 - q.begin && Dense(h.store, q.begin, q.log)
    && (forall n :: initial < n <= q.next - 1 ==> Decided(h, n) && (n in h.store ==> n in q.offered))
    && (forall n :: n in q.saved ==> n <= q.checkpoint)
  }

  ghost predicate ProcessorOk(c: Config, s: State, p: nat, q: Processor)
    requires p < |c.initial|
  {
    PositionOk(s.start, s.cursor, c.initial[p], q) && RecordOk(s.history, c.initial[p], q)
  }

  ghost predicate ProcessorsOk(c: Config, s: State) {
    && |s.processors| == |c.initial|
    && (forall p :: 0 <= p < |s.processors| ==> ProcessorOk(c, s, p, s.processors[p]))
  }

  /** Some processor began where the ring began. */
  ghost predicate Anchored(s: State) {
    exists p :: 0 <= p < |s.processors| && s.processors[p].begin == s.start
  }

  ghost predicate Inv(c: Config, s: State) {
    && c.Valid() && |s.ring| == c.bufferSize && |s.processors| > 0
    && Consistent(s.history) && CursorOk(s) && Anchored(s)
    && PublishedOk(s.history, s.start, c.bufferSize, s.published, s.processors)
    && RingOk(s.history, s.published, s.ring, s.processors)
    && PollOk(s.history, s.cursor, s.poll)
    && ProcessorsOk(c, s)
  }
}
