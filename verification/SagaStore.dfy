/** The versioned saga store with its outbox: SagaDomainEventHandler.cs, EfSagaRepository.cs,
    EfSagaRecord.cs and the event saving of AggregateDbContext.cs. */
module SagaStore {
  import opened Common

  type Data = int
  type Message = int
  type Command = int

  datatype Outcome = Outcome(data: Data, commands: seq<Command>)

  /** The saga's code: its initial data and its reaction to a message. */
  datatype Saga = Saga(initial: Data, react: (Data, Message) -> Outcome)

  /** EfSagaRecord; SagaVersion is the concurrency token. */
  datatype Record = Record(data: Data, version: int)

  /** A committed domain event: a command sent by a saga. */
  datatype Event = Event(sagaId: int, command: Command)

  datatype Db = Db(sagas: map<int, Record>, events: seq<Event>)

  /** A detached saga after its handler ran: version already bumped, commands collected. */
  datatype Draft = Draft(sagaId: int, data: Data, version: int, commands: seq<Command>)

  function ToEvents(id: int, commands: seq<Command>): (r: seq<Event>)
    ensures |r| == |commands|
    ensures forall k :: 0 <= k < |r| ==> r[k] == Event(id, commands[k])
  {
    seq(|commands|, k requires 0 <= k < |commands| => Event(id, commands[k]))
  }

  /** SaveSaga inserts a first version and updates any other one against the version it was loaded
      with; otherwise the database refuses and the whole save throws. */
  predicate Accepts(db: Db, d: Draft) {
    if d.version == 1 then d.sagaId !in db.sagas
    else d.sagaId in db.sagas && db.sagas[d.sagaId].version == d.version - 1
  }

  /** The version of the stored saga, 0 for none. */
  function StoredVersion(db: Db, id: int): int {
    if id in db.sagas then db.sagas[id].version else 0
  }

  /** Record and outbox are written in one transaction. */
  function Saved(db: Db, d: Draft): Db {
    if Accepts(db, d)
    then Db(db.sagas[d.sagaId := Record(d.data, d.version)], db.events + ToEvents(d.sagaId, d.commands))
    else db
  }

  /** Load: a saga not stored yet starts with version 0. The id is the one asked for or a fresh one; the
      results hold for any choice. */
  function Loaded(saga: Saga, db: Db, id: int): Record {
    if id in db.sagas then db.sagas[id] else Record(saga.initial, 0)
  }

  function Handle(saga: Saga, id: int, r: Record, m: Message): Draft {
    var out := saga.react(r.data, m);
    Draft(id, out.data, r.version + 1, out.commands)
  }

  class EfSagaRepository {
    var db: Db

    constructor ()
      ensures db == Db(map[], [])
    {
      db := Db(map[], []);
    }

    method GetSagaById(id: int) returns (r: Option<Record>)
      ensures r.Some? <==> id in db.sagas
      ensures r.Some? ==> r.value == db.sagas[id]
    {
      r := if id in db.sagas then Some(db.sagas[id]) else None;
    }

    method SaveSaga(d: Draft) returns (ok: bool)
      modifies this
      ensures ok <==> Accepts(old(db), d)
      ensures (forall id :: id in old(db).sagas ==> old(db).sagas[id].version >= 1) ==>
        (ok <==> StoredVersion(old(db), d.sagaId) == d.version - 1)
      ensures db == Saved(old(db), d)
      ensures forall id :: id in old(db).sagas && id != d.sagaId ==> id in db.sagas && db.sagas[id] == old(db).sagas[id]
      ensures old(db).events <= db.events && (!ok ==> db == old(db))
      ensures ok ==> d.sagaId in db.sagas && db.sagas[d.sagaId] == Record(d.data, d.version)
      ensures ok ==> |db.events| == |old(db).events| + |d.commands|
      ensures ok ==> forall k :: 0 <= k < |d.commands| ==>
        db.events[|old(db).events| + k] == Event(d.sagaId, d.commands[k])
    {
      if d.version == 1 {
        ok := d.sagaId !in db.sagas;
      } else {
        ok := d.sagaId in db.sagas && db.sagas[d.sagaId].version == d.version - 1;
      }
      if ok {
        db := Db(db.sagas[d.sagaId := Record(d.data, d.version)], db.events + ToEvents(d.sagaId, d.commands));
      }
    }

    /** HandleEvent without interference always commits, one version up. An unknown saga is started
        under a fresh id instead of the one that was asked for. */
    method HandleEvent(saga: Saga, asked: int, newId: int, m: Message) returns (id: int)
      requires newId !in db.sagas && forall k :: k in db.sagas ==> db.sagas[k].version >= 1
      modifies this
      ensures id == if asked in old(db).sagas then asked else newId
      ensures var before := Loaded(saga, old(db), id);
        && db.sagas == old(db.sagas)[id := Record(saga.react(before.data, m).data, before.version + 1)]
        && db.events == old(db.events) + ToEvents(id, saga.react(before.data, m).commands)
      ensures forall k :: k in db.sagas ==> db.sagas[k].version >= 1
    {
      var found := GetSagaById(asked);
      id := if found.Some? then asked else newId;
      var r := if found.Some? then found.value else Record(saga.initial, 0);
      var out := saga.react(r.data, m);
      var ok := SaveSaga(Draft(id, out.data, r.version + 1, out.commands));
      assert ok;
    }
  }

  // ---- Concurrent handlers -------------------------------------------------------------

  datatype Worker =
    | Idle
    | HasLoaded(sagaId: int, record: Record, message: Message)
    | HasHandled(draft: Draft, message: Message)

  datatype Commit = Commit(sagaId: int, message: Message, commands: seq<Command>)

  /** `commits` is the history of accepted saves in commit order. */
  datatype State = State(db: Db, workers: seq<Worker>, commits: seq<Commit>)

  datatype Step = Arrive | Load(w: nat, sagaId: int, message: Message) | React(w: nat) | Save(w: nat)

  function Apply(saga: Saga, s: State, step: Step): State {
    match step
    case Arrive => s.(workers := s.workers + [Idle])
    case Load(w, id, m) =>
      if w < |s.workers| && s.workers[w].Idle?
      then s.(workers := s.workers[w := HasLoaded(id, Loaded(saga, s.db, id), m)]) else s
    case React(w) =>
      if w < |s.workers| && s.workers[w].HasLoaded?
      then var k := s.workers[w];
           s.(workers := s.workers[w := HasHandled(Handle(saga, k.sagaId, k.record, k.message), k.message)])
      else s
    case Save(w) =>
      if w < |s.workers| && s.workers[w].HasHandled?
      then var k := s.workers[w];
           State(Saved(s.db, k.draft), s.workers[w := Idle],
                 if Accepts(s.db, k.draft)
                 then s.commits + [Commit(k.draft.sagaId, k.message, k.draft.commands)] else s.commits)
      else s
  }

  const INITIAL := State(Db(map[], []), [], [])

  ghost predicate Next(saga: Saga, s: State, t: State) {
    exists step :: t == Apply(saga, s, step)
  }

  ghost predicate IsRun(saga: Saga, run: seq<State>) {
    && |run| > 0 && run[0] == INITIAL
    && forall k :: 0 < k < |run| ==> StepAt(saga, run, k)
  }

  ghost predicate StepAt(saga: Saga, run: seq<State>, k: nat)
    requires 0 < k < |run|
  {
    Next(saga, run[k - 1], run[k])
  }

  lemma Shorter(saga: Saga, run: seq<State>, n: nat)
    requires IsRun(saga, run) && 0 < n <= |run|
    ensures IsRun(saga, run[..n])
  {
    forall k | 0 < k < n ensures StepAt(saga, run[..n], k) { assert StepAt(saga, run, k); }
  }

  /** The messages committed for one saga, in commit order. */
  ghost function Messages(commits: seq<Commit>, id: int): seq<Message> {
    if commits == [] then [] else
      var last := commits[|commits| - 1];
      Messages(commits[..|commits| - 1], id) + if last.sagaId == id then [last.message] else []
  }

  /** The saga's code run over the messages one after the other. */
  ghost function Fold(saga: Saga, messages: seq<Message>): Data {
    if messages == [] then saga.initial
    else saga.react(Fold(saga, messages[..|messages| - 1]), messages[|messages| - 1]).data
  }

  ghost function AllEvents(commits: seq<Commit>): seq<Event> {
    if commits == [] then [] else
      var last := commits[|commits| - 1];
      AllEvents(commits[..|commits| - 1]) + ToEvents(last.sagaId, last.commands)
  }

  // ---- The invariant -------------------------------------------------------------------

  ghost predicate RecordOk(saga: Saga, messages: seq<Message>, r: Record) {
    0 <= r.version <= |messages| && r.data == Fold(saga, messages[..r.version])
  }

  /** A saga's record is the fold of its messages, its version their number. */
  ghost predicate SagaOk(saga: Saga, s: State, id: int) {
    if id in s.db.sagas
    then s.db.sagas[id].version == |Messages(s.commits, id)| >= 1
      && s.db.sagas[id].data == Fold(saga, Messages(s.commits, id))
    else Messages(s.commits, id) == []
  }

  ghost predicate SagasOk(saga: Saga, s: State) {
    forall id :: SagaOk(saga, s, id)
  }

  ghost predicate WorkerOk(saga: Saga, s: State, w: Worker) {
    match w
    case Idle => true
    case HasLoaded(id, r, m) => RecordOk(saga, Messages(s.commits, id), r)
    case HasHandled(d, m) =>
      exists r :: RecordOk(saga, Messages(s.commits, d.sagaId), r) && d == Handle(saga, d.sagaId, r, m)
  }

  ghost predicate WorkersOk(saga: Saga, s: State) {
    forall w :: 0 <= w < |s.workers| ==> WorkerOk(saga, s, s.workers[w])
  }

  /** Commit k carries the commands its saga sent in exactly that transition. */
  ghost predicate CommitOk(saga: Saga, commits: seq<Commit>, k: nat)
    requires k < |commits|
  {
    var c := commits[k];
    c.commands == saga.react(Fold(saga, Messages(commits[..k], c.sagaId)), c.message).commands
  }

  ghost predicate Inv(saga: Saga, s: State) {
    && SagasOk(saga, s) && WorkersOk(saga, s)
    && (forall k :: 0 <= k < |s.commits| ==> CommitOk(saga, s.commits, k))
    && s.db.events == AllEvents(s.commits)
  }

  lemma MessagesAfter(commits: seq<Commit>, c: Commit, id: int)
    ensures Messages(commits + [c], id)
      == if c.sagaId == id then Messages(commits, id) + [c.message] else Messages(commits, id)
  {
    assert (commits + [c])[..|commits|] == commits;
    assert Messages(commits, id) + [] == Messages(commits, id);
  }

  lemma FoldAfter(saga: Saga, messages: seq<Message>, m: Message)
    ensures Fold(saga, messages + [m]) == saga.react(Fold(saga, messages), m).data
  {
    assert (messages + [m])[..|messages|] == messages;
  }

  lemma RecordStaysOk(saga: Saga, messages: seq<Message>, m: Message, r: Record)
    requires RecordOk(saga, messages, r)
    ensures RecordOk(saga, messages + [m], r)
  {
    assert (messages + [m])[..r.version] == messages[..r.version];
  }

  lemma WorkerStaysOk(saga: Saga, s: State, t: State, c: Commit, w: Worker)
    requires WorkerOk(saga, s, w) && t.commits == s.commits + [c]
    ensures WorkerOk(saga, t, w)
  {
    match w
    case Idle =>
    case HasLoaded(id, r, m) =>
      MessagesAfter(s.commits, c, id);
      if c.sagaId == id { RecordStaysOk(saga, Messages(s.commits, id), c.message, r); }
    case HasHandled(d, m) =>
      var r :| RecordOk(saga, Messages(s.commits, d.sagaId), r) && d == Handle(saga, d.sagaId, r, m);
      MessagesAfter(s.commits, c, d.sagaId);
      if c.sagaId == d.sagaId { RecordStaysOk(saga, Messages(s.commits, d.sagaId), c.message, r); }
  }

  lemma CommitKeepsInv(saga: Saga, s: State, w: nat)
    requires Inv(saga, s) && w < |s.workers| && s.workers[w].HasHandled? && Accepts(s.db, s.workers[w].draft)
    ensures Inv(saga, Apply(saga, s, Save(w)))
  {
    var t := Apply(saga, s, Save(w));
    var d, m := s.workers[w].draft, s.workers[w].message;
    var c := Commit(d.sagaId, m, d.commands);
    assert WorkerOk(saga, s, s.workers[w]);
    var messages := Messages(s.commits, d.sagaId);
    assert SagaOk(saga, s, d.sagaId);
    var r :| RecordOk(saga, messages, r) && d == Handle(saga, d.sagaId, r, m);
    assert r.version == |messages| && messages[..r.version] == messages;
    FoldAfter(saga, messages, m);
    assert t.commits[..|s.commits|] == s.commits;
    forall id ensures SagaOk(saga, t, id) {
      assert SagaOk(saga, s, id);
      MessagesAfter(s.commits, c, id);
      if id == d.sagaId {
        assert Messages(t.commits, id) == messages + [m];
        assert t.db.sagas[id] == Record(d.data, d.version);
      }
    }
    forall k | 0 <= k < |t.workers| ensures WorkerOk(saga, t, t.workers[k]) {
      if k != w { WorkerStaysOk(saga, s, t, c, s.workers[k]); }
    }
    forall k | 0 <= k < |t.commits| ensures CommitOk(saga, t.commits, k) {
      assert t.commits[..k] == s.commits[..k];
      if k < |s.commits| {
        assert CommitOk(saga, s.commits, k);
      } else {
        assert s.commits[..k] == s.commits;
      }
    }
  }

  lemma StepKeepsInv(saga: Saga, s: State, step: Step)
    requires Inv(saga, s)
    ensures Inv(saga, Apply(saga, s, step))
  {
    var t := Apply(saga, s, step);
    if step.Save? && step.w < |s.workers| && s.workers[step.w].HasHandled?
      && Accepts(s.db, s.workers[step.w].draft) {
      CommitKeepsInv(saga, s, step.w);
    } else {
      assert t.commits == s.commits && t.db == s.db;
      forall id ensures SagaOk(saga, t, id) { assert SagaOk(saga, s, id); }
      forall k | 0 <= k < |t.workers| ensures WorkerOk(saga, t, t.workers[k]) {
        if k < |s.workers| { assert WorkerOk(saga, s, s.workers[k]); }
        if step.Load? && k == step.w {
          var messages := Messages(s.commits, step.sagaId);
          assert SagaOk(saga, s, step.sagaId);
          assert messages[..|messages|] == messages;
        }
      }
    }
  }

  lemma {:induction false} RunInv(saga: Saga, run: seq<State>)
    requires IsRun(saga, run)
    ensures Inv(saga, run[|run| - 1])
  {
    if |run| > 1 {
      Shorter(saga, run, |run| - 1);
      RunInv(saga, run[..|run| - 1]);
      assert StepAt(saga, run, |run| - 1);
      var step :| run[|run| - 1] == Apply(saga, run[|run| - 2], step);
      StepKeepsInv(saga, run[|run| - 2], step);
    }
  }

  // ---- What holds of every run ---------------------------------------------------------

  /** However many handlers work on the same saga at once, the stored saga is its code run over the
      committed messages one after the other, and the version counts them. */
  lemma SagaIsFoldOfCommits(saga: Saga, run: seq<State>, id: int)
    requires IsRun(saga, run)
    ensures var s := run[|run| - 1]; var messages := Messages(s.commits, id);
      if id in s.db.sagas
      then s.db.sagas[id] == Record(Fold(saga, messages), |messages|) && messages != []
      else messages == []
  {
    RunInv(saga, run);
    assert SagaOk(saga, run[|run| - 1], id);
  }

  /** The event store holds the commands of every committed transition, once and in commit order, and
      nothing else. */
  lemma OutboxIsExact(saga: Saga, run: seq<State>)
    requires IsRun(saga, run)
    ensures var s := run[|run| - 1];
      && s.db.events == AllEvents(s.commits)
      && (forall k :: 0 <= k < |s.commits| ==> CommitOk(saga, s.commits, k))
  {
    RunInv(saga, run);
  }

  /** A writer whose saga has moved on since it was loaded changes neither record nor outbox, and only
      such a writer is refused. */
  lemma StaleWritersAreRefused(saga: Saga, run: seq<State>, w: nat)
    requires IsRun(saga, run) && w < |run[|run| - 1].workers| && run[|run| - 1].workers[w].HasHandled?
    ensures var s := run[|run| - 1]; var d := s.workers[w].draft;
      && (Accepts(s.db, d) <==> d.version == |Messages(s.commits, d.sagaId)| + 1)
      && (d.version != |Messages(s.commits, d.sagaId)| + 1 ==>
            Apply(saga, s, Save(w)).db == s.db && Apply(saga, s, Save(w)).commits == s.commits)
  {
    RunInv(saga, run);
    var s := run[|run| - 1];
    assert WorkerOk(saga, s, s.workers[w]) && SagaOk(saga, s, s.workers[w].draft.sagaId);
  }

  // ---- One handler ---------------------------------------------------------------------

  /** A handler that nobody disturbs, at any moment of any run and whatever was refused before: it commits its
      message to its saga, one version up, with exactly the commands of that transition. */
  lemma UndisturbedHandler(saga: Saga, run: seq<State>, w: nat, id: int, m: Message)
    requires IsRun(saga, run) && w < |run[|run| - 1].workers| && run[|run| - 1].workers[w].Idle?
    ensures var s := run[|run| - 1];
      var t := Apply(saga, Apply(saga, Apply(saga, s, Load(w, id, m)), React(w)), Save(w));
      var before := if id in s.db.sagas then s.db.sagas[id] else Record(saga.initial, 0);
      var out := saga.react(before.data, m);
      && t.db.sagas == s.db.sagas[id := Record(out.data, before.version + 1)]
      && |t.db.events| == |s.db.events| + |out.commands| && s.db.events <= t.db.events
      && (forall k :: 0 <= k < |out.commands| ==> t.db.events[|s.db.events| + k] == Event(id, out.commands[k]))
      && t.commits == s.commits + [Commit(id, m, out.commands)] && t.workers == s.workers
  {
    RunInv(saga, run);
    var s := run[|run| - 1];
    assert SagaOk(saga, s, id);
    var s1 := Apply(saga, s, Load(w, id, m));
    var s2 := Apply(saga, s1, React(w));
    assert s2.workers[w].HasHandled? && Accepts(s2.db, s2.workers[w].draft);
    var t := Apply(saga, s2, Save(w));
    assert t.workers == s.workers;
  }

  /** What a busy handler is at: the saga and the message that it was given when it loaded. */
  ghost predicate Handles(w: Worker, id: int, m: Message) {
    match w
    case Idle => false
    case HasLoaded(i, _, n) => i == id && n == m
    case HasHandled(d, n) => d.sagaId == id && n == m
  }

  /** Whatever happens in between: a handler that loads is at the saga and the message it was given; a busy one
      keeps to them through every step, its own and everybody else's, until it saves; and a save that is
      accepted commits exactly them. */
  lemma HandlersKeepTheirTask(saga: Saga, s: State, step: Step, w: nat, id: int, m: Message)
    requires w < |s.workers|
    ensures w < |Apply(saga, s, step).workers|
    ensures step.Arrive? ==> Apply(saga, s, step) == s.(workers := s.workers + [Idle])
    ensures s.workers[w].Idle? && step == Load(w, id, m) ==> Handles(Apply(saga, s, step).workers[w], id, m)
    ensures Handles(s.workers[w], id, m) ==>
      var t := Apply(saga, s, step);
      if step == Save(w) && s.workers[w].HasHandled?
      then t.workers[w].Idle? && (if Accepts(s.db, s.workers[w].draft)
             then t.commits == s.commits + [Commit(id, m, s.workers[w].draft.commands)] else t.commits == s.commits)
      else Handles(t.workers[w], id, m) && (step == React(w) ==> t.workers[w].HasHandled?)
  {
  }
}
