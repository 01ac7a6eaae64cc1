/** The lease lock of src/Ozzy.Server.EntityFramework/DistributedLocks, for one lock name. The
    database is an atomic compare-token-and-write step; reading, preparing and committing are separate
    steps of every client, and one monotone clock ticks in between. */
module DistributedLock {
  import opened Common

  /** Value of a lock row: LockId is the concurrency token. */
  datatype Record = Record(lockId: int, lockDateTime: int)

  function Acquired(r: Record, now: int, expiry: int, newId: int): Record { Record(newId, now + expiry) }
  function Released(r: Record, now: int, newId: int): Record { Record(newId, now) }
  predicate Held(r: Record, now: int) { r.lockDateTime > now }

  class EfDistributedLockRecord {
    var lockId: int
    var lockDateTime: int

    function Value(): Record
      reads this
    {
      Record(lockId, lockDateTime)
    }

    constructor (now: int, expiration: int, id: int)
      ensures Value() == Record(id, now + expiration)
    {
      lockId, lockDateTime := id, now + expiration;
    }

    /** The row as it was read. */
    constructor Loaded(row: Record)
      ensures Value() == row
    {
      lockId, lockDateTime := row.lockId, row.lockDateTime;
    }

    method IsAcquired(now: int) returns (r: bool)
      ensures r <==> Held(Value(), now)
    {
      r := lockDateTime > now;
    }

    /** A positive lease is held from the moment it is prepared until it runs out. */
    method Acquire(now: int, expiry: int, newId: int)
      modifies this
      ensures Value() == Acquired(old(Value()), now, expiry, newId)
      ensures forall t :: Held(Value(), t) <==> t < now + expiry
    {
      lockId, lockDateTime := newId, now + expiry;
    }

    method Release(now: int, newId: int)
      modifies this
      ensures Value() == Released(old(Value()), now, newId)
      ensures forall t :: t >= now ==> !Held(Value(), t)
    {
      lockId, lockDateTime := newId, now;
    }
  }

  /** One TryAquireLock call and the lock object that comes out of it.
      `Loaded`: has read the row. `Inserting` / `Updating`: has called Acquire on its copy and is about
      to save. `Won`: saved, lock object not built yet. `Idle`: the lock object between extensions.
      `Found`, `Prepared`: extending. `Extended`: saved, fields not updated yet. */
  datatype Phase =
    | Calling
    | Loaded(row: Option<Record>)
    | Inserting(time: int)
    | Updating(token: int, time: int)
    | Refused
    | Won(id: int, time: int)
    | Idle
    | Found(token: int)
    | Prepared(token: int, time: int)
    | Extended(id: int, time: int)

  /** TryReleaseLock runs beside the extension timer. */
  datatype Release = NoRelease | ReleaseFound(row: Record) | ReleasePrepared(token: int, time: int)

  datatype Agent = Agent(
    expiry: int, phase: Phase, lockId: int, expirationTime: int, disposing: bool, release: Release)
  {
    predicate IsLock() { phase.Idle? || phase.Found? || phase.Prepared? || phase.Extended? }
    predicate Leases() { IsLock() || phase.Won? }
    function LeaseId(): int { if phase.Won? || phase.Extended? then phase.id else lockId }
    function LeaseTime(): int { if phase.Won? || phase.Extended? then phase.time else expirationTime }
  }

  /** `owner` remembers which agent committed which lock id. */
  datatype State = State(now: int, row: Option<Record>, agents: seq<Agent>, nextId: int, owner: map<int, nat>)

  datatype Step =
    | Tick(elapsed: nat)
    | Arrive(expiry: int)
    | Client(i: nat)
    | BeginExtend(i: nat)
    | BeginDispose(i: nat)
    | TryRelease(i: nat)
    | Crash(i: nat)

  function Set(s: State, i: nat, a: Agent): State
    requires i < |s.agents|
  {
    s.(agents := s.agents[i := a])
  }

  function To(s: State, i: nat, phase: Phase): State
    requires i < |s.agents|
  {
    Set(s, i, s.agents[i].(phase := phase))
  }

  predicate TokenMatches(s: State, token: int) {
    s.row.Some? && s.row.value.lockId == token
  }

  /** SaveChanges writes the row with a fresh id (a new Guid) for agent i. */
  function Write(s: State, i: nat, time: int): State {
    s.(row := Some(Record(s.nextId, time)), nextId := s.nextId + 1, owner := s.owner[s.nextId := i])
  }

  /** The next step of agent i inside TryAquireLock, the constructor or ExtendLockAsync. */
  function ClientStep(s: State, i: nat): State
    requires i < |s.agents|
  {
    var a := s.agents[i];
    match a.phase
    case Calling => To(s, i, Loaded(s.row))
    case Loaded(row) =>
      if row.None? then To(s, i, Inserting(s.now + a.expiry))
      else if Held(row.value, s.now) then To(s, i, Refused)
      else To(s, i, Updating(row.value.lockId, s.now + a.expiry))
    case Inserting(time) =>
      if s.row.None? then To(Write(s, i, time), i, Won(s.nextId, time)) else To(s, i, Refused)
    case Updating(token, time) =>
      if TokenMatches(s, token) then To(Write(s, i, time), i, Won(s.nextId, time)) else To(s, i, Refused)
    case Won(id, time) => Set(s, i, a.(phase := Idle, lockId := id, expirationTime := time))
    case Found(token) => To(s, i, Prepared(token, s.now + a.expiry))
    case Prepared(token, time) =>
      if TokenMatches(s, token) then To(Write(s, i, time), i, Extended(s.nextId, time))
      else Set(s, i, a.(phase := Idle, disposing := true))
    case Extended(id, time) => Set(s, i, a.(phase := Idle, lockId := id, expirationTime := time))
    case Refused => s
    case Idle => s
  }

  /** The timer looks the row up by the lock's own id; when it is gone the lock disposes itself. */
  function ExtendStart(s: State, i: nat): State
    requires i < |s.agents|
  {
    var a := s.agents[i];
    if !a.phase.Idle? then s
    else if TokenMatches(s, a.lockId) then To(s, i, Found(a.lockId))
    else Set(s, i, a.(disposing := true))
  }

  function ReleaseStep(s: State, i: nat): State
    requires i < |s.agents|
  {
    var a := s.agents[i];
    match a.release
    case NoRelease =>
      if a.disposing && a.IsLock() && TokenMatches(s, a.lockId)
      then Set(s, i, a.(release := ReleaseFound(s.row.value))) else s
    case ReleaseFound(row) =>
      Set(s, i, a.(release := if Held(row, s.now) then ReleasePrepared(row.lockId, s.now) else NoRelease))
    case ReleasePrepared(token, time) =>
      var t := Set(s, i, a.(release := NoRelease));
      if TokenMatches(s, token) then Write(t, i, time) else t
  }

  function Apply(s: State, step: Step): State {
    match step
    case Tick(elapsed) => s.(now := s.now + elapsed)
    case Arrive(expiry) => s.(agents := s.agents + [Agent(expiry, Calling, -1, 0, false, NoRelease)])
    case Client(i) => if i < |s.agents| then ClientStep(s, i) else s
    case BeginExtend(i) => if i < |s.agents| then ExtendStart(s, i) else s
    case BeginDispose(i) =>
      if i < |s.agents| && s.agents[i].IsLock() then Set(s, i, s.agents[i].(disposing := true)) else s
    case TryRelease(i) => if i < |s.agents| then ReleaseStep(s, i) else s
    case Crash(i) =>
      // An exception while reading or saving: the call is over, a lock object disposes itself.
      if i >= |s.agents| then s
      else if s.agents[i].phase.Found? || s.agents[i].phase.Prepared?
      then Set(s, i, s.agents[i].(phase := Idle, disposing := true))
      else if s.agents[i].Leases() then s
      else To(s, i, Refused)
  }

  function Initial(now: int): State { State(now, None, [], 0, map[]) }

  ghost predicate Next(s: State, t: State) {
    exists step :: t == Apply(s, step)
  }

  ghost predicate IsRun(run: seq<State>) {
    && |run| > 0 && run[0] == Initial(run[0].now)
    && forall k :: 0 < k < |run| ==> StepAt(run, k)
  }

  ghost predicate StepAt(run: seq<State>, k: nat)
    requires 0 < k < |run|
  {
    Next(run[k - 1], run[k])
  }

  lemma Shorter(run: seq<State>, n: nat)
    requires IsRun(run) && 0 < n <= |run|
    ensures IsRun(run[..n])
  {
    forall k | 0 < k < n ensures StepAt(run[..n], k) { assert StepAt(run, k); }
  }

  // ---- The invariant -------------------------------------------------------------------

  ghost predicate OwnedBy(s: State, id: int, i: nat) {
    id in s.owner && s.owner[id] == i
  }

  ghost predicate AgentOk(s: State, i: nat, a: Agent) {
    && (a.Leases() ==> OwnedBy(s, a.LeaseId(), i))
    && (a.IsLock() ==> a.expirationTime <= s.now + a.expiry && OwnedBy(s, a.lockId, i))
    && (a.phase.Found? || a.phase.Prepared? ==> a.phase.token == a.lockId)
    && (a.phase.Prepared? || a.phase.Extended? ==> a.expirationTime <= a.phase.time)
    && (a.phase.Inserting? || a.phase.Updating? || a.phase.Prepared? || a.phase.Extended? || a.phase.Won? ==>
          a.phase.time <= s.now + a.expiry)
    && (a.phase.Loaded? && a.phase.row.Some? ==>
          a.phase.row.value.lockId in s.owner && (TokenMatches(s, a.phase.row.value.lockId) ==> s.row == a.phase.row))
    && (a.phase.Updating? ==>
          a.phase.token in s.owner && (TokenMatches(s, a.phase.token) ==> !Held(s.row.value, s.now)))
    && (a.release.ReleaseFound? ==> a.disposing && OwnedBy(s, a.release.row.lockId, i))
    && (a.release.ReleasePrepared? ==> a.disposing && OwnedBy(s, a.release.token, i))
  }

  ghost predicate AgentsOk(s: State) {
    forall i :: 0 <= i < |s.agents| ==> AgentOk(s, i, s.agents[i])
  }

  ghost predicate IdsOk(s: State) {
    && (forall id :: id in s.owner ==> id < s.nextId && s.owner[id] < |s.agents|)
    && (s.row.Some? ==> s.row.value.lockId in s.owner)
  }

  /** A running lease whose lock has not begun disposal is what the row says. */
  ghost predicate LeasesOk(s: State) {
    forall i :: 0 <= i < |s.agents| && s.agents[i].Leases() && !s.agents[i].disposing ==>
      s.now >= s.agents[i].LeaseTime() || s.row == Some(Record(s.agents[i].LeaseId(), s.agents[i].LeaseTime()))
  }

  ghost predicate Inv(s: State) {
    AgentsOk(s) && IdsOk(s) && LeasesOk(s)
  }

  /** A step that does not write the row. */
  lemma QuietStep(s: State, t: State, i: nat)
    requires Inv(s) && i < |s.agents| == |t.agents| && s.now <= t.now
    requires t.row == s.row && t.owner == s.owner && t.nextId == s.nextId
    requires forall j :: 0 <= j < |s.agents| && j != i ==> t.agents[j] == s.agents[j]
    requires AgentOk(t, i, t.agents[i])
    requires var a := t.agents[i];
      a.Leases() && !a.disposing && t.now < a.LeaseTime() ==> t.row == Some(Record(a.LeaseId(), a.LeaseTime()))
    ensures Inv(t)
  {
    forall j | 0 <= j < |t.agents| ensures AgentOk(t, j, t.agents[j]) {
      if j != i { assert AgentOk(s, j, s.agents[j]); }
    }
  }

  /** Saving: the token was agent i's own, or its lease had run out, or there was no row. In each case
      no other running lease is hidden by the write. */
  lemma WriteStep(s: State, i: nat, time: int, a: Agent)
    requires Inv(s) && i < |s.agents|
    requires forall j :: 0 <= j < |s.agents| && j != i && s.agents[j].Leases() && !s.agents[j].disposing ==>
      s.now >= s.agents[j].LeaseTime()
    requires AgentOk(Write(s, i, time), i, a)
    requires a.Leases() && !a.disposing ==> a.LeaseId() == s.nextId && a.LeaseTime() == time
    ensures Inv(Set(Write(s, i, time), i, a))
  {
    var t := Set(Write(s, i, time), i, a);
    forall j | 0 <= j < |t.agents| ensures AgentOk(t, j, t.agents[j]) {
      if j != i {
        assert AgentOk(s, j, s.agents[j]);
        assert s.nextId !in s.owner;
      }
    }
  }

  /** While a row's lease has run out nobody has a running one. */
  lemma NoLeaseRuns(s: State, i: nat)
    requires Inv(s) && (s.row.None? || !Held(s.row.value, s.now) || OwnedBy(s, s.row.value.lockId, i))
    ensures forall j :: 0 <= j < |s.agents| && j != i && s.agents[j].Leases() && !s.agents[j].disposing ==>
      s.now >= s.agents[j].LeaseTime()
  {
    forall j | 0 <= j < |s.agents| && j != i && s.agents[j].Leases() && !s.agents[j].disposing
      ensures s.now >= s.agents[j].LeaseTime()
    {
      assert AgentOk(s, j, s.agents[j]);
    }
  }

  lemma ClientKeepsInv(s: State, i: nat)
    requires Inv(s) && i < |s.agents|
    ensures Inv(ClientStep(s, i))
  {
    var a := s.agents[i];
    var t := ClientStep(s, i);
    assert AgentOk(s, i, a);
    if a.phase.Inserting? && s.row.None? {
      InsertKeepsInv(s, i);
    } else if a.phase.Updating? && TokenMatches(s, a.phase.token) {
      UpdateKeepsInv(s, i);
    } else if a.phase.Prepared? && TokenMatches(s, a.phase.token) {
      ProlongKeepsInv(s, i);
    } else {
      UnsavedIsQuiet(s, i);
      QuietStep(s, t, i);
    }
  }

  lemma InsertKeepsInv(s: State, i: nat)
    requires Inv(s) && i < |s.agents| && s.agents[i].phase.Inserting? && s.row.None?
    ensures Inv(ClientStep(s, i))
  {
    var a := s.agents[i];
    assert AgentOk(s, i, a);
    NoLeaseRuns(s, i);
    WriteStep(s, i, a.phase.time, a.(phase := Won(s.nextId, a.phase.time)));
  }

  lemma UpdateKeepsInv(s: State, i: nat)
    requires Inv(s) && i < |s.agents| && s.agents[i].phase.Updating? && TokenMatches(s, s.agents[i].phase.token)
    ensures Inv(ClientStep(s, i))
  {
    var a := s.agents[i];
    assert AgentOk(s, i, a);
    NoLeaseRuns(s, i);
    WriteStep(s, i, a.phase.time, a.(phase := Won(s.nextId, a.phase.time)));
  }

  lemma ProlongKeepsInv(s: State, i: nat)
    requires Inv(s) && i < |s.agents| && s.agents[i].phase.Prepared? && TokenMatches(s, s.agents[i].phase.token)
    ensures Inv(ClientStep(s, i))
  {
    var a := s.agents[i];
    assert AgentOk(s, i, a);
    NoLeaseRuns(s, i);
    WriteStep(s, i, a.phase.time, a.(phase := Extended(s.nextId, a.phase.time)));
  }

  /** A client step that saves nothing changes only the agent, in keeping with the row. */
  lemma UnsavedIsQuiet(s: State, i: nat)
    requires i < |s.agents| && AgentOk(s, i, s.agents[i])
    requires s.agents[i].phase.Inserting? ==> s.row.Some?
    requires s.agents[i].phase.Updating? || s.agents[i].phase.Prepared? ==> !TokenMatches(s, s.agents[i].phase.token)
    requires IdsOk(s)
    ensures var t := ClientStep(s, i); t == Set(s, i, t.agents[i]) && AgentOk(t, i, t.agents[i])
  {
  }

  lemma ReleaseKeepsInv(s: State, i: nat)
    requires Inv(s) && i < |s.agents|
    ensures Inv(ReleaseStep(s, i))
  {
    var a := s.agents[i];
    assert AgentOk(s, i, a);
    if a.release.ReleasePrepared? && TokenMatches(s, a.release.token) {
      NoLeaseRuns(s, i);
      FreeKeepsInv(s, i);
    } else {
      UnfreedIsQuiet(s, i);
      QuietStep(s, ReleaseStep(s, i), i);
    }
  }

  lemma FreeKeepsInv(s: State, i: nat)
    requires Inv(s) && i < |s.agents| && s.agents[i].release.ReleasePrepared?
    requires TokenMatches(s, s.agents[i].release.token)
    requires forall j :: 0 <= j < |s.agents| && j != i && s.agents[j].Leases() && !s.agents[j].disposing ==>
      s.now >= s.agents[j].LeaseTime()
    ensures Inv(ReleaseStep(s, i))
  {
    var a := s.agents[i];
    assert AgentOk(s, i, a);
    WriteStep(s, i, a.release.time, a.(release := NoRelease));
  }

  lemma UnfreedIsQuiet(s: State, i: nat)
    requires i < |s.agents| && AgentOk(s, i, s.agents[i]) && IdsOk(s)
    requires s.agents[i].release.ReleasePrepared? ==> !TokenMatches(s, s.agents[i].release.token)
    ensures var t := ReleaseStep(s, i); t == Set(s, i, t.agents[i]) && AgentOk(t, i, t.agents[i])
    ensures s.agents[i].IsLock() ==> ReleaseStep(s, i).agents[i].disposing == s.agents[i].disposing
  {
  }

  lemma TickKeepsInv(s: State, elapsed: nat)
    requires Inv(s)
    ensures Inv(Apply(s, Tick(elapsed)))
  {
    var t := Apply(s, Tick(elapsed));
    forall j | 0 <= j < |t.agents| ensures AgentOk(t, j, t.agents[j]) { assert AgentOk(s, j, s.agents[j]); }
  }

  lemma ArriveKeepsInv(s: State, expiry: int)
    requires Inv(s)
    ensures Inv(Apply(s, Arrive(expiry)))
  {
    var t := Apply(s, Arrive(expiry));
    forall j | 0 <= j < |t.agents| ensures AgentOk(t, j, t.agents[j]) {
      if j < |s.agents| { assert AgentOk(s, j, s.agents[j]); }
    }
  }

  lemma LocalKeepsInv(s: State, step: Step, i: nat)
    requires Inv(s) && i < |s.agents|
    requires step == BeginExtend(i) || step == BeginDispose(i) || step == Crash(i)
    ensures Inv(Apply(s, step))
  {
    assert AgentOk(s, i, s.agents[i]);
    QuietStep(s, Apply(s, step), i);
  }

  lemma StepKeepsInv(s: State, step: Step)
    requires Inv(s)
    ensures Inv(Apply(s, step))
  {
    match step
    case Tick(elapsed) => TickKeepsInv(s, elapsed);
    case Arrive(expiry) => ArriveKeepsInv(s, expiry);
    case Client(i) => if i < |s.agents| { ClientKeepsInv(s, i); }
    case TryRelease(i) => if i < |s.agents| { ReleaseKeepsInv(s, i); }
    case BeginExtend(i) => if i < |s.agents| { LocalKeepsInv(s, step, i); }
    case BeginDispose(i) => if i < |s.agents| { LocalKeepsInv(s, step, i); }
    case Crash(i) => if i < |s.agents| { LocalKeepsInv(s, step, i); }
  }

  lemma {:induction false} RunInv(run: seq<State>)
    requires IsRun(run)
    ensures Inv(run[|run| - 1])
  {
    if |run| > 1 {
      Shorter(run, |run| - 1);
      RunInv(run[..|run| - 1]);
      assert StepAt(run, |run| - 1);
      var step :| run[|run| - 1] == Apply(run[|run| - 2], step);
      StepKeepsInv(run[|run| - 2], step);
    }
  }

  // ---- What holds of every run ---------------------------------------------------------

  /** A lock object that is not being disposed and whose expiration lies ahead. */
  ghost predicate Live(s: State, i: nat) {
    i < |s.agents| && s.agents[i].IsLock() && !s.agents[i].disposing && s.now < s.agents[i].expirationTime
  }

  /** Mutual exclusion: at every moment of every run at most one lock object is live. */
  lemma MutualExclusion(run: seq<State>, i: nat, j: nat)
    requires IsRun(run) && Live(run[|run| - 1], i) && Live(run[|run| - 1], j)
    ensures i == j
  {
    RunInv(run);
    var s := run[|run| - 1];
    assert AgentOk(s, i, s.agents[i]) && AgentOk(s, j, s.agents[j]);
    assert s.row == Some(Record(s.agents[i].LeaseId(), s.agents[i].LeaseTime()));
    assert s.row == Some(Record(s.agents[j].LeaseId(), s.agents[j].LeaseTime()));
  }

  /** A stale holder is harmless: extending or releasing a lock changes the row only if the row is
      still the one this lock object committed last. */
  lemma StaleHolderChangesNothing(run: seq<State>, i: nat, step: Step)
    requires IsRun(run) && i < |run[|run| - 1].agents| && run[|run| - 1].agents[i].IsLock()
    requires step == Client(i) || step == BeginExtend(i) || step == TryRelease(i) || step == BeginDispose(i)
    requires run[|run| - 1].row.Some? && !OwnedBy(run[|run| - 1], run[|run| - 1].row.value.lockId, i)
    ensures Apply(run[|run| - 1], step).row == run[|run| - 1].row
  {
    RunInv(run);
    var s := run[|run| - 1];
    assert AgentOk(s, i, s.agents[i]);
  }
}
