/** MultiThreadedClaimStrategy.SerialisePublishing, run by any number of threads at once.

    One step is one atomic read, write or compare-and-set. `written` and `published` are history
    variables: the sequences whose pending entry was written at least once, and those whose
    SerialisePublishing call has returned. */
module PublishProtocol {
  import opened Slots

  /** `maxBatch` is the size of the largest batch anybody publishes; it may exceed the pending array. */
  datatype Config = Config(start: int, pendingSize: nat, threads: nat, maxBatch: nat) {
    ghost predicate Valid() { start >= -1 && pendingSize > 0 && maxBatch > 0 }
  }

  /** Where a thread stands inside SerialisePublishing(hi, cursor, batch). */
  datatype Publisher =
    | Idle
    | Guard(hi: int, batch: int)
    | Writing(hi: int, batch: int, next: int)
    | Rewriting(hi: int, batch: int)
    | ReadingCursor(hi: int, batch: int)
    | Cas(hi: int, batch: int, expected: int)
    | Checking(hi: int, batch: int, expected: int)
  {
    function Lo(): int
      requires !Idle?
    {
      hi - batch + 1
    }

    predicate Owns(x: int) { !Idle? && Lo() <= x <= hi }

    predicate PastGuard() { !Idle? && !Guard? }

    predicate Wrote(x: int) { Owns(x) && PastGuard() && (Writing? ==> x < next) }
  }

  datatype State = State(
    claim: int,
    cursor: int,
    pending: seq<int>,
    publishers: seq<Publisher>,
    written: set<int>,
    published: set<int>)

  predicate Between(lo: int, x: int, hi: int) { lo <= x <= hi }

  function Range(lo: int, hi: int): (r: set<int>)
    ensures forall x :: x in r <==> lo <= x <= hi
  {
    set x: int | lo <= x <= hi && Between(lo, x, hi)
  }

  function Max(a: int, b: int): int { if a < b then b else a }

  function Initial(c: Config): State
    requires c.Valid()
  {
    State(c.start, c.start, seq(c.pendingSize, _ => 0), seq(c.threads, _ => Idle), {}, {})
  }

  function With(s: State, i: nat, p: Publisher): State
    requires i < |s.publishers|
  {
    s.(publishers := s.publishers[i := p])
  }

  function Put(s: State, x: int): State
    requires |s.pending| > 0
  {
    s.(pending := s.pending[Slot(x, |s.pending|) := x])
  }

  /** Idle thread i claims the next `delta` sequences and calls SerialisePublishing for them. */
  function Claim(s: State, i: nat, delta: int): State
    requires i < |s.publishers|
  {
    With(s, i, Guard(s.claim + delta, delta)).(claim := s.claim + delta)
  }

  function Return(s: State, i: nat): State
    requires i < |s.publishers| && s.publishers[i].PastGuard()
  {
    var p := s.publishers[i];
    With(s, i, Idle).(published := s.published + Range(p.Lo(), p.hi))
  }

  /** The next atomic step of thread i. An idle thread stays idle; a thread whose spin guard fails
      stays where it is. */
  function Advance(s: State, i: nat): State
    requires i < |s.publishers| && |s.pending| > 0
  {
    match s.publishers[i]
    case Idle => s
    case Guard(hi, b) =>
      if hi - s.cursor > |s.pending| then s
      else if b < 1 then With(s, i, Rewriting(hi, b))
      else With(s, i, Writing(hi, b, hi - b + 1))
    case Writing(hi, b, next) =>
      With(Put(s, next), i, if next < hi then Writing(hi, b, next + 1) else Rewriting(hi, b))
      .(written := s.written + {next})
    case Rewriting(hi, b) => With(Put(s, hi), i, ReadingCursor(hi, b))
    case ReadingCursor(hi, b) =>
      if s.cursor >= hi then Return(s, i) else With(s, i, Cas(hi, b, Max(hi - b, s.cursor)))
    case Cas(hi, b, expected) =>
      if s.cursor == expected
      then With(s, i, Checking(hi, b, expected + 1)).(cursor := expected + 1)
      else Return(s, i)
    case Checking(hi, b, expected) =>
      if s.pending[Slot(expected + 1, |s.pending|)] == expected + 1
      then With(s, i, Cas(hi, b, expected))
      else Return(s, i)
  }

  ghost predicate ClaimStep(c: Config, s: State, t: State, i: nat, delta: int) {
    i < |s.publishers| && s.publishers[i].Idle? && 1 <= delta <= c.maxBatch && t == Claim(s, i, delta)
  }

  ghost predicate AdvanceStep(s: State, t: State, i: nat) {
    i < |s.publishers| && |s.pending| > 0 && t == Advance(s, i)
  }

  ghost predicate Next(c: Config, s: State, t: State) {
    || (exists i, delta :: ClaimStep(c, s, t, i, delta))
    || (exists i :: AdvanceStep(s, t, i))
  }

  ghost predicate IsRun(c: Config, run: seq<State>) {
    && c.Valid() && |run| > 0 && run[0] == Initial(c)
    && forall k :: 0 < k < |run| ==> StepAt(c, run, k)
  }

  ghost predicate StepAt(c: Config, run: seq<State>, k: nat)
    requires 0 < k < |run|
  {
    Next(c, run[k - 1], run[k])
  }

  lemma Shorter(c: Config, run: seq<State>, n: nat)
    requires IsRun(c, run) && 0 < n <= |run|
    ensures IsRun(c, run[..n])
  {
    forall k | 0 < k < n ensures StepAt(c, run[..n], k) { assert StepAt(c, run, k); }
  }

  /** No thread is past the spin guard of SerialisePublishing. */
  ghost predicate Quiescent(s: State) {
    forall i :: 0 <= i < |s.publishers| ==> !s.publishers[i].PastGuard()
  }

  // ---- The invariant -------------------------------------------------------------------

  ghost predicate Shape(c: Config, s: State) {
    && c.Valid() && |s.pending| == c.pendingSize && |s.publishers| == c.threads
    && c.start <= s.cursor && c.start <= s.claim
  }

  ghost predicate PublisherOk(c: Config, s: State, p: Publisher) {
    !p.Idle? ==>
      && 1 <= p.batch <= c.maxBatch && c.start < p.Lo() && p.hi <= s.claim
      && (p.PastGuard() ==> p.hi - s.cursor <= c.pendingSize && p.batch <= c.pendingSize)
      && (p.Writing? ==> p.Lo() <= p.next <= p.hi)
      && (p.Cas? || p.Checking? ==> p.hi - p.batch <= p.expected)
      && (p.Cas? ==> c.start <= p.expected && p.expected + 1 in s.written)
      && (p.Checking? ==> c.start < p.expected <= s.cursor)
  }

  ghost predicate PublishersOk(c: Config, s: State) {
    forall i :: 0 <= i < |s.publishers| ==> PublisherOk(c, s, s.publishers[i])
  }

  /** Every claimed sequence belongs to exactly one unfinished call or is published. */
  ghost predicate Ownership(c: Config, s: State) {
    && (forall i, j, x :: 0 <= i < j < |s.publishers| ==> !(s.publishers[i].Owns(x) && s.publishers[j].Owns(x)))
    && (forall i, x :: 0 <= i < |s.publishers| && s.publishers[i].Owns(x) ==> x !in s.published)
    && (forall x :: x in s.published ==> c.start < x <= s.claim)
  }

  ghost predicate Complete(c: Config, s: State) {
    forall x :: c.start < x <= s.claim ==>
      x in s.published || exists i :: 0 <= i < |s.publishers| && s.publishers[i].Owns(x)
  }

  ghost predicate WrittenOk(c: Config, s: State) {
    && s.published <= s.written
    && (forall i, x :: 0 <= i < |s.publishers| && s.publishers[i].Owns(x) ==>
          (x in s.written <==> s.publishers[i].Wrote(x)))
    && (forall x :: x in s.written ==> c.start < x <= s.claim)
  }

  /** The cursor covers written sequences only. */
  ghost predicate Covered(c: Config, s: State) {
    forall x :: c.start < x <= s.cursor ==> x in s.written
  }

  /** Nothing is written more than one pending window above the cursor. */
  ghost predicate Near(s: State) {
    forall x :: x in s.written ==> x - s.cursor <= |s.pending|
  }

  /** A pending entry holds zero, its initial value, or a written sequence of its slot. */
  ghost predicate EntriesOk(s: State) {
    forall k :: 0 <= k < |s.pending| ==>
      s.pending[k] == 0 || (s.pending[k] in s.written && Slot(s.pending[k], |s.pending|) == k)
  }

  /** Thread p will still try to move a cursor that stands at `cursor`. */
  ghost predicate Owes(p: Publisher, cursor: int) {
    || ((p.Cas? || p.Checking?) && p.expected == cursor)
    || ((p.Writing? || p.Rewriting? || p.ReadingCursor?) && p.Wrote(cursor + 1))
  }

  ghost predicate Visible(s: State, x: int)
    requires |s.pending| > 0
  {
    x in s.written && s.pending[Slot(x, |s.pending|)] == x
  }

  /** The obligation that is handed from thread to thread: a visible successor of the cursor always
      has a thread that will still look at it. */
  ghost predicate HandOff(s: State) {
    |s.pending| > 0 && (Visible(s, s.cursor + 1) ==>
      exists i :: 0 <= i < |s.publishers| && Owes(s.publishers[i], s.cursor))
  }

  ghost predicate Inv(c: Config, s: State) {
    && Shape(c, s) && PublishersOk(c, s) && Ownership(c, s) && Complete(c, s)
    && WrittenOk(c, s) && Covered(c, s) && Near(s) && EntriesOk(s) && HandOff(s)
  }

  lemma InitInv(c: Config)
    requires c.Valid()
    ensures Inv(c, Initial(c))
  {
  }

  lemma ClaimKeepsComplete(c: Config, s: State, i: nat, delta: int)
    requires Complete(c, s) && i < |s.publishers| && s.publishers[i].Idle? && delta >= 1
    ensures Complete(c, Claim(s, i, delta))
  {
    var t := Claim(s, i, delta);
    forall x | c.start < x <= t.claim
      ensures x in t.published || exists j :: 0 <= j < |t.publishers| && t.publishers[j].Owns(x)
    {
      if x > s.claim {
        assert t.publishers[i].Owns(x);
      } else if x !in s.published {
        var j :| 0 <= j < |s.publishers| && s.publishers[j].Owns(x);
        assert t.publishers[j].Owns(x);
      }
    }
  }

  lemma ClaimKeepsHandOff(s: State, i: nat, delta: int)
    requires HandOff(s) && i < |s.publishers| && s.publishers[i].Idle?
    ensures HandOff(Claim(s, i, delta))
  {
    var t := Claim(s, i, delta);
    if Visible(t, t.cursor + 1) {
      var j :| 0 <= j < |s.publishers| && Owes(s.publishers[j], s.cursor);
      assert t.publishers[j] == s.publishers[j];
    }
  }

  lemma ClaimKeepsInv(c: Config, s: State, i: nat, delta: int)
    requires Inv(c, s) && i < |s.publishers| && s.publishers[i].Idle? && 1 <= delta <= c.maxBatch
    ensures Inv(c, Claim(s, i, delta))
  {
    ClaimKeepsComplete(c, s, i, delta);
    ClaimKeepsHandOff(s, i, delta);
  }

  /** What a call in front of the guard has claimed is unwritten, so the cursor is below all of it. */
  lemma GuardedIsUncovered(c: Config, s: State, i: nat)
    requires WrittenOk(c, s) && Covered(c, s) && i < |s.publishers| && s.publishers[i].Guard?
    requires PublisherOk(c, s, s.publishers[i])
    ensures s.cursor < s.publishers[i].Lo()
  {
    var lo := s.publishers[i].Lo();
    assert s.publishers[i].Owns(lo) && !s.publishers[i].Wrote(lo);
    assert lo !in s.written;
  }

  lemma AdvanceKeepsOwnShape(c: Config, s: State, i: nat)
    requires Shape(c, s) && PublishersOk(c, s) && WrittenOk(c, s) && EntriesOk(s) && Covered(c, s) && i < |s.publishers|
    ensures Shape(c, Advance(s, i)) && PublisherOk(c, Advance(s, i), Advance(s, i).publishers[i])
  {
    var p := s.publishers[i];
    assert PublisherOk(c, s, p);
    if p.Guard? { GuardedIsUncovered(c, s, i); }
    if p.ReadingCursor? && s.cursor < p.hi {
      assert p.Wrote(Max(p.hi - p.batch, s.cursor) + 1);
    }
  }

  lemma AdvanceKeepsShapes(c: Config, s: State, i: nat)
    requires Shape(c, s) && PublishersOk(c, s) && WrittenOk(c, s) && EntriesOk(s) && Covered(c, s) && i < |s.publishers|
    ensures Shape(c, Advance(s, i)) && PublishersOk(c, Advance(s, i))
  {
    var t := Advance(s, i);
    AdvanceKeepsOwnShape(c, s, i);
    AdvanceGrows(s, i);
    forall j | 0 <= j < |t.publishers| ensures PublisherOk(c, t, t.publishers[j]) {
      assert PublisherOk(c, s, s.publishers[j]);
    }
  }

  lemma AdvanceGrows(s: State, i: nat)
    requires i < |s.publishers| && |s.pending| > 0
    ensures var t := Advance(s, i);
      && s.written <= t.written && s.published <= t.published && s.cursor <= t.cursor && s.claim == t.claim
      && |s.publishers| == |t.publishers| && |s.pending| == |t.pending|
      && (forall j :: 0 <= j < |s.publishers| && j != i ==> t.publishers[j] == s.publishers[j])
  {
  }

  /** What one step of a thread does to the ownership of sequences: it keeps what it owns or
      publishes all of it, and it writes at most one new entry, its own. */
  lemma AdvanceOwn(c: Config, s: State, i: nat)
    requires i < |s.publishers| && |s.pending| > 0 && PublisherOk(c, s, s.publishers[i])
    ensures var t := Advance(s, i); var p, q := s.publishers[i], t.publishers[i];
      && (q.Idle? || (!p.Idle? && q.hi == p.hi && q.batch == p.batch && t.published == s.published))
      && (q.Idle? && !p.Idle? ==> p.PastGuard() && !p.Writing? && t.published == s.published + Range(p.Lo(), p.hi))
      && (p.Idle? ==> t.published == s.published)
      && (t.written == if p.Writing? then s.written + {p.next} else s.written)
      && (forall x :: q.Owns(x) ==> (q.Wrote(x) <==> p.Wrote(x) || (p.Writing? && x == p.next)))
  {
  }

  lemma AdvanceKeepsOwnership(c: Config, s: State, i: nat)
    requires PublishersOk(c, s) && Ownership(c, s) && i < |s.publishers| && |s.pending| > 0
    ensures Ownership(c, Advance(s, i))
  {
    AdvanceGrows(s, i);
    AdvanceOwn(c, s, i);
    var t := Advance(s, i);
    var p, q := s.publishers[i], t.publishers[i];
    assert PublisherOk(c, s, p);
    assert forall x :: q.Owns(x) ==> p.Owns(x);
    assert forall x :: x in t.published && x !in s.published ==> p.Owns(x) && q.Idle?;
  }

  lemma AdvanceKeepsComplete(c: Config, s: State, i: nat)
    requires PublishersOk(c, s) && Complete(c, s) && i < |s.publishers| && |s.pending| > 0
    ensures Complete(c, Advance(s, i))
  {
    AdvanceGrows(s, i);
    AdvanceOwn(c, s, i);
    var t := Advance(s, i);
    var p, q := s.publishers[i], t.publishers[i];
    forall x | c.start < x <= t.claim
      ensures x in t.published || exists j :: 0 <= j < |t.publishers| && t.publishers[j].Owns(x)
    {
      if x !in t.published {
        var j :| 0 <= j < |s.publishers| && s.publishers[j].Owns(x);
        assert t.publishers[j].Owns(x);
      }
    }
  }

  lemma AdvanceKeepsWritten(c: Config, s: State, i: nat)
    requires PublishersOk(c, s) && Ownership(c, s) && WrittenOk(c, s) && i < |s.publishers| && |s.pending| > 0
    ensures WrittenOk(c, Advance(s, i))
  {
    AdvanceGrows(s, i);
    AdvanceOwn(c, s, i);
    var t := Advance(s, i);
    var p, q := s.publishers[i], t.publishers[i];
    assert PublisherOk(c, s, p);
    if p.Writing? { assert p.Owns(p.next); }
    forall x | x in t.published ensures x in t.written {
      if x !in s.published { assert p.Owns(x) && p.Wrote(x); }
    }
    forall j, x | 0 <= j < |t.publishers| && t.publishers[j].Owns(x)
      ensures x in t.written <==> t.publishers[j].Wrote(x)
    {
      assert s.publishers[j].Owns(x);
    }
  }

  lemma AdvanceKeepsEntries(c: Config, s: State, i: nat)
    requires Inv(c, s) && i < |s.publishers|
    ensures Covered(c, Advance(s, i)) && Near(Advance(s, i)) && EntriesOk(Advance(s, i))
  {
    var p := s.publishers[i];
    assert PublisherOk(c, s, p);
    if p.Rewriting? { assert p.Wrote(p.hi); }
  }

  lemma AdvanceKeepsHandOff(c: Config, s: State, i: nat)
    requires PublishersOk(c, s) && HandOff(s) && i < |s.publishers|
    ensures HandOff(Advance(s, i))
  {
    var t := Advance(s, i);
    assert PublisherOk(c, s, s.publishers[i]);
    AdvanceGrows(s, i);
    if Visible(t, t.cursor + 1) && !Owes(t.publishers[i], t.cursor) {
      var j :| 0 <= j < |s.publishers| && Owes(s.publishers[j], s.cursor);
      assert t.publishers[j] == s.publishers[j];
    }
  }

  lemma StepKeepsInv(c: Config, s: State, t: State)
    requires Inv(c, s) && Next(c, s, t)
    ensures Inv(c, t)
  {
    if i, delta :| ClaimStep(c, s, t, i, delta) {
      ClaimKeepsInv(c, s, i, delta);
    } else {
      var i :| AdvanceStep(s, t, i);
      AdvanceKeepsShapes(c, s, i);
      AdvanceKeepsOwnership(c, s, i);
      AdvanceKeepsComplete(c, s, i);
      AdvanceKeepsWritten(c, s, i);
      AdvanceKeepsEntries(c, s, i);
      AdvanceKeepsHandOff(c, s, i);
    }
  }

  lemma {:induction false} RunInv(c: Config, run: seq<State>)
    requires IsRun(c, run)
    ensures Inv(c, run[|run| - 1])
  {
    if |run| == 1 {
      InitInv(c);
    } else {
      Shorter(c, run, |run| - 1);
      RunInv(c, run[..|run| - 1]);
      assert StepAt(c, run, |run| - 1);
      StepKeepsInv(c, run[|run| - 2], run[|run| - 1]);
    }
  }

  lemma StateInv(c: Config, run: seq<State>, k: nat)
    requires IsRun(c, run) && k < |run|
    ensures Inv(c, run[k])
  {
    Shorter(c, run, k + 1);
    RunInv(c, run[..k + 1]);
  }

  // ---- What holds of every run ---------------------------------------------------------

  /** Safety: in every run of any number of publishers and batches the cursor never goes back, and
      at every step it covers only sequences whose pending entry has been written. */
  lemma {:induction false} CursorIsSafe(c: Config, run: seq<State>, a: nat, b: nat)
    requires IsRun(c, run) && a <= b < |run|
    ensures run[a].cursor <= run[b].cursor <= run[b].claim
    ensures forall x :: c.start < x <= run[b].cursor ==> x in run[b].written
    decreases b
  {
    StateInv(c, run, b);
    CursorBelowClaim(c, run[b]);
    if a < b {
      CursorIsSafe(c, run, a, b - 1);
      assert StepAt(c, run, b);
      StepMovesCursorUp(c, run[b - 1], run[b]);
    }
  }

  lemma CursorBelowClaim(c: Config, s: State)
    requires Shape(c, s) && WrittenOk(c, s) && Covered(c, s)
    ensures s.cursor <= s.claim
  {
    assert s.cursor > c.start ==> s.cursor in s.written;
  }

  lemma StepMovesCursorUp(c: Config, s: State, t: State)
    requires Next(c, s, t)
    ensures s.cursor <= t.cursor
  {
  }

  /** A visible successor of the cursor is never left alone: some thread is past the guard. */
  lemma VisibleIsOwed(c: Config, s: State)
    requires Inv(c, s) && Quiescent(s)
    ensures !Visible(s, s.cursor + 1)
  {
  }

  /** When no thread is inside SerialisePublishing, the only way for the successor of the cursor to
      be published and yet not covered is that its pending entry was overwritten. */
  lemma StrandedOnlyIfOverwritten(c: Config, run: seq<State>)
    requires IsRun(c, run) && Quiescent(run[|run| - 1])
    ensures var s := run[|run| - 1];
      s.cursor + 1 in s.published ==>
        |s.pending| > 0 && s.pending[Slot(s.cursor + 1, |s.pending|)] != s.cursor + 1
  {
    RunInv(c, run);
    VisibleIsOwed(c, run[|run| - 1]);
  }
}
