/** Liveness side of SerialisePublishing: which steps can strand a publication, progress when none
    of them is taken, and the exact parameters for which no run ever strands or deadlocks. */
module PublishProgress {
  import opened Slots
  import opened PublishProtocol

  /** Published, not covered, and nobody left inside SerialisePublishing to cover it. */
  ghost predicate Stranded(s: State) {
    Quiescent(s) && s.cursor + 1 in s.published
  }

  /** Some call is unfinished and no thread can take a step other than spinning. */
  ghost predicate Deadlocked(s: State) {
    && |s.pending| > 0
    && (exists i :: 0 <= i < |s.publishers| && !s.publishers[i].Idle?)
    && (forall i :: 0 <= i < |s.publishers| ==> Advance(s, i) == s)
  }

  /** A call whose batch is larger than the pending array. */
  ghost predicate Oversized(c: Config, p: Publisher) { p.Guard? && p.batch > c.pendingSize }

  /** In every reachable state a deadlock is a stranded publication with somebody waiting for it, or
      waits for a batch that is too large: nothing else can stop all publishers. */
  lemma DeadlockIsStranding(c: Config, s: State)
    requires Inv(c, s) && Deadlocked(s)
    ensures Stranded(s) || exists i :: 0 <= i < |s.publishers| && Oversized(c, s.publishers[i])
  {
    forall i | 0 <= i < |s.publishers| ensures !s.publishers[i].PastGuard() {
      StandsStill(c, s, i);
    }
    var i :| 0 <= i < |s.publishers| && !s.publishers[i].Idle?;
    StandsStill(c, s, i);
    assert PublisherOk(c, s, s.publishers[i]);
    var n := s.cursor + 1;
    assert c.start < n <= s.claim;
    if n !in s.published {
      var j :| 0 <= j < |s.publishers| && s.publishers[j].Owns(n);
      StandsStill(c, s, j);
      assert PublisherOk(c, s, s.publishers[j]);
      assert Oversized(c, s.publishers[j]);
    }
  }

  lemma NobodyOversized(c: Config, s: State)
    requires PublishersOk(c, s) && c.maxBatch <= c.pendingSize
    ensures forall i :: 0 <= i < |s.publishers| ==> !Oversized(c, s.publishers[i])
  {
    forall i | 0 <= i < |s.publishers| ensures !Oversized(c, s.publishers[i]) {
      assert PublisherOk(c, s, s.publishers[i]);
    }
  }

  /** A thread that cannot move is idle or spins on the guard. */
  lemma StandsStill(c: Config, s: State, i: nat)
    requires i < |s.publishers| && |s.pending| > 0 && Advance(s, i) == s
    ensures s.publishers[i].Idle? || (s.publishers[i].Guard? && s.publishers[i].hi - s.cursor > |s.pending|)
  {
    assert Advance(s, i).publishers[i] == s.publishers[i];
  }

  // ---- Batches that are too large ------------------------------------------------------

  /** Its first sequence is unwritten, so the cursor stays below it and the guard below the batch. */
  lemma OversizedStaysPut(c: Config, s: State, i: nat)
    requires Inv(c, s) && i < |s.publishers| && Oversized(c, s.publishers[i])
    ensures Advance(s, i) == s && s.cursor < s.publishers[i].Lo()
  {
    assert PublisherOk(c, s, s.publishers[i]);
    GuardedIsUncovered(c, s, i);
  }

  lemma OversizedStep(c: Config, s: State, t: State, i: nat)
    requires Inv(c, s) && Next(c, s, t) && i < |s.publishers| && Oversized(c, s.publishers[i])
    ensures |t.publishers| == |s.publishers| && t.publishers[i] == s.publishers[i]
  {
    OversizedStaysPut(c, s, i);
    if j, delta :| ClaimStep(c, s, t, j, delta) {
    } else {
      var j :| AdvanceStep(s, t, j);
      if j != i { AdvanceGrows(s, j); }
    }
  }

  /** A batch larger than the pending array never gets past the spin guard, whatever the others do, and
      the cursor never reaches it: the call is stuck for good, and so is everything claimed later. */
  lemma {:induction false} OversizedIsPermanent(c: Config, run: seq<State>, a: nat, b: nat, i: nat)
    requires IsRun(c, run) && a <= b < |run| && i < |run[a].publishers| && Oversized(c, run[a].publishers[i])
    ensures |run[b].publishers| == |run[a].publishers| && run[b].publishers[i] == run[a].publishers[i]
    ensures run[b].cursor < run[a].publishers[i].Lo()
    decreases b
  {
    StateInv(c, run, b);
    if a < b {
      OversizedIsPermanent(c, run, a, b - 1, i);
      StateInv(c, run, b - 1);
      assert StepAt(c, run, b);
      OversizedStep(c, run[b - 1], run[b], i);
    }
    OversizedStaysPut(c, run[b], i);
  }

  // ---- Work left -----------------------------------------------------------------------

  ghost function Rank(p: Publisher): int {
    match p
    case Idle => 0
    case Guard(hi, b) => b + 6
    case Writing(hi, b, next) => hi - next + 6
    case Rewriting(hi, b) => 5
    case ReadingCursor(hi, b) => 4
    case Cas(hi, b, e) => 2
    case Checking(hi, b, e) => 3
  }

  ghost function TotalRank(ps: seq<Publisher>): int {
    if ps == [] then 0 else Rank(ps[0]) + TotalRank(ps[1..])
  }

  lemma {:induction false} TotalRankUpdate(ps: seq<Publisher>, i: nat, p: Publisher)
    requires i < |ps|
    ensures TotalRank(ps[i := p]) == TotalRank(ps) - Rank(ps[i]) + Rank(p)
  {
    if i == 0 {
      assert ps[0 := p][1..] == ps[1..];
    } else {
      assert ps[i := p][1..] == ps[1..][i - 1 := p];
      TotalRankUpdate(ps[1..], i - 1, p);
    }
  }

  lemma {:induction false} TotalRankNonNegative(ps: seq<Publisher>)
    requires forall i :: 0 <= i < |ps| ==> Rank(ps[i]) >= 0
    ensures TotalRank(ps) >= 0
  {
    if ps != [] { TotalRankNonNegative(ps[1..]); }
  }

  /** The total remaining work: the unfinished steps of every call, and the distance the cursor has
      still to cover. */
  ghost function Work(s: State): int { TotalRank(s.publishers) + 2 * (s.claim - s.cursor) }

  lemma StepReducesOwnWork(c: Config, s: State, i: nat)
    requires i < |s.publishers| && |s.pending| > 0 && Advance(s, i) != s && PublisherOk(c, s, s.publishers[i])
    ensures var t := Advance(s, i);
      && t.claim == s.claim && t.publishers == s.publishers[i := t.publishers[i]]
      && Rank(t.publishers[i]) - 2 * t.cursor < Rank(s.publishers[i]) - 2 * s.cursor
  {
  }

  /** Every step except a claim and a spin reduces the remaining work, which is never negative. So
      between two claims every schedule that is not only spinning ends. */
  lemma StepReducesWork(c: Config, s: State, i: nat)
    requires Inv(c, s) && i < |s.publishers| && Advance(s, i) != s
    ensures 0 <= Work(Advance(s, i)) < Work(s)
  {
    var t := Advance(s, i);
    StepReducesOwnWork(c, s, i);
    assert t.publishers == s.publishers[i := t.publishers[i]];
    TotalRankUpdate(s.publishers, i, t.publishers[i]);
    AdvanceKeepsShapes(c, s, i);
    AdvanceKeepsOwnership(c, s, i);
    AdvanceKeepsWritten(c, s, i);
    AdvanceKeepsEntries(c, s, i);
    CursorBelowClaim(c, t);
    forall j | 0 <= j < |t.publishers| ensures Rank(t.publishers[j]) >= 0 {
      assert PublisherOk(c, t, t.publishers[j]);
    }
    TotalRankNonNegative(t.publishers);
  }

  // ---- The step that can strand --------------------------------------------------------

  /** Every written sequence above the cursor can still be seen in the pending array. */
  ghost predicate Intact(s: State) {
    |s.pending| > 0 && forall x :: x in s.written && x > s.cursor ==> s.pending[Slot(x, |s.pending|)] == x
  }

  /** Thread i is about to write its last entry a second time although, since its first write, the
      slot has been taken by a sequence of a later lap that the cursor does not cover yet. */
  ghost predicate StaleRewrite(s: State, i: nat)
    requires i < |s.publishers| && |s.pending| > 0
  {
    var p := s.publishers[i];
    p.Rewriting? && s.pending[Slot(p.hi, |s.pending|)] != p.hi && s.pending[Slot(p.hi, |s.pending|)] > s.cursor
  }

  /** The second write is the only step that can hide a publication, and it does so exactly when it
      is stale; the first write never does, whatever the interleaving. */
  lemma OnlyStaleRewritesHide(c: Config, s: State, i: nat)
    requires Inv(c, s) && Intact(s) && i < |s.publishers|
    ensures Intact(Advance(s, i)) <==> !StaleRewrite(s, i)
  {
    var t := Advance(s, i);
    var p := s.publishers[i];
    assert PublisherOk(c, s, p);
    if p.Rewriting? {
      assert p.Wrote(p.hi);
      RewriteHides(c, s, i);
    } else if p.Writing? {
      FirstWriteHidesNothing(c, s, i);
    }
  }

  lemma FirstWriteHidesNothing(c: Config, s: State, i: nat)
    requires Inv(c, s) && Intact(s) && i < |s.publishers| && s.publishers[i].Writing?
    ensures Intact(Advance(s, i))
  {
    var t := Advance(s, i);
    var p := s.publishers[i];
    assert PublisherOk(c, s, p);
    assert p.Owns(p.next) && !p.Wrote(p.next);
    forall x | x in t.written && x > t.cursor ensures t.pending[Slot(x, |t.pending|)] == x {
      if x != p.next && Slot(x, |s.pending|) == Slot(p.next, |s.pending|) {
        if x < p.next { SlotsApart(x, p.next, |s.pending|); } else { SlotsApart(p.next, x, |s.pending|); }
      }
    }
  }

  lemma RewriteHides(c: Config, s: State, i: nat)
    requires Inv(c, s) && Intact(s) && i < |s.publishers| && s.publishers[i].Rewriting?
    ensures Intact(Advance(s, i)) <==> !StaleRewrite(s, i)
  {
    var t := Advance(s, i);
    var hi := s.publishers[i].hi;
    var k := Slot(hi, |s.pending|);
    var y := s.pending[k];
    assert t.pending == s.pending[k := hi];
    if y != hi && y > s.cursor {
      assert s.cursor >= c.start >= -1;
      assert y in s.written && Slot(y, |s.pending|) == k;
      assert t.pending[Slot(y, |t.pending|)] != y;
    } else {
      forall x | x in t.written && x > t.cursor ensures t.pending[Slot(x, |t.pending|)] == x {
        assert s.pending[Slot(x, |s.pending|)] == x;
      }
    }
  }


  /** A run in which no second write of a last entry is stale. */
  ghost predicate IsCleanRun(c: Config, run: seq<State>) {
    && c.Valid() && |run| > 0 && run[0] == Initial(c)
    && forall k :: 0 < k < |run| ==> CleanNext(c, run[k - 1], run[k])
  }

  ghost predicate CleanNext(c: Config, s: State, t: State) {
    || (exists i, delta :: ClaimStep(c, s, t, i, delta))
    || (exists i :: AdvanceStep(s, t, i) && !StaleRewrite(s, i))
  }

  lemma {:induction false} CleanRunIntact(c: Config, run: seq<State>)
    requires IsCleanRun(c, run)
    ensures Inv(c, run[|run| - 1]) && Intact(run[|run| - 1])
  {
    if |run| == 1 {
      InitInv(c);
    } else {
      var s, t := run[|run| - 2], run[|run| - 1];
      CleanRunIntact(c, run[..|run| - 1]);
      assert CleanNext(c, s, t);
      StepKeepsInv(c, s, t);
      if i, delta :| ClaimStep(c, s, t, i, delta) {
      } else {
        var i :| AdvanceStep(s, t, i) && !StaleRewrite(s, i);
        OnlyStaleRewritesHide(c, s, i);
      }
    }
  }

  /** No publication is stranded, and with batches that fit no deadlock is reached, in a run without
      stale second writes:
      with nobody inside SerialisePublishing the cursor's successor is unpublished, so a fully
      published prefix is covered. */
  lemma CleanRunsPublishEverything(c: Config, run: seq<State>, n: int)
    requires IsCleanRun(c, run)
    ensures var s := run[|run| - 1];
      && !Stranded(s) && (c.maxBatch <= c.pendingSize ==> !Deadlocked(s))
      && (Quiescent(s) && (forall x :: c.start < x <= n ==> x in s.published) ==> s.cursor >= n)
  {
    CleanRunIntact(c, run);
    var s := run[|run| - 1];
    if Quiescent(s) {
      VisibleIsOwed(c, s);
    }
    if Deadlocked(s) && c.maxBatch <= c.pendingSize {
      DeadlockIsStranding(c, s);
      NobodyOversized(c, s);
    }
  }
}
