/** The class comment of MultiThreadedClaimStrategy promises publishers that may be freely contended.
    Because line 54 already writes the last entry of the batch that line 56 writes again, the second
    write can erase a publication of the next lap. This file shows that run wherever it exists. */
module StrandingRuns {
  import opened Slots
  import opened PublishProtocol
  import opened PublishProgress
  import opened PublishSafely

  ghost predicate Reachable(c: Config, s: State) {
    exists run :: IsRun(c, run) && run[|run| - 1] == s
  }

  lemma StartReachable(c: Config)
    requires c.Valid()
    ensures Reachable(c, Initial(c))
  {
    assert IsRun(c, [Initial(c)]);
  }

  lemma ReachNext(c: Config, s: State, t: State)
    requires Reachable(c, s) && Next(c, s, t)
    ensures Reachable(c, t)
  {
    var run :| IsRun(c, run) && run[|run| - 1] == s;
    var longer := run + [t];
    forall k | 0 < k < |longer| ensures StepAt(c, longer, k) {
      if k < |run| { assert StepAt(c, run, k) && longer[k] == run[k] && longer[k - 1] == run[k - 1]; }
    }
    assert IsRun(c, longer) && longer[|longer| - 1] == t;
  }

  lemma ReachAdvance(c: Config, s: State, i: nat)
    requires Reachable(c, s) && i < |s.publishers| && |s.pending| > 0
    ensures Reachable(c, Advance(s, i))
  {
    assert AdvanceStep(s, Advance(s, i), i);
    ReachNext(c, s, Advance(s, i));
  }

  lemma ReachClaim(c: Config, s: State, i: nat, delta: int)
    requires Reachable(c, s) && i < |s.publishers| && s.publishers[i].Idle? && 1 <= delta <= c.maxBatch
    ensures Reachable(c, Claim(s, i, delta))
  {
    assert ClaimStep(c, s, Claim(s, i, delta), i, delta);
    ReachNext(c, s, Claim(s, i, delta));
  }

  // ---- Pieces of a schedule ------------------------------------------------------------

  /** Two pending arrays differ at most in the slots of lo..hi. */
  ghost predicate SameOutside(a: seq<int>, b: seq<int>, lo: int, hi: int) {
    |a| == |b| && forall k :: 0 <= k < |a| && (forall x :: lo <= x <= hi ==> Slot(x, |a|) != k) ==> b[k] == a[k]
  }

  /** Thread i alone runs its write loop to the end. */
  lemma {:induction false} RunWrites(c: Config, s: State, i: nat) returns (t: State)
    requires Reachable(c, s) && i < |s.publishers| && |s.pending| > 0
    requires s.publishers[i].Writing? && s.publishers[i].next <= s.publishers[i].hi
    requires s.publishers[i].hi - s.publishers[i].next < |s.pending|
    ensures Reachable(c, t) && |t.pending| == |s.pending|
    ensures t.publishers == s.publishers[i := Rewriting(s.publishers[i].hi, s.publishers[i].batch)]
    ensures t.cursor == s.cursor && t.claim == s.claim && t.published == s.published
    ensures forall x :: s.publishers[i].next <= x <= s.publishers[i].hi ==> t.pending[Slot(x, |t.pending|)] == x
    ensures SameOutside(s.pending, t.pending, s.publishers[i].next, s.publishers[i].hi)
    decreases s.publishers[i].hi - s.publishers[i].next
  {
    var p := s.publishers[i];
    var u := Advance(s, i);
    ReachAdvance(c, s, i);
    if p.next == p.hi {
      t := u;
    } else {
      t := RunWrites(c, u, i);
      var k := Slot(p.next, |s.pending|);
      forall x | p.next + 1 <= x <= p.hi ensures Slot(x, |s.pending|) != k {
        if Slot(x, |s.pending|) == k { SlotsApart(p.next, x, |s.pending|); }
      }
      assert t.pending[k] == u.pending[k] == p.next;
    }
  }

  /** Thread i alone moves the cursor over the entries up to m and returns at the missing one. */
  lemma {:induction false} RunMoves(c: Config, s: State, i: nat, m: int) returns (t: State)
    requires Reachable(c, s) && i < |s.publishers| && |s.pending| > 0
    requires s.publishers[i].Cas? && s.publishers[i].expected == s.cursor < m
    requires forall x :: s.cursor + 1 < x <= m ==> s.pending[Slot(x, |s.pending|)] == x
    requires s.pending[Slot(m + 1, |s.pending|)] != m + 1
    ensures Reachable(c, t) && t.cursor == m
    ensures t.publishers == s.publishers[i := Idle] && t.pending == s.pending && t.claim == s.claim
    ensures t.published == s.published + Range(s.publishers[i].hi - s.publishers[i].batch + 1, s.publishers[i].hi)
    decreases m - s.cursor
  {
    var u := Advance(s, i);
    ReachAdvance(c, s, i);
    var v := Advance(u, i);
    ReachAdvance(c, u, i);
    if s.cursor + 1 == m {
      t := v;
    } else {
      assert u.pending[Slot(s.cursor + 2, |u.pending|)] == s.cursor + 2;
      t := RunMoves(c, v, i, m);
    }
  }

  /** Thread i claims `delta` sequences right above the cursor and runs up to its second write. */
  lemma RunToRewrite(c: Config, s: State, i: nat, delta: int) returns (t: State)
    requires Reachable(c, s) && i < |s.publishers| && |s.pending| == c.pendingSize > 0
    requires s.publishers[i].Idle? && 1 <= delta <= c.maxBatch && s.claim + delta - s.cursor <= c.pendingSize
    requires s.cursor <= s.claim
    ensures Reachable(c, t) && |t.pending| == |s.pending|
    ensures t.publishers == s.publishers[i := Rewriting(s.claim + delta, delta)]
    ensures t.cursor == s.cursor && t.claim == s.claim + delta && t.published == s.published
    ensures forall x :: s.claim < x <= t.claim ==> t.pending[Slot(x, |t.pending|)] == x
    ensures SameOutside(s.pending, t.pending, s.claim + 1, t.claim)
  {
    var u := Claim(s, i, delta);
    ReachClaim(c, s, i, delta);
    var v := Advance(u, i);
    ReachAdvance(c, u, i);
    assert v.publishers[i] == Writing(s.claim + delta, delta, s.claim + 1);
    t := RunWrites(c, v, i);
  }

  // ---- The run that strands ------------------------------------------------------------

  /** Thread 0 claims n = start + 2 and stops before its second write; thread 1 has written
      start + 1. */
  lemma BothParked(c: Config) returns (s: State)
    requires c.Valid() && c.pendingSize >= 2 && c.threads >= 2
    ensures Reachable(c, s) && |s.pending| == c.pendingSize && |s.publishers| == c.threads
    ensures s.cursor == c.start && s.claim == c.start + 2 && s.published == {}
    ensures s.publishers[0] == Rewriting(c.start + 2, 1) && s.publishers[1] == Rewriting(c.start + 1, 1)
    ensures forall i :: 2 <= i < |s.publishers| ==> s.publishers[i].Idle?
    ensures s.pending[Slot(c.start + 2, c.pendingSize)] == c.start + 2
  {
    var n := c.start + 2;
    var s0 := Initial(c);
    StartReachable(c);
    var s1 := Claim(s0, 1, 1);
    ReachClaim(c, s0, 1, 1);
    var s2 := RunToRewrite(c, s1, 0, 1);
    assert s2.pending[Slot(n, c.pendingSize)] == n;
    var s3 := Advance(s2, 1);
    ReachAdvance(c, s2, 1);
    if Slot(n - 1, c.pendingSize) == Slot(n, c.pendingSize) { SlotsApart(n - 1, n, c.pendingSize); }
    s := RunWrites(c, s3, 1);
  }

  /** Thread 0 is about to write n a second time; every other thread is idle, and all that is claimed
      is covered. */
  ghost predicate StaleWriter(c: Config, s: State, n: int) {
    && |s.pending| == c.pendingSize && |s.publishers| == c.threads >= 2
    && s.publishers[0] == Rewriting(n, 1) && n <= s.cursor == s.claim
    && (forall i :: 1 <= i < |s.publishers| ==> s.publishers[i].Idle?)
  }

  /** Thread 1 publishes start + 1 and carries the cursor over n as well. */
  lemma StaleWriterParked(c: Config) returns (s: State)
    requires c.Valid() && c.pendingSize >= 2 && c.threads >= 2
    ensures Reachable(c, s) && StaleWriter(c, s, c.start + 2) && s.cursor == c.start + 2
  {
    var n := c.start + 2;
    var s4 := BothParked(c);
    var s5 := Advance(s4, 1);
    ReachAdvance(c, s4, 1);
    if Slot(n - 1, c.pendingSize) == Slot(n, c.pendingSize) { SlotsApart(n - 1, n, c.pendingSize); }
    var s6 := Advance(s5, 1);
    ReachAdvance(c, s5, 1);
    assert s6.pending[Slot(n, c.pendingSize)] == n;
    assert s6.publishers[1] == Cas(n - 1, 1, c.start);
    NothingAbove(c, s6, n + 1);
    s := RunMoves(c, s6, 1, n);
  }

  /** No entry holds a sequence that was never claimed. */
  lemma NothingAbove(c: Config, s: State, x: int)
    requires Reachable(c, s) && x > s.claim && |s.pending| > 0 && x != 0
    ensures s.pending[Slot(x, |s.pending|)] != x
  {
    var run :| IsRun(c, run) && run[|run| - 1] == s;
    RunInv(c, run);
  }

  /** Thread 1 publishes one sequence right above the cursor. */
  lemma RunSingle(c: Config, s: State, n: int) returns (t: State)
    requires c.Valid() && Reachable(c, s) && StaleWriter(c, s, n) && n > c.start
    ensures Reachable(c, t) && StaleWriter(c, t, n) && t.cursor == s.cursor + 1
  {
    var x := s.claim + 1;
    var s1 := RunToRewrite(c, s, 1, 1);
    assert s1.pending[Slot(x, |s1.pending|)] == x;
    var s2 := Advance(s1, 1);
    ReachAdvance(c, s1, 1);
    var s3 := Advance(s2, 1);
    ReachAdvance(c, s2, 1);
    assert s3.publishers[1] == Cas(x, 1, x - 1);
    NothingAbove(c, s3, x + 1);
    t := RunMoves(c, s3, 1, x);
  }

  /** One sequence after the other, up to `top`. */
  lemma {:induction false} RunSingles(c: Config, s: State, n: int, top: int) returns (t: State)
    requires c.Valid() && Reachable(c, s) && StaleWriter(c, s, n) && n > c.start && s.cursor <= top
    ensures Reachable(c, t) && StaleWriter(c, t, n) && t.cursor == top
    decreases top - s.cursor
  {
    if s.cursor == top { return s; }
    var u := RunSingle(c, s, n);
    t := RunSingles(c, u, n, top);
  }

  /** The end of both runs: the last claimed sequence was published and erased, everybody is idle. */
  ghost predicate LastIsLost(c: Config, s: State) {
    && |s.pending| == c.pendingSize && |s.publishers| == c.threads >= 2
    && s.claim == s.cursor + 1 && s.claim in s.published
    && (forall i :: 0 <= i < |s.publishers| ==> s.publishers[i].Idle?)
  }

  /** Thread 0 makes its second write and returns. The entry of n + pendingSize is gone. */
  lemma Erase(c: Config, s: State, n: int)
    requires Reachable(c, s) && |s.pending| == c.pendingSize > 0 && |s.publishers| > 0
    requires s.publishers[0] == Rewriting(n, 1) && n <= s.cursor
    ensures var t := Advance(Advance(s, 0), 0);
      && Reachable(c, t) && t.cursor == s.cursor && t.claim == s.claim && t.published == s.published + {n}
      && t.publishers == s.publishers[0 := Idle] && t.pending == s.pending[Slot(n, c.pendingSize) := n]
      && t.pending[Slot(n + c.pendingSize, c.pendingSize)] == n
  {
    ReachAdvance(c, s, 0);
    ReachAdvance(c, Advance(s, 0), 0);
    NextLapSharesSlot(n, c.pendingSize);
  }

  /** With batches of two: thread 1 writes the pair up to n + pendingSize, twice the last one, before
      thread 0 erases it, and then carries the cursor over the first of the pair only. */
  lemma StrandPair(c: Config, s: State, n: int) returns (t: State)
    requires c.Valid() && c.pendingSize >= 2 && c.maxBatch >= 2 && Reachable(c, s) && n > c.start
    requires StaleWriter(c, s, n) && s.cursor == n + c.pendingSize - 2
    ensures Reachable(c, t) && LastIsLost(c, t)
  {
    var top := n + c.pendingSize;
    var s1 := RunToRewrite(c, s, 1, 2);
    var s2 := Advance(s1, 1);
    ReachAdvance(c, s1, 1);
    Erase(c, s2, n);
    var s3 := Advance(Advance(s2, 0), 0);
    var s4 := Advance(s3, 1);
    ReachAdvance(c, s3, 1);
    assert s4.publishers[1] == Cas(top, 2, top - 2);
    t := RunMoves(c, s4, 1, top - 1);
  }

  /** Thread 1 claims top - 1 and waits; thread 2 publishes top, which cannot move the cursor yet. */
  lemma PublishAbove(c: Config, s: State, n: int) returns (t: State)
    requires c.Valid() && c.pendingSize >= 2 && c.threads >= 3 && Reachable(c, s) && n > c.start
    requires StaleWriter(c, s, n) && s.cursor == n + c.pendingSize - 2
    ensures var top := n + c.pendingSize;
      && Reachable(c, t) && |t.pending| == c.pendingSize && t.cursor == top - 2 && t.claim == top && top in t.published
      && t.publishers == s.publishers[1 := Guard(top - 1, 1)]
  {
    var top := n + c.pendingSize;
    var s1 := Claim(s, 1, 1);
    ReachClaim(c, s, 1, 1);
    var s2 := RunToRewrite(c, s1, 2, 1);
    var s3 := Advance(s2, 2);
    ReachAdvance(c, s2, 2);
    var s4 := Advance(s3, 2);
    ReachAdvance(c, s3, 2);
    assert s4.publishers[2] == Cas(top, 1, top - 1);
    t := Advance(s4, 2);
    ReachAdvance(c, s4, 2);
  }

  /** With a third thread: thread 0 erases the entry of n + pendingSize, and thread 1, which owns the
      sequence before it, then finds nothing to carry the cursor to. */
  lemma StrandBehind(c: Config, s: State, n: int) returns (t: State)
    requires c.Valid() && c.pendingSize >= 2 && c.threads >= 3 && Reachable(c, s) && n > c.start
    requires StaleWriter(c, s, n) && s.cursor == n + c.pendingSize - 2
    ensures Reachable(c, t) && LastIsLost(c, t)
  {
    var s5 := PublishAbove(c, s, n);
    Erase(c, s5, n);
    t := PublishBelow(c, Advance(Advance(s5, 0), 0), n + c.pendingSize);
  }

  /** Thread 1 publishes top - 1 and stops there. */
  lemma PublishBelow(c: Config, s: State, top: int) returns (t: State)
    requires c.Valid() && c.pendingSize >= 2 && |s.pending| == c.pendingSize && |s.publishers| == c.threads >= 3
    requires Reachable(c, s) && s.publishers[1] == Guard(top - 1, 1) && s.cursor == top - 2 && s.claim == top
    requires forall i :: 0 <= i < |s.publishers| && i != 1 ==> s.publishers[i].Idle?
    requires top in s.published && s.pending[Slot(top, c.pendingSize)] != top
    ensures Reachable(c, t) && LastIsLost(c, t)
  {
    var s1 := Advance(s, 1);
    ReachAdvance(c, s, 1);
    assert s1.publishers[1] == Writing(top - 1, 1, top - 1);
    var s2 := RunWrites(c, s1, 1);
    if Slot(top - 1, c.pendingSize) == Slot(top, c.pendingSize) { SlotsApart(top - 1, top, c.pendingSize); }
    assert s2.pending[Slot(top, c.pendingSize)] == s.pending[Slot(top, c.pendingSize)];
    var s3 := Advance(s2, 1);
    ReachAdvance(c, s2, 1);
    var s4 := Advance(s3, 1);
    ReachAdvance(c, s3, 1);
    assert s4.publishers[1] == Cas(top - 1, 1, top - 2);
    assert s4.pending[Slot(top, c.pendingSize)] != top;
    t := RunMoves(c, s4, 1, top - 1);
  }

  /** Some run ends with every call returned and a publication that the cursor never covers. */
  lemma StrandingRun(c: Config) returns (s: State)
    requires c.Valid() && CanStrand(c)
    ensures Reachable(c, s) && Stranded(s) && LastIsLost(c, s)
  {
    var n := c.start + 2;
    var s0 := StaleWriterParked(c);
    var s1 := RunSingles(c, s0, n, n + c.pendingSize - 2);
    if c.maxBatch >= 2 {
      s := StrandPair(c, s1, n);
    } else {
      s := StrandBehind(c, s1, n);
    }
  }
}
