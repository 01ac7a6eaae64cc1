/** The run of StrandingRuns ends in a permanent deadlock; with PublishSafely, no other configuration has
    such a run. */
module PublishExactly {
  import opened PublishProtocol
  import opened PublishProgress
  import opened PublishSafely
  import opened StrandingRuns

  // ---- The deadlock that follows -------------------------------------------------------

  /** Every unfinished call spins, and so would every call claimed from now on. */
  ghost predicate Jammed(s: State) {
    && |s.pending| > 0 && s.claim - s.cursor >= |s.pending|
    && (forall i :: 0 <= i < |s.publishers| ==>
          s.publishers[i].Idle? || (s.publishers[i].Guard? && s.publishers[i].hi - s.cursor > |s.pending|))
  }

  /** Everybody idle above a cursor that will not move: thread 0 fills the window up. */
  lemma {:induction false} FillUp(c: Config, s: State) returns (t: State)
    requires c.Valid() && Reachable(c, s) && |s.pending| == c.pendingSize && |s.publishers| == c.threads > 0
    requires s.cursor < s.claim && s.claim - s.cursor <= c.pendingSize
    requires forall i :: 0 <= i < |s.publishers| ==> s.publishers[i].Idle?
    ensures Reachable(c, t) && |t.pending| == c.pendingSize && |t.publishers| == c.threads
    ensures t.cursor == s.cursor && t.claim == s.cursor + c.pendingSize
    ensures forall i :: 0 <= i < |t.publishers| ==> t.publishers[i].Idle?
    decreases c.pendingSize - (s.claim - s.cursor)
  {
    if s.claim - s.cursor == c.pendingSize { return s; }
    var x := s.claim + 1;
    var s1 := RunToRewrite(c, s, 0, 1);
    var s2 := Advance(s1, 0);
    ReachAdvance(c, s1, 0);
    var s3 := Advance(s2, 0);
    ReachAdvance(c, s2, 0);
    assert s3.publishers[0] == Cas(x, 1, x - 1);
    var s4 := Advance(s3, 0);
    ReachAdvance(c, s3, 0);
    t := FillUp(c, s4);
  }

  /** From the stranded state single publications jam every publisher. */
  lemma DeadlockReachable(c: Config) returns (s: State)
    requires c.Valid() && CanStrand(c)
    ensures Reachable(c, s) && Deadlocked(s) && Jammed(s)
  {
    var s0 := StrandingRun(c);
    var s1 := FillUp(c, s0);
    s := Claim(s1, 0, 1);
    ReachClaim(c, s1, 0, 1);
    assert s.publishers[0].Guard?;
  }

  /** A batch larger than the pending array jams everybody at once. */
  lemma OversizedDeadlock(c: Config) returns (s: State)
    requires c.Valid() && c.threads > 0 && c.maxBatch > c.pendingSize
    ensures Reachable(c, s) && Deadlocked(s) && Jammed(s) && Oversized(c, s.publishers[0])
  {
    StartReachable(c);
    s := Claim(Initial(c), 0, c.maxBatch);
    ReachClaim(c, Initial(c), 0, c.maxBatch);
    assert s.publishers[0] == Guard(c.start + c.maxBatch, c.maxBatch);
  }

  /** The deadlock is permanent: whatever is claimed or scheduled afterwards, the cursor never moves
      again, nothing more is published and no waiting call returns. */
  lemma {:induction false} JamIsPermanent(c: Config, run: seq<State>, a: nat, b: nat)
    requires IsRun(c, run) && a <= b < |run| && Jammed(run[a])
    ensures Jammed(run[b]) && run[b].cursor == run[a].cursor && run[b].published == run[a].published
    ensures |run[b].publishers| == |run[a].publishers|
    ensures forall i :: 0 <= i < |run[a].publishers| && !run[a].publishers[i].Idle? ==>
      run[b].publishers[i] == run[a].publishers[i]
    decreases b - a
  {
    if a < b {
      JamIsPermanent(c, run, a, b - 1);
      assert StepAt(c, run, b);
    }
  }

  // ---- The exact conditions ------------------------------------------------------------

  ghost predicate NeverStrands(c: Config) {
    forall run :: IsRun(c, run) ==> !Stranded(run[|run| - 1])
  }

  ghost predicate NeverDeadlocks(c: Config) {
    forall run :: IsRun(c, run) ==> !Deadlocked(run[|run| - 1])
  }

  /** A publication can be stranded exactly in the configurations that let two threads publish through
      two or more pending entries, unless there are just two and both publish single sequences. There
      publishing can deadlock too, and otherwise exactly when some batch exceeds the pending array. */
  lemma StrandingExactly(c: Config)
    requires c.Valid()
    ensures NeverStrands(c) <==>
      (c.pendingSize == 1 || c.threads < 2 || (c.threads == 2 && c.maxBatch == 1))
    ensures NeverDeadlocks(c) <==>
      (c.threads == 0 || (c.maxBatch <= c.pendingSize && NeverStrands(c)))
  {
    if CanStrand(c) {
      var s := StrandingRun(c);
      var d := DeadlockReachable(c);
    } else {
      forall run | IsRun(c, run) ensures !Stranded(run[|run| - 1]) { SafeConfigurations(c, run); }
      if c.threads > 0 && c.maxBatch > c.pendingSize {
        var d := OversizedDeadlock(c);
      } else {
        forall run | IsRun(c, run) ensures !Deadlocked(run[|run| - 1]) { NoDeadlock(c, run); }
      }
    }
  }

  lemma NoDeadlock(c: Config, run: seq<State>)
    requires IsRun(c, run) && !Stranded(run[|run| - 1]) && (c.threads == 0 || c.maxBatch <= c.pendingSize)
    ensures !Deadlocked(run[|run| - 1])
  {
    RunInv(c, run);
    if Deadlocked(run[|run| - 1]) {
      DeadlockIsStranding(c, run[|run| - 1]);
      if c.threads > 0 { NobodyOversized(c, run[|run| - 1]); }
    }
  }
}
