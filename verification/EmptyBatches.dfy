/** What batch sizes below one do to SerialisePublishing: Sequencer.NewBatchDescriptor only caps a size
    from above. */
module EmptyBatches {
  import opened Slots
  import opened PublishProtocol

  /** A claim whose batch may be as small as `least`. */
  ghost predicate AnyClaim(c: Config, least: int, s: State, t: State, i: nat, delta: int) {
    i < |s.publishers| && s.publishers[i].Idle? && least <= delta <= c.maxBatch && t == Claim(s, i, delta)
  }

  ghost predicate AnyNext(c: Config, least: int, s: State, t: State) {
    || (exists i, delta :: AnyClaim(c, least, s, t, i, delta))
    || (exists i :: AdvanceStep(s, t, i))
  }

  ghost predicate IsAnyRun(c: Config, least: int, run: seq<State>) {
    && c.Valid() && |run| > 0 && run[0] == Initial(c)
    && forall k :: 0 < k < |run| ==> AnyNext(c, least, run[k - 1], run[k])
  }

  /** In every run the cursor covers written sequences only. */
  ghost predicate AlwaysCovered(c: Config, least: int) {
    forall run :: IsAnyRun(c, least, run) ==> Covered(c, run[|run| - 1])
  }

  // ---- Two threads and an empty batch --------------------------------------------------

  lemma AppendClaim(c: Config, least: int, run: seq<State>, i: nat, delta: int) returns (longer: seq<State>)
    requires IsAnyRun(c, least, run) && least <= delta <= c.maxBatch
    requires i < |run[|run| - 1].publishers| && run[|run| - 1].publishers[i].Idle?
    ensures IsAnyRun(c, least, longer) && longer[|longer| - 1] == Claim(run[|run| - 1], i, delta)
  {
    longer := run + [Claim(run[|run| - 1], i, delta)];
    assert AnyClaim(c, least, run[|run| - 1], longer[|run|], i, delta);
  }

  lemma AppendAdvances(c: Config, least: int, run: seq<State>, i: nat, times: nat) returns (longer: seq<State>)
    requires IsAnyRun(c, least, run) && i < |run[|run| - 1].publishers| && |run[|run| - 1].pending| > 0
    ensures IsAnyRun(c, least, longer) && longer[|longer| - 1] == Advances(run[|run| - 1], i, times)
    decreases times
  {
    if times == 0 { return run; }
    var next := run + [Advance(run[|run| - 1], i)];
    assert AdvanceStep(run[|run| - 1], next[|run|], i);
    longer := AppendAdvances(c, least, next, i, times - 1);
  }

  /** Thread i takes this many steps in a row. */
  ghost function Advances(s: State, i: nat, times: nat): (t: State)
    requires i < |s.publishers| && |s.pending| > 0
    ensures |t.publishers| == |s.publishers| && |t.pending| == |s.pending|
    decreases times
  {
    if times == 0 then s else AdvanceGrows(s, i); Advances(Advance(s, i), i, times - 1)
  }

  /** Both threads are in a call for start + 1, thread 1 with an empty batch, and thread 1 has read the
      cursor before thread 0 has written anything. */
  lemma EmptyBatchArmed(c: Config, s: State) returns (t: State)
    requires c.Valid() && c.threads >= 2 && s == Claim(Claim(Initial(c), 0, 1), 1, 0)
    ensures t == Advances(s, 1, 3) && t.publishers == s.publishers[1 := Cas(c.start + 1, 0, c.start + 1)]
    ensures t.cursor == c.start && t.written == {} && |t.pending| == c.pendingSize
  {
    var u := Advance(s, 1);
    assert u.publishers[1] == Rewriting(c.start + 1, 0);
    var v := Advance(u, 1);
    assert v.publishers[1] == ReadingCursor(c.start + 1, 0);
    t := Advance(v, 1);
    assert Advances(v, 1, 1) == Advances(t, 1, 0);
    assert Advances(u, 1, 2) == Advances(v, 1, 1);
  }

  /** Thread 0 publishes start + 1 up to the move of the cursor. */
  lemma OwnerMoves(c: Config, s: State) returns (t: State)
    requires c.Valid() && |s.publishers| == c.threads >= 2 && |s.pending| == c.pendingSize
    requires s.publishers[0] == Guard(c.start + 1, 1) && s.cursor == c.start && s.written == {}
    ensures t == Advances(s, 0, 5) && t.cursor == c.start + 1 && t.written == {c.start + 1}
    ensures t.publishers == s.publishers[0 := Checking(c.start + 1, 1, c.start + 1)] && |t.pending| == c.pendingSize
  {
    var s1 := Advance(s, 0);
    var s2 := Advance(s1, 0);
    assert s2.publishers[0] == Rewriting(c.start + 1, 1);
    var s3 := Advance(s2, 0);
    var s4 := Advance(s3, 0);
    assert s4.publishers[0] == Cas(c.start + 1, 1, c.start);
    t := Advance(s4, 0);
    assert Advances(s4, 0, 1) == Advances(t, 0, 0);
    assert Advances(s3, 0, 2) == Advances(s4, 0, 1);
    assert Advances(s2, 0, 3) == Advances(s3, 0, 2);
    assert Advances(s1, 0, 4) == Advances(s2, 0, 3);
  }

  /** An empty batch claims nothing, yet its call writes the pending entry of the latest claim, which is
      somebody else's, and its compare-and-set expects that claim. This run ends with the cursor on a
      sequence that nobody has written, nor even claimed. */
  lemma EmptyBatchBreaksSafety(c: Config, least: int) returns (run: seq<State>)
    requires c.Valid() && c.threads >= 2 && least <= 0
    ensures IsAnyRun(c, least, run) && !Covered(c, run[|run| - 1])
    ensures run[|run| - 1].cursor > run[|run| - 1].claim
  {
    run := [Initial(c)];
    run := AppendClaim(c, least, run, 0, 1);
    run := AppendClaim(c, least, run, 1, 0);
    var s := EmptyBatchArmed(c, run[|run| - 1]);
    run := AppendAdvances(c, least, run, 1, 3);
    var t := OwnerMoves(c, s);
    AdvancesKeepClaim(run[|run| - 1], 0, 5);
    run := AppendAdvances(c, least, run, 0, 5);
    assert t.publishers[1] == Cas(c.start + 1, 0, c.start + 1);
    assert Advances(t, 1, 1) == Advances(Advance(t, 1), 1, 0);
    run := AppendAdvances(c, least, run, 1, 1);
    assert run[|run| - 1].cursor == c.start + 2 && c.start + 2 !in run[|run| - 1].written;
  }

  lemma {:induction false} AdvancesKeepClaim(s: State, i: nat, times: nat)
    requires i < |s.publishers| && |s.pending| > 0
    ensures Advances(s, i, times).claim == s.claim
    decreases times
  {
    if times > 0 {
      AdvanceGrows(s, i);
      AdvancesKeepClaim(Advance(s, i), i, times - 1);
    }
  }

  // ---- One thread ----------------------------------------------------------------------

  ghost predicate WrittenUpTo(c: Config, s: State, hi: int) {
    forall x :: c.start < x <= hi ==> x in s.written
  }

  /** A thread that publishes alone has written all it claimed before, whatever its batch sizes. */
  ghost predicate AloneOk(c: Config, s: State, p: Publisher) {
    match p
    case Idle => WrittenUpTo(c, s, s.claim)
    case Guard(hi, b) => s.claim == hi && WrittenUpTo(c, s, hi - b)
    case Writing(hi, b, next) => s.claim == hi && b >= 1 && hi - b < next <= hi && WrittenUpTo(c, s, next - 1)
    case Cas(hi, b, expected) =>
      && s.claim == hi && WrittenUpTo(c, s, Max(hi, hi - b))
      && c.start <= expected && (expected == s.cursor ==> expected + 1 in s.written)
    case Checking(hi, b, expected) =>
      s.claim == hi && WrittenUpTo(c, s, Max(hi, hi - b)) && c.start < expected == s.cursor
    case _ => s.claim == p.hi && WrittenUpTo(c, s, Max(p.hi, p.hi - p.batch))
  }

  ghost predicate EntriesWritten(s: State) {
    forall k :: 0 <= k < |s.pending| && s.pending[k] > s.cursor && s.pending[k] != 0 ==> s.pending[k] in s.written
  }

  ghost predicate Alone(c: Config, s: State) {
    && c.Valid() && |s.pending| == c.pendingSize && |s.publishers| == c.threads < 2 && c.start <= s.cursor
    && Covered(c, s)
    && EntriesWritten(s)
    && (forall i :: 0 <= i < |s.publishers| ==> AloneOk(c, s, s.publishers[i]))
  }

  lemma AloneAdvance(c: Config, s: State)
    requires Alone(c, s) && |s.publishers| == 1
    ensures Alone(c, Advance(s, 0))
  {
    assert AloneOk(c, s, s.publishers[0]);
    AloneOwn(c, s);
  }

  lemma AloneOwn(c: Config, s: State)
    requires c.Valid() && |s.publishers| == 1 && |s.pending| > 0 && c.start <= s.cursor && EntriesWritten(s)
    requires AloneOk(c, s, s.publishers[0])
    ensures AloneOk(c, Advance(s, 0), Advance(s, 0).publishers[0])
  {
    var p, t := s.publishers[0], Advance(s, 0);
    assert s.written <= t.written by { AdvanceGrows(s, 0); }
    if p.Writing? {
      assert WrittenUpTo(c, t, p.next);
    } else {
      assert forall h :: WrittenUpTo(c, s, h) ==> WrittenUpTo(c, t, h);
    }
  }

  lemma {:induction false} AloneRun(c: Config, least: int, run: seq<State>)
    requires IsAnyRun(c, least, run) && c.threads < 2
    ensures Alone(c, run[|run| - 1])
  {
    if |run| > 1 {
      var s, t := run[|run| - 2], run[|run| - 1];
      AloneRun(c, least, run[..|run| - 1]);
      assert AnyNext(c, least, s, t);
      if i: nat, delta: int :| AnyClaim(c, least, s, t, i, delta) {
        assert AloneOk(c, s, s.publishers[i]);
      } else {
        var i :| AdvanceStep(s, t, i);
        AloneAdvance(c, s);
      }
    }
  }

  // ---- The exact condition -------------------------------------------------------------

  lemma OrdinaryRun(c: Config, least: int, run: seq<State>)
    requires IsAnyRun(c, least, run) && least >= 1
    ensures IsRun(c, run)
  {
    forall k | 0 < k < |run| ensures StepAt(c, run, k) {
      assert AnyNext(c, least, run[k - 1], run[k]);
      OrdinaryStep(c, least, run[k - 1], run[k]);
    }
  }

  lemma OrdinaryStep(c: Config, least: int, s: State, t: State)
    requires AnyNext(c, least, s, t) && least >= 1
    ensures Next(c, s, t)
  {
    if i: nat, delta: int :| AnyClaim(c, least, s, t, i, delta) {
      assert ClaimStep(c, s, t, i, delta);
    }
  }

  /** The cursor covers written sequences only, in every run, exactly if no batch is empty or only one
      thread publishes. */
  lemma EmptyBatchesExactly(c: Config, least: int)
    requires c.Valid()
    ensures AlwaysCovered(c, least) <==> least >= 1 || c.threads < 2
  {
    if least >= 1 || c.threads < 2 {
      forall run | IsAnyRun(c, least, run) ensures Covered(c, run[|run| - 1]) {
        if least >= 1 {
          OrdinaryRun(c, least, run);
          RunInv(c, run);
        } else {
          AloneRun(c, least, run);
        }
      }
    } else {
      var run := EmptyBatchBreaksSafety(c, least);
    }
  }
}
