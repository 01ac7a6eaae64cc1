/** The configurations in which SerialisePublishing never strands a publication, although it may write
    an entry a second time: a single pending entry, a single thread, or two threads that publish single
    sequences. */
module PublishSafely {
  import opened Slots
  import opened PublishProtocol
  import opened PublishProgress

  /** Where PublishExactly exhibits a stranding run. */
  ghost predicate CanStrand(c: Config) {
    c.pendingSize >= 2 && c.threads >= 2 && (c.threads >= 3 || c.maxBatch >= 2)
  }

  // ---- A single pending entry, or a single thread --------------------------------------

  /** With a single pending entry the guard lets a sequence in only right above the cursor, so its
      own thread moves the cursor, before or after the second write. */
  ghost predicate OwnMove(s: State) {
    s.cursor + 1 in s.written ==>
      exists i :: 0 <= i < |s.publishers| && s.publishers[i].Owns(s.cursor + 1) && WillMove(s.publishers[i], s.cursor)
  }

  ghost predicate WillMove(p: Publisher, cursor: int) {
    p.Rewriting? || p.ReadingCursor? || (p.Cas? && p.expected == cursor)
  }

  lemma OwnMoveOwn(c: Config, s: State, i: nat)
    requires i < |s.publishers| && |s.pending| == c.pendingSize == 1 && PublisherOk(c, s, s.publishers[i])
    ensures var t := Advance(s, i); var p, q := s.publishers[i], t.publishers[i]; var n := s.cursor + 1;
      && (t.cursor == s.cursor && p.Owns(n) && WillMove(p, s.cursor) ==> q.Owns(n) && WillMove(q, s.cursor))
      && (p.Writing? && p.next == n ==> q.Owns(n) && WillMove(q, s.cursor))
      && (t.cursor == s.cursor || (t.cursor == n && t.written == s.written))
  {
  }

  lemma OwnMoveStep(c: Config, s: State, i: nat)
    requires Shape(c, s) && PublishersOk(c, s) && Near(s) && OwnMove(s) && c.pendingSize == 1 && i < |s.publishers|
    ensures OwnMove(Advance(s, i))
  {
    var t := Advance(s, i);
    var p, q := s.publishers[i], t.publishers[i];
    var n := s.cursor + 1;
    assert PublisherOk(c, s, p);
    OwnMoveOwn(c, s, i);
    AdvanceGrows(s, i);
    AdvanceOwn(c, s, i);
    if t.cursor + 1 in t.written && !(q.Owns(n) && WillMove(q, s.cursor)) {
      assert t.cursor == s.cursor && n in s.written;
      var j :| 0 <= j < |s.publishers| && s.publishers[j].Owns(n) && WillMove(s.publishers[j], s.cursor);
      assert t.publishers[j] == s.publishers[j];
    }
  }

  lemma {:induction false} OwnMoveRun(c: Config, run: seq<State>)
    requires IsRun(c, run) && c.pendingSize == 1
    ensures OwnMove(run[|run| - 1])
  {
    if |run| > 1 {
      var s, t := run[|run| - 2], run[|run| - 1];
      Shorter(c, run, |run| - 1);
      OwnMoveRun(c, run[..|run| - 1]);
      StateInv(c, run, |run| - 2);
      assert StepAt(c, run, |run| - 1);
      OwnMoveNext(c, s, t);
    }
  }

  lemma OwnMoveNext(c: Config, s: State, t: State)
    requires Shape(c, s) && PublishersOk(c, s) && Near(s) && OwnMove(s) && c.pendingSize == 1 && Next(c, s, t)
    ensures OwnMove(t)
  {
    if i, delta :| ClaimStep(c, s, t, i, delta) {
      if t.cursor + 1 in t.written {
        var j :| 0 <= j < |s.publishers| && s.publishers[j].Owns(s.cursor + 1) && WillMove(s.publishers[j], s.cursor);
        assert t.publishers[j] == s.publishers[j];
      }
    } else {
      var i :| AdvanceStep(s, t, i);
      OwnMoveStep(c, s, i);
    }
  }

  /** A thread that publishes alone finds the cursor right below its batch. */
  ghost predicate AlonePosition(s: State) {
    && (|s.publishers| == 0 ==> s.published == {})
    && (|s.publishers| == 1 ==>
          var p := s.publishers[0];
          && s.claim == (if p.Idle? then s.cursor else p.hi)
          && (p.Guard? || p.Writing? || p.Rewriting? || p.ReadingCursor? ==> s.cursor == p.hi - p.batch)
          && (p.Cas? || p.Checking? ==> p.expected == s.cursor && p.hi - p.batch <= s.cursor <= p.hi)
          && (p.Cas? ==> s.cursor < p.hi))
  }

  ghost predicate AloneVisible(s: State) {
    |s.publishers| == 1 && |s.pending| > 0 ==>
      forall x :: s.publishers[0].Wrote(x) && x > s.cursor ==> s.pending[Slot(x, |s.pending|)] == x
  }

  lemma AlonePositionStep(c: Config, s: State)
    requires Shape(c, s) && EntriesOk(s) && WrittenOk(c, s) && |s.publishers| == 1
    requires PublisherOk(c, s, s.publishers[0]) && AlonePosition(s) && AloneVisible(s)
    ensures AlonePosition(Advance(s, 0))
  {
    var p := s.publishers[0];
    if p.Checking? && p.expected < p.hi {
      assert p.Wrote(p.expected + 1);
    }
  }

  lemma AloneVisibleStep(c: Config, s: State)
    requires |s.pending| == c.pendingSize > 0 && |s.publishers| == 1
    requires PublisherOk(c, s, s.publishers[0]) && AloneVisible(s)
    ensures AloneVisible(Advance(s, 0))
  {
    var t := Advance(s, 0);
    var p, q := s.publishers[0], t.publishers[0];
    AdvanceOwn(c, s, 0);
    forall x | q.Wrote(x) && x > t.cursor ensures t.pending[Slot(x, |t.pending|)] == x {
      if p.Writing? || p.Rewriting? {
        var y := if p.Writing? then p.next else p.hi;
        if x < y && Slot(x, |s.pending|) == Slot(y, |s.pending|) { SlotsApart(x, y, |s.pending|); }
      }
    }
  }

  lemma {:induction false} AloneRun(c: Config, run: seq<State>)
    requires IsRun(c, run) && c.threads < 2
    ensures AlonePosition(run[|run| - 1]) && AloneVisible(run[|run| - 1])
  {
    if |run| > 1 {
      var s, t := run[|run| - 2], run[|run| - 1];
      Shorter(c, run, |run| - 1);
      AloneRun(c, run[..|run| - 1]);
      StateInv(c, run, |run| - 2);
      assert StepAt(c, run, |run| - 1);
      if i, delta :| ClaimStep(c, s, t, i, delta) {
      } else {
        var i :| AdvanceStep(s, t, i);
        AlonePositionStep(c, s);
        AloneVisibleStep(c, s);
      }
    }
  }


  // ---- Two threads that publish single sequences ---------------------------------------

  /** The thread beside a stale writer finds the cursor right below its own sequence, or all covered. */
  ghost predicate NextInLine(s: State, q: Publisher) {
    match q
    case Idle => s.claim == s.cursor
    case Cas(hi, _, expected) => hi == s.claim == s.cursor + 1 && expected == s.cursor
    case Checking(_, _, expected) => expected == s.cursor == s.claim
    case _ => q.hi == s.claim == s.cursor + 1
  }

  /** About to write a covered sequence a second time. */
  ghost predicate Late(s: State, p: Publisher) { p.Rewriting? && p.hi <= s.cursor }

  ghost predicate Pair(s: State, p: Publisher, q: Publisher) {
    && (Late(s, p) ==> NextInLine(s, q))
    && (!p.Idle? && !q.Idle? ==> s.claim == Max(p.hi, q.hi))
  }

  ghost predicate PairOk(s: State) {
    |s.publishers| == 2 && Pair(s, s.publishers[0], s.publishers[1]) && Pair(s, s.publishers[1], s.publishers[0])
  }

  /** A written sequence that has lost its entry is the cursor's successor, and its own thread is going
      to move the cursor there. */
  ghost predicate HiddenOk(s: State) {
    |s.pending| > 0 && forall y :: y in s.written && y > s.cursor && s.pending[Slot(y, |s.pending|)] != y ==>
      y == s.cursor + 1
        && exists i :: 0 <= i < |s.publishers| && s.publishers[i].Owns(y) && WillMove(s.publishers[i], s.cursor)
  }

  ghost predicate PairsOk(s: State) { PairOk(s) && HiddenOk(s) }

  /** The other thread of two. */
  function Other(i: nat): nat
    requires i < 2
  {
    1 - i
  }

  lemma PairAdvance(c: Config, s: State, i: nat)
    requires Inv(c, s) && c.maxBatch == 1 && c.threads == 2 && PairOk(s) && i < 2
    ensures PairOk(Advance(s, i))
  {
    assert PublisherOk(c, s, s.publishers[i]) && PublisherOk(c, s, s.publishers[Other(i)]);
    CursorBelowClaim(c, s);
    PairStep(c, s, i);
  }

  lemma WritingIsUncovered(c: Config, s: State, i: nat)
    requires WrittenOk(c, s) && Covered(c, s) && i < |s.publishers| && s.publishers[i].Writing?
    requires PublisherOk(c, s, s.publishers[i])
    ensures s.cursor < s.publishers[i].next
  {
    var x := s.publishers[i].next;
    assert s.publishers[i].Owns(x) && !s.publishers[i].Wrote(x);
    assert x !in s.written;
  }

  lemma PairStep(c: Config, s: State, i: nat)
    requires Shape(c, s) && EntriesOk(s) && WrittenOk(c, s) && Covered(c, s)
    requires c.maxBatch == 1 && i < |s.publishers| == 2
    requires PublisherOk(c, s, s.publishers[i]) && PublisherOk(c, s, s.publishers[Other(i)]) && s.cursor <= s.claim
    requires PairOk(s)
    ensures var t := Advance(s, i); var q, r := s.publishers[Other(i)], t.publishers[i];
      |t.publishers| == 2 && t.publishers[Other(i)] == q && Pair(t, r, q) && Pair(t, q, r)
  {
    LateStep(c, s, i);
    BesideLateStep(c, s, i);
  }

  /** Thread i becomes late only where the other one is next in line. */
  lemma LateStep(c: Config, s: State, i: nat)
    requires Shape(c, s) && WrittenOk(c, s) && Covered(c, s) && c.maxBatch == 1 && i < |s.publishers| == 2
    requires PublisherOk(c, s, s.publishers[i]) && PublisherOk(c, s, s.publishers[Other(i)]) && s.cursor <= s.claim
    requires PairOk(s)
    ensures var t := Advance(s, i);
      |t.publishers| == 2 && t.publishers[Other(i)] == s.publishers[Other(i)]
      && Pair(t, t.publishers[i], s.publishers[Other(i)])
  {
    if s.publishers[i].Writing? { WritingIsUncovered(c, s, i); }
  }

  /** A step of the thread beside a late one leaves it next in line, or idle with everything covered. */
  lemma BesideLateStep(c: Config, s: State, i: nat)
    requires Shape(c, s) && EntriesOk(s) && WrittenOk(c, s) && c.maxBatch == 1 && i < |s.publishers| == 2
    requires PublisherOk(c, s, s.publishers[i]) && PublisherOk(c, s, s.publishers[Other(i)]) && s.cursor <= s.claim
    requires PairOk(s)
    ensures Pair(Advance(s, i), s.publishers[Other(i)], Advance(s, i).publishers[i])
  {
    AdvanceOwn(c, s, i);
    if s.publishers[i].Cas? {
      BesideLateMove(c, s, i);
    } else if s.publishers[i].Checking? {
      BesideLateCheck(c, s, i);
    } else if Late(s, s.publishers[Other(i)]) {
      BesideLateWrite(c, s, i);
    }
  }

  lemma BesideLateMove(c: Config, s: State, i: nat)
    requires Shape(c, s) && WrittenOk(c, s) && c.maxBatch == 1 && i < |s.publishers| == 2 && s.publishers[i].Cas?
    requires PublisherOk(c, s, s.publishers[i]) && PublisherOk(c, s, s.publishers[Other(i)]) && s.cursor <= s.claim
    requires PairOk(s)
    ensures Pair(Advance(s, i), s.publishers[Other(i)], Advance(s, i).publishers[i])
  {
  }

  lemma BesideLateCheck(c: Config, s: State, i: nat)
    requires Shape(c, s) && EntriesOk(s) && WrittenOk(c, s) && i < |s.publishers| == 2 && s.publishers[i].Checking?
    requires PublisherOk(c, s, s.publishers[i]) && PairOk(s)
    ensures Pair(Advance(s, i), s.publishers[Other(i)], Advance(s, i).publishers[i])
  {
  }

  lemma BesideLateWrite(c: Config, s: State, i: nat)
    requires Shape(c, s) && c.maxBatch == 1 && i < |s.publishers| == 2
    requires !s.publishers[i].Cas? && !s.publishers[i].Checking? && PublisherOk(c, s, s.publishers[i])
    requires NextInLine(s, s.publishers[i])
    ensures NextInLine(Advance(s, i), Advance(s, i).publishers[i])
  {
  }

  lemma PairClaim(c: Config, s: State, i: nat, delta: int)
    requires Inv(c, s) && c.maxBatch == 1 && c.threads == 2 && PairsOk(s)
    requires i < |s.publishers| && ClaimStep(c, s, Claim(s, i, delta), i, delta)
    ensures PairsOk(Claim(s, i, delta))
  {
    var t := Claim(s, i, delta);
    assert PublisherOk(c, s, s.publishers[Other(i)]);
    assert t.publishers[Other(i)] == s.publishers[Other(i)] && t.publishers[i] == Guard(s.claim + 1, 1);
    assert Pair(t, t.publishers[i], t.publishers[Other(i)]) && Pair(t, t.publishers[Other(i)], t.publishers[i]);
    forall y | y in t.written && y > t.cursor && t.pending[Slot(y, |t.pending|)] != y
      ensures y == t.cursor + 1
        && exists j :: 0 <= j < |t.publishers| && t.publishers[j].Owns(y) && WillMove(t.publishers[j], t.cursor)
    {
      var j :| 0 <= j < |s.publishers| && s.publishers[j].Owns(y) && WillMove(s.publishers[j], s.cursor);
      assert t.publishers[j] == s.publishers[j];
    }
  }

  /** The thread that writes an entry above the cursor hides nobody else's. */
  lemma WindowIsApart(s: State, x: int, y: int)
    requires |s.pending| > 0 && s.cursor < x <= s.cursor + |s.pending|
    requires s.cursor < y <= s.cursor + |s.pending| && x != y
    ensures Slot(x, |s.pending|) != Slot(y, |s.pending|)
  {
    if Slot(x, |s.pending|) == Slot(y, |s.pending|) {
      if x < y { SlotsApart(x, y, |s.pending|); } else { SlotsApart(y, x, |s.pending|); }
    }
  }

  /** The sequence a stale second write erases is the one its own thread is about to move to. */
  lemma StaleIsHarmless(c: Config, s: State, i: nat, y: int)
    requires Inv(c, s) && c.threads == 2 && PairOk(s) && i < 2 && Late(s, s.publishers[i])
    requires y in s.written && y > s.cursor
    ensures y == s.cursor + 1 && s.publishers[Other(i)].Owns(y) && WillMove(s.publishers[Other(i)], s.cursor)
  {
    var q := s.publishers[Other(i)];
    assert PublisherOk(c, s, q);
    assert y <= s.claim && NextInLine(s, q);
    assert s.publishers[Other(i)].Owns(y) && q.Wrote(y);
  }

  /** What step i does to a sequence y that is hidden afterwards. */
  lemma HiddenStep(c: Config, s: State, i: nat, y: int)
    requires Inv(c, s) && c.maxBatch == 1 && c.threads == 2 && PairsOk(s) && i < 2
    requires var t := Advance(s, i);
      y in t.written && y > t.cursor && |t.pending| > 0 && t.pending[Slot(y, |t.pending|)] != y
    ensures var t := Advance(s, i);
      && y == t.cursor + 1 && |t.publishers| == 2
      && ((t.publishers[i].Owns(y) && WillMove(t.publishers[i], t.cursor))
          || (t.publishers[Other(i)].Owns(y) && WillMove(t.publishers[Other(i)], t.cursor)))
  {
    var t := Advance(s, i);
    var p := s.publishers[i];
    assert PublisherOk(c, s, p);
    AdvanceGrows(s, i);
    if p.Writing? { WritingIsUncovered(c, s, i); }
    if y !in s.written || s.pending[Slot(y, |s.pending|)] == y {
      assert p.Writing? || p.Rewriting?;
      var x := if p.Writing? then p.next else p.hi;
      if x > s.cursor {
        if x != y { WindowIsApart(s, x, y); }
      } else {
        StaleIsHarmless(c, s, i, y);
      }
    } else {
      var j :| 0 <= j < |s.publishers| && s.publishers[j].Owns(y) && WillMove(s.publishers[j], s.cursor);
      if j != i { assert t.publishers[j] == s.publishers[j]; }
    }
  }

  lemma HiddenAdvance(c: Config, s: State, i: nat)
    requires Inv(c, s) && c.maxBatch == 1 && c.threads == 2 && PairsOk(s) && i < 2
    ensures HiddenOk(Advance(s, i))
  {
    var t := Advance(s, i);
    forall y | y in t.written && y > t.cursor && t.pending[Slot(y, |t.pending|)] != y
      ensures y == t.cursor + 1
        && exists j :: 0 <= j < |t.publishers| && t.publishers[j].Owns(y) && WillMove(t.publishers[j], t.cursor)
    {
      HiddenStep(c, s, i, y);
    }
  }

  lemma {:induction false} PairsRun(c: Config, run: seq<State>)
    requires IsRun(c, run) && c.maxBatch == 1 && c.threads == 2
    ensures PairsOk(run[|run| - 1])
  {
    if |run| > 1 {
      var s, t := run[|run| - 2], run[|run| - 1];
      Shorter(c, run, |run| - 1);
      PairsRun(c, run[..|run| - 1]);
      StateInv(c, run, |run| - 2);
      assert StepAt(c, run, |run| - 1);
      if i: nat, delta: int :| ClaimStep(c, s, t, i, delta) {
        PairClaim(c, s, i, delta);
      } else {
        var i: nat :| AdvanceStep(s, t, i);
        PairAdvance(c, s, i);
        HiddenAdvance(c, s, i);
      }
    }
  }

  /** No run of any other configuration strands a publication. */
  lemma SafeConfigurations(c: Config, run: seq<State>)
    requires IsRun(c, run) && !CanStrand(c)
    ensures !Stranded(run[|run| - 1])
  {
    RunInv(c, run);
    if c.pendingSize == 1 {
      OwnMoveRun(c, run);
    } else if c.threads < 2 {
      AloneRun(c, run);
    } else {
      PairsRun(c, run);
    }
  }
}
