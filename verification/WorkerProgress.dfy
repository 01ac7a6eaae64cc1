/** The worker pool gets everywhere: whatever is published is handled, the drain ends, and there is room
    for more. WorkProcessor.cs and WorkerPool.cs. */
module WorkerProgress {
  import opened Slots
  import opened WorkerPool

  ghost function Last(run: seq<State>): State
    requires |run| > 0
  {
    run[|run| - 1]
  }

  lemma Append(c: Config, run: seq<State>, step: Step) returns (longer: seq<State>)
    requires IsRun(c, run) && Shape(c, run[|run| - 1])
    ensures IsRun(c, longer) && |longer| == |run| + 1 && run <= longer
    ensures longer[|run|] == Apply(c, run[|run| - 1], step)
  {
    longer := run + [Apply(c, run[|run| - 1], step)];
    assert Takes(c, run[|run| - 1], longer[|run|], step);
    forall k | 0 < k < |longer| ensures StepAt(c, longer, k) {
      if k < |run| { assert StepAt(c, run, k) && longer[k] == run[k] && longer[k - 1] == run[k - 1]; }
    }
  }

  lemma StaysShaped(c: Config, run: seq<State>)
    requires IsRun(c, run)
    ensures Inv(c, Last(run)) && Shape(c, Last(run))
  {
    RunInv(c, run);
  }

  // ---- Everything published is handled -------------------------------------------------

  ghost predicate AllHandled(c: Config, s: State) {
    forall x :: c.start < x <= s.cursor ==> Handled(s, x)
  }

  /** A worker that waits for a covered sequence hands it to its handler in its next step, with the event
      that was written for it, and is free for the next one. */
  lemma HandlesCovered(c: Config, run: seq<State>, w: nat, n: int)
    requires IsRun(c, run) && w < |Last(run).workers| && Last(run).workers[w].phase == Waiting(n)
    requires n <= Last(run).cursor
    ensures Shape(c, Last(run)) && n in Last(run).events && !Handled(Last(run), n)
    ensures var s := Last(run); var t := Apply(c, s, Work(w));
      && t.log == s.log + [Entry(w, n, s.events[n])] && Handled(t, n)
      && t.workers == s.workers[w := s.workers[w].(phase := Claiming)]
  {
    StaysShaped(c, run);
    var s := Last(run);
    HandleKeepsOnce(c, s, w);
    HandleGrowsHandled(s, w, n);
    assert !Floor(s, n);
  }

  /** What worker k has still to do for a sequence up to the cursor. */
  ghost function Duty(k: Worker, cursor: int): nat {
    match k.phase
    case Claiming => 0
    case Claimed(n) => if n <= cursor then 2 else 0
    case Waiting(n) => if n <= cursor then 1 else 0
  }

  ghost function Duties(ws: seq<Worker>, cursor: int): nat {
    if ws == [] then 0 else Duty(ws[0], cursor) + Duties(ws[1..], cursor)
  }

  /** And what nobody has claimed yet: three steps each. */
  ghost function WorkLeft(s: State): nat {
    Duties(s.workers, s.cursor) + if s.workSequence < s.cursor then 3 * (s.cursor - s.workSequence) else 0
  }

  lemma {:induction false} DutiesUpdate(ws: seq<Worker>, cursor: int, w: nat, k: Worker)
    requires w < |ws|
    ensures Duties(ws[w := k], cursor) == Duties(ws, cursor) - Duty(ws[w], cursor) + Duty(k, cursor)
  {
    if w == 0 {
      assert ws[0 := k][1..] == ws[1..];
    } else {
      assert ws[w := k][1..] == ws[1..][w - 1 := k];
      DutiesUpdate(ws[1..], cursor, w - 1, k);
    }
  }

  lemma {:induction false} SomebodyOnDuty(ws: seq<Worker>, cursor: int) returns (w: nat)
    requires Duties(ws, cursor) > 0
    ensures w < |ws| && Duty(ws[w], cursor) > 0
  {
    if Duty(ws[0], cursor) > 0 { return 0; }
    w := SomebodyOnDuty(ws[1..], cursor);
    w := w + 1;
  }

  lemma {:induction false} NobodyOnDuty(ws: seq<Worker>, cursor: int, w: nat)
    requires Duties(ws, cursor) == 0 && w < |ws|
    ensures Duty(ws[w], cursor) == 0
  {
    if w > 0 { NobodyOnDuty(ws[1..], cursor, w - 1); }
  }

  /** A worker that has a step to make for a sequence up to the cursor. */
  lemma NextToWork(c: Config, s: State) returns (w: nat)
    requires Inv(c, s) && WorkLeft(s) > 0
    ensures w < |s.workers| && (Duty(s.workers[w], s.cursor) > 0
      || (s.workers[w].phase.Claiming? && s.workSequence < s.cursor))
  {
    if Duties(s.workers, s.cursor) > 0 {
      w := SomebodyOnDuty(s.workers, s.cursor);
    } else {
      w := 0;
      NobodyOnDuty(s.workers, s.cursor, 0);
    }
  }

  lemma WorkGetsLess(c: Config, s: State, w: nat)
    requires Inv(c, s) && w < |s.workers|
    requires Duty(s.workers[w], s.cursor) > 0 || (s.workers[w].phase.Claiming? && s.workSequence < s.cursor)
    ensures WorkLeft(WorkStep(s, w)) < WorkLeft(s) && OnlyWorkers(s, WorkStep(s, w))
  {
    var t := WorkStep(s, w);
    assert t.workers == s.workers[w := t.workers[w]];
    DutiesUpdate(s.workers, s.cursor, w, t.workers[w]);
  }

  lemma NothingLeft(c: Config, s: State)
    requires Inv(c, s) && WorkLeft(s) == 0
    ensures AllHandled(c, s)
  {
    forall x | c.start < x <= s.cursor ensures Handled(s, x) {
      if !Handled(s, x) {
        var w :| 0 <= w < |s.workers| && s.workers[w].phase.Holds(x);
        NobodyOnDuty(s.workers, s.cursor, w);
      }
    }
  }

  /** From s to t only the workers have moved. */
  ghost predicate OnlyWorkers(s: State, t: State) {
    && t.cursor == s.cursor && t.events == s.events && t.ring == s.ring && t.producers == s.producers
    && t.drain == s.drain && |t.workers| == |s.workers| && s.log <= t.log
  }

  /** From any moment of any run steps of the workers alone, no more than their work, bring everything
      published so far to a handler. */
  lemma {:induction false} WorkersHandleAll(c: Config, run: seq<State>) returns (longer: seq<State>)
    requires IsRun(c, run)
    ensures IsRun(c, longer) && run <= longer && |longer| <= |run| + WorkLeft(Last(run))
    ensures OnlyWorkers(Last(run), Last(longer)) && AllHandled(c, Last(longer))
    decreases WorkLeft(Last(run))
  {
    StaysShaped(c, run);
    var s := Last(run);
    if WorkLeft(s) == 0 {
      NothingLeft(c, s);
      return run;
    }
    var w := NextToWork(c, s);
    var next := Append(c, run, Work(w));
    WorkGetsLess(c, s, w);
    longer := WorkersHandleAll(c, next);
  }

  // ---- The drain ends ------------------------------------------------------------------

  /** Only workers and the draining thread have moved, and nothing was handled. */
  ghost predicate Rested(s: State, t: State) {
    && t.cursor == s.cursor && t.log == s.log && |t.workers| == |s.workers|
    && t.events == s.events && t.ring == s.ring && t.producers == s.producers
  }

  ghost function StepsToSettle(k: Worker): nat {
    match k.phase
    case Claiming => 2
    case Claimed(_) => 1
    case Waiting(_) => 0
  }

  lemma SameLog(c: Config, s: State, t: State)
    requires AllHandled(c, s) && t.log == s.log && t.cursor == s.cursor
    ensures AllHandled(c, t)
  {
    forall x | c.start < x <= t.cursor ensures Handled(t, x) {
      assert Handled(s, x);
      var k :| 0 <= k < |s.log| && s.log[k].sequence == x;
      assert t.log[k].sequence == x;
    }
  }

  /** A worker that has nothing to handle waits above the cursor after at most two steps. */
  lemma {:induction false} WorkerSettles(c: Config, run: seq<State>, w: nat) returns (longer: seq<State>)
    requires IsRun(c, run) && AllHandled(c, Last(run)) && w < |Last(run).workers|
    ensures IsRun(c, longer) && run <= longer && |longer| == |run| + StepsToSettle(Last(run).workers[w])
    ensures var s, t := Last(run), Last(longer);
      && Rested(s, t) && t.drain == s.drain && AllHandled(c, t)
      && t.workers == s.workers[w := t.workers[w]] && t.workers[w].sequence >= t.cursor && t.workers[w].phase.Waiting?
    decreases StepsToSettle(Last(run).workers[w])
  {
    RunInv(c, run);
    var s := Last(run);
    if s.workers[w].phase.Waiting? {
      HeldIsUnhandled(c, s, w);
      return run;
    }
    var next := Append(c, run, Work(w));
    SameLog(c, s, Last(next));
    longer := WorkerSettles(c, next, w);
  }

  /** The first k workers, one after the other. */
  lemma {:induction false} WorkersSettle(c: Config, run: seq<State>, k: nat) returns (longer: seq<State>)
    requires IsRun(c, run) && AllHandled(c, Last(run)) && k <= |Last(run).workers|
    ensures IsRun(c, longer) && run <= longer && |longer| <= |run| + 2 * k
    ensures var s, t := Last(run), Last(longer);
      && Rested(s, t) && t.drain == s.drain && AllHandled(c, t)
      && forall w :: 0 <= w < k ==> t.workers[w].sequence >= t.cursor
  {
    if k == 0 { return run; }
    var most := WorkersSettle(c, run, k - 1);
    longer := WorkerSettles(c, most, k - 1);
  }

  /** The draining thread alone, once every worker waits above the cursor: it finishes the scan it may be
      in, and the next complete one finds no sequence below the cursor. */
  lemma {:induction false} ScanDrains(c: Config, run: seq<State>) returns (longer: seq<State>)
    requires IsRun(c, run) && Shape(c, Last(run)) && Floor(Last(run), Last(run).cursor)
    requires Last(run).cursor <= MAX_LONG
    ensures IsRun(c, longer) && run <= longer
    ensures var s, t := Last(run), Last(longer);
      && Rested(s, t) && t.workers == s.workers && t.drain.Drained?
      && (FreshTest(s) ==> t.drain == Drained(t.cursor)) && (s.drain.Drained? ==> t.drain == s.drain)
    decreases DrainWork(Last(run))
  {
    var s := Last(run);
    if s.drain.Drained? { return run; }
    var next := Append(c, run, DrainTest);
    longer := ScanDrains(c, next);
  }

  /** The test that ends the wait will have read the present cursor: none is under way, or the one that is has
      read it, or has met a sequence below its cursor and so is not the last. */
  ghost predicate FreshTest(s: State) {
    s.drain.NotDraining? || (s.drain.Draining? && (s.drain.scan.min < s.drain.cursor || s.drain.cursor == s.cursor))
  }

  /** A scan under way that has met nothing below the cursor is the last one. */
  ghost function DrainWork(s: State): nat {
    match s.drain
    case Drained(_) => 0
    case NotDraining => 2 * |s.workers| + 4
    case Draining(cursor, scan) =>
      var left := if scan.index < |s.workers| then |s.workers| - scan.index else 0;
      if cursor == s.cursor <= scan.min then left + 1 else left + |s.workers| + 3
  }

  /** The workers handle what is published, and then wait above the cursor. */
  lemma WorkersComeToRest(c: Config, run: seq<State>) returns (longer: seq<State>)
    requires IsRun(c, run)
    ensures IsRun(c, longer) && run <= longer && OnlyWorkers(Last(run), Last(longer))
    ensures AllHandled(c, Last(longer)) && Floor(Last(longer), Last(longer).cursor)
  {
    var done := WorkersHandleAll(c, run);
    StaysShaped(c, done);
    longer := WorkersSettle(c, done, |Last(done).workers|);
  }

  /** DrainAndHalt ends: from any moment of any run the workers and then the draining thread alone come to
      the end of its wait, with everything published so far handled. */
  lemma DrainEnds(c: Config, run: seq<State>) returns (longer: seq<State>)
    requires IsRun(c, run) && Last(run).cursor <= MAX_LONG
    ensures IsRun(c, longer) && run <= longer && Last(longer).drain.Drained?
    ensures Last(longer).cursor == Last(run).cursor && Last(longer).events == Last(run).events
    ensures AllHandled(c, Last(longer))
    ensures FreshTest(Last(run)) ==> Last(longer).drain == Drained(Last(run).cursor)
  {
    var rested := WorkersComeToRest(c, run);
    StaysShaped(c, rested);
    longer := ScanDrains(c, rested);
    SameLog(c, Last(rested), Last(longer));
  }

  lemma HeldIsUnhandled(c: Config, s: State, w: nat)
    requires OnceOnly(c, s) && w < |s.workers| && !s.workers[w].phase.Claiming?
    ensures !Handled(s, s.workers[w].phase.n)
  {
    assert s.workers[w].phase.Holds(s.workers[w].phase.n);
  }

  // ---- And there is room for more ------------------------------------------------------

  /** Producer p alone: a complete scan of the workers brings its cached minimum up to the cursor. */
  lemma {:induction false} ScanRefreshes(c: Config, run: seq<State>, p: nat) returns (longer: seq<State>)
    requires IsRun(c, run) && Shape(c, Last(run)) && Floor(Last(run), Last(run).cursor)
    requires p < |Last(run).producers| && Last(run).cursor <= MAX_LONG
    ensures IsRun(c, longer) && run <= longer
    ensures Last(longer) == Last(run).(producers := Last(longer).producers)
    ensures p < |Last(longer).producers| && Last(longer).producers[p].floor >= Last(run).cursor
    decreases ScanWork(Last(run), p)
  {
    var s := Last(run);
    if s.producers[p].floor >= s.cursor { return run; }
    var next := Append(c, run, GateScan(p));
    longer := ScanRefreshes(c, next, p);
  }

  ghost function ScanWork(s: State, p: nat): nat
    requires p < |s.producers|
  {
    var q := s.producers[p];
    var left := if q.scan.index < |s.workers| then |s.workers| - q.scan.index else 0;
    if q.floor >= s.cursor then 0 else if s.cursor <= q.scan.min then left + 1 else left + |s.workers| + 3
  }

  /** The next sequence behind the cursor, if nobody has filled it yet, can be filled. */
  lemma FillNext(c: Config, run: seq<State>, p: nat, e: Event) returns (longer: seq<State>)
    requires IsRun(c, run) && p < |Last(run).producers| && Last(run).cursor <= MAX_LONG
    ensures IsRun(c, longer) && run <= longer && Last(longer).cursor == Last(run).cursor
    ensures var s, t, n := Last(run), Last(longer), Last(run).cursor + 1;
      && n in t.events && t.events[n] == if n in s.events then s.events[n] else e
  {
    var rested := WorkersComeToRest(c, run);
    StaysShaped(c, rested);
    var scanned := ScanRefreshes(c, rested, p);
    StaysShaped(c, scanned);
    var s := Last(scanned);
    longer := scanned;
    if s.cursor + 1 !in s.events { longer := Append(c, scanned, Fill(p, s.cursor + 1, e)); }
  }

  /** The pool never gets stuck: from any moment of any run the next sequence behind the cursor can be filled
      with e, if nobody has filled it, published, and is then handled by exactly one worker, with e. */
  lemma NextIsServed(c: Config, run: seq<State>, p: nat, e: Event) returns (longer: seq<State>, k: nat)
    requires IsRun(c, run) && p < |Last(run).producers| && Last(run).cursor <= MAX_LONG
    ensures IsRun(c, longer) && run <= longer && Last(longer).cursor == Last(run).cursor + 1
    ensures var s, t, n := Last(run), Last(longer), Last(run).cursor + 1;
      && k < |t.log| && t.log[k].sequence == n && t.log[k].event == (if n in s.events then s.events[n] else e)
      && forall j :: 0 <= j < |t.log| && t.log[j].sequence == n ==> j == k
  {
    var n := Last(run).cursor + 1;
    var filled := FillNext(c, run, p, e);
    StaysShaped(c, filled);
    var moved := Append(c, filled, MoveCursor(n));
    longer := WorkersHandleAll(c, moved);
    StaysShaped(c, longer);
    k := EntryOf(c, Last(longer), n);
  }

  lemma EntryOf(c: Config, s: State, n: int) returns (k: nat)
    requires OnceOnly(c, s) && LogOk(s) && AllHandled(c, s) && c.start < n <= s.cursor
    ensures k < |s.log| && s.log[k].sequence == n && n in s.events && s.log[k].event == s.events[n]
    ensures forall j :: 0 <= j < |s.log| && s.log[j].sequence == n ==> j == k
  {
    assert Handled(s, n);
    k :| 0 <= k < |s.log| && s.log[k].sequence == n;
  }
}
