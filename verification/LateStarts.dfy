/** When every processor begins ahead of the ring, their positions let the producers lap sequences that
    are not published yet, as if these had been read: CheckAndIncrement and WaitForFreeSlotAt
    (AbstractMultiThreadedClaimStrategy.cs) compare with the consumers only. This file shows the run in
    which a handler is then given the event of an earlier lap, wherever there is one. */
module LateStarts {
  import opened Slots
  import opened RingPipeline
  import opened RingBase
  import opened RingInvariant
  import opened RingSchedules
  import P = PublishProtocol

  /** Every handler is given, for each sequence above the ring's start, the event its owner wrote. */
  ghost predicate NeverOverwrites(c: Config) {
    forall run :: IsRun(c, run) ==> LogsOk(c, run[|run| - 1])
  }

  /** Entry n of consumer v is not the event of its sequence. */
  ghost predicate Overwritten(c: Config, s: State, v: nat, n: nat) {
    && v < |s.consumers| && n < |s.consumers[v].log|
    && var entry := s.consumers[v].log[n];
      entry.0 > c.publish.start && entry.0 in s.events && entry.1 != s.events[entry.0]
  }

  /** Sequences are 64-bit numbers. */
  ghost predicate StartsFit(c: Config) {
    forall j :: 0 <= j < |c.starts| ==> c.starts[j] <= MAX_LONG
  }

  ghost predicate Early(c: Config) {
    c.Valid() && c.Aligned() && StartsFit(c) && !c.Anchored() && !c.Roomy()
  }

  /** The processor that begins first begins at x. */
  ghost predicate Least(c: Config, x: int) {
    && (forall j :: 0 <= j < |c.starts| ==> x <= c.starts[j])
    && exists j :: 0 <= j < |c.starts| && c.starts[j] == x
  }

  lemma LeastExists(c: Config) returns (x: int)
    requires Early(c)
    ensures Least(c, x) && c.publish.start < x <= MAX_LONG
  {
    var j := IndexOfLeast(c.starts);
    x := c.starts[j];
  }

  /** No processor has moved. */
  ghost predicate Unmoved(c: Config, s: State) {
    Ready(c, s) && s.consumers == Initial(c, 0).consumers
  }

  lemma UnmovedFloor(c: Config, s: State, x: int)
    requires c.Valid() && Unmoved(c, s) && Least(c, x)
    ensures Floor(s, x)
  {
  }

  ghost predicate Rests(s: State, i: nat) {
    && i < |s.producers| && i < |s.publish.publishers|
    && s.producers[i].Resting? && s.publish.publishers[i].Idle?
  }

  /** The threads from n on rest. */
  ghost predicate OthersRest(c: Config, s: State, n: nat) {
    forall i :: n <= i < c.publish.threads ==> Rests(s, i)
  }

  lemma OthersStillRest(c: Config, s: State, t: State, i: nat, n: nat)
    requires OthersRest(c, s, n) && OnlyThread(s, t, i) && (i < n || Rests(t, i))
    ensures OthersRest(c, t, n)
  {
    forall j | n <= j < c.publish.threads ensures Rests(t, j) { assert Rests(s, j); }
  }

  lemma OnlyThreadTwice(s: State, t: State, u: State, i: nat)
    requires OnlyThread(s, t, i) && OnlyThread(t, u, i)
    ensures OnlyThread(s, u, i)
  {
  }

  /** Thread i claims a batch and fills it with the event 8. */
  lemma ClaimAndFill(c: Config, s: State, i: nat, batch: int, x: int) returns (t: State)
    requires Early(c) && Least(c, x) && Unmoved(c, s) && Rests(s, i) && 1 <= batch <= c.publish.maxBatch
    requires s.publish.claim + batch - c.bufferSize <= x <= MAX_LONG
    ensures Unmoved(c, t) && OnlyThread(s, t, i) && t.publish == P.Claim(s.publish, i, batch)
    ensures i < |t.producers| && t.producers[i] == Publishing
    ensures t.publish.claim in t.events && t.events[t.publish.claim] == 8
    ensures forall y :: y in s.events && y <= s.publish.claim ==> y in t.events && t.events[y] == s.events[y]
  {
    UnmovedFloor(c, s, x);
    var hi := s.publish.claim + batch;
    var s1 := ClaimWithRoom(c, s, i, batch, x);
    t := FillAll(c, s1, i, 8, hi, batch, s.publish.claim + 1);
    OnlyThreadTwice(s, s1, t, i);
  }

  // ---- Up to the first processor -------------------------------------------------------

  /** Everybody rests, everything up to k is published. */
  ghost predicate AllRest(c: Config, s: State, k: int) {
    && Unmoved(c, s) && s.publish.cursor == s.publish.claim == k
    && OthersRest(c, s, 0)
  }

  lemma Single(c: Config, s: State, k: int, x: int) returns (t: State)
    requires Early(c) && Least(c, x) && AllRest(c, s, k) && c.publish.start <= k < x <= MAX_LONG
    ensures AllRest(c, t, k + 1)
  {
    assert Rests(s, 0);
    var s1 := ClaimAndFill(c, s, 0, 1, x);
    UnclaimedIsHidden(c, s1, k + 2);
    t := PublishInLine(c, s1, 0, k + 1, 1, k + 1);
    OnlyThreadTwice(s, s1, t, 0);
    OthersStillRest(c, s, t, 0, 0);
  }

  lemma {:induction false} Singles(c: Config, s: State, k: int, x: int) returns (t: State)
    requires Early(c) && Least(c, x) && AllRest(c, s, k) && c.publish.start <= k < x <= MAX_LONG
    ensures AllRest(c, t, x - 1)
    decreases x - k
  {
    t := s;
    if k < x - 1 {
      t := Single(c, s, k, x);
      t := Singles(c, t, k + 1, x);
    }
  }

  // ---- Thread 0 pauses -----------------------------------------------------------------

  /** Thread 0 has claimed x and not filled it. */
  ghost predicate Parked(c: Config, s: State, x: int) {
    && Unmoved(c, s) && c.publish.threads >= 2 && s.publish.cursor == x - 1
    && s.producers[0] == Filling(x, 1, x) && s.publish.publishers[0] == P.Guard(x, 1)
  }

  /** The other threads have published x + 1..k. */
  ghost predicate Ahead(c: Config, s: State, x: int, k: int) {
    && Parked(c, s, x) && s.publish.claim == k && AllVisible(s.publish, x, k)
    && OthersRest(c, s, 1)
  }

  lemma Park(c: Config, x: int) returns (s: State)
    requires Early(c) && Least(c, x) && c.publish.start < x <= MAX_LONG
    ensures Ahead(c, s, x, x)
  {
    StartReachable(c);
    var s0 := Singles(c, Initial(c, 0), c.publish.start, x);
    UnmovedFloor(c, s0, x);
    assert Rests(s0, 0);
    s := ClaimWithRoom(c, s0, 0, 1, x);
    OthersStillRest(c, s0, s, 0, 1);
  }

  lemma AheadOne(c: Config, s: State, x: int, k: int) returns (t: State)
    requires Early(c) && Least(c, x) && Ahead(c, s, x, k) && c.publish.start < x <= k && x <= MAX_LONG
    requires k + 1 < x + c.publish.pendingSize && k + 1 < x + c.bufferSize
    ensures Ahead(c, t, x, k + 1)
  {
    assert Rests(s, 1);
    var s1 := ClaimAndFill(c, s, 1, 1, x);
    t := PublishAhead(c, s1, 1, k + 1);
    OnlyThreadTwice(s, s1, t, 1);
    OthersStillRest(c, s, t, 1, 1);
    OneMoreVisible(s.publish, t.publish, x, k);
  }

  lemma OneMoreVisible(s: P.State, t: P.State, x: int, k: int)
    requires |s.pending| > 0 && SameOutside(s.pending, t.pending, k + 1, k + 1) && Visible(t, k + 1)
    requires AllVisible(s, x, k) && k + 1 < x + |s.pending|
    ensures AllVisible(t, x, k + 1)
  {
    forall y | x < y <= k + 1 ensures Visible(t, y) {
      if y <= k {
        assert Visible(s, y);
        OthersStayVisible(s, t, k + 1, k + 1, y);
      }
    }
  }

  lemma {:induction false} AheadUpTo(c: Config, s: State, x: int, k: int, top: int) returns (t: State)
    requires Early(c) && Least(c, x) && Ahead(c, s, x, k) && c.publish.start < x <= k <= top && x <= MAX_LONG
    requires top < x + c.publish.pendingSize && top < x + c.bufferSize
    ensures Ahead(c, t, x, top)
    decreases top - k
  {
    t := s;
    if k < top {
      t := AheadOne(c, s, x, k);
      t := AheadUpTo(c, t, x, k + 1, top);
    }
  }

  // ---- The others claim up to the next lap ---------------------------------------------

  /** How far single sequences can be published above x: to the end of the pending window, but not to
      the sequence that shares its slot with x. */
  ghost function Top(c: Config, x: int): int {
    x - 1 + if c.publish.pendingSize < c.bufferSize then c.publish.pendingSize else c.bufferSize
  }

  ghost function NextLap(c: Config, x: int): int { x + c.bufferSize }

  /** How far threads 1..i have claimed, each at most the largest batch. */
  ghost function Line(c: Config, x: int, i: nat): (r: int)
    requires c.bufferSize > 0
    ensures Top(c, x) <= r <= NextLap(c, x)
  {
    if i == 0 then Top(c, x)
    else
      var r := Line(c, x, i - 1) + c.LargestBatch();
      if r < NextLap(c, x) then r else NextLap(c, x)
  }

  lemma LineStep(c: Config, x: int, i: nat)
    requires c.bufferSize > 0 && i > 0
    ensures Line(c, x, i - 1) <= Line(c, x, i) <= Line(c, x, i - 1) + c.LargestBatch()
  {
  }

  lemma {:induction false} LineReaches(c: Config, x: int, i: nat)
    requires c.bufferSize > 0
    ensures Line(c, x, i) == NextLap(c, x) || Line(c, x, i) == Top(c, x) + i * c.LargestBatch()
  {
    if i > 0 {
      LineReaches(c, x, i - 1);
      OneMoreBatch(i, c.LargestBatch());
    }
  }

  lemma OneMoreBatch(i: nat, batch: nat)
    requires i > 0
    ensures i * batch == (i - 1) * batch + batch
  {
  }

  /** Together they reach the next lap. */
  lemma LineEnds(c: Config, x: int)
    requires Early(c)
    ensures Line(c, x, c.publish.threads - 1) == NextLap(c, x)
  {
    var n := c.publish.threads - 1;
    LineReaches(c, x, n);
    OneFits(n, c.LargestBatch());
  }

  lemma OneFits(n: nat, batch: nat)
    requires n >= 1 && batch >= 1
    ensures n * batch >= 1
  {
  }

  /** Thread i stands before the guard with lo + 1..hi, or rests if that is nothing. */
  ghost predicate Stands(s: State, i: nat, lo: int, hi: int) {
    && i < |s.producers| && i < |s.publish.publishers|
    && if lo < hi then s.producers[i] == Publishing && s.publish.publishers[i] == P.Guard(hi, hi - lo) else Rests(s, i)
  }

  ghost predicate InLine(c: Config, s: State, x: int, i: nat)
    requires c.bufferSize > 0
  {
    i > 0 && Stands(s, i, Line(c, x, i - 1), Line(c, x, i))
  }

  ghost predicate AllStand(c: Config, s: State, x: int, from: nat, to: nat) {
    c.bufferSize > 0 && forall i :: from <= i < to ==> InLine(c, s, x, i)
  }

  lemma OthersStillStand(c: Config, s: State, t: State, i: nat, x: int, from: nat, to: nat)
    requires AllStand(c, s, x, from, to) && OnlyThread(s, t, i) && (i < from || i >= to)
    ensures AllStand(c, t, x, from, to)
  {
    forall j | from <= j < to ensures InLine(c, t, x, j) { assert InLine(c, s, x, j); }
  }

  /** The event of the next lap is filled in. */
  ghost predicate LapFilled(c: Config, s: State, x: int) {
    NextLap(c, x) in s.events && s.events[NextLap(c, x)] == 8
  }

  /** Threads 1..n - 1 have claimed and filled. */
  ghost predicate Crowd(c: Config, s: State, x: int, n: nat) {
    && Parked(c, s, x) && 1 <= n <= c.publish.threads && s.publish.claim == Line(c, x, n - 1)
    && AllVisible(s.publish, x, Top(c, x)) && AllStand(c, s, x, 1, n) && OthersRest(c, s, n)
    && (Line(c, x, n - 1) == NextLap(c, x) ==> LapFilled(c, s, x))
  }

  /** Thread n claims and fills its part. */
  lemma JoinCrowd(c: Config, s: State, x: int, n: nat) returns (t: State)
    requires Early(c) && Least(c, x) && x <= MAX_LONG && Parked(c, s, x) && 1 <= n && Rests(s, n)
    requires s.publish.claim == Line(c, x, n - 1) && AllVisible(s.publish, x, Top(c, x))
    requires Line(c, x, n - 1) == NextLap(c, x) ==> LapFilled(c, s, x)
    ensures Parked(c, t, x) && OnlyThread(s, t, n) && InLine(c, t, x, n)
    ensures t.publish.claim == Line(c, x, n) && AllVisible(t.publish, x, Top(c, x))
    ensures Line(c, x, n) == NextLap(c, x) ==> LapFilled(c, t, x)
  {
    var lo, hi := Line(c, x, n - 1), Line(c, x, n);
    LineStep(c, x, n);
    t := s;
    if lo < hi {
      t := ClaimAndFill(c, s, n, hi - lo, x);
      forall y | x < y <= Top(c, x) ensures Visible(t.publish, y) { assert Visible(s.publish, y); }
    }
  }

  lemma CrowdOne(c: Config, s: State, x: int, n: nat) returns (t: State)
    requires Early(c) && Least(c, x) && x <= MAX_LONG && Crowd(c, s, x, n) && n < c.publish.threads
    ensures Crowd(c, t, x, n + 1)
  {
    assert Rests(s, n);
    t := JoinCrowd(c, s, x, n);
    CrowdGrows(c, s, t, x, n);
  }

  lemma CrowdGrows(c: Config, s: State, t: State, x: int, n: nat)
    requires AllStand(c, s, x, 1, n) && OthersRest(c, s, n) && OnlyThread(s, t, n) && n >= 1
    requires InLine(c, t, x, n)
    ensures AllStand(c, t, x, 1, n + 1) && OthersRest(c, t, n + 1)
  {
    OthersStillStand(c, s, t, n, x, 1, n);
    assert OthersRest(c, s, n + 1);
    OthersStillRest(c, s, t, n, n + 1);
  }

  lemma {:induction false} CrowdAll(c: Config, s: State, x: int, n: nat) returns (t: State)
    requires Early(c) && Least(c, x) && x <= MAX_LONG && Crowd(c, s, x, n)
    ensures Crowd(c, t, x, c.publish.threads)
    decreases c.publish.threads - n
  {
    t := s;
    if n < c.publish.threads {
      t := CrowdOne(c, s, x, n);
      t := CrowdAll(c, t, x, n + 1);
    }
  }

  // ---- Thread 0 fills its slot, too late, and everybody publishes ----------------------

  /** The slot of the next lap holds the event of x. */
  ghost predicate Lost(c: Config, s: State, x: int) {
    && LapFilled(c, s, x) && |s.ring| == c.bufferSize > 0
    && s.ring[Slot(NextLap(c, x), c.bufferSize)] == 7
  }

  /** Threads 1..n - 1 have published, the cursor covers their batches. */
  ghost predicate Draining(c: Config, s: State, x: int, n: nat) {
    && Unmoved(c, s) && Lost(c, s, x) && 1 <= n <= c.publish.threads && AllStand(c, s, x, n, c.publish.threads)
    && s.publish.cursor == Line(c, x, n - 1) && s.publish.claim == NextLap(c, x)
  }

  /** The sequence behind the batch of thread n - 1 is not published yet. */
  lemma LineIsHidden(c: Config, s: State, x: int, n: nat)
    requires Early(c) && x >= 0 && Unmoved(c, s) && 1 <= n <= c.publish.threads
    requires AllStand(c, s, x, n, c.publish.threads) && s.publish.claim == NextLap(c, x)
    ensures !Visible(s.publish, Line(c, x, n - 1) + 1)
  {
    var y := Line(c, x, n - 1) + 1;
    LineEnds(c, x);
    if n < c.publish.threads && y <= NextLap(c, x) {
      assert InLine(c, s, x, n);
      assert s.publish.publishers[n].Owns(y);
      GuardedIsHidden(c, s, y, n);
    } else {
      UnclaimedIsHidden(c, s, y);
    }
  }

  lemma FillLate(c: Config, s: State, x: int) returns (t: State)
    requires Early(c) && Least(c, x) && c.publish.start < x && Crowd(c, s, x, c.publish.threads)
    ensures Draining(c, t, x, 1)
  {
    LineEnds(c, x);
    NextLapSharesSlot(x, c.bufferSize);
    var s1 := FillAll(c, s, 0, 7, x, 1, x);
    OthersStillStand(c, s, s1, 0, x, 1, c.publish.threads);
    LineIsHidden(c, s1, x, 1);
    assert Line(c, x, 0) == Top(c, x);
    t := PublishInLine(c, s1, 0, x, 1, Top(c, x));
    OthersStillStand(c, s1, t, 0, x, 1, c.publish.threads);
  }

  lemma DrainMoves(c: Config, s: State, x: int, n: nat) returns (t: State)
    requires Unmoved(c, s) && Lost(c, s, x) && 1 <= n && InLine(c, s, x, n)
    requires s.publish.cursor == Line(c, x, n - 1) && !Visible(s.publish, Line(c, x, n) + 1)
    ensures Unmoved(c, t) && Lost(c, t, x) && OnlyThread(s, t, n)
    ensures t.publish.cursor == Line(c, x, n) && t.publish.claim == s.publish.claim
  {
    var lo, hi := Line(c, x, n - 1), Line(c, x, n);
    LineStep(c, x, n);
    t := s;
    if lo < hi { t := PublishInLine(c, s, n, hi, hi - lo, hi); }
  }

  lemma DrainOne(c: Config, s: State, x: int, n: nat) returns (t: State)
    requires Early(c) && c.publish.start < x && Draining(c, s, x, n) && n < c.publish.threads
    ensures Draining(c, t, x, n + 1)
  {
    LineIsHidden(c, s, x, n + 1);
    assert InLine(c, s, x, n);
    t := DrainMoves(c, s, x, n);
    OthersStillStand(c, s, t, n, x, n + 1, c.publish.threads);
  }

  lemma {:induction false} DrainAll(c: Config, s: State, x: int, n: nat) returns (t: State)
    requires Early(c) && c.publish.start < x && Draining(c, s, x, n)
    ensures Draining(c, t, x, c.publish.threads)
    decreases c.publish.threads - n
  {
    t := s;
    if n < c.publish.threads {
      t := DrainOne(c, s, x, n);
      t := DrainAll(c, t, x, n + 1);
    }
  }

  // ---- Somebody is given the wrong event -----------------------------------------------

  /** The first processor that begins below m; its whole barrier begins at m or above. */
  lemma {:induction false} FirstBelow(c: Config, m: int, v: nat) returns (u: nat)
    requires c.Valid() && v < |c.starts| && c.starts[v] < m
    ensures u < |c.starts| && c.starts[u] < m
    ensures forall d :: d in c.graph.deps[u] && d < |c.starts| ==> d != u && c.starts[d] >= m
    decreases v
  {
    if d :| d in c.graph.deps[v] && d < |c.starts| && c.starts[d] < m {
      u := FirstBelow(c, m, d);
    } else {
      u := v;
    }
  }

  /** The cursor has reached the next lap of x, whose slot holds the event of x. */
  lemma LapLost(c: Config, x: int) returns (s: State)
    requires Early(c) && Least(c, x) && c.publish.start < x <= MAX_LONG
    ensures Unmoved(c, s) && Lost(c, s, x) && s.publish.cursor == NextLap(c, x)
  {
    s := Park(c, x);
    s := AheadUpTo(c, s, x, x, Top(c, x));
    s := CrowdAll(c, s, x, 1);
    s := FillLate(c, s, x);
    s := DrainAll(c, s, x, 1);
    LineEnds(c, x);
  }

  lemma FirstGiven(c: Config, x: int) returns (v: nat)
    requires c.Valid() && Least(c, x)
    ensures v < |c.starts| && c.starts[v] < NextLap(c, x)
    ensures forall d :: d in c.graph.deps[v] && d < |c.starts| ==> d != v && c.starts[d] >= NextLap(c, x)
  {
    var j :| 0 <= j < |c.starts| && c.starts[j] == x;
    v := FirstBelow(c, NextLap(c, x), j);
  }

  /** Wherever every processor begins ahead of the ring and the ring is not roomy, a handler is given, in
      some run, the event of an earlier lap. */
  lemma LateStartOverwrites(c: Config) returns (s: State, v: nat, n: nat)
    requires c.Valid() && c.Aligned() && StartsFit(c) && !c.Anchored() && !c.Roomy()
    ensures Ready(c, s) && Overwritten(c, s, v, n)
  {
    var x := LeastExists(c);
    var s0 := LapLost(c, x);
    v := FirstGiven(c, x);
    s := GiveLost(c, s0, x, v);
    n := |s.consumers[v].log| - 1;
  }

  lemma GiveLost(c: Config, s: State, x: int, v: nat) returns (t: State)
    requires Early(c) && Unmoved(c, s) && Lost(c, s, x) && s.publish.cursor == NextLap(c, x) && c.publish.start < x
    requires v < |c.starts| && c.starts[v] < NextLap(c, x)
    requires forall d :: d in c.graph.deps[v] && d < |c.starts| ==> d != v && c.starts[d] >= NextLap(c, x)
    ensures Ready(c, t) && v < |t.consumers| && t.consumers[v].log != []
    ensures Overwritten(c, t, v, |t.consumers[v].log| - 1)
  {
    var m := NextLap(c, x);
    if c.graph.deps[v] != [] { LapFits(c, m, v); }
    UnmovedConsumers(c, s);
    t := ConsumeTo(c, s, v, m);
    assert s.ring[Slot(m, c.bufferSize)] == 7;
  }

  lemma LapFits(c: Config, m: int, v: nat)
    requires c.Valid() && StartsFit(c) && v < |c.starts| && c.graph.deps[v] != []
    requires forall d :: d in c.graph.deps[v] && d < |c.starts| ==> c.starts[d] >= m
    ensures m <= MAX_LONG
  {
    var d := c.graph.deps[v][0];
    assert d in c.graph.deps[v] && d < |c.starts|;
  }

  lemma UnmovedConsumers(c: Config, s: State)
    requires c.Valid() && Unmoved(c, s)
    ensures |s.consumers| == |c.starts|
    ensures forall j :: 0 <= j < |s.consumers| ==> s.consumers[j] == Consumer(c.starts[j], c.starts[j] + 1, Waiting, [])
  {
  }

  /** For rings whose barriers are aligned: handlers are given the right events in every run exactly if some
      processor begins no later than the ring, or the ring is large enough for a pending window and a batch
      of every other thread. */
  lemma OverwritesExactly(c: Config)
    requires c.Valid() && c.Aligned() && StartsFit(c)
    ensures NeverOverwrites(c) <==> c.Anchored() || c.Roomy()
  {
    if c.Anchored() || c.Roomy() {
      forall run | IsRun(c, run) ensures LogsOk(c, run[|run| - 1]) { RunInv(c, run); }
    } else {
      var s, v, n := LateStartOverwrites(c);
      OverwrittenIsNotOk(c, s, v, n);
    }
  }

  lemma OverwrittenIsNotOk(c: Config, s: State, v: nat, n: nat)
    requires Shape(c, s) && Overwritten(c, s, v, n)
    ensures !LogsOk(c, s)
  {
    assert !Honest(c, s.consumers[v].log[n], c.starts[v] + 1 + n, s.events);
  }

  /** With a ring of 16384 and 1024 pending entries: single sequences need more than 15361 threads, batches
      that fill the pending array seventeen. */
  lemma DefaultSizes(c: Config)
    requires c.bufferSize == 16384 && c.publish.pendingSize == 1024
    ensures c.publish.maxBatch == 1 ==> (c.Roomy() <==> c.publish.threads <= 15361)
    ensures c.publish.maxBatch >= 1024 ==> (c.Roomy() <==> c.publish.threads <= 16)
  {
  }
}
