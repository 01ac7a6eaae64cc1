/** Pieces of schedules of the ring's machine: what one thread or one processor does when it runs alone
    for a while. The modules that show a run put them together. */
module RingSchedules {
  import opened Slots
  import opened RingPipeline
  import opened RingBase
  import P = PublishProtocol

  ghost predicate Reachable(c: Config, s: State) {
    exists run :: IsRun(c, run) && run[|run| - 1] == s
  }

  /** Reachable, and well shaped as every reachable state is. */
  ghost predicate Ready(c: Config, s: State) { Shape(c, s) && Reachable(c, s) }

  lemma ReachNext(c: Config, s: State, t: State)
    requires Reachable(c, s) && Next(c, s, t)
    ensures Reachable(c, t)
  {
    var run :| IsRun(c, run) && run[|run| - 1] == s;
    var longer := run + [t];
    forall k | 0 < k < |longer| ensures StepAt(c, longer, k) {
      if k < |run| { assert StepAt(c, run, k) && longer[k] == run[k] && longer[k - 1] == run[k - 1]; }
    }
    assert longer[0] == run[0];
    assert IsRun(c, longer) && longer[|longer| - 1] == t;
  }

  lemma ReachConsume(c: Config, s: State, j: nat)
    requires Ready(c, s) && j < |s.consumers|
    ensures Ready(c, Consume(c, s, j, false))
  {
    assert ConsumeStep(c, s, Consume(c, s, j, false), j, false);
    ReachNext(c, s, Consume(c, s, j, false));
  }

  lemma ProduceKeepsShape(c: Config, s: State, i: nat, e: Event)
    requires Shape(c, s) && i < |s.producers|
    ensures Shape(c, Produce(c, s, i, e))
  {
    if s.producers[i].Publishing? { P.AdvanceGrows(s.publish, i); }
  }

  lemma ReachProduce(c: Config, s: State, i: nat, e: Event)
    requires Ready(c, s) && i < |s.producers|
    ensures Ready(c, Produce(c, s, i, e))
  {
    ProduceKeepsShape(c, s, i, e);
    assert ProduceStep(c, s, Produce(c, s, i, e), i, e);
    ReachNext(c, s, Produce(c, s, i, e));
  }

  lemma ReachBegin(c: Config, s: State, i: nat, r: Request)
    requires Ready(c, s) && i < |s.producers| && s.producers[i].Resting? && Allowed(c, r)
    ensures Ready(c, Begin(c, s, i, r))
  {
    assert BeginStep(c, s, Begin(c, s, i, r), i, r);
    ReachNext(c, s, Begin(c, s, i, r));
  }

  lemma StartReachable(c: Config)
    requires c.Valid()
    ensures Ready(c, Initial(c, 0))
  {
    assert IsRun(c, [Initial(c, 0)]);
  }

  lemma ReachableBase(c: Config, s: State)
    requires Reachable(c, s) && c.Aligned()
    ensures BaseInv(c, s)
  {
    var run :| IsRun(c, run) && run[|run| - 1] == s;
    RunBase(c, run);
  }

  // ---- One publisher alone -------------------------------------------------------------

  /** From s to t only thread i has moved. */
  ghost predicate OnlyThread(s: State, t: State, i: nat) {
    && t.consumers == s.consumers && |t.ring| == |s.ring|
    && |t.producers| == |s.producers| && |t.publish.publishers| == |s.publish.publishers|
    && |t.publish.pending| == |s.publish.pending|
    && (forall j :: 0 <= j < |s.producers| && j != i ==> t.producers[j] == s.producers[j])
    && (forall j :: 0 <= j < |s.publish.publishers| && j != i ==> t.publish.publishers[j] == s.publish.publishers[j])
  }

  /** And it was inside SerialisePublishing. */
  ghost predicate OnlyPublishes(s: State, t: State, i: nat) {
    OnlyThread(s, t, i) && t.ring == s.ring && t.events == s.events && t.publish.claim == s.publish.claim
  }

  lemma PublishStep(c: Config, s: State, i: nat) returns (t: State)
    requires Ready(c, s) && i < |s.producers| && s.producers[i] == Publishing
    ensures Ready(c, t) && t.publish == P.Advance(s.publish, i) && OnlyPublishes(s, t, i)
    ensures t.producers[i] == if t.publish.publishers[i].Idle? then Resting else Publishing
  {
    t := Produce(c, s, i, 0);
    ReachProduce(c, s, i, 0);
    P.AdvanceGrows(s.publish, i);
  }

  ghost predicate Visible(s: P.State, x: int) {
    |s.pending| > 0 && s.pending[Slot(x, |s.pending|)] == x
  }

  ghost predicate AllVisible(s: P.State, lo: int, hi: int) {
    forall x :: lo < x <= hi ==> Visible(s, x)
  }

  /** Two pending arrays differ at most in the slots of lo..hi, and there only by sequences of lo..hi. */
  ghost predicate SameOutside(a: seq<int>, b: seq<int>, lo: int, hi: int) {
    |a| == |b| && forall k :: 0 <= k < |a| ==> b[k] == a[k] || (lo <= b[k] <= hi && b[k] % |a| == k)
  }

  /** The entries of sequences within a window of the array do not disturb each other. */
  lemma OthersStayVisible(s: P.State, t: P.State, lo: int, hi: int, x: int)
    requires |s.pending| > 0 && SameOutside(s.pending, t.pending, lo, hi) && Visible(s, x)
    requires x < lo || x > hi
    requires x - lo < |s.pending| && hi - x < |s.pending|
    ensures Visible(t, x)
  {
    var y := t.pending[Slot(x, |s.pending|)];
    if lo <= y < x { SlotsApart(y, x, |s.pending|); }
    if x < y <= hi { SlotsApart(x, y, |s.pending|); }
  }

  /** Thread i runs its write loop to the end. */
  lemma {:induction false} RunWrites(c: Config, s: State, i: nat, hi: int, batch: int, next: int) returns (t: State)
    requires Ready(c, s) && i < |s.producers| && s.producers[i] == Publishing
    requires s.publish.publishers[i] == P.Writing(hi, batch, next) && next <= hi < next + |s.publish.pending|
    ensures Ready(c, t) && OnlyPublishes(s, t, i) && t.producers[i] == Publishing
    ensures t.publish.publishers[i] == P.Rewriting(hi, batch) && t.publish.cursor == s.publish.cursor
    ensures SameOutside(s.publish.pending, t.publish.pending, next, hi) && AllVisible(t.publish, next - 1, hi)
    decreases hi - next
  {
    t := PublishStep(c, s, i);
    if next < hi {
      var u := RunWrites(c, t, i, hi, batch, next + 1);
      OthersStayVisible(t.publish, u.publish, next + 1, hi, next);
      OnlyPublishesTwice(s, t, u, i);
      t := u;
    }
  }

  lemma OnlyPublishesTwice(s: State, t: State, u: State, i: nat)
    requires OnlyPublishes(s, t, i) && OnlyPublishes(t, u, i)
    ensures OnlyPublishes(s, u, i)
  {
  }

  /** The compare-and-set that moves the cursor, and the look at the next entry. */
  lemma MoveOnce(s: P.State, i: nat, hi: int, batch: int)
    requires i < |s.publishers| && |s.pending| > 0 && s.publishers[i] == P.Cas(hi, batch, s.cursor)
    ensures var u := P.Advance(s, i); var t := P.Advance(u, i);
      && u.publishers[i].Checking? && t.cursor == s.cursor + 1 && t.pending == s.pending
      && t.publishers[i] == if Visible(s, s.cursor + 2) then P.Cas(hi, batch, s.cursor + 1) else P.Idle
  {
  }

  lemma MoveOnePlace(c: Config, s: State, i: nat, hi: int, batch: int) returns (t: State)
    requires Ready(c, s) && i < |s.producers| && s.producers[i] == Publishing
    requires s.publish.publishers[i] == P.Cas(hi, batch, s.publish.cursor)
    ensures Ready(c, t) && OnlyPublishes(s, t, i)
    ensures t.publish.cursor == s.publish.cursor + 1 && t.publish.pending == s.publish.pending
    ensures t.publish.publishers[i] ==
      if Visible(s.publish, s.publish.cursor + 2) then P.Cas(hi, batch, s.publish.cursor + 1) else P.Idle
    ensures t.producers[i] == if Visible(s.publish, s.publish.cursor + 2) then Publishing else Resting
  {
    MoveOnce(s.publish, i, hi, batch);
    var u := PublishStep(c, s, i);
    t := PublishStep(c, u, i);
    OnlyPublishesTwice(s, u, t, i);
  }

  /** Thread i moves the cursor over the entries up to m and returns at the missing one. */
  lemma {:induction false} RunMoves(c: Config, s: State, i: nat, hi: int, batch: int, m: int) returns (t: State)
    requires Ready(c, s) && i < |s.producers| && s.producers[i] == Publishing
    requires s.publish.publishers[i] == P.Cas(hi, batch, s.publish.cursor) && s.publish.cursor < m
    requires AllVisible(s.publish, s.publish.cursor + 1, m) && !Visible(s.publish, m + 1)
    ensures Ready(c, t) && OnlyPublishes(s, t, i) && t.producers[i] == Resting
    ensures t.publish.publishers[i].Idle? && t.publish.cursor == m
    decreases m - s.publish.cursor
  {
    t := MoveOnePlace(c, s, i, hi, batch);
    assert Visible(s.publish, s.publish.cursor + 2) <==> s.publish.cursor + 1 < m;
    if s.publish.cursor + 1 < m {
      assert forall x :: Visible(t.publish, x) <==> Visible(s.publish, x);
      var u := RunMoves(c, t, i, hi, batch, m);
      OnlyPublishesTwice(s, t, u, i);
      t := u;
    }
  }

  lemma HiddenStays(s: P.State, t: P.State, lo: int, hi: int, x: int)
    requires |s.pending| > 0 && SameOutside(s.pending, t.pending, lo, hi) && hi < x && !Visible(s, x)
    ensures !Visible(t, x)
  {
  }

  /** Thread i passes the guard and writes its batch once, twice the last one. */
  lemma WriteBatch(c: Config, s: State, i: nat, hi: int, batch: int) returns (t: State)
    requires Ready(c, s) && i < |s.producers| && s.producers[i] == Publishing
    requires s.publish.publishers[i] == P.Guard(hi, batch) && batch >= 1
    requires hi - s.publish.cursor <= c.publish.pendingSize && batch <= c.publish.pendingSize
    ensures Ready(c, t) && OnlyPublishes(s, t, i) && t.producers[i] == Publishing
    ensures t.publish.publishers[i] == P.ReadingCursor(hi, batch) && t.publish.cursor == s.publish.cursor
    ensures SameOutside(s.publish.pending, t.publish.pending, hi - batch + 1, hi)
    ensures AllVisible(t.publish, hi - batch, hi)
  {
    var s1 := PassGuard(c, s, i, hi, batch);
    var s2 := RunWrites(c, s1, i, hi, batch, hi - batch + 1);
    OnlyPublishesTwice(s, s1, s2, i);
    RewriteKeepsVisible(s2.publish, i, hi - batch, hi);
    t := RewriteLast(c, s2, i, hi, batch);
    OnlyPublishesTwice(s, s2, t, i);
    assert forall x :: Visible(s2.publish, x) <==> Visible(t.publish, x);
  }

  lemma RewriteLast(c: Config, s: State, i: nat, hi: int, batch: int) returns (t: State)
    requires Ready(c, s) && i < |s.producers| && s.producers[i] == Publishing
    requires s.publish.publishers[i] == P.Rewriting(hi, batch) && P.Advance(s.publish, i).pending == s.publish.pending
    ensures Ready(c, t) && OnlyPublishes(s, t, i) && t.producers[i] == Publishing
    ensures t.publish.publishers[i] == P.ReadingCursor(hi, batch) && t.publish.cursor == s.publish.cursor
    ensures t.publish.pending == s.publish.pending
  {
    t := PublishStep(c, s, i);
  }

  lemma PassGuard(c: Config, s: State, i: nat, hi: int, batch: int) returns (t: State)
    requires Ready(c, s) && i < |s.producers| && s.producers[i] == Publishing
    requires s.publish.publishers[i] == P.Guard(hi, batch) && batch >= 1
    requires hi - s.publish.cursor <= c.publish.pendingSize
    ensures Ready(c, t) && OnlyPublishes(s, t, i) && t.producers[i] == Publishing
    ensures t.publish.publishers[i] == P.Writing(hi, batch, hi - batch + 1) && t.publish.cursor == s.publish.cursor
    ensures t.publish.pending == s.publish.pending
  {
    t := PublishStep(c, s, i);
  }

  lemma RewriteKeepsVisible(s: P.State, i: nat, lo: int, hi: int)
    requires i < |s.publishers| && s.publishers[i].Rewriting? && s.publishers[i].hi == hi
    requires lo < hi && AllVisible(s, lo, hi) && |s.pending| > 0
    ensures P.Advance(s, i).pending == s.pending
  {
    assert Visible(s, hi);
  }

  /** Thread i, whose batch is written and next in line, carries the cursor up to m. */
  lemma MoveOver(c: Config, s: State, i: nat, hi: int, batch: int, m: int) returns (t: State)
    requires Ready(c, s) && i < |s.producers| && s.producers[i] == Publishing
    requires s.publish.publishers[i] == P.ReadingCursor(hi, batch) && batch >= 1 && hi - batch == s.publish.cursor
    requires hi <= m && AllVisible(s.publish, s.publish.cursor, m) && !Visible(s.publish, m + 1)
    ensures Ready(c, t) && OnlyPublishes(s, t, i) && t.producers[i] == Resting
    ensures t.publish.publishers[i].Idle? && t.publish.cursor == m
  {
    var u := PublishStep(c, s, i);
    assert u.publish.publishers[i] == P.Cas(hi, batch, hi - batch);
    assert forall x :: Visible(u.publish, x) <==> Visible(s.publish, x);
    t := RunMoves(c, u, i, hi, batch, m);
    OnlyPublishesTwice(s, u, t, i);
  }

  /** Thread i, whose batch is next in line, publishes it and carries the cursor over what is visible
      behind it. */
  lemma PublishInLine(c: Config, s: State, i: nat, hi: int, batch: int, m: int) returns (t: State)
    requires Ready(c, s) && i < |s.producers| && s.producers[i] == Publishing
    requires s.publish.publishers[i] == P.Guard(hi, batch) && batch >= 1 && hi - batch == s.publish.cursor
    requires hi <= m <= s.publish.cursor + c.publish.pendingSize
    requires AllVisible(s.publish, hi, m) && !Visible(s.publish, m + 1)
    ensures Ready(c, t) && OnlyPublishes(s, t, i) && t.producers[i] == Resting
    ensures t.publish.publishers[i].Idle? && t.publish.cursor == m
  {
    var s1 := WriteBatch(c, s, i, hi, batch);
    HiddenStays(s.publish, s1.publish, hi - batch + 1, hi, m + 1);
    forall x | hi < x <= m ensures Visible(s1.publish, x) {
      assert Visible(s.publish, x);
      OthersStayVisible(s.publish, s1.publish, hi - batch + 1, hi, x);
    }
    t := MoveOver(c, s1, i, hi, batch, m);
    OnlyPublishesTwice(s, s1, t, i);
  }

  /** Thread i publishes a single sequence that is not next in line. */
  lemma PublishAhead(c: Config, s: State, i: nat, hi: int) returns (t: State)
    requires Ready(c, s) && i < |s.producers| && s.producers[i] == Publishing
    requires s.publish.publishers[i] == P.Guard(hi, 1) && s.publish.cursor < hi - 1
    requires hi - s.publish.cursor <= c.publish.pendingSize
    ensures Ready(c, t) && OnlyPublishes(s, t, i) && t.producers[i] == Resting
    ensures t.publish.publishers[i].Idle? && t.publish.cursor == s.publish.cursor
    ensures SameOutside(s.publish.pending, t.publish.pending, hi, hi) && Visible(t.publish, hi)
  {
    var s1 := WriteBatch(c, s, i, hi, 1);
    var s2 := PublishStep(c, s1, i);
    OnlyPublishesTwice(s, s1, s2, i);
    assert s2.publish.publishers[i] == P.Cas(hi, 1, hi - 1);
    t := PublishStep(c, s2, i);
    OnlyPublishesTwice(s, s2, t, i);
    assert Visible(s1.publish, hi);
  }

  /** What nobody has claimed is not visible. */
  lemma UnclaimedIsHidden(c: Config, s: State, x: int)
    requires Ready(c, s) && c.Aligned() && x > 0 && x > s.publish.claim
    ensures !Visible(s.publish, x)
  {
    ReachableBase(c, s);
    assert x !in s.publish.written;
  }

  /** Nor what somebody in front of the guard owns. */
  lemma GuardedIsHidden(c: Config, s: State, x: int, j: nat)
    requires Ready(c, s) && c.Aligned() && x > 0
    requires j < |s.publish.publishers| && s.publish.publishers[j].Guard? && s.publish.publishers[j].Owns(x)
    ensures !Visible(s.publish, x)
  {
    ReachableBase(c, s);
    assert x !in s.publish.written;
  }

  // ---- One producer alone --------------------------------------------------------------

  /** From s to t thread i has looked for room. */
  ghost predicate OnlyScans(s: State, t: State, i: nat) {
    OnlyThread(s, t, i) && t.ring == s.ring && t.events == s.events && t.publish == s.publish
  }

  lemma {:induction false} ScanToFill(c: Config, s: State, i: nat, hi: int, batch: int, scan: Scan, low: int)
    returns (t: State)
    requires Ready(c, s) && i < |s.producers| && s.producers[i] == FreeSlotScan(hi, batch, scan)
    requires scan.index <= |c.gates| && Floor(s, low) && hi - c.bufferSize <= low <= scan.min
    ensures Ready(c, t) && OnlyScans(s, t, i) && t.producers[i] == Filling(hi, batch, hi - batch + 1)
    decreases |c.gates| - scan.index
  {
    t := Produce(c, s, i, 0);
    ReachProduce(c, s, i, 0);
    if scan.index < |c.gates| { t := ScanToFill(c, t, i, hi, batch, ReadGate(c, s, scan), low); }
  }

  /** Thread i claims a batch for which there is room. */
  lemma ClaimWithRoom(c: Config, s: State, i: nat, batch: int, low: int) returns (t: State)
    requires Ready(c, s) && i < |s.producers| && s.producers[i].Resting? && 1 <= batch <= c.publish.maxBatch
    requires Floor(s, low) && s.publish.claim + batch - c.bufferSize <= low <= MAX_LONG
    ensures Ready(c, t) && OnlyThread(s, t, i) && t.ring == s.ring && t.events == s.events
    ensures t.publish == P.Claim(s.publish, i, batch)
    ensures t.producers[i] == Filling(s.publish.claim + batch, batch, s.publish.claim + 1)
  {
    t := Begin(c, s, i, NextBatch(batch));
    ReachBegin(c, s, i, NextBatch(batch));
    if t.producers[i].FreeSlotScan? {
      assert Floor(t, low);
      t := ScanToFill(c, t, i, s.publish.claim + batch, batch, FRESH_SCAN, low);
    }
  }

  /** Thread i fills what it has claimed with one and the same event. */
  lemma {:induction false} FillAll(c: Config, s: State, i: nat, e: Event, hi: int, batch: int, next: int)
    returns (t: State)
    requires Ready(c, s) && i < |s.producers| && s.producers[i] == Filling(hi, batch, next) && next <= hi
    ensures Ready(c, t) && OnlyThread(s, t, i) && t.publish == s.publish && t.producers[i] == Publishing
    ensures hi in t.events && t.events[hi] == e && t.ring[Slot(hi, c.bufferSize)] == e
    ensures forall x :: x in s.events && (x < next || x > hi) ==> x in t.events && t.events[x] == s.events[x]
    decreases hi - next
  {
    t := Produce(c, s, i, e);
    ReachProduce(c, s, i, e);
    if next < hi { t := FillAll(c, t, i, e, hi, batch, next + 1); }
  }

  // ---- One processor alone -------------------------------------------------------------

  /** From s to t only processor v has moved. */
  ghost predicate OnlyProcessor(s: State, t: State, v: nat) {
    && t.publish == s.publish && t.ring == s.ring && t.events == s.events && t.producers == s.producers
    && |t.consumers| == |s.consumers|
    && forall j :: 0 <= j < |s.consumers| && j != v ==> t.consumers[j] == s.consumers[j]
  }

  /** Processor v reads its whole barrier and finds every processor of it at low or above. */
  lemma {:induction false} ScanAbove(c: Config, s: State, v: nat, scan: Scan, low: int) returns (t: State)
    requires Ready(c, s) && v < |s.consumers| && s.consumers[v].phase == ScanningBarrier(scan)
    requires scan.index <= |c.graph.deps[v]| && s.consumers[v].next <= low <= scan.min
    requires forall d :: d in c.graph.deps[v] && d < |s.consumers| ==> s.consumers[d].sequence >= low
    ensures Ready(c, t) && OnlyProcessor(s, t, v) && v < |t.consumers|
    ensures t.consumers[v].phase.Handling? && t.consumers[v].phase.available >= low
    ensures t.consumers[v].next == s.consumers[v].next && t.consumers[v].log == s.consumers[v].log
    decreases |c.graph.deps[v]| - scan.index
  {
    t := Consume(c, s, v, false);
    ReachConsume(c, s, v);
    if scan.index < |c.graph.deps[v]| {
      var d := c.graph.deps[v][scan.index];
      assert d in c.graph.deps[v];
      t := ScanAbove(c, t, v, scan.Read(s.consumers[d].sequence), low);
    }
  }

  /** Processor v handles what its barrier has let it, up to m; what it is given last is in the slot of m. */
  lemma {:induction false} HandleTo(c: Config, s: State, v: nat, m: int) returns (t: State)
    requires Ready(c, s) && v < |s.consumers| && s.consumers[v].phase.Handling?
    requires s.consumers[v].next <= m <= s.consumers[v].phase.available
    ensures Ready(c, t) && OnlyProcessor(s, t, v) && v < |t.consumers| && t.consumers[v].next == m + 1
    ensures |t.consumers[v].log| == |s.consumers[v].log| + m + 1 - s.consumers[v].next
    ensures t.consumers[v].log[|t.consumers[v].log| - 1] == (m, s.ring[Slot(m, c.bufferSize)])
    decreases m - s.consumers[v].next
  {
    t := Consume(c, s, v, false);
    ReachConsume(c, s, v);
    if s.consumers[v].next < m { t := HandleTo(c, t, v, m); }
  }

  /** A waiting processor that the cursor has reached is given everything up to m, if its barrier stands
      at m or above. */
  lemma ConsumeTo(c: Config, s: State, v: nat, m: int) returns (t: State)
    requires Ready(c, s) && v < |s.consumers| && s.consumers[v].phase.Waiting?
    requires s.consumers[v].next <= s.publish.cursor && s.consumers[v].next <= m
    requires if c.graph.deps[v] == [] then m <= s.publish.cursor else m <= MAX_LONG
    requires forall d :: d in c.graph.deps[v] && d < |s.consumers| ==> d != v && s.consumers[d].sequence >= m
    ensures Ready(c, t) && OnlyProcessor(s, t, v) && v < |t.consumers| && t.consumers[v].next == m + 1
    ensures |t.consumers[v].log| == |s.consumers[v].log| + m + 1 - s.consumers[v].next
    ensures t.consumers[v].log[|t.consumers[v].log| - 1] == (m, s.ring[Slot(m, c.bufferSize)])
  {
    t := Consume(c, s, v, false);
    ReachConsume(c, s, v);
    if c.graph.deps[v] != [] {
      assert forall d :: d in c.graph.deps[v] && d < |t.consumers| ==>
        t.consumers[d].sequence == s.consumers[d].sequence;
      t := ScanAbove(c, t, v, FRESH_SCAN, m);
    }
    t := HandleTo(c, t, v, m);
  }
}
