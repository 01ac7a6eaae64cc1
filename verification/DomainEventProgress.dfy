/** The domain events loop gets everywhere: polling and the processors alone, without any fast message,
    deliver everything that is in the store. */
module DomainEventProgress {
  import opened Slots
  import opened DomainEventsLoop
  import opened DomainEventRuns
  import opened DomainEventInvariant
  import C = ClaimStrategy

  // ---- Runs that go on by polling and handling -----------------------------------------

  /** No commit, no fast message, no restart. */
  predicate Polls(step: Step) {
    step.StartPoll? || step.AddPolled? || step.EndPoll? || step.Handle? || step.SaveCheckpoint? || step.UpdateSequence?
  }

  ghost predicate PollsAt(c: Config, run: seq<State>, k: nat)
    requires 0 < k < |run|
  {
    exists step :: Takes(c, run[k - 1], run[k], step) && Polls(step)
  }

  /** `longer` goes on from `run` by polling and handling. */
  ghost predicate GoesOn(c: Config, run: seq<State>, longer: seq<State>) {
    && IsRun(c, longer) && 0 < |run| && run <= longer
    && forall k :: |run| <= k < |longer| ==> PollsAt(c, longer, k)
  }

  lemma GoesOnTwice(c: Config, run: seq<State>, mid: seq<State>, longer: seq<State>)
    requires GoesOn(c, run, mid) && GoesOn(c, mid, longer)
    ensures GoesOn(c, run, longer)
  {
    forall k | |run| <= k < |longer| ensures PollsAt(c, longer, k) {
      if k < |mid| {
        assert PollsAt(c, mid, k) && longer[k] == mid[k] && longer[k - 1] == mid[k - 1];
      }
    }
  }

  lemma Append(c: Config, run: seq<State>, step: Step) returns (longer: seq<State>)
    requires IsRun(c, run) && Enabled(c, run[|run| - 1], step) && Polls(step)
    ensures GoesOn(c, run, longer) && |longer| == |run| + 1
    ensures Takes(c, run[|run| - 1], longer[|run|], step) && Inv(c, longer[|run|])
  {
    RunInv(c, run);
    longer := run + [Apply(c, run[|run| - 1], step)];
    assert Takes(c, run[|run| - 1], longer[|run|], step);
    forall k | 0 < k < |longer| ensures StepAt(c, longer, k) {
      if k < |run| { assert StepAt(c, run, k) && longer[k] == run[k] && longer[k - 1] == run[k - 1]; }
    }
    assert IsRun(c, longer) && PollsAt(c, longer, |run|);
    RunInv(c, longer);
  }

  ghost function Last(run: seq<State>): State
    requires |run| > 0
  {
    run[|run| - 1]
  }

  // ---- One processor alone -------------------------------------------------------------

  /** From s to t only processor p has moved. */
  ghost predicate OnlyProcessor(s: State, t: State, p: nat) {
    && t.history == s.history && t.cursor == s.cursor && t.poll == s.poll && t.start == s.start
    && |t.processors| == |s.processors|
    && forall i :: 0 <= i < |s.processors| && i != p ==> t.processors[i] == s.processors[i]
  }

  /** Nothing is left for it to do. */
  ghost predicate CaughtUp(q: Processor, cursor: int) {
    q.next > cursor && !q.saving && q.sequence == q.next - 1
  }

  /** What the processor has been given since, it has handled and saved, or is about to save. */
  ghost predicate SavedSince(store: map<int, Payload>, q: Processor, later: Processor) {
    && q.next <= later.next && q.saved <= later.saved
    && (q.saving ==> q.next - 1 in later.saved || (later.saving && later.next == q.next))
    && forall n :: n in store && q.next <= n < later.next ==> n in later.saved || (later.saving && n == later.next - 1)
  }

  function ProcessorStep(q: Processor, cursor: int, p: nat): Step {
    if q.saving then SaveCheckpoint(p, false) else if q.next <= cursor then Handle(p, true) else UpdateSequence(p)
  }

  ghost function ProcessorWork(q: Processor, cursor: int): nat {
    if q.next <= cursor then 2 * (cursor - q.next) + 4 + (if q.saving then 1 else 0)
    else if q.saving then 2 else if q.sequence != q.next - 1 then 1 else 0
  }

  lemma ProcessorMoves(c: Config, s: State, t: State, p: nat)
    requires Inv(c, s) && p < |s.processors| && !CaughtUp(s.processors[p], s.cursor)
    requires Takes(c, s, t, ProcessorStep(s.processors[p], s.cursor, p))
    ensures OnlyProcessor(s, t, p) && SavedSince(s.history.store, s.processors[p], t.processors[p])
    ensures ProcessorWork(t.processors[p], t.cursor) < ProcessorWork(s.processors[p], s.cursor)
  {
    var q := s.processors[p];
    assert ProcessorOk(c, s, p, q);
    if !q.saving && q.next <= s.cursor {
      assert s.ring[Slot(q.next, |s.ring|)] == Truth(s.history.store, q.next) by {
        assert q.next in s.published && !Passed(s.processors, q.next);
      }
    }
  }

  lemma SavedTwice(store: map<int, Payload>, q: Processor, mid: Processor, later: Processor)
    requires SavedSince(store, q, mid) && SavedSince(store, mid, later)
    ensures SavedSince(store, q, later)
  {
  }

  lemma OnlyProcessorTwice(s: State, t: State, u: State, p: nat)
    requires OnlyProcessor(s, t, p) && OnlyProcessor(t, u, p) && p < |s.processors|
    requires SavedSince(s.history.store, s.processors[p], t.processors[p])
    requires SavedSince(s.history.store, t.processors[p], u.processors[p])
    ensures OnlyProcessor(s, u, p) && SavedSince(s.history.store, s.processors[p], u.processors[p])
  {
    SavedTwice(s.history.store, s.processors[p], t.processors[p], u.processors[p]);
  }

  /** Processor p alone handles everything up to the cursor, and saves what its handler makes of it. */
  lemma {:induction false} CatchUp(c: Config, run: seq<State>, p: nat) returns (longer: seq<State>)
    requires IsRun(c, run) && p < |Last(run).processors|
    ensures GoesOn(c, run, longer) && OnlyProcessor(Last(run), Last(longer), p)
    ensures CaughtUp(Last(longer).processors[p], Last(longer).cursor)
    ensures SavedSince(Last(run).history.store, Last(run).processors[p], Last(longer).processors[p])
    decreases ProcessorWork(Last(run).processors[p], Last(run).cursor)
  {
    RunInv(c, run);
    var s := Last(run);
    if CaughtUp(s.processors[p], s.cursor) { return run; }
    var mid := Append(c, run, ProcessorStep(s.processors[p], s.cursor, p));
    ProcessorMoves(c, s, Last(mid), p);
    longer := CatchUp(c, mid, p);
    GoesOnTwice(c, run, mid, longer);
    OnlyProcessorTwice(s, Last(mid), Last(longer), p);
  }

  // ---- All processors ------------------------------------------------------------------

  /** From s to t nobody has lost anything it was given. */
  ghost predicate AllSavedSince(s: State, t: State) {
    && t.history.store == s.history.store && |t.processors| == |s.processors|
    && forall p :: 0 <= p < |s.processors| ==> SavedSince(s.history.store, s.processors[p], t.processors[p])
  }

  lemma AllSavedTwice(s: State, t: State, u: State)
    requires AllSavedSince(s, t) && AllSavedSince(t, u)
    ensures AllSavedSince(s, u)
  {
    forall p | 0 <= p < |s.processors| ensures SavedSince(s.history.store, s.processors[p], u.processors[p]) {
      SavedTwice(s.history.store, s.processors[p], t.processors[p], u.processors[p]);
    }
  }

  ghost predicate FirstCaughtUp(s: State, k: nat) {
    k <= |s.processors| && forall p :: 0 <= p < k ==> CaughtUp(s.processors[p], s.cursor)
  }

  /** The processors from 0 to k - 1, one after the other. */
  lemma {:induction false} CatchUpFirst(c: Config, run: seq<State>, k: nat) returns (longer: seq<State>)
    requires IsRun(c, run) && k <= |Last(run).processors|
    ensures GoesOn(c, run, longer) && AllSavedSince(Last(run), Last(longer)) && FirstCaughtUp(Last(longer), k)
    ensures Last(longer).cursor == Last(run).cursor && Last(longer).poll == Last(run).poll
  {
    if k == 0 { return run; }
    var mid := CatchUpFirst(c, run, k - 1);
    longer := CatchUp(c, mid, k - 1);
    GoesOnTwice(c, run, mid, longer);
    OneSaved(Last(mid), Last(longer), k - 1);
    AllSavedTwice(Last(run), Last(mid), Last(longer));
  }

  lemma OneSaved(s: State, t: State, p: nat)
    requires p < |s.processors| && OnlyProcessor(s, t, p)
    requires SavedSince(s.history.store, s.processors[p], t.processors[p])
    ensures AllSavedSince(s, t)
  {
  }

  lemma CatchUpAll(c: Config, run: seq<State>) returns (longer: seq<State>)
    requires IsRun(c, run)
    ensures GoesOn(c, run, longer) && AllSavedSince(Last(run), Last(longer))
    ensures FirstCaughtUp(Last(longer), |Last(run).processors|)
    ensures Last(longer).cursor == Last(run).cursor && Last(longer).poll == Last(run).poll
  {
    longer := CatchUpFirst(c, run, |Last(run).processors|);
  }

  // ---- One poll ------------------------------------------------------------------------

  /** Steps of the polling thread leave the processors alone. */
  lemma PollSaves(s: State, t: State)
    requires t.processors == s.processors && t.history.store == s.history.store
    ensures AllSavedSince(s, t)
  {
  }

  /** When every processor has caught up there is room for the next number of a poll. */
  lemma RoomForNext(c: Config, s: State)
    requires Inv(c, s) && s.poll.Polling? && s.poll.index < |s.poll.entries| && FirstCaughtUp(s, |s.processors|)
    ensures Enabled(c, s, AddPolled)
  {
    var e := s.poll.entries[s.poll.index];
    assert e == Truth(s.history.store, s.poll.checkpoint + 1 + s.poll.index);
    forall p | 0 <= p < |s.processors| ensures e.sequence - c.bufferSize <= s.processors[p].sequence {
      assert CaughtUp(s.processors[p], s.cursor);
    }
  }

  lemma AddOne(c: Config, run: seq<State>) returns (longer: seq<State>)
    requires IsRun(c, run) && Last(run).poll.Polling? && Last(run).poll.index < |Last(run).poll.entries|
    ensures GoesOn(c, run, longer) && AllSavedSince(Last(run), Last(longer))
    ensures Last(longer).poll == Last(run).poll.(index := Last(run).poll.index + 1)
    ensures Last(longer).cursor >= Last(run).cursor
  {
    var ready := MakeRoom(c, run);
    longer := AddReady(c, ready);
    GoesOnTwice(c, run, ready, longer);
    AllSavedTwice(Last(run), Last(ready), Last(longer));
  }

  lemma MakeRoom(c: Config, run: seq<State>) returns (longer: seq<State>)
    requires IsRun(c, run) && Last(run).poll.Polling? && Last(run).poll.index < |Last(run).poll.entries|
    ensures GoesOn(c, run, longer) && AllSavedSince(Last(run), Last(longer)) && Enabled(c, Last(longer), AddPolled)
    ensures Last(longer).poll == Last(run).poll && Last(longer).cursor == Last(run).cursor
  {
    longer := CatchUpAll(c, run);
    RunInv(c, longer);
    RoomForNext(c, Last(longer));
  }

  lemma AddReady(c: Config, run: seq<State>) returns (longer: seq<State>)
    requires IsRun(c, run) && Enabled(c, Last(run), AddPolled)
    ensures GoesOn(c, run, longer) && AllSavedSince(Last(run), Last(longer))
    ensures Last(longer).poll == Last(run).poll.(index := Last(run).poll.index + 1)
    ensures Last(longer).cursor >= Last(run).cursor
  {
    RunInv(c, run);
    longer := Append(c, run, AddPolled);
    AddedIsNext(c, Last(run), Last(longer));
  }

  /** A poll under way comes to its end, and then the cursor covers all of its entries. */
  lemma {:induction false} FinishPoll(c: Config, run: seq<State>) returns (longer: seq<State>)
    requires IsRun(c, run) && Last(run).poll.Polling?
    ensures GoesOn(c, run, longer) && AllSavedSince(Last(run), Last(longer)) && Last(longer).poll.NotPolling?
    ensures Last(longer).cursor >= Last(run).cursor
    ensures Last(longer).cursor >= Last(run).poll.checkpoint + |Last(run).poll.entries|
    decreases |Last(run).poll.entries| - Last(run).poll.index
  {
    RunInv(c, run);
    var s := Last(run);
    if s.poll.index == |s.poll.entries| {
      longer := Append(c, run, EndPoll);
      PollSaves(s, Last(longer));
    } else {
      var added := AddOne(c, run);
      longer := FinishPoll(c, added);
      GoesOnTwice(c, run, added, longer);
      AllSavedTwice(s, Last(added), Last(longer));
    }
  }

  lemma AddedIsNext(c: Config, s: State, t: State)
    requires Inv(c, s) && Takes(c, s, t, AddPolled)
    ensures AllSavedSince(s, t) && t.cursor >= s.cursor
    ensures t.poll == s.poll.(index := s.poll.index + 1)
  {
    CursorAfterAdd(s, s.poll.entries[s.poll.index]);
    PollSaves(s, t);
  }

  // ---- The whole store -----------------------------------------------------------------

  ghost function Above(store: map<int, Payload>, cursor: int): set<int> {
    set n | n in store && n > cursor
  }

  /** The least stored number above the cursor makes a page by itself. */
  lemma {:induction false} LeastAbove(store: map<int, Payload>, cursor: int, among: set<int>, n: int) returns (m: int)
    requires among == Above(store, cursor) && n in among
    ensures m in among && IsPage(store, cursor, 1, [Truth(store, m)])
    decreases n - cursor
  {
    if k :| k in among && k < n {
      m := LeastAbove(store, cursor, among, k);
    } else {
      m := n;
      assert forall x :: x in store && cursor < x <= n ==> x in among;
      assert Has([Truth(store, m)], m) by { assert [Truth(store, m)][0].sequence == m; }
    }
  }

  /** One poll more covers at least one stored number more. */
  lemma PollOne(c: Config, run: seq<State>, n: int) returns (longer: seq<State>)
    requires IsRun(c, run) && Last(run).poll.NotPolling? && n in Above(Last(run).history.store, Last(run).cursor)
    ensures GoesOn(c, run, longer) && AllSavedSince(Last(run), Last(longer)) && Last(longer).poll.NotPolling?
    ensures Above(Last(longer).history.store, Last(longer).cursor) < Above(Last(run).history.store, Last(run).cursor)
  {
    var s := Last(run);
    var store := s.history.store;
    var m := LeastAbove(store, s.cursor, Above(store, s.cursor), n);
    var begun := Append(c, run, StartPoll(1, [Truth(store, m)]));
    PollSaves(s, Last(begun));
    longer := FinishPoll(c, begun);
    GoesOnTwice(c, run, begun, longer);
    AllSavedTwice(s, Last(begun), Last(longer));
    assert m in Above(store, s.cursor) && m !in Above(store, Last(longer).cursor);
  }

  lemma {:induction false} PollAll(c: Config, run: seq<State>) returns (longer: seq<State>)
    requires IsRun(c, run) && Last(run).poll.NotPolling?
    ensures GoesOn(c, run, longer) && AllSavedSince(Last(run), Last(longer))
    ensures Above(Last(longer).history.store, Last(longer).cursor) == {}
    decreases Above(Last(run).history.store, Last(run).cursor)
  {
    longer := run;
    if n :| n in Above(Last(run).history.store, Last(run).cursor) {
      var mid := PollOne(c, run, n);
      longer := PollAll(c, mid);
      GoesOnTwice(c, run, mid, longer);
      AllSavedTwice(Last(run), Last(mid), Last(longer));
    } else {
      assert forall n :: n !in Above(Last(run).history.store, Last(run).cursor);
    }
  }

  lemma PollAndCatchUp(c: Config, run: seq<State>) returns (longer: seq<State>)
    requires IsRun(c, run)
    ensures GoesOn(c, run, longer) && AllSavedSince(Last(run), Last(longer))
    ensures Above(Last(longer).history.store, Last(longer).cursor) == {}
    ensures FirstCaughtUp(Last(longer), |Last(longer).processors|)
  {
    var ready := run;
    if Last(run).poll.Polling? { ready := FinishPoll(c, run); } else { PollSaves(Last(run), Last(run)); }
    var polled := PollAll(c, ready);
    GoesOnTwice(c, run, ready, polled);
    AllSavedTwice(Last(run), Last(ready), Last(polled));
    longer := CatchUpAll(c, polled);
    GoesOnTwice(c, run, polled, longer);
    AllSavedTwice(Last(run), Last(polled), Last(longer));
  }

  /** Processor p stands behind number n, has been offered it, and what is new since s is saved. */
  ghost predicate Delivered(c: Config, s: State, t: State, p: nat, n: int) {
    && p < |c.initial| == |s.processors| == |t.processors|
    && n <= t.processors[p].sequence && (n > c.initial[p] ==> n in t.processors[p].offered)
    && (n >= s.processors[p].next ==> n in t.processors[p].saved && n <= t.processors[p].checkpoint)
  }

  lemma DeliveredAt(c: Config, s: State, t: State, p: nat, n: int)
    requires Inv(c, t) && AllSavedSince(s, t) && FirstCaughtUp(t, |t.processors|)
    requires p < |c.initial| && n in s.history.store && n <= t.cursor
    ensures Delivered(c, s, t, p, n)
  {
    assert ProcessorOk(c, t, p, t.processors[p]);
    assert SavedSince(s.history.store, s.processors[p], t.processors[p]);
    assert CaughtUp(t.processors[p], t.cursor);
  }

  /** From any moment of any run polling and handling alone, without fast messages, bring every processor
      behind every record of the store. Each has then been offered every record above its first checkpoint,
      and what it had not been given before, and its handler has now reported success for, is saved. */
  lemma EverythingIsDelivered(c: Config, run: seq<State>) returns (longer: seq<State>)
    requires IsRun(c, run)
    ensures GoesOn(c, run, longer) && Last(longer).history.store == Last(run).history.store
    ensures forall p: nat, n :: p < |c.initial| && n in Last(run).history.store ==>
      Delivered(c, Last(run), Last(longer), p, n)
  {
    longer := PollAndCatchUp(c, run);
    RunInv(c, longer);
    forall p: nat, n | p < |c.initial| && n in Last(run).history.store
      ensures Delivered(c, Last(run), Last(longer), p, n)
    {
      assert n !in Above(Last(run).history.store, Last(longer).cursor);
      DeliveredAt(c, Last(run), Last(longer), p, n);
    }
  }
}
