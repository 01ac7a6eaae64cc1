/** Every step of the domain events machine keeps its invariant. */
module DomainEventInvariant {
  import opened Slots
  import opened DomainEventsLoop
  import opened DomainEventRuns
  import C = ClaimStrategy

  // ---- Steps ---------------------------------------------------------------------------

  lemma SessionInv(c: Config, h: History, ps: seq<Processor>)
    requires c.Valid() && |ps| == |c.initial| && Consistent(h)
    requires forall p :: 0 <= p < |ps| ==>
      ps[p].checkpoint >= c.initial[p] && RecordOk(h, c.initial[p], Restarted(ps[p]))
    ensures Inv(c, Session(c, h, ps))
  {
    var s := Session(c, h, ps);
    var least := IndexOfLeast(Checkpoints(ps));
    assert s.processors[least].begin == s.start;
    forall p | 0 <= p < |ps| ensures s.start <= ps[p].checkpoint {
      assert Checkpoints(ps)[least] <= Checkpoints(ps)[p];
    }
    C.RunEndUnique(s.start, {}, s.start);
    forall p | 0 <= p < |ps| ensures ProcessorOk(c, s, p, s.processors[p]) {
      assert s.processors[p] == Restarted(ps[p]);
    }
  }

  lemma RestartKeepsInv(c: Config, s: State)
    requires Inv(c, s)
    ensures Inv(c, Session(c, s.history, s.processors))
  {
    forall p | 0 <= p < |s.processors|
      ensures s.processors[p].checkpoint >= c.initial[p]
      ensures RecordOk(s.history, c.initial[p], Restarted(s.processors[p]))
    {
      assert ProcessorOk(c, s, p, s.processors[p]);
    }
    SessionInv(c, s.history, s.processors);
  }

  lemma CommitKeepsInv(c: Config, s: State, n: int, payload: Payload)
    requires Inv(c, s) && !Decided(s.history, n)
    ensures Inv(c, s.(history := s.history.(store := s.history.store[n := payload])))
  {
  }

  /** The machine polls the list that FillGaps makes of a page: whatever FillGaps may return under its
      contract is that list. */
  lemma FilledByFillGaps(store: map<int, Payload>, checkpoint: int, max: int, page: seq<Entry>, result: seq<Entry>)
    requires IsPage(store, checkpoint, max, page)
    ensures Dense(store, checkpoint, result)
        && |result| == (if page == [] then 0 else page[|page| - 1].sequence - checkpoint)
      <==> result == Filled(store, checkpoint, page)
  {
    var entries := Filled(store, checkpoint, page);
    if Dense(store, checkpoint, result) && |result| == |entries| {
      forall k | 0 <= k < |result| ensures result[k] == entries[k] {
        assert result[k] == Truth(store, checkpoint + 1 + k);
      }
      assert result == entries;
    }
  }

  lemma BeginPollKeepsInv(c: Config, s: State, max: int, page: seq<Entry>)
    requires Inv(c, s) && s.poll.NotPolling? && IsPage(s.history.store, s.cursor, max, page)
    ensures Inv(c, BeginPoll(s, page))
  {
    var entries := Filled(s.history.store, s.cursor, page);
    FilledByFillGaps(s.history.store, s.cursor, max, page, entries);
    var later := s.history.(gaps := s.history.gaps + MissingIn(entries));
    forall k | 0 <= k < |entries|
      ensures Decided(later, entries[k].sequence) && (entries[k].Empty? ==> entries[k].sequence !in s.history.store)
    {
      assert entries[k] == Truth(s.history.store, s.cursor + 1 + k);
      if entries[k].Empty? { assert entries[k].sequence in MissingIn(entries); }
    }
    assert PollOk(later, s.cursor, Polling(s.cursor, entries, 0));
    SetPoll(c, s.(history := later), Polling(s.cursor, entries, 0));
  }

  lemma SetPoll(c: Config, s: State, poll: Poll)
    requires Inv(c, s) && PollOk(s.history, s.cursor, poll)
    ensures Inv(c, s.(poll := poll))
  {
    var t := s.(poll := poll);
    var p :| 0 <= p < |s.processors| && s.processors[p].begin == s.start;
    assert t.processors[p].begin == t.start;
  }

  /** Some processor has not overtaken the cursor. */
  lemma SlowestBelowCursor(c: Config, s: State, n: int)
    requires ProcessorsOk(c, s) && Anchored(s) && CursorOk(s) && Passed(s.processors, n)
    ensures n <= s.cursor
  {
    var p :| 0 <= p < |s.processors| && s.processors[p].begin == s.start;
    assert ProcessorOk(c, s, p, s.processors[p]);
  }

  /** Writing number m above the cursor does not touch what anybody has still to read. */
  lemma WriteKeepsOthers(c: Config, s: State, m: int, n: int)
    requires ProcessorsOk(c, s) && Anchored(s) && CursorOk(s) && c.bufferSize > 0
    requires PublishedOk(s.history, s.start, c.bufferSize, s.published, s.processors)
    requires WithinLap(c.bufferSize, s.processors, m) && m > s.cursor
    requires n in s.published && !Passed(s.processors, n) && n != m
    ensures Slot(n, c.bufferSize) != Slot(m, c.bufferSize)
  {
    if Slot(n, c.bufferSize) == Slot(m, c.bufferSize) {
      if n < m {
        SlotsApart(n, m, c.bufferSize);
      } else {
        SlotsApart(m, n, c.bufferSize);
        assert WithinLap(c.bufferSize, s.processors, n);
        assert Passed(s.processors, m);
        SlowestBelowCursor(c, s, m);
      }
    }
  }

  lemma AddKeepsRing(c: Config, s: State, e: Entry)
    requires Inv(c, s) && e == Truth(s.history.store, e.sequence) && WithinLap(c.bufferSize, s.processors, e.sequence)
    ensures RingOk(s.history, Add(s, e).published, Add(s, e).ring, s.processors)
  {
    var t := Add(s, e);
    if e.sequence > s.cursor {
      forall n | n in t.published && !Passed(s.processors, n)
        ensures t.ring[Slot(n, |t.ring|)] == Truth(s.history.store, n)
      {
        if n != e.sequence { WriteKeepsOthers(c, s, e.sequence, n); }
      }
    }
  }

  lemma CursorAfterAdd(s: State, e: Entry)
    requires CursorOk(s) && |s.ring| > 0
    ensures CursorOk(Add(s, e)) && s.cursor <= Add(s, e).cursor
    ensures e.sequence <= s.cursor + 1 ==> e.sequence <= Add(s, e).cursor
  {
    if e.sequence > s.cursor {
      C.RunEndGrows(s.start, s.published, s.published + {e.sequence});
      C.RunEndCovers(s.start, s.published + {e.sequence}, Add(s, e).cursor,
                     if e.sequence <= s.cursor + 1 then e.sequence else s.cursor);
    }
  }

  /** AddEventToDisruptor with a true entry, its waits being over. */
  lemma AddKeepsInv(c: Config, s: State, e: Entry)
    requires Inv(c, s) && e == Truth(s.history.store, e.sequence) && Decided(s.history, e.sequence)
    requires CanAdd(c, s, e.sequence)
    ensures Inv(c, Add(s, e)) && s.cursor <= Add(s, e).cursor
    ensures e.sequence <= s.cursor + 1 ==> e.sequence <= Add(s, e).cursor
  {
    var t := Add(s, e);
    CursorAfterAdd(s, e);
    AddKeepsRing(c, s, e);
    assert Anchored(t) by {
      var p :| 0 <= p < |s.processors| && s.processors[p].begin == s.start;
      assert t.processors[p].begin == t.start;
    }
    assert PublishedOk(t.history, t.start, c.bufferSize, t.published, t.processors) by {
      assert e.sequence > s.cursor ==> s.start < e.sequence;
    }
  }

  lemma AddPolledKeepsInv(c: Config, s: State)
    requires Inv(c, s) && Enabled(c, s, AddPolled)
    ensures Inv(c, Apply(c, s, AddPolled))
  {
    var e := s.poll.entries[s.poll.index];
    assert e == Truth(s.history.store, s.poll.checkpoint + 1 + s.poll.index);
    AddKeepsInv(c, s, e);
    SetPoll(c, Add(s, e), s.poll.(index := s.poll.index + 1));
  }

  /** A processor changes its own data; its sequence does not go back. */
  lemma ProcessorKeepsInv(c: Config, s: State, p: nat, q: Processor)
    requires Inv(c, s) && p < |s.processors| && p < |c.initial| && ProcessorOk(c, s, p, q)
    requires q.begin == s.processors[p].begin && s.processors[p].sequence <= q.sequence
    ensures Inv(c, Set(s, p, q))
  {
    var t := Set(s, p, q);
    assert forall n :: Passed(s.processors, n) ==> Passed(t.processors, n);
    assert forall n :: WithinLap(c.bufferSize, s.processors, n) ==> WithinLap(c.bufferSize, t.processors, n);
    forall i | 0 <= i < |t.processors| ensures ProcessorOk(c, t, i, t.processors[i]) {
      assert i != p ==> ProcessorOk(c, s, i, s.processors[i]);
    }
    assert Anchored(t) by {
      var w :| 0 <= w < |s.processors| && s.processors[w].begin == s.start;
      assert t.processors[w].begin == t.start;
    }
  }

  lemma HandleKeepsInv(c: Config, s: State, p: nat, handled: bool)
    requires Inv(c, s) && Enabled(c, s, Handle(p, handled))
    ensures Inv(c, Apply(c, s, Handle(p, handled)))
  {
    var q := s.processors[p];
    assert ProcessorOk(c, s, p, q);
    ReadsTruth(c, s, p);
    OnNextIsOk(s.history, s.start, s.cursor, c.initial[p], q, handled);
    ProcessorKeepsInv(c, s, p, OnNext(q, Truth(s.history.store, q.next), handled));
  }

  /** What a processor is given next is in its slot. */
  lemma ReadsTruth(c: Config, s: State, p: nat)
    requires Inv(c, s) && p < |s.processors| && s.processors[p].next <= s.cursor
    ensures s.ring[Slot(s.processors[p].next, |s.ring|)] == Truth(s.history.store, s.processors[p].next)
    ensures Decided(s.history, s.processors[p].next)
  {
    var q := s.processors[p];
    assert ProcessorOk(c, s, p, q);
    assert q.next in s.published && !Passed(s.processors, q.next);
  }

  lemma OnNextIsOk(h: History, start: int, cursor: int, initial: int, q: Processor, handled: bool)
    requires PositionOk(start, cursor, initial, q) && RecordOk(h, initial, q) && Decided(h, q.next)
    requires !q.saving && q.next <= cursor
    ensures PositionOk(start, cursor, initial, OnNext(q, Truth(h.store, q.next), handled))
    ensures RecordOk(h, initial, OnNext(q, Truth(h.store, q.next), handled))
  {
    var r := OnNext(q, Truth(h.store, q.next), handled);
    forall k | 0 <= k < |r.log| ensures r.log[k] == Truth(h.store, q.begin + 1 + k) {
      if k < |q.log| { assert r.log[k] == q.log[k]; }
    }
  }

  lemma SaveKeepsInv(c: Config, s: State, p: nat, failed: bool)
    requires Inv(c, s) && Enabled(c, s, SaveCheckpoint(p, failed))
    ensures Inv(c, Apply(c, s, SaveCheckpoint(p, failed)))
  {
    var q := s.processors[p];
    assert ProcessorOk(c, s, p, q);
    ProcessorKeepsInv(c, s, p, Save(q, failed));
  }

  lemma UpdateKeepsInv(c: Config, s: State, p: nat)
    requires Inv(c, s) && Enabled(c, s, UpdateSequence(p))
    ensures Inv(c, Apply(c, s, UpdateSequence(p)))
  {
    var q := s.processors[p];
    assert ProcessorOk(c, s, p, q);
    assert RecordOk(s.history, c.initial[p], q.(sequence := q.next - 1));
    ProcessorKeepsInv(c, s, p, q.(sequence := q.next - 1));
  }

  lemma StepKeepsInv(c: Config, s: State, step: Step)
    requires Inv(c, s) && Enabled(c, s, step)
    ensures Inv(c, Apply(c, s, step))
  {
    match step
    case Commit(n, payload) => CommitKeepsInv(c, s, n, payload);
    case FastMessage(n) => AddKeepsInv(c, s, Truth(s.history.store, n));
    case StartPoll(max, page) => BeginPollKeepsInv(c, s, max, page);
    case AddPolled => AddPolledKeepsInv(c, s);
    case EndPoll => SetPoll(c, s, NotPolling);
    case Handle(p, handled) => HandleKeepsInv(c, s, p, handled);
    case SaveCheckpoint(p, failed) => SaveKeepsInv(c, s, p, failed);
    case UpdateSequence(p) => UpdateKeepsInv(c, s, p);
    case Restart => RestartKeepsInv(c, s);
  }

  lemma Shorter(c: Config, run: seq<State>, n: nat)
    requires IsRun(c, run) && 0 < n <= |run|
    ensures IsRun(c, run[..n])
  {
    forall k | 0 < k < n ensures StepAt(c, run[..n], k) { assert StepAt(c, run, k); }
  }

  lemma {:induction false} RunInv(c: Config, run: seq<State>)
    requires IsRun(c, run)
    ensures Inv(c, run[|run| - 1])
  {
    if |run| == 1 {
      SessionInv(c, History(map[], {}), NewProcessors(c));
    } else {
      Shorter(c, run, |run| - 1);
      RunInv(c, run[..|run| - 1]);
      assert StepAt(c, run, |run| - 1);
      var step :| Takes(c, run[|run| - 2], run[|run| - 1], step);
      StepKeepsInv(c, run[|run| - 2], step);
    }
  }

  lemma StateInv(c: Config, run: seq<State>, k: nat)
    requires IsRun(c, run) && k < |run|
    ensures Inv(c, run[k])
  {
    Shorter(c, run, k + 1);
    RunInv(c, run[..k + 1]);
  }
}
