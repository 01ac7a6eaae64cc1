/** What holds of every run of the domain events machine: what a processor sees, and what crashes leave
    of it. */
module DomainEventResults {
  import opened DomainEventsLoop
  import opened DomainEventRuns
  import opened DomainEventInvariant
  import opened Slots
  import C = ClaimStrategy

  // ---- What a processor sees -----------------------------------------------------------

  function NonEmpty(log: seq<Entry>): seq<Entry> {
    if log == [] then []
    else
      var rest, last := NonEmpty(log[..|log| - 1]), log[|log| - 1];
      if last.Stored? then rest + [last] else rest
  }

  /** Exactly the records with a number in (lo, hi], each once, in order. */
  ghost predicate Lists(store: map<int, Payload>, lo: int, hi: int, list: seq<Entry>) {
    && (forall k :: 0 <= k < |list| ==>
          list[k].Stored? && list[k].sequence <= hi && list[k] == Truth(store, list[k].sequence))
    && Ascending(lo, list)
    && (forall n :: n in store && lo < n <= hi ==> Has(list, n))
  }

  lemma {:induction false} DenseLists(store: map<int, Payload>, lo: int, log: seq<Entry>)
    requires Dense(store, lo, log)
    ensures Lists(store, lo, lo + |log|, NonEmpty(log))
  {
    if log != [] {
      var shorter, last := log[..|log| - 1], log[|log| - 1];
      DenseLists(store, lo, shorter);
      assert last == Truth(store, lo + |log|);
      var before, after := NonEmpty(shorter), NonEmpty(log);
      forall n | n in store && lo < n <= lo + |log| ensures Has(after, n) {
        if n <= lo + |shorter| {
          assert Has(before, n);
          var k :| 0 <= k < |before| && before[k].sequence == n;
          assert after[k].sequence == n;
        } else {
          assert after[|after| - 1].sequence == n;
        }
      }
    }
  }

  /** In every run the non-empty records given to a processor are exactly the store's records above
      the checkpoint it started from and up to its position, in order, each once, whatever the fast
      channel lost, repeated, delayed or reordered. */
  lemma DeliveredExactly(c: Config, run: seq<State>, p: nat)
    requires IsRun(c, run) && p < |c.initial|
    ensures var s := run[|run| - 1];
      |s.processors| == |c.initial| &&
      var q := s.processors[p];
      q.begin < q.next && Lists(s.history.store, q.begin, q.next - 1, NonEmpty(q.log))
  {
    RunInv(c, run);
    var s := run[|run| - 1];
    assert ProcessorOk(c, s, p, s.processors[p]);
    DenseLists(s.history.store, s.processors[p].begin, s.processors[p].log);
  }

  /** The fast channel cannot be noticed: over the same store, between the same two positions, any
      two runs have given their processors the same entries, also with other buffers and other
      fellow processors. */
  lemma FastChannelIsInvisible(c: Config, run: seq<State>, p: nat, d: Config, other: seq<State>, o: nat)
    requires IsRun(c, run) && p < |run[|run| - 1].processors|
    requires IsRun(d, other) && o < |other[|other| - 1].processors|
    requires run[|run| - 1].history.store == other[|other| - 1].history.store
    requires run[|run| - 1].processors[p].begin == other[|other| - 1].processors[o].begin
    requires run[|run| - 1].processors[p].next == other[|other| - 1].processors[o].next
    ensures run[|run| - 1].processors[p].log == other[|other| - 1].processors[o].log
  {
    RunInv(c, run);
    RunInv(d, other);
    assert ProcessorOk(c, run[|run| - 1], p, run[|run| - 1].processors[p]);
    assert ProcessorOk(d, other[|other| - 1], o, other[|other| - 1].processors[o]);
  }

  /** When a poll has ended, everything its page reached is covered by the cursor, whatever became of
      the fast messages. */
  lemma FinishedPollIsCovered(c: Config, run: seq<State>, n: int)
    requires IsRun(c, run) && Enabled(c, run[|run| - 1], EndPoll)
    requires var poll := run[|run| - 1].poll;
      n <= poll.checkpoint || exists k :: 0 <= k < |poll.entries| && poll.entries[k].sequence == n
    ensures n <= run[|run| - 1].cursor
  {
    RunInv(c, run);
    var poll := run[|run| - 1].poll;
    if n > poll.checkpoint {
      var k :| 0 <= k < |poll.entries| && poll.entries[k].sequence == n;
      assert poll.entries[k] == Truth(run[|run| - 1].history.store, poll.checkpoint + 1 + k);
    }
  }

  /** A fast message that is next in line is covered at once; one further ahead waits in its slot, and is
      covered as soon as the numbers before it are. A record committed stays what it is. */
  lemma FastMessageArrives(c: Config, run: seq<State>, n: int)
    requires IsRun(c, run) && Enabled(c, run[|run| - 1], FastMessage(n)) && n > run[|run| - 1].cursor
    ensures |run[|run| - 1].ring| == c.bufferSize > 0 && |run[|run| - 1].processors| > 0
    ensures var s := run[|run| - 1]; var t := Apply(c, s, FastMessage(n));
      && n in t.published && s.published <= t.published && |t.ring| == c.bufferSize
      && t.ring[Slot(n, c.bufferSize)] == Truth(s.history.store, n)
      && t.cursor >= s.cursor && (n <= t.cursor <==> forall x :: s.cursor < x < n ==> x in s.published)
  {
    RunInv(c, run);
    var s := run[|run| - 1];
    CursorAfterAdd(s, Truth(s.history.store, n));
    AddedCursor(s, n);
  }

  lemma AddedCursor(s: State, n: int)
    requires CursorOk(s) && n > s.cursor
    ensures n <= C.RunEnd(s.start, s.published + {n}) <==> forall x :: s.cursor < x < n ==> x in s.published
  {
    var end := C.RunEnd(s.start, s.published + {n});
    C.RunEndGrows(s.start, s.published, s.published + {n});
    assert end + 1 !in s.published + {n};
    if end < n {
      assert end + 1 !in s.published && s.cursor < end + 1 < n;
    } else {
      forall x | s.cursor < x < n ensures x in s.published { assert x in s.published + {n}; }
    }
  }

  // ---- Crashes and checkpoints ---------------------------------------------------------

  /** After a crash each processor begins again right behind its stored checkpoint, the ring at the least of
      them, and nothing but the store and what the handlers did is left. */
  lemma RestartResumes(c: Config, run: seq<State>, p: nat)
    requires IsRun(c, run) && p < |run[|run| - 1].processors|
    ensures |run[|run| - 1].ring| > 0
    ensures var s := run[|run| - 1]; var t := Apply(c, s, Restart);
      && t.history == s.history && t.poll.NotPolling? && t.published == {} && |t.processors| == |s.processors|
      && var q, r := s.processors[p], t.processors[p];
        && r.next == q.checkpoint + 1 && r.sequence == r.begin == r.checkpoint == q.checkpoint && !r.saving
        && r.log == [] && r.offered == q.offered && r.succeeded == q.succeeded && r.saved == q.saved
        && t.cursor <= q.checkpoint && exists o :: 0 <= o < |s.processors| && s.processors[o].checkpoint == t.cursor
  {
    RunInv(c, run);
    var s := run[|run| - 1];
    var least := IndexOfLeast(Checkpoints(s.processors));
    assert Checkpoints(s.processors)[least] <= Checkpoints(s.processors)[p];
    assert s.processors[least].checkpoint == Apply(c, s, Restart).cursor;
  }

  /** A committed record is in the store, and nothing else has changed. */
  lemma CommitIsStored(c: Config, s: State, n: int, payload: Payload, m: int)
    requires Enabled(c, s, Commit(n, payload)) && |s.ring| > 0 && |s.processors| > 0
    ensures var t := Apply(c, s, Commit(n, payload));
      && Truth(t.history.store, m) == (if m == n then Stored(n, payload) else Truth(s.history.store, m))
      && t.(history := s.history) == s && t.history.gaps == s.history.gaps
  {
  }

  /** What never goes back for a processor, restarts included. */
  ghost predicate Remembers(q: Processor, later: Processor) {
    && q.checkpoint <= later.checkpoint && q.offered <= later.offered && q.succeeded <= later.succeeded
    && q.saved <= later.saved
  }

  lemma {:induction false} RunRemembers(c: Config, run: seq<State>, i: nat, j: nat, p: nat)
    requires IsRun(c, run) && i <= j < |run| && p < |run[i].processors|
    ensures p < |run[j].processors| && Remembers(run[i].processors[p], run[j].processors[p])
    decreases j
  {
    if i < j {
      RunRemembers(c, run, i, j - 1, p);
      assert StepAt(c, run, j);
    }
  }

  /** The stored checkpoint never goes down and never passes a record not yet offered: after any
      number of crashes every record above the initial checkpoint and up to the processor's position,
      and so up to its checkpoint, has been offered to the handler. */
  lemma NothingIsSkipped(c: Config, run: seq<State>, i: nat, p: nat, n: int)
    requires IsRun(c, run) && i < |run| && p < |c.initial|
    ensures var s := run[|run| - 1];
      |run[i].processors| == |s.processors| == |c.initial| &&
      var q := s.processors[p];
      && run[i].processors[p].checkpoint <= q.checkpoint < q.next
      && (n in s.history.store && c.initial[p] < n < q.next ==> n in q.offered)
  {
    RunInv(c, run);
    StateInv(c, run, i);
    RunRemembers(c, run, i, |run| - 1, p);
    assert ProcessorOk(c, run[|run| - 1], p, run[|run| - 1].processors[p]);
  }

  /** A record whose checkpoint save was completed at some moment of a run is not given to that
      processor again, however often the service restarts. */
  lemma SavedIsNotOfferedAgain(c: Config, run: seq<State>, i: nat, p: nat, n: int, handled: bool)
    requires IsRun(c, run) && i < |run| && p < |run[i].processors| && n in run[i].processors[p].saved
    requires Enabled(c, run[|run| - 1], Handle(p, handled))
    ensures run[|run| - 1].processors[p].next > n
  {
    RunInv(c, run);
    RunRemembers(c, run, i, |run| - 1, p);
    assert ProcessorOk(c, run[|run| - 1], p, run[|run| - 1].processors[p]);
  }

  /** The checkpoint is moved by nothing but success: in every run it is the initial one or the number of a
      record for which the handler has reported success. */
  lemma OnlySuccessMovesCheckpoint(c: Config, run: seq<State>, p: nat)
    requires IsRun(c, run) && p < |c.initial|
    ensures p < |run[|run| - 1].processors|
    ensures var q := run[|run| - 1].processors[p];
      q.checkpoint == c.initial[p] || (q.checkpoint in q.succeeded && q.checkpoint in q.offered)
  {
    RunInv(c, run);
    assert ProcessorOk(c, run[|run| - 1], p, run[|run| - 1].processors[p]);
  }

  /** And success moves it: after a stored record was handled a save can be made, and once it is through
      the checkpoint is at or above that record; a save that fails changes nothing. After a refused or
      throwing handler, or an empty record, no save can be made and the checkpoint is what it was. */
  lemma SuccessIsSaved(c: Config, run: seq<State>, p: nat, handled: bool)
    requires IsRun(c, run) && Enabled(c, run[|run| - 1], Handle(p, handled))
    ensures |run[|run| - 1].ring| > 0
    ensures var s := run[|run| - 1]; var n := s.processors[p].next; var t := Apply(c, s, Handle(p, handled));
      && p < |t.processors| && t.processors[p].checkpoint == s.processors[p].checkpoint && |t.ring| > 0
      && (n in t.processors[p].offered <==> n in s.history.store || n in s.processors[p].offered)
      && (if n in s.history.store && handled
          then (forall failed :: Enabled(c, t, SaveCheckpoint(p, failed)))
            && Apply(c, t, SaveCheckpoint(p, false)).processors[p].checkpoint == Larger(s.processors[p].checkpoint, n)
            && Apply(c, t, SaveCheckpoint(p, true)).processors[p] == t.processors[p].(saving := false)
          else forall failed :: !Enabled(c, t, SaveCheckpoint(p, failed)))
  {
    RunInv(c, run);
    var s := run[|run| - 1];
    assert ProcessorOk(c, s, p, s.processors[p]);
    HandleKeepsInv(c, s, p, handled);
  }

  function Larger(a: int, b: int): int { if a < b then b else a }

  /** A processor that has read up to the cursor has been offered every record between its initial
      checkpoint and the cursor. */
  lemma CaughtUpMeansOffered(c: Config, run: seq<State>, p: nat, n: int)
    requires IsRun(c, run) && p < |c.initial| && p < |run[|run| - 1].processors|
    requires run[|run| - 1].processors[p].next > run[|run| - 1].cursor
    requires n in run[|run| - 1].history.store && c.initial[p] < n <= run[|run| - 1].cursor
    ensures n in run[|run| - 1].processors[p].offered
  {
    RunInv(c, run);
    assert ProcessorOk(c, run[|run| - 1], p, run[|run| - 1].processors[p]);
  }
}
