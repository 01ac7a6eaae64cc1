/** The capacity test of AddEventToDisruptor (DomainEventsLoop.cs) as it is: several reads at different
    moments of a session, the time between two starts of the service. */
module DomainEventSessions {
  import opened Slots
  import opened DomainEventsLoop
  import opened DomainEventRuns
  import opened DomainEventInvariant

  /** A step that does not start a new session. */
  ghost predicate InSession(c: Config, s: State, t: State) {
    exists step :: Takes(c, s, t, step) && !step.Restart?
  }

  ghost predicate SameSession(c: Config, run: seq<State>, a: nat, b: nat) {
    b < |run| && forall k :: a < k <= b ==> SessionAt(c, run, k)
  }

  ghost predicate SessionAt(c: Config, run: seq<State>, k: nat)
    requires 0 < k < |run|
  {
    InSession(c, run[k - 1], run[k])
  }

  ghost predicate Advanced(s: State, t: State) {
    && s.cursor <= t.cursor && |t.processors| == |s.processors|
    && forall p :: 0 <= p < |s.processors| ==> s.processors[p].sequence <= t.processors[p].sequence
  }

  lemma AddAdvances(s: State, e: Entry)
    requires CursorOk(s) && |s.ring| > 0
    ensures Advanced(s, Add(s, e))
  {
    CursorAfterAdd(s, e);
  }

  lemma SetAdvances(s: State, p: nat, q: Processor)
    requires p < |s.processors| && s.processors[p].sequence <= q.sequence
    ensures Advanced(s, Set(s, p, q))
  {
  }

  /** Within a session neither the cursor nor a processor's sequence goes back. */
  lemma SessionStep(c: Config, s: State, step: Step)
    requires CursorOk(s) && ProcessorsOk(c, s) && |s.ring| > 0 && |s.processors| > 0
    requires Enabled(c, s, step) && !step.Restart?
    ensures Advanced(s, Apply(c, s, step))
  {
    match step
    case FastMessage(n) => AddAdvances(s, Truth(s.history.store, n));
    case AddPolled => AddAdvances(s, s.poll.entries[s.poll.index]);
    case Handle(p, handled) =>
      SetAdvances(s, p, OnNext(s.processors[p], s.ring[Slot(s.processors[p].next, |s.ring|)], handled));
    case SaveCheckpoint(p, failed) => SetAdvances(s, p, Save(s.processors[p], failed));
    case UpdateSequence(p) =>
      assert ProcessorOk(c, s, p, s.processors[p]);
      SetAdvances(s, p, s.processors[p].(sequence := s.processors[p].next - 1));
    case Commit(_, _) =>
    case StartPoll(_, _) =>
    case EndPoll =>
  }

  lemma {:induction false} SessionAdvances(c: Config, run: seq<State>, a: nat, b: nat)
    requires IsRun(c, run) && a <= b && SameSession(c, run, a, b)
    ensures Advanced(run[a], run[b])
    decreases b
  {
    if a < b {
      SessionAdvances(c, run, a, b - 1);
      StateInv(c, run, b - 1);
      assert SessionAt(c, run, b);
      var step :| Takes(c, run[b - 1], run[b], step) && !step.Restart?;
      SessionStep(c, run[b - 1], step);
    }
  }

  /** AddEventToDisruptor does not look once: it reads the cursor at step a, the sequence of processor k
      at step seen[k], the cursor again at step d, and SerialisePublishing reads it once more at step e.
      Whatever happens in between, a number that passes these tests may be added at every later moment
      of the session, as the machine's guard asks. */
  lemma RacyCapacityTest(c: Config, run: seq<State>, a: nat, seen: seq<nat>, values: seq<int>,
                         d: nat, e: nat, b: nat, n: int)
    requires IsRun(c, run) && a <= d <= e <= b && SameSession(c, run, a, b)
    requires |seen| == |values| == |run[a].processors|
    requires forall k :: 0 <= k < |seen| ==> a <= seen[k] <= d && k < |run[seen[k]].processors|
    requires forall k :: 0 <= k < |seen| ==> values[k] == run[seen[k]].processors[k].sequence
    requires n <= run[a].cursor + (c.bufferSize - (run[d].cursor - MinOf(values)))
    requires n - run[e].cursor <= c.pendingSize
    ensures CanAdd(c, run[b], n)
  {
    SessionAdvances(c, run, a, d);
    SessionAdvances(c, run, a, b);
    SessionAdvances(c, run, e, b);
    forall p | 0 <= p < |run[b].processors| ensures n - c.bufferSize <= run[b].processors[p].sequence {
      SessionAdvances(c, run, seen[p], b);
      assert LowerBound(MinOf(values), values);
    }
  }
}
