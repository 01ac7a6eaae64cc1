/** What a call of BlockingWaitStrategy.WaitFor, or of SignalAllWhenBlocking, comes to: when it may return,
    and where it gets when the lock is free and the others leave it alone. */
module WaitCalls {
  import opened BlockingWait

  // ---- No call returns early -----------------------------------------------------------

  /** At some step from a to z the cursor has covered w's sequence, or w's barrier was alerted. */
  ghost predicate Met(run: seq<State>, a: nat, z: nat, w: Waiter) {
    exists k :: a <= k <= z && k < |run| && Satisfied(run[k], w)
  }

  /** The call of w goes on: it has not begun to leave. */
  ghost predicate GoesOn(w: Waiter, now: Waiter) {
    && now.sequence == w.sequence && now.barrier == w.barrier
    && !now.phase.Outside? && !now.phase.Leaving? && !now.phase.Exiting?
  }

  lemma StepGoesOn(s: State, t: State, i: nat, w: Waiter)
    requires Next(s, t) && i < |s.waiters| && GoesOn(w, s.waiters[i])
    ensures |t.waiters| == |s.waiters| && (GoesOn(w, t.waiters[i]) || Satisfied(s, w))
  {
    var step :| Takes(s, t, step);
    if step.Wait? && step.i == i { assert t == WaitStep(s, i); }
  }

  lemma {:induction false} GoesOnOrMet(run: seq<State>, a: nat, z: nat, i: nat)
    requires IsRun(run) && a <= z < |run| && i < |run[a].waiters| && GoesOn(run[a].waiters[i], run[a].waiters[i])
    ensures i < |run[z].waiters|
    ensures GoesOn(run[a].waiters[i], run[z].waiters[i]) || Met(run, a, z, run[a].waiters[i])
    decreases z
  {
    var w := run[a].waiters[i];
    if a < z {
      GoesOnOrMet(run, a, z - 1, i);
      assert StepAt(run, z);
      SameWaiters(run[z - 1], run[z]);
      if Met(run, a, z - 1, w) {
        var k :| a <= k <= z - 1 && k < |run| && Satisfied(run[k], w);
        assert Met(run, a, z, w);
      } else {
        assert !Satisfied(run[z - 1], w);
        StepGoesOn(run[z - 1], run[z], i, w);
      }
    }
  }

  lemma SameWaiters(s: State, t: State)
    requires Next(s, t)
    ensures |t.waiters| == |s.waiters|
  {
    var step :| Takes(s, t, step);
    if step.Signal? { assert t == SignalStep(s, step.j); }
  }

  /** In every run: a call of WaitFor that was still waiting at step a, for instance when it began, and has
      returned by step z, normally or with an alert, has met at some step in between a cursor at or above
      its sequence, or an alert of its barrier. */
  lemma ReturnsOnlySatisfied(run: seq<State>, a: nat, z: nat, i: nat)
    requires IsRun(run) && a <= z < |run| && i < |run[a].waiters| && GoesOn(run[a].waiters[i], run[a].waiters[i])
    requires i < |run[z].waiters| && run[z].waiters[i].phase.Outside?
    ensures Met(run, a, z, run[a].waiters[i])
  {
    GoesOnOrMet(run, a, z, i);
  }

  // ---- Left alone ----------------------------------------------------------------------

  /** A call for a sequence that is covered already looks at the cursor and returns: it takes neither the lock
      nor a mark. */
  lemma CoveredCallReturns(s: State, t: State, i: nat, sequence: int, barrier: nat)
    requires Takes(s, t, Call(i, sequence, barrier)) && s.cursor >= sequence
    ensures i < |t.waiters| && t.waiters[i] == Waiter(sequence, barrier, FirstRead)
    ensures WaitStep(t, i) == t.(waiters := s.waiters[i := Waiter(sequence, barrier, Outside)])
    ensures t.holder == s.holder && t.numWaiters == s.numWaiters
  {
  }

  /** n steps of waiter i, and of nobody else. */
  ghost function Alone(s: State, i: nat, n: nat): State
    requires i < |s.waiters|
    decreases n
  {
    if n == 0 then s else WaitStepKeepsWaiters(s, i); Alone(WaitStep(s, i), i, n - 1)
  }

  lemma WaitStepKeepsWaiters(s: State, i: nat)
    requires i < |s.waiters|
    ensures |WaitStep(s, i).waiters| == |s.waiters|
  {
  }

  /** Nobody else holds the lock. */
  ghost predicate LockIsFree(s: State, i: nat) {
    i < |s.waiters| && (s.holder == Free || s.holder == ByWaiter(i))
    && (s.waiters[i].phase.HoldsLock() <==> s.holder == ByWaiter(i))
  }

  function StepsToPark(phase: WaitPhase): nat {
    match phase
    case FirstRead => 6
    case Entering => 5
    case Counting => 4
    case Pulsed => 4
    case LoopRead => 3
    case CheckingAlert => 2
    case Parking => 1
    case _ => 0
  }

  /** A waiter whose sequence is not covered, and whose barrier is not alerted, waits: after at most six
      steps it is parked and has left the lock, counted once. */
  lemma {:induction false} UnsatisfiedParks(s: State, i: nat)
    requires LockIsFree(s, i) && !Satisfied(s, s.waiters[i]) && s.waiters[i].barrier < |s.alerted|
    requires GoesOn(s.waiters[i], s.waiters[i])
    ensures var t := Alone(s, i, StepsToPark(s.waiters[i].phase));
      && i < |t.waiters| && t.waiters[i] == s.waiters[i].(phase := Parked) && t.holder == Free
      && t.numWaiters == s.numWaiters + (if s.waiters[i].phase.Counted() || s.waiters[i].phase.Parking? then 0 else 1)
      && t.cursor == s.cursor && t.alerted == s.alerted
    decreases StepsToPark(s.waiters[i].phase)
  {
    if !s.waiters[i].phase.Parked? {
      WaitStepKeepsWaiters(s, i);
      UnsatisfiedParks(WaitStep(s, i), i);
    }
  }

  function StepsToReturn(phase: WaitPhase): nat {
    match phase
    case FirstRead => 1
    case Entering => 5
    case Counting => 4
    case Pulsed => 4
    case LoopRead => 3
    case Leaving => 2
    case Exiting => 1
    case _ => 0
  }

  /** A waiter whose sequence is covered, and that is not on its way to park, returns after at most five
      steps. It takes its mark back and leaves the lock. */
  lemma {:induction false} CoveredReturns(s: State, i: nat)
    requires LockIsFree(s, i) && s.cursor >= s.waiters[i].sequence
    requires !s.waiters[i].phase.CheckingAlert? && !s.waiters[i].phase.Parking? && !s.waiters[i].phase.Parked?
    ensures var t := Alone(s, i, StepsToReturn(s.waiters[i].phase));
      && i < |t.waiters| && t.waiters[i] == s.waiters[i].(phase := Outside) && t.holder == Free
      && t.numWaiters == s.numWaiters - (if s.waiters[i].phase.Counted() then 1 else 0)
    decreases StepsToReturn(s.waiters[i].phase)
  {
    if !s.waiters[i].phase.Outside? {
      WaitStepKeepsWaiters(s, i);
      CoveredReturns(WaitStep(s, i), i);
    }
  }

  /** A waiter that sees its barrier alerted leaves: three more steps. */
  lemma AlertedReturns(s: State, i: nat)
    requires LockIsFree(s, i) && s.waiters[i].phase.CheckingAlert?
    requires s.waiters[i].barrier < |s.alerted| && s.alerted[s.waiters[i].barrier]
    ensures var t := Alone(s, i, 3);
      i < |t.waiters| && t.waiters[i] == s.waiters[i].(phase := Outside) && t.holder == Free
      && t.numWaiters == s.numWaiters - 1
  {
    var s1 := WaitStep(s, i);
    var s2 := WaitStep(s1, i);
    assert Alone(s, i, 3) == Alone(s1, i, 2) == Alone(s2, i, 1) == WaitStep(s2, i);
  }

  /** A signaller with a free lock wakes everybody that is parked: with a counted waiter in four steps; with
      none it has nothing to do. */
  lemma SignalWakes(s: State, j: nat)
    requires j < |s.signallers| && s.signallers[j].Dirty? && s.holder == Free
    ensures s.numWaiters == 0 ==> SignalStep(s, j) == s.(signallers := s.signallers[j := Quiet])
    ensures s.numWaiters != 0 ==>
      var t := SignalStep(SignalStep(SignalStep(SignalStep(s, j), j), j), j);
      && t.signallers == s.signallers[j := Quiet] && t.holder == Free && |t.waiters| == |s.waiters|
      && forall i :: 0 <= i < |s.waiters| ==>
           t.waiters[i] == if s.waiters[i].phase.Parked? then s.waiters[i].(phase := Pulsed) else s.waiters[i]
  {
    if s.numWaiters != 0 {
      var s1 := SignalStep(s, j);
      assert s1.signallers == s.signallers[j := WantsLock];
      var s2 := SignalStep(s1, j);
      assert s2.signallers == s.signallers[j := Pulsing] && s2.holder == BySignaller(j);
      var s3 := SignalStep(s2, j);
      assert s3.signallers == s.signallers[j := Releasing];
    }
  }
}
