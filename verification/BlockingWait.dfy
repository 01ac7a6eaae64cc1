/** The monitor protocol of BlockingWaitStrategy.cs: waiters park under the lock, signallers read the
    waiter count without it. Signallers are the callers of Sequencer.Publish (Sequencer.cs) and of
    ProcessingSequenceBarrier.Alert, which write first and signal afterwards. */
module BlockingWait {

  /** A call of WaitFor. The phases from `Counting` to `Exiting`, except `Parked` and `Pulsed`, hold
      the lock. */
  datatype WaitPhase =
    | Outside
    | FirstRead
    | Entering
    | Counting
    | LoopRead
    | CheckingAlert
    | Parking
    | Parked
    | Pulsed
    | Leaving
    | Exiting
  {
    predicate HoldsLock() { Counting? || LoopRead? || CheckingAlert? || Parking? || Leaving? || Exiting? }
    predicate Counted() { LoopRead? || CheckingAlert? || Parking? || Parked? || Pulsed? || Leaving? }
  }

  datatype Waiter = Waiter(sequence: int, barrier: nat, phase: WaitPhase)

  /** `Dirty`: has written the cursor or an alert and not yet looked at the waiter count. */
  datatype SignalPhase = Quiet | Dirty | WantsLock | Pulsing | Releasing
  {
    predicate HoldsLock() { Pulsing? || Releasing? }
    /** Between its write and its PulseAll. */
    predicate Pending() { Dirty? || WantsLock? || Pulsing? }
  }

  datatype Holder = Free | ByWaiter(i: nat) | BySignaller(j: nat)

  datatype State = State(
    cursor: int,
    alerted: seq<bool>,
    holder: Holder,
    numWaiters: int,
    waiters: seq<Waiter>,
    signallers: seq<SignalPhase>)

  datatype Step =
    | Call(i: nat, sequence: int, barrier: nat)
    | Wait(i: nat)
    | WriteCursor(j: nat, value: int)
    | WriteAlert(j: nat, barrier: nat)
    | Signal(j: nat)
    | ClearAlert(barrier: nat)

  function Initial(cursor: int, waiters: nat, signallers: nat, barriers: nat): State {
    State(cursor, seq(barriers, _ => false), Free, 0,
          seq(waiters, _ => Waiter(0, 0, Outside)), seq(signallers, _ => Quiet))
  }

  function Go(s: State, i: nat, phase: WaitPhase): State
    requires i < |s.waiters|
  {
    s.(waiters := s.waiters[i := s.waiters[i].(phase := phase)])
  }

  /** The next step of waiter i; a thread that finds the lock taken, or that is parked, stays. */
  function WaitStep(s: State, i: nat): State
    requires i < |s.waiters|
  {
    var w := s.waiters[i];
    match w.phase
    case Outside => s
    case FirstRead => Go(s, i, if s.cursor < w.sequence then Entering else Outside)
    case Entering => if s.holder.Free? then Go(s, i, Counting).(holder := ByWaiter(i)) else s
    case Counting => Go(s, i, LoopRead).(numWaiters := s.numWaiters + 1)
    case LoopRead => Go(s, i, if s.cursor < w.sequence then CheckingAlert else Leaving)
    case CheckingAlert => Go(s, i, if w.barrier < |s.alerted| && s.alerted[w.barrier] then Leaving else Parking)
    case Parking => Go(s, i, Parked).(holder := Free)
    case Parked => s
    case Pulsed => if s.holder.Free? then Go(s, i, LoopRead).(holder := ByWaiter(i)) else s
    case Leaving => Go(s, i, Exiting).(numWaiters := s.numWaiters - 1)
    case Exiting => Go(s, i, Outside).(holder := Free)
  }

  function Pulse(w: Waiter): Waiter {
    if w.phase.Parked? then w.(phase := Pulsed) else w
  }

  function PulseAll(ws: seq<Waiter>): (r: seq<Waiter>)
    ensures |r| == |ws| && forall i :: 0 <= i < |ws| ==> r[i] == Pulse(ws[i])
  {
    seq(|ws|, i requires 0 <= i < |ws| => Pulse(ws[i]))
  }

  function SignalStep(s: State, j: nat): State
    requires j < |s.signallers|
  {
    match s.signallers[j]
    case Quiet => s
    case Dirty => s.(signallers := s.signallers[j := if s.numWaiters != 0 then WantsLock else Quiet])
    case WantsLock =>
      if s.holder.Free? then s.(signallers := s.signallers[j := Pulsing], holder := BySignaller(j)) else s
    case Pulsing => s.(signallers := s.signallers[j := Releasing], waiters := PulseAll(s.waiters))
    case Releasing => s.(signallers := s.signallers[j := Quiet], holder := Free)
  }

  ghost predicate Writes(s: State, j: nat) {
    j < |s.signallers| && (s.signallers[j].Quiet? || s.signallers[j].Dirty?)
  }

  ghost predicate Takes(s: State, t: State, step: Step) {
    match step
    case Call(i, sequence, b) =>
      && i < |s.waiters| && b < |s.alerted| && s.waiters[i].phase.Outside? && !s.alerted[b]
      && t == s.(waiters := s.waiters[i := Waiter(sequence, b, FirstRead)])
    case Wait(i) => i < |s.waiters| && t == WaitStep(s, i)
    case WriteCursor(j, value) =>
      Writes(s, j) && t == s.(cursor := value, signallers := s.signallers[j := Dirty])
    case WriteAlert(j, b) =>
      Writes(s, j) && b < |s.alerted|
        && t == s.(alerted := s.alerted[b := true], signallers := s.signallers[j := Dirty])
    case Signal(j) => j < |s.signallers| && t == SignalStep(s, j)
    case ClearAlert(b) => b < |s.alerted| && t == s.(alerted := s.alerted[b := false])
  }

  ghost predicate Next(s: State, t: State) {
    exists step :: Takes(s, t, step)
  }

  ghost predicate IsRun(run: seq<State>) {
    && |run| > 0
    && run[0] == Initial(run[0].cursor, |run[0].waiters|, |run[0].signallers|, |run[0].alerted|)
    && forall k :: 0 < k < |run| ==> StepAt(run, k)
  }

  ghost predicate StepAt(run: seq<State>, k: nat)
    requires 0 < k < |run|
  {
    Next(run[k - 1], run[k])
  }

  lemma Shorter(run: seq<State>, n: nat)
    requires IsRun(run) && 0 < n <= |run|
    ensures IsRun(run[..n])
  {
    forall k | 0 < k < n ensures StepAt(run[..n], k) { assert StepAt(run, k); }
  }

  // ---- The invariant -------------------------------------------------------------------

  ghost predicate MutexOk(s: State) {
    && (s.holder.Free? || HolderExists(s))
    && (forall i :: 0 <= i < |s.waiters| ==> (s.waiters[i].phase.HoldsLock() <==> s.holder == ByWaiter(i)))
    && (forall j :: 0 <= j < |s.signallers| ==> (s.signallers[j].HoldsLock() <==> s.holder == BySignaller(j)))
  }

  ghost function CountedIn(ws: seq<Waiter>): nat {
    if ws == [] then 0 else CountedIn(ws[1..]) + if ws[0].phase.Counted() then 1 else 0
  }

  ghost predicate CountOk(s: State) {
    s.numWaiters == CountedIn(s.waiters)
  }

  /** The condition waiter w waits for holds. */
  ghost predicate Satisfied(s: State, w: Waiter) {
    s.cursor >= w.sequence || (w.barrier < |s.alerted| && s.alerted[w.barrier])
  }

  ghost predicate Overlooked(s: State, w: Waiter) {
    || (w.phase.CheckingAlert? && s.cursor >= w.sequence)
    || ((w.phase.Parking? || w.phase.Parked?) && Satisfied(s, w))
  }

  ghost predicate SomePending(s: State) {
    exists j :: 0 <= j < |s.signallers| && s.signallers[j].Pending()
  }

  /** A waiter whose last look is out of date has a signaller on its way. */
  ghost predicate WakeOk(s: State) {
    forall i :: 0 <= i < |s.waiters| && Overlooked(s, s.waiters[i]) ==> SomePending(s)
  }

  ghost predicate Inv(s: State) {
    MutexOk(s) && CountOk(s) && WakeOk(s)
  }

  lemma {:induction false} CountUpdate(ws: seq<Waiter>, i: nat, w: Waiter)
    requires i < |ws|
    ensures CountedIn(ws[i := w]) ==
      CountedIn(ws) - (if ws[i].phase.Counted() then 1 else 0) + (if w.phase.Counted() then 1 else 0)
  {
    if i == 0 {
      assert ws[0 := w][1..] == ws[1..];
    } else {
      assert ws[i := w][1..] == ws[1..][i - 1 := w];
      CountUpdate(ws[1..], i - 1, w);
    }
  }

  lemma {:induction false} CountPulse(ws: seq<Waiter>)
    ensures CountedIn(PulseAll(ws)) == CountedIn(ws)
  {
    if ws != [] {
      CountPulse(ws[1..]);
      assert PulseAll(ws)[1..] == PulseAll(ws[1..]);
    }
  }

  lemma {:induction false} CountedIsPositive(ws: seq<Waiter>, i: nat)
    requires i < |ws| && ws[i].phase.Counted()
    ensures CountedIn(ws) >= 1
  {
    if i > 0 { CountedIsPositive(ws[1..], i - 1); }
  }

  lemma {:induction false} CountOutside(n: nat)
    ensures CountedIn(seq(n, _ => Waiter(0, 0, Outside))) == 0
  {
    if n > 0 {
      CountOutside(n - 1);
      assert seq(n, _ => Waiter(0, 0, Outside))[1..] == seq(n - 1, _ => Waiter(0, 0, Outside));
    }
  }

  /** One step of waiter i changes nobody else and no signaller, and it never makes the waiter
      overlook something it did not overlook before. */
  lemma WaitStepLocal(s: State, i: nat)
    requires i < |s.waiters|
    ensures var t := WaitStep(s, i);
      && t.signallers == s.signallers && t.cursor == s.cursor && t.alerted == s.alerted
      && t.waiters == s.waiters[i := t.waiters[i]]
      && (Overlooked(t, t.waiters[i]) ==> Overlooked(s, s.waiters[i]))
  {
  }

  lemma WaitKeepsCount(s: State, i: nat)
    requires CountOk(s) && i < |s.waiters|
    ensures CountOk(WaitStep(s, i))
  {
    WaitStepLocal(s, i);
    CountUpdate(s.waiters, i, WaitStep(s, i).waiters[i]);
  }

  lemma WaitKeepsInv(s: State, i: nat)
    requires Inv(s) && i < |s.waiters|
    ensures Inv(WaitStep(s, i))
  {
    var t := WaitStep(s, i);
    WaitStepLocal(s, i);
    WaitKeepsCount(s, i);
    assert SomePending(s) ==> SomePending(t);
    forall k | 0 <= k < |t.waiters| && Overlooked(t, t.waiters[k]) ensures SomePending(t) {
      assert Overlooked(s, s.waiters[k]);
    }
  }

  lemma SignalKeepsInv(s: State, j: nat)
    requires Inv(s) && j < |s.signallers|
    ensures Inv(SignalStep(s, j))
  {
    var t := SignalStep(s, j);
    CountPulse(s.waiters);
    if SomePending(s) && !t.signallers[j].Pending() {
      var p :| 0 <= p < |s.signallers| && s.signallers[p].Pending();
      if p != j { assert t.signallers[p].Pending(); }
    }
    forall k | 0 <= k < |t.waiters| && Overlooked(t, t.waiters[k]) ensures SomePending(t) {
      assert Overlooked(s, s.waiters[k]);
      CountedIsPositive(s.waiters, k);
      if s.signallers[j].Pending() && t.signallers[j].Pending() { assert SomePending(t); }
    }
  }

  lemma WriteKeepsInv(s: State, t: State, step: Step)
    requires Inv(s) && Takes(s, t, step) && !step.Wait? && !step.Signal?
    ensures Inv(t)
  {
    match step
    case Call(i, sequence, b) =>
      CountUpdate(s.waiters, i, t.waiters[i]);
      assert t.signallers == s.signallers;
      assert SomePending(s) ==> SomePending(t);
    case WriteCursor(j, value) => assert t.signallers[j].Pending();
    case WriteAlert(j, b) => assert t.signallers[j].Pending();
    case ClearAlert(b) =>
      assert t.signallers == s.signallers;
      assert SomePending(s) ==> SomePending(t);
      assert forall k :: 0 <= k < |t.waiters| && Overlooked(t, t.waiters[k]) ==> Overlooked(s, s.waiters[k]);
  }

  lemma {:induction false} RunInv(run: seq<State>)
    requires IsRun(run)
    ensures Inv(run[|run| - 1])
  {
    if |run| == 1 {
      CountOutside(|run[0].waiters|);
    } else {
      Shorter(run, |run| - 1);
      RunInv(run[..|run| - 1]);
      var s, t := run[|run| - 2], run[|run| - 1];
      assert StepAt(run, |run| - 1);
      var step :| Takes(s, t, step);
      if step.Wait? {
        WaitKeepsInv(s, step.i);
      } else if step.Signal? {
        SignalKeepsInv(s, step.j);
      } else {
        WriteKeepsInv(s, t, step);
      }
    }
  }

  // ---- No lost wake-up -----------------------------------------------------------------

  /** In every run: a parked waiter whose sequence is covered, or whose barrier is alerted, always has
      a signaller between its write and its PulseAll. */
  lemma NoLostWakeUp(run: seq<State>, i: nat)
    requires IsRun(run) && i < |run[|run| - 1].waiters|
    requires run[|run| - 1].waiters[i].phase.Parked? && Satisfied(run[|run| - 1], run[|run| - 1].waiters[i])
    ensures SomePending(run[|run| - 1])
  {
    RunInv(run);
    var s := run[|run| - 1];
    assert Overlooked(s, s.waiters[i]);
  }

  /** The holder of the lock has an effective step of its own. */
  ghost predicate HolderCanMove(s: State) {
    match s.holder
    case Free => false
    case ByWaiter(i) => i < |s.waiters| && WaitStep(s, i) != s
    case BySignaller(j) => j < |s.signallers| && SignalStep(s, j) != s
  }

  /** A pending signaller has an effective step, or the lock is what it waits for and the holder has one. */
  lemma WakeUpIsNotBlocked(run: seq<State>, j: nat)
    requires IsRun(run) && j < |run[|run| - 1].signallers| && run[|run| - 1].signallers[j].Pending()
    ensures var s := run[|run| - 1];
      SignalStep(s, j) != s || (s.signallers[j].WantsLock? && HolderCanMove(s))
  {
    RunInv(run);
    var s := run[|run| - 1];
    if s.signallers[j].WantsLock? && !s.holder.Free? {
      HolderMoves(s);
    } else {
      assert SignalStep(s, j).signallers[j] != s.signallers[j];
    }
  }

  lemma HolderMoves(s: State)
    requires MutexOk(s) && !s.holder.Free?
    ensures HolderCanMove(s)
  {
    match s.holder
    case ByWaiter(i) => assert WaitStep(s, i).waiters[i].phase != s.waiters[i].phase;
    case BySignaller(j) => assert SignalStep(s, j).signallers[j] != s.signallers[j];
  }

  ghost predicate HolderExists(s: State) {
    match s.holder
    case Free => false
    case ByWaiter(i) => i < |s.waiters|
    case BySignaller(j) => j < |s.signallers|
  }

  // ---- The lock is held briefly --------------------------------------------------------

  /** How many steps the holder still needs at most. */
  ghost function HoldRank(s: State): nat {
    match s.holder
    case Free => 0
    case ByWaiter(i) => if i < |s.waiters| then WaitRank(s.waiters[i].phase) else 0
    case BySignaller(j) => if j < |s.signallers| then SignalRank(s.signallers[j]) else 0
  }

  ghost function WaitRank(phase: WaitPhase): nat {
    match phase
    case Outside => 0
    case FirstRead => 8
    case Entering => 7
    case Counting => 6
    case Pulsed => 6
    case LoopRead => 5
    case CheckingAlert => 4
    case Leaving => 2
    case Parking => 2
    case Exiting => 1
    case Parked => 1
  }

  ghost function SignalRank(phase: SignalPhase): nat {
    match phase
    case Quiet => 0
    case Dirty => 4
    case WantsLock => 3
    case Pulsing => 2
    case Releasing => 1
  }

  /** Every step of the holder brings it nearer to releasing, six steps at most. */
  lemma HolderReleases(s: State)
    requires MutexOk(s) && !s.holder.Free?
    ensures 0 < HoldRank(s) <= 6
    ensures s.holder.ByWaiter? ==> s.holder.i < |s.waiters| && Nearer(s, WaitStep(s, s.holder.i))
    ensures s.holder.BySignaller? ==> s.holder.j < |s.signallers| && Nearer(s, SignalStep(s, s.holder.j))
  {
  }

  ghost predicate Nearer(s: State, t: State) {
    t.holder.Free? || (t.holder == s.holder && HoldRank(t) < HoldRank(s))
  }

  /** And nobody else's step, a new call or write included, changes how far the holder has got. */
  lemma OthersDoNotDelay(s: State, t: State, step: Step)
    requires MutexOk(s) && !s.holder.Free? && Takes(s, t, step)
    requires step.Wait? ==> s.holder != ByWaiter(step.i)
    requires step.Signal? ==> s.holder != BySignaller(step.j)
    ensures t.holder == s.holder && HoldRank(t) == HoldRank(s)
  {
  }

  // ---- Everybody is woken --------------------------------------------------------------

  ghost function WaitWork(ws: seq<Waiter>): nat {
    if ws == [] then 0 else WaitRank(ws[0].phase) + WaitWork(ws[1..])
  }

  ghost function SignalWork(js: seq<SignalPhase>): nat {
    if js == [] then 0 else SignalRank(js[0]) + SignalWork(js[1..])
  }

  lemma {:induction false} WaitWorkUpdate(ws: seq<Waiter>, i: nat, w: Waiter)
    requires i < |ws|
    ensures WaitWork(ws[i := w]) == WaitWork(ws) - WaitRank(ws[i].phase) + WaitRank(w.phase)
  {
    if i == 0 {
      assert ws[0 := w][1..] == ws[1..];
    } else {
      assert ws[i := w][1..] == ws[1..][i - 1 := w];
      WaitWorkUpdate(ws[1..], i - 1, w);
    }
  }

  lemma {:induction false} SignalWorkUpdate(js: seq<SignalPhase>, j: nat, phase: SignalPhase)
    requires j < |js|
    ensures SignalWork(js[j := phase]) == SignalWork(js) - SignalRank(js[j]) + SignalRank(phase)
  {
    if j == 0 {
      assert js[0 := phase][1..] == js[1..];
    } else {
      assert js[j := phase][1..] == js[1..][j - 1 := phase];
      SignalWorkUpdate(js[1..], j - 1, phase);
    }
  }

  /** Lexicographic: first the signallers, then the waiters. */
  ghost predicate LessWork(t: State, s: State) {
    || SignalWork(t.signallers) < SignalWork(s.signallers)
    || (SignalWork(t.signallers) == SignalWork(s.signallers) && WaitWork(t.waiters) < WaitWork(s.waiters))
  }

  /** Without new calls and new writes every effective step uses up work that nothing puts back, so
      every schedule comes to an end. */
  lemma StepsUseUpWork(s: State, t: State, step: Step)
    requires Takes(s, t, step) && (step.Wait? || step.Signal?) && t != s
    ensures LessWork(t, s)
  {
    if step.Wait? { WaitUsesUpWork(s, step.i); } else { SignalUsesUpWork(s, step.j); }
  }

  lemma WaitUsesUpWork(s: State, i: nat)
    requires i < |s.waiters| && WaitStep(s, i) != s
    ensures LessWork(WaitStep(s, i), s)
  {
    var t := WaitStep(s, i);
    WaitStepLocal(s, i);
    WaitWorkUpdate(s.waiters, i, t.waiters[i]);
  }

  lemma SignalUsesUpWork(s: State, j: nat)
    requires j < |s.signallers| && SignalStep(s, j) != s
    ensures LessWork(SignalStep(s, j), s)
  {
    var t := SignalStep(s, j);
    assert t.signallers == s.signallers[j := t.signallers[j]];
    SignalWorkUpdate(s.signallers, j, t.signallers[j]);
  }

  /** No thread inside WaitFor, Publish or Alert has an effective step. */
  ghost predicate Still(s: State) {
    && (forall i :: 0 <= i < |s.waiters| ==> WaitStep(s, i) == s)
    && (forall j :: 0 <= j < |s.signallers| ==> SignalStep(s, j) == s)
  }

  /** Where every schedule comes to an end nobody sleeps whose sequence is covered or whose barrier is
      alerted: each waiter has returned, or is parked and rightly so. */
  lemma StillMeansAwake(run: seq<State>, i: nat)
    requires IsRun(run) && Still(run[|run| - 1]) && i < |run[|run| - 1].waiters|
    ensures var s := run[|run| - 1];
      s.waiters[i].phase.Outside? || (s.waiters[i].phase.Parked? && !Satisfied(s, s.waiters[i]))
  {
    RunInv(run);
    var s := run[|run| - 1];
    if !s.holder.Free? { HolderMoves(s); }
    if SomePending(s) {
      var j :| 0 <= j < |s.signallers| && s.signallers[j].Pending();
      WakeUpIsNotBlocked(run, j);
    }
    StillWaiter(s, i);
    assert !Overlooked(s, s.waiters[i]);
  }

  lemma StillWaiter(s: State, i: nat)
    requires i < |s.waiters| && s.holder.Free? && WaitStep(s, i) == s
    ensures s.waiters[i].phase.Outside? || s.waiters[i].phase.Parked?
  {
    assert WaitStep(s, i).waiters[i].phase == s.waiters[i].phase;
  }
}
