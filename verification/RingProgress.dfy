/** The ring gets everywhere: what a call of Next, TryNext or Next(batch) comes to when the others leave it
    alone, and that the processors reach the cursor. */
module RingProgress {
  import opened Slots
  import opened RingPipeline
  import opened RingBase
  import opened RingInvariant
  import opened RingSchedules
  import P = PublishProtocol
  import G = ProcessorGraph

  // ---- Claims --------------------------------------------------------------------------

  /** k steps of producer i, and of nobody else. */
  ghost function Alone(c: Config, s: State, i: nat, k: nat): State
    requires Shape(c, s) && i < |s.producers|
    decreases k
  {
    if k == 0 then s else ProduceKeepsShape(c, s, i, 0); Alone(c, Produce(c, s, i, 0), i, k - 1)
  }

  lemma OneStepFirst(c: Config, s: State, i: nat, k: nat)
    requires Shape(c, s) && i < |s.producers| && k > 0
    ensures Shape(c, Produce(c, s, i, 0)) && i < |Produce(c, s, i, 0).producers|
    ensures Alone(c, s, i, k) == Alone(c, Produce(c, s, i, 0), i, k - 1)
  {
    ProduceKeepsShape(c, s, i, 0);
  }

  /** Where the gating sequences stand. */
  ghost function Gates(c: Config, s: State): (r: seq<int>)
    requires Shape(c, s)
    ensures |r| == |c.gates| && forall x :: 0 <= x < |r| ==> r[x] == s.consumers[c.gates[x]].sequence
  {
    G.Select(Sequences(s), c.gates)
  }

  /** An undisturbed scan that has read the first k gates. */
  ghost function ScanOf(values: seq<int>, k: nat): Scan
    requires k <= |values|
  {
    Scan(k, MinOf(values[..k]))
  }

  lemma ScanOneMore(values: seq<int>, k: nat)
    requires k < |values|
    ensures ScanOf(values, k).Read(values[k]) == ScanOf(values, k + 1)
  {
    assert values[..k + 1][..k] == values[..k];
  }

  /** The slowest gate lets a sequence in. */
  ghost predicate HasRoom(c: Config, s: State, sequence: int)
    requires Shape(c, s)
  {
    sequence - c.bufferSize <= MinOf(Gates(c, s))
  }

  /** A cached minimum promises no room that is not there. */
  lemma CacheIsBelow(c: Config, s: State, i: nat)
    requires BaseInv(c, s) && i < |s.cached| && s.cached[i] <= MAX_LONG
    ensures s.cached[i] <= MinOf(Gates(c, s))
  {
    assert Floor(s, s.cached[i]);
    var values := Gates(c, s);
    if MinOf(values) != MAX_LONG {
      var x :| 0 <= x < |values| && values[x] == MinOf(values);
    }
  }

  /** From s to t producer i has only looked around. */
  ghost predicate OnlyLooks(s: State, t: State, i: nat) {
    && i < |s.producers| && i < |s.cached| && |t.producers| == |s.producers| && |t.cached| == |s.cached|
    && t == s.(producers := s.producers[i := t.producers[i]], cached := s.cached[i := t.cached[i]])
  }

  function WithScan(p: Producer, scan: Scan): Producer
    requires p.CapacityScan? || p.TryScan? || p.FreeSlotScan?
  {
    match p
    case CapacityScan(wrap, _) => CapacityScan(wrap, scan)
    case TryScan(sequence, n, _) => TryScan(sequence, n, scan)
    case FreeSlotScan(hi, batch, _) => FreeSlotScan(hi, batch, scan)
  }

  /** Producer i has found out where the slowest gate stands. */
  ghost function Found(c: Config, s: State, i: nat): State
    requires Shape(c, s) && i < |s.producers|
    requires Scans(s.producers[i])
  {
    SetProducer(s, i, WithScan(s.producers[i], Scan(|c.gates|, MinOf(Gates(c, s)))))
  }

  /** A scan after each of its reads. */
  ghost predicate IsScanLine(scans: seq<Scan>, values: seq<int>) {
    |scans| == |values| + 1 && forall k :: 0 <= k < |values| ==> ReadAt(scans, values, k)
  }

  ghost predicate ReadAt(scans: seq<Scan>, values: seq<int>, k: nat)
    requires k < |values| == |scans| - 1
  {
    scans[k].index == k && scans[k + 1] == scans[k].Read(values[k])
  }

  ghost predicate Scans(p: Producer) { p.CapacityScan? || p.TryScan? || p.FreeSlotScan? }

  /** One read. */
  lemma ScanStep(c: Config, s: State, i: nat, scans: seq<Scan>, k: nat)
    requires Shape(c, s) && i < |s.producers| && Scans(s.producers[i]) && IsScanLine(scans, Gates(c, s))
    requires k < |c.gates| && s.producers[i].scan == scans[k]
    ensures var t := SetProducer(s, i, WithScan(s.producers[i], scans[k + 1]));
      Produce(c, s, i, 0) == t && Shape(c, t) && Gates(c, t) == Gates(c, s)
  {
    assert ReadAt(scans, Gates(c, s), k);
    ProduceKeepsShape(c, s, i, 0);
    SameGates(c, s, Produce(c, s, i, 0));
  }

  /** Left alone it makes one read after the other. */
  lemma {:induction false} ReadsAll(c: Config, s: State, i: nat, scans: seq<Scan>, k: nat)
    requires Shape(c, s) && i < |s.producers| && Scans(s.producers[i]) && IsScanLine(scans, Gates(c, s))
    requires k <= |c.gates| && s.producers[i].scan == scans[k]
    ensures Alone(c, s, i, |c.gates| - k) == SetProducer(s, i, WithScan(s.producers[i], scans[|c.gates|]))
    decreases |c.gates| - k
  {
    if k == |c.gates| {
      assert s.producers[i := s.producers[i]] == s.producers;
    } else {
      var t := SetProducer(s, i, WithScan(s.producers[i], scans[k + 1]));
      ScanStep(c, s, i, scans, k);
      ReadsAll(c, t, i, scans, k + 1);
      SetTwice(s, i, t.producers[i], WithScan(s.producers[i], scans[|c.gates|]));
    }
  }

  lemma SetTwice(s: State, i: nat, p: Producer, q: Producer)
    requires i < |s.producers|
    ensures SetProducer(SetProducer(s, i, p), i, q) == SetProducer(s, i, q)
  {
    assert s.producers[i := p][i := q] == s.producers[i := q];
  }

  /** An undisturbed scan of these values: after k reads it knows the least of the first k. */
  ghost function ScanLine(values: seq<int>): (scans: seq<Scan>)
    ensures |scans| == |values| + 1 && scans[0] == FRESH_SCAN && scans[|values|] == Scan(|values|, MinOf(values))
    ensures forall k :: 0 <= k <= |values| ==> scans[k] == ScanOf(values, k)
  {
    assert values[..0] == [] && values[..|values|] == values;
    seq(|values| + 1, k requires 0 <= k <= |values| => ScanOf(values, k))
  }

  lemma ScanLineReads(values: seq<int>)
    ensures IsScanLine(ScanLine(values), values)
  {
    forall k | 0 <= k < |values| ensures ReadAt(ScanLine(values), values, k) { ScanOneMore(values, k); }
  }

  lemma SameGates(c: Config, s: State, t: State)
    requires Shape(c, s) && Shape(c, t) && t.consumers == s.consumers
    ensures Gates(c, t) == Gates(c, s)
  {
  }

  lemma OneStepMore(c: Config, s: State, i: nat, k: nat)
    requires Shape(c, s) && i < |s.producers|
    ensures Shape(c, Alone(c, s, i, k)) && i < |Alone(c, s, i, k).producers|
    ensures Alone(c, s, i, k + 1) == Produce(c, Alone(c, s, i, k), i, 0)
    decreases k
  {
    if k > 0 {
      ProduceKeepsShape(c, s, i, 0);
      OneStepMore(c, Produce(c, s, i, 0), i, k - 1);
    }
  }

  /** A fresh scan and the step behind it. */
  lemma ScanAndDecide(c: Config, s: State, i: nat)
    requires Shape(c, s) && i < |s.producers|
    requires Scans(s.producers[i])
    requires s.producers[i].scan == FRESH_SCAN
    ensures Shape(c, Found(c, s, i)) && Alone(c, s, i, |c.gates| + 1) == Produce(c, Found(c, s, i), i, 0)
  {
    var scans := ScanLine(Gates(c, s));
    ScanLineReads(Gates(c, s));
    ReadsAll(c, s, i, scans, 0);
    OneStepMore(c, s, i, |c.gates|);
  }

  /** Between s and t producer i has claimed `size` sequences and is about to fill them. Its cached minimum
      lets them in. */
  ghost predicate HasClaimed(c: Config, s: State, t: State, i: nat, size: int) {
    && i < |s.producers| && i < |t.producers| && i < |s.publish.publishers| && i < |t.cached|
    && s.publish.claim + size - c.bufferSize <= t.cached[i]
    && t.ring == s.ring && t.events == s.events && t.consumers == s.consumers
    && t.publish == P.Claim(s.publish, i, size)
    && t.producers[i] == Filling(s.publish.claim + size, size, s.publish.claim + 1)
  }

  /** Between s and t producer i has claimed nothing. */
  ghost predicate HasNotClaimed(s: State, t: State, i: nat) {
    && i < |t.producers| && t.ring == s.ring && t.events == s.events && t.consumers == s.consumers
    && t.publish == s.publish && !t.producers[i].Filling? && !t.producers[i].Publishing?
  }

  // ---- TryNext -------------------------------------------------------------------------

  lemma TryDecides(c: Config, s: State, i: nat, n: int)
    requires Shape(c, s) && i < |s.producers| && s.producers[i] == TryScan(s.publish.claim, n, FRESH_SCAN)
    ensures var t := Produce(c, Found(c, s, i), i, 0);
      && t.publish == s.publish && t.ring == s.ring && t.events == s.events && t.consumers == s.consumers
      && i < |t.producers| && i < |t.cached| && t.cached[i] == MinOf(Gates(c, s))
      && t.producers[i] == if HasRoom(c, s, s.publish.claim + n) then TryClaim(s.publish.claim, n) else Resting
  {
  }

  lemma TryClaimTakes(c: Config, s: State, i: nat, n: int)
    requires Shape(c, s) && i < |s.producers| && s.producers[i] == TryClaim(s.publish.claim, n)
    requires s.publish.claim + 1 - c.bufferSize <= s.cached[i]
    ensures HasClaimed(c, s, Produce(c, s, i, 0), i, 1)
  {
  }

  /** With a scan: n is beyond what the cached minimum promises. */
  lemma TryNextScans(c: Config, s: State, i: nat, n: int) returns (k: nat)
    requires Shape(c, s) && i < |s.producers| && s.producers[i] == TryScan(s.publish.claim, n, FRESH_SCAN) && n >= 1
    ensures var t := Alone(c, s, i, k); HasRoom(c, s, s.publish.claim + n) ==> HasClaimed(c, s, t, i, 1)
    ensures var t := Alone(c, s, i, k);
      !HasRoom(c, s, s.publish.claim + n) ==> HasNotClaimed(s, t, i) && t.producers[i] == Resting
  {
    ScanAndDecide(c, s, i);
    TryDecides(c, s, i, n);
    k := |c.gates| + 1;
    if HasRoom(c, s, s.publish.claim + n) {
      var t := Alone(c, s, i, k);
      OneStepMore(c, s, i, k);
      TryClaimTakes(c, t, i, n);
      k := k + 1;
    }
  }

  /** What thread i comes to, left alone after k steps of its own, when it tries to claim with room for n. */
  ghost predicate ComesTo(c: Config, s: State, t: State, i: nat, n: int)
    requires Shape(c, s)
  {
    if HasRoom(c, s, s.publish.claim + n) then HasClaimed(c, s, t, i, 1)
    else HasNotClaimed(s, t, i) && t.producers[i] == Resting
  }

  lemma TryLooks(c: Config, s: State, i: nat, n: int)
    requires BaseInv(c, s) && i < |s.producers| && s.cached[i] <= MAX_LONG
    ensures var t := TryAgain(c, s, i, n);
      && Shape(c, t) && t.publish == s.publish && t.ring == s.ring && t.events == s.events && t.consumers == s.consumers
      && i < |t.producers| && Gates(c, t) == Gates(c, s)
      && (t.producers[i] == TryScan(s.publish.claim, n, FRESH_SCAN)
          || (t.producers[i] == TryClaim(s.publish.claim, n) && HasRoom(c, s, s.publish.claim + n)
              && s.publish.claim + n - c.bufferSize <= t.cached[i]))
  {
    CacheIsBelow(c, s, i);
    SameGates(c, s, TryAgain(c, s, i, n));
  }

  lemma TryAgainAlone(c: Config, s: State, i: nat, n: int) returns (k: nat)
    requires BaseInv(c, s) && i < |s.producers| && s.cached[i] <= MAX_LONG && n >= 1
    ensures Shape(c, TryAgain(c, s, i, n)) && i < |TryAgain(c, s, i, n).producers|
    ensures ComesTo(c, s, Alone(c, TryAgain(c, s, i, n), i, k), i, n)
  {
    var begun := TryAgain(c, s, i, n);
    TryLooks(c, s, i, n);
    if begun.producers[i].TryScan? {
      k := TryNextScans(c, begun, i, n);
    } else {
      OneStepMore(c, begun, i, 0);
      TryClaimTakes(c, begun, i, n);
      k := 1;
    }
  }

  /** TryNext(n), left alone: it claims one sequence if the slowest gate leaves room for n, and otherwise
      returns without a claim. */
  lemma TryNextAlone(c: Config, s: State, i: nat, n: int) returns (k: nat)
    requires BaseInv(c, s) && i < |s.producers| && s.producers[i].Resting? && s.cached[i] <= MAX_LONG && n >= 1
    ensures Shape(c, Begin(c, s, i, TryNext(n))) && i < |Begin(c, s, i, TryNext(n)).producers|
    ensures ComesTo(c, s, Alone(c, Begin(c, s, i, TryNext(n)), i, k), i, n)
  {
    assert Begin(c, s, i, TryNext(n)) == TryAgain(c, s, i, n);
    k := TryAgainAlone(c, s, i, n);
  }

  /** A compare-and-set that somebody else has beaten: the thread tries again with the present claim sequence,
      and comes to what a new call would come to. */
  lemma LostClaimTriesAgain(c: Config, s: State, i: nat, sequence: int, n: int) returns (k: nat)
    requires BaseInv(c, s) && i < |s.producers| && s.cached[i] <= MAX_LONG && n >= 1
    requires s.producers[i] == TryClaim(sequence, n) && s.publish.claim != sequence
    ensures ComesTo(c, s, Alone(c, s, i, k), i, n)
  {
    assert Produce(c, s, i, 0) == TryAgain(c, s, i, n);
    k := TryAgainAlone(c, s, i, n);
    OneStepFirst(c, s, i, k + 1);
    k := k + 1;
  }

  // ---- Next ----------------------------------------------------------------------------

  lemma CapacityDecides(c: Config, s: State, i: nat, wrap: int)
    requires Shape(c, s) && i < |s.producers| && s.producers[i] == CapacityScan(wrap, FRESH_SCAN)
    requires wrap <= MinOf(Gates(c, s))
    ensures var t := Produce(c, Found(c, s, i), i, 0);
      && Shape(c, t) && t.publish == s.publish && t.ring == s.ring && t.events == s.events && t.consumers == s.consumers
      && i < |t.producers| && t.producers[i] == ReadyToClaim && t.cached[i] == MinOf(Gates(c, s))
  {
    ProduceKeepsShape(c, Found(c, s, i), i, 0);
  }

  lemma ReadyTakes(c: Config, s: State, i: nat)
    requires Shape(c, s) && i < |s.producers| && s.producers[i] == ReadyToClaim
    requires s.publish.claim + 1 - c.bufferSize <= s.cached[i]
    ensures HasClaimed(c, s, Produce(c, s, i, 0), i, 1)
  {
  }

  /** Next(), left alone: where the slowest gate leaves room it claims the next sequence. */
  lemma NextAlone(c: Config, s: State, i: nat) returns (k: nat)
    requires Shape(c, s) && i < |s.producers| && s.producers[i].Resting? && HasRoom(c, s, s.publish.claim + 1)
    ensures Shape(c, Begin(c, s, i, NextOne)) && i < |Begin(c, s, i, NextOne).producers|
    ensures HasClaimed(c, s, Alone(c, Begin(c, s, i, NextOne), i, k), i, 1)
  {
    var begun := Begin(c, s, i, NextOne);
    SameGates(c, s, begun);
    if begun.producers[i].CapacityScan? {
      ScanAndDecide(c, begun, i);
      CapacityDecides(c, begun, i, s.publish.claim + 1 - c.bufferSize);
      OneStepMore(c, begun, i, |c.gates| + 1);
      ReadyTakes(c, Alone(c, begun, i, |c.gates| + 1), i);
      k := |c.gates| + 2;
    } else {
      OneStepMore(c, begun, i, 0);
      ReadyTakes(c, begun, i);
      k := 1;
    }
  }

  // ---- Next(batch) ---------------------------------------------------------------------

  lemma FreeSlotDecides(c: Config, s: State, i: nat, hi: int, batch: int)
    requires Shape(c, s) && i < |s.producers| && s.producers[i] == FreeSlotScan(hi, batch, FRESH_SCAN)
    requires HasRoom(c, s, hi)
    ensures var t := Produce(c, Found(c, s, i), i, 0);
      && t.publish == s.publish && t.ring == s.ring && t.events == s.events && t.consumers == s.consumers
      && i < |t.producers| && t.producers[i] == Filling(hi, batch, hi - batch + 1)
      && i < |t.cached| && hi - c.bufferSize <= t.cached[i]
  {
  }

  /** Next(batch) claims at once, and left alone it gets its slots where the slowest gate leaves room. */
  lemma NextBatchAlone(c: Config, s: State, i: nat, size: nat) returns (k: nat)
    requires Shape(c, s) && i < |s.producers| && s.producers[i].Resting?
    requires HasRoom(c, s, s.publish.claim + size)
    ensures Shape(c, Begin(c, s, i, NextBatch(size))) && i < |Begin(c, s, i, NextBatch(size)).producers|
    ensures Begin(c, s, i, NextBatch(size)).publish == P.Claim(s.publish, i, size)
    ensures HasClaimed(c, s, Alone(c, Begin(c, s, i, NextBatch(size)), i, k), i, size)
  {
    var begun := Begin(c, s, i, NextBatch(size));
    SameGates(c, s, begun);
    k := 0;
    if begun.producers[i].FreeSlotScan? {
      ScanAndDecide(c, begun, i);
      FreeSlotDecides(c, begun, i, s.publish.claim + size, size);
      k := |c.gates| + 1;
    }
  }

  // ---- Without room --------------------------------------------------------------------

  /** Producer i is looking for room that is not there; it has read `index` gates. */
  ghost predicate LooksInVain(c: Config, s: State, i: nat, scans: seq<Scan>, index: nat) {
    && Shape(c, s) && i < |s.producers| && index <= |c.gates|
    && (s.producers[i].CapacityScan? || s.producers[i].FreeSlotScan?)
    && IsScanLine(scans, Gates(c, s)) && s.producers[i].scan == scans[index]
    && scans[0] == FRESH_SCAN && scans[|c.gates|] == Scan(|c.gates|, MinOf(Gates(c, s)))
    && (if s.producers[i].CapacityScan? then s.producers[i].wrapPoint > MinOf(Gates(c, s))
        else !HasRoom(c, s, s.producers[i].hi))
  }

  lemma LooksAgain(c: Config, s: State, i: nat, scans: seq<Scan>, index: nat)
    requires LooksInVain(c, s, i, scans, index)
    ensures var t := Produce(c, s, i, 0);
      && LooksInVain(c, t, i, scans, if index < |c.gates| then index + 1 else 0)
      && t.ring == s.ring && t.events == s.events && t.consumers == s.consumers && t.publish == s.publish
  {
    if index < |c.gates| {
      ScanStep(c, s, i, scans, index);
    } else {
      StartsOver(c, s, i, scans);
    }
  }

  lemma StartsOver(c: Config, s: State, i: nat, scans: seq<Scan>)
    requires LooksInVain(c, s, i, scans, |c.gates|)
    ensures LooksInVain(c, Produce(c, s, i, 0), i, scans, 0)
  {
    ProduceKeepsShape(c, s, i, 0);
    SameGates(c, s, Produce(c, s, i, 0));
  }

  lemma NotClaimedTwice(s: State, t: State, u: State, i: nat)
    requires t.ring == s.ring && t.events == s.events && t.consumers == s.consumers && t.publish == s.publish
    requires HasNotClaimed(t, u, i)
    ensures HasNotClaimed(s, u, i)
  {
  }

  /** A scan for room that is not there never ends. */
  lemma {:induction false} LooksOn(c: Config, s: State, i: nat, scans: seq<Scan>, index: nat, k: nat)
    requires LooksInVain(c, s, i, scans, index)
    ensures HasNotClaimed(s, Alone(c, s, i, k), i)
    decreases k
  {
    if k == 0 {
      assert HasNotClaimed(s, s, i);
    } else {
      var t := Produce(c, s, i, 0);
      LooksAgain(c, s, i, scans, index);
      OneStepFirst(c, s, i, k);
      LooksOn(c, t, i, scans, if index < |c.gates| then index + 1 else 0, k - 1);
      NotClaimedTwice(s, t, Alone(c, t, i, k - 1), i);
    }
  }

  /** Next(), left alone without room: it claims nothing, however long. */
  lemma NextWaits(c: Config, s: State, i: nat, k: nat)
    requires BaseInv(c, s) && i < |s.producers| && s.producers[i].Resting? && s.cached[i] <= MAX_LONG
    requires !HasRoom(c, s, s.publish.claim + 1)
    ensures Shape(c, Begin(c, s, i, NextOne)) && i < |Begin(c, s, i, NextOne).producers|
    ensures HasNotClaimed(s, Alone(c, Begin(c, s, i, NextOne), i, k), i)
  {
    var begun := Begin(c, s, i, NextOne);
    CacheIsBelow(c, s, i);
    SameGates(c, s, begun);
    ScanLineReads(Gates(c, begun));
    LooksOn(c, begun, i, ScanLine(Gates(c, begun)), 0, k);
  }

  /** Next(batch), left alone without room: it does not get its slots, however long. */
  lemma NextBatchWaits(c: Config, s: State, i: nat, size: nat, k: nat)
    requires BaseInv(c, s) && i < |s.producers| && s.producers[i].Resting? && s.cached[i] <= MAX_LONG
    requires !HasRoom(c, s, s.publish.claim + size)
    ensures Shape(c, Begin(c, s, i, NextBatch(size))) && i < |Begin(c, s, i, NextBatch(size)).producers|
    ensures HasNotClaimed(Begin(c, s, i, NextBatch(size)), Alone(c, Begin(c, s, i, NextBatch(size)), i, k), i)
  {
    var begun := Begin(c, s, i, NextBatch(size));
    CacheIsBelow(c, s, i);
    SameGates(c, s, begun);
    ScanLineReads(Gates(c, begun));
    LooksOn(c, begun, i, ScanLine(Gates(c, begun)), 0, k);
  }
}
