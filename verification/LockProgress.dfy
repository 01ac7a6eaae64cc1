/** The steps of the lock's machine taken without interference: acquiring, prolonging, disposing, and that
    a lease left alone comes free. EfDistributedLockService.cs and EfDistributedLock.cs. */
module LockProgress {
  import opened Common
  import opened DistributedLock

  /** k steps of agent i inside TryAquireLock or an extension. */
  ghost function Clients(s: State, i: nat, k: nat): State
    decreases k
  {
    if k == 0 then s else Clients(Apply(s, Client(i)), i, k - 1)
  }

  ghost predicate SameOthers(s: State, t: State, i: nat) {
    && |t.agents| == |s.agents| && t.now == s.now
    && forall j :: 0 <= j < |s.agents| && j != i ==> t.agents[j] == s.agents[j]
  }

  /** A new client: in five steps it has a live lock object, under a fresh id that is the row's, exactly if there
      was no row or its lease had run out; otherwise it is refused and the row is what it was. */
  lemma NewClient(s: State, expiry: int)
    requires expiry > 0
    ensures var i := |s.agents|; var t := Clients(Apply(s, Arrive(expiry)), i, 4);
      && |t.agents| == i + 1 && t.agents[..i] == s.agents && t.now == s.now
      && if s.row.None? || !Held(s.row.value, s.now)
         then Live(t, i) && t.row == Some(Record(s.nextId, s.now + expiry)) && t.nextId == s.nextId + 1
           && t.agents[i] == Agent(expiry, Idle, s.nextId, s.now + expiry, false, NoRelease)
         else t.agents[i].phase.Refused? && t.row == s.row && !Live(t, i)
  {
    var i := |s.agents|;
    var s0 := Apply(s, Arrive(expiry));
    var s1 := Apply(s0, Client(i));
    assert s1.agents[i].phase == Loaded(s.row);
    var s2 := Apply(s1, Client(i));
    var s3 := Apply(s2, Client(i));
    var s4 := Apply(s3, Client(i));
    UnrollFour(s0, i);
    if s.row.Some? && Held(s.row.value, s.now) {
      assert s2.agents[i].phase == Refused && s3 == s2 && s4 == s2;
    } else {
      assert s3.agents[i].phase == Won(s.nextId, s.now + expiry);
    }
    assert s4.agents[..i] == s.agents;
  }

  lemma Unroll(s: State, i: nat, k: nat)
    requires k > 0
    ensures Clients(s, i, k) == Clients(Apply(s, Client(i)), i, k - 1)
  {
  }

  lemma UnrollThree(s: State, i: nat)
    ensures Clients(s, i, 3) == Apply(Apply(Apply(s, Client(i)), Client(i)), Client(i))
  {
    var s1 := Apply(s, Client(i));
    var s2 := Apply(s1, Client(i));
    Unroll(s, i, 3); Unroll(s1, i, 2); Unroll(s2, i, 1);
  }

  lemma UnrollFour(s: State, i: nat)
    ensures Clients(s, i, 4) == Apply(Apply(Apply(Apply(s, Client(i)), Client(i)), Client(i)), Client(i))
  {
    Unroll(s, i, 4);
    UnrollThree(Apply(s, Client(i)), i);
  }

  /** A timer tick: the lease is prolonged under a fresh id exactly if the row still carries this object's id;
      otherwise the object begins to dispose itself and the row stays. */
  lemma Prolongation(s: State, i: nat)
    requires i < |s.agents| && s.agents[i].phase.Idle?
    ensures var a := s.agents[i]; var t := Clients(Apply(s, BeginExtend(i)), i, 3);
      && SameOthers(s, t, i)
      && if TokenMatches(s, a.lockId)
         then t.row == Some(Record(s.nextId, s.now + a.expiry)) && t.nextId == s.nextId + 1
           && t.agents[i] == a.(lockId := s.nextId, expirationTime := s.now + a.expiry)
         else t.row == s.row && t.agents[i] == a.(disposing := true)
  {
    var a := s.agents[i];
    var s0 := Apply(s, BeginExtend(i));
    UnrollThree(s0, i);
    if TokenMatches(s, a.lockId) {
      var s1 := Apply(s0, Client(i));
      assert s1.agents[i].phase == Prepared(a.lockId, s.now + a.expiry);
      var s2 := Apply(s1, Client(i));
      assert s2.agents[i].phase == Extended(s.nextId, s.now + a.expiry);
    } else {
      assert Apply(s0, Client(i)) == s0;
    }
  }

  /** An extension that somebody else has overtaken: the save is refused, and the object begins to dispose
      itself. */
  lemma OvertakenProlongation(s: State, i: nat)
    requires i < |s.agents| && s.agents[i].phase.Prepared? && !TokenMatches(s, s.agents[i].phase.token)
    ensures var a := s.agents[i]; var t := Apply(s, Client(i));
      SameOthers(s, t, i) && t.row == s.row && t.agents[i] == a.(phase := Idle, disposing := true) && !Live(t, i)
  {
  }

  /** Disposing a lock object: the lease is freed from now on, under a fresh id, exactly if the row still carries
      this object's id and is held; a foreign row stays. */
  lemma Disposal(s: State, i: nat)
    requires i < |s.agents| && s.agents[i].IsLock() && s.agents[i].release.NoRelease?
    ensures var a := s.agents[i];
      var t := Apply(Apply(Apply(Apply(s, BeginDispose(i)), TryRelease(i)), TryRelease(i)), TryRelease(i));
      && SameOthers(s, t, i) && t.agents[i].disposing && !Live(t, i) && t.agents[i].phase == a.phase
      && if TokenMatches(s, a.lockId) && Held(s.row.value, s.now)
         then t.row == Some(Record(s.nextId, s.now)) && !Held(t.row.value, t.now) && t.nextId == s.nextId + 1
         else t.row == s.row
  {
    var a := s.agents[i];
    var s0 := Apply(s, BeginDispose(i));
    assert s0.agents[i] == a.(disposing := true) && s0.row == s.row;
    var s1 := Apply(s0, TryRelease(i));
    if TokenMatches(s, a.lockId) {
      assert s1.agents[i].release == ReleaseFound(s.row.value);
      var s2 := Apply(s1, TryRelease(i));
      if Held(s.row.value, s.now) {
        assert s2.agents[i].release == ReleasePrepared(a.lockId, s.now);
      } else {
        assert s2.agents[i].release == NoRelease;
      }
    } else {
      assert s1 == s0;
    }
  }

  /** An exception during an extension disposes the lock object, during TryAquireLock it ends the call; in both
      cases, and for a lock object between extensions, the row stays. */
  lemma Failure(s: State, i: nat)
    requires i < |s.agents|
    ensures var a := s.agents[i]; var t := Apply(s, Crash(i));
      && SameOthers(s, t, i) && t.row == s.row
      && (a.phase.Found? || a.phase.Prepared? ==> t.agents[i].phase.Idle? && t.agents[i].disposing)
      && (!a.Leases() ==> t.agents[i].phase.Refused?)
      && (a.phase.Idle? || a.phase.Won? || a.phase.Extended? ==> t == s)
      && t.agents[i].lockId == a.lockId && t.agents[i].expirationTime == a.expirationTime
  {
  }

  /** A lease that nobody prolongs comes free: once its time has run out a new client gets the lock. */
  lemma LeaseRunsOut(s: State, expiry: int)
    requires expiry > 0 && s.row.Some? && Held(s.row.value, s.now)
    ensures var wait := s.row.value.lockDateTime - s.now;
      && (forall elapsed: nat :: elapsed < wait ==> Held(s.row.value, Apply(s, Tick(elapsed)).now))
      && Live(Clients(Apply(Apply(s, Tick(wait)), Arrive(expiry)), |s.agents|, 4), |s.agents|)
  {
    var later := Apply(s, Tick(s.row.value.lockDateTime - s.now));
    assert later.agents == s.agents && !Held(later.row.value, later.now);
    NewClient(later, expiry);
  }
}
