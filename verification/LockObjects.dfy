/** EfDistributedLockService.cs and EfDistributedLock.cs as objects, each call undisturbed. What
    concurrent calls do is the subject of DistributedLock, whose steps these methods take in a row. */
module LockObjects {
  import opened Common
  import opened DistributedLock

  /** The lock's row in the database. Saving compares the token that was read. */
  class LockTable {
    var row: Option<Record>
    /** Source of fresh ids: each one differs from every earlier one. */
    var nextId: int

    constructor ()
      ensures Valid() && row.None?
    {
      row, nextId := None, 0;
    }

    ghost predicate Valid()
      reads this
    {
      row.Some? ==> row.value.lockId < nextId
    }

    method NewId() returns (id: int)
      requires Valid()
      modifies this`nextId
      ensures Valid() && id == old(nextId) < nextId
    {
      id := nextId;
      nextId := nextId + 1;
    }

    /** SaveChanges: inserts when nothing was read, otherwise updates only under the token read. */
    method Save(seen: Option<Record>, now: Record) returns (updated: bool)
      requires Valid() && now.lockId < nextId
      modifies this`row
      ensures Valid()
      ensures updated <==> (if seen.None? then old(row).None?
                            else old(row).Some? && old(row).value.lockId == seen.value.lockId)
      ensures row == if updated then Some(now) else old(row)
    {
      updated := if seen.None? then row.None? else row.Some? && row.value.lockId == seen.value.lockId;
      if updated { row := Some(now); }
    }
  }

  class EfDistributedLock {
    const table: LockTable
    const expiry: int
    var lockId: int
    var expirationTime: int
    var isAcquired: bool
    var disposed: bool

    constructor (table: LockTable, record: EfDistributedLockRecord, expiry: int, now: int)
      ensures this.table == table && this.expiry == expiry && !disposed
      ensures lockId == record.lockId && expirationTime == record.lockDateTime
      ensures isAcquired <==> Held(record.Value(), now)
    {
      var held := record.IsAcquired(now);
      this.table, this.expiry, disposed := table, expiry, false;
      lockId, expirationTime, isAcquired := record.lockId, record.lockDateTime, held;
    }

    /** The object and the row agree that the lease is this object's. */
    ghost predicate Owns()
      reads this, table
    {
      table.row == Some(Record(lockId, expirationTime))
    }

    /** One tick of the timer. The lease is prolonged exactly when the row still carries this object's
        id; otherwise the object disposes itself and the row is left as it is. */
    method ExtendLock(now: int)
      requires table.Valid()
      modifies this, table
      ensures table.Valid() && table.nextId >= old(table.nextId)
      ensures var mine := old(table.row.Some? && table.row.value.lockId == lockId);
        && (mine ==> Owns() && lockId != old(lockId) && expirationTime == now + expiry && disposed == old(disposed))
        && (mine ==> (isAcquired <==> expiry > 0))
        && (!mine ==> table.row == old(table.row) && disposed && lockId == old(lockId))
    {
      var found := table.row;
      if found.Some? && found.value.lockId == lockId {
        var id := table.NewId();
        var record := new EfDistributedLockRecord.Loaded(found.value);
        record.Acquire(now, expiry, id);
        var updated := table.Save(found, record.Value());
        if updated {
          lockId, expirationTime := record.lockId, record.lockDateTime;
          isAcquired := record.IsAcquired(now);
          return;
        }
      }
      Dispose(now);
    }

    /** Disposing frees the lease from now on, under a fresh id, exactly when the row still carries this
        object's id and is held; a foreign row is left as it is. */
    method Dispose(now: int)
      requires table.Valid()
      modifies this, table
      ensures disposed && table.Valid() && table.nextId >= old(table.nextId)
      ensures lockId == old(lockId) && expirationTime == old(expirationTime)
      ensures var releases := old(!disposed && isAcquired && table.row.Some? && table.row.value.lockId == lockId
                                  && Held(table.row.value, now));
        table.row == if releases then Some(Record(old(table.nextId), now)) else old(table.row)
      ensures old(disposed) || !isAcquired
    {
      if disposed { return; }
      if isAcquired {
        TryReleaseLock(now);
        isAcquired := false;
      }
      disposed := true;
    }

    method TryReleaseLock(now: int)
      requires table.Valid()
      modifies table
      ensures table.Valid() && table.nextId >= old(table.nextId)
      ensures table.row ==
        if old(table.row.Some? && table.row.value.lockId == lockId && Held(table.row.value, now))
        then Some(Record(old(table.nextId), now)) else old(table.row)
    {
      var found := table.row;
      if found.Some? && found.value.lockId == lockId {
        var record := new EfDistributedLockRecord.Loaded(found.value);
        var held := record.IsAcquired(now);
        if held {
          var id := table.NewId();
          record.Release(now, id);
          var updated := table.Save(found, record.Value());
          assert updated;
        }
      }
    }
  }

  class EfDistributedLockService {
    const table: LockTable

    constructor (table: LockTable)
      ensures this.table == table
    {
      this.table := table;
    }

    /** A lock object comes out exactly when there was no row or its lease had run out; the row is then
        this object's, under an id never used before. */
    method TryAquireLock(expiry: int, now: int) returns (lock: EfDistributedLock?)
      requires table.Valid()
      modifies table
      ensures table.Valid()
      ensures lock != null <==> old(table.row).None? || !Held(old(table.row).value, now)
      ensures lock != null ==>
        && fresh(lock) && lock.table == table && lock.expiry == expiry && !lock.disposed
        && lock.Owns() && lock.lockId >= old(table.nextId) && lock.expirationTime == now + expiry
        && (lock.isAcquired <==> expiry > 0)
      ensures lock == null ==> table.row == old(table.row)
    {
      var seen := table.row;
      var first := table.NewId();
      var record := new EfDistributedLockRecord(now, expiry, first);
      if seen.Some? {
        record := new EfDistributedLockRecord.Loaded(seen.value);
        var held := record.IsAcquired(now);
        if held { return null; }
      }
      var id := table.NewId();
      record.Acquire(now, expiry, id);
      var updated := table.Save(seen, record.Value());
      if !updated { return null; }
      lock := new EfDistributedLock(table, record, expiry, now);
    }
  }

  /** The same call as steps of the machine: a client that nobody disturbs comes out with a live lock
      object exactly when there was no row or its lease had run out. */
  lemma UndisturbedClient(s: State, i: nat)
    requires i < |s.agents| && s.agents[i].phase.Calling? && !s.agents[i].disposing && s.agents[i].expiry > 0
    ensures var t := ClientStep(ClientStep(ClientStep(ClientStep(s, i), i), i), i);
      && (Live(t, i) <==> s.row.None? || !Held(s.row.value, s.now))
      && (Live(t, i) ==> t.row == Some(Record(t.agents[i].lockId, s.now + s.agents[i].expiry)))
      && (!Live(t, i) ==> t.row == s.row)
  {
    var s1 := ClientStep(s, i);
    assert s1.agents[i].phase == Loaded(s.row) && s1.row == s.row && s1.now == s.now;
    var s2 := ClientStep(s1, i);
    if s.row.None? {
      assert s2.agents[i].phase == Inserting(s.now + s.agents[i].expiry);
    } else if Held(s.row.value, s.now) {
      assert s2.agents[i].phase == Refused && ClientStep(s2, i) == s2;
    } else {
      assert s2.agents[i].phase == Updating(s.row.value.lockId, s.now + s.agents[i].expiry) && s2.row == s.row;
    }
  }
}
