/** The retrying queue with its dead-letter table: EfQueueRepository.cs with the atomic fetch of
    SqlServerEfQueueRepository.cs, and QueuesFaultManager.cs. */
module Queues {
  import opened Common

  type Payload = int

  datatype Row = Row(queue: string, payload: Payload, createdAt: int, retryCount: int, maxRetries: int,
                     timeoutAt: Option<int>, fetched: bool)

  /** What GetTimeoutedItems hands out: a detached copy of the row. */
  datatype Item = Item(id: int, row: Row)

  /** The queue table and the dead-letter table (item and its RetryCount when it died). */
  datatype Db = Db(rows: map<int, Row>, dead: seq<Item>)

  predicate TimedOut(r: Row, now: int) { r.fetched && r.timeoutAt.Some? && r.timeoutAt.value < now }

  /** The row SqlServerEfQueueRepository's statement picks: the oldest queued one. */
  predicate Oldest(rows: map<int, Row>, queue: string, id: int) {
    && id in rows && rows[id].queue == queue && !rows[id].fetched
    && forall k :: k in rows && rows[k].queue == queue && !rows[k].fetched ==> rows[id].createdAt <= rows[k].createdAt
  }

  predicate Queued(rows: map<int, Row>, queue: string, id: int) {
    id in rows && rows[id].queue == queue && !rows[id].fetched
  }

  function NewRow(queue: string, payload: Payload, maxRetries: int, now: int): Row {
    Row(queue, payload, now, 0, maxRetries, None, false)
  }

  function Fetched(r: Row, timeoutAt: int): Row { r.(fetched := true, timeoutAt := Some(timeoutAt)) }

  /** RequeueItem overwrites the row from the copy, whatever its status; a missing row throws. */
  function Requeue(db: Db, item: Item, retryCount: int): Option<Db> {
    if item.id !in db.rows then None
    else Some(db.(rows := db.rows[item.id := db.rows[item.id].(
           createdAt := item.row.createdAt, payload := item.row.payload, retryCount := retryCount,
           fetched := false, timeoutAt := None)]))
  }

  function Remove(rows: map<int, Row>, id: int): (r: map<int, Row>)
    ensures forall k :: k in r <==> k in rows && k != id
    ensures forall k :: k in r ==> r[k] == rows[k]
  {
    map k | k in rows && k != id :: rows[k]
  }

  function MoveToDead(db: Db, item: Item): Option<Db> {
    if item.id !in db.rows then None else Some(Db(Remove(db.rows, item.id), db.dead + [item]))
  }

  /** The body of the fault manager's loop. */
  function ProcessItem(db: Db, item: Item): Option<Db> {
    if item.row.retryCount < item.row.maxRetries then Requeue(db, item, item.row.retryCount + 1)
    else MoveToDead(db, item)
  }

  // ---- The repository and the fault manager as objects ---------------------------------

  class EfQueueRepository {
    var db: Db

    constructor ()
      ensures db == Db(map[], [])
    {
      db := Db(map[], []);
    }

    /** A new row; its id is generated. It is queued, has not been tried yet, and carries what was put. */
    method Put(id: int, queue: string, payload: Payload, maxRetries: int, now: int)
      requires id !in db.rows
      modifies this
      ensures db == old(db).(rows := old(db).rows[id := NewRow(queue, payload, maxRetries, now)])
      ensures var row := db.rows[id];
        && row.queue == queue && row.payload == payload && row.createdAt == now && row.maxRetries == maxRetries
        && row.retryCount == 0 && !row.fetched && row.timeoutAt.None?
    {
      db := db.(rows := db.rows[id := NewRow(queue, payload, maxRetries, now)]);
    }

    /** The atomic statement: the oldest queued row of the queue, if any, is marked as fetched. */
    method Fetch(queue: string, timeoutAt: int) returns (fetched: Option<int>)
      modifies this
      ensures fetched.None? ==> db == old(db) && forall id :: id in db.rows ==> !Queued(db.rows, queue, id)
      ensures fetched.Some? ==>
        && Oldest(old(db).rows, queue, fetched.value)
        && db == old(db).(rows := old(db).rows[fetched.value := Fetched(old(db).rows[fetched.value], timeoutAt)])
        && var before, after := old(db).rows[fetched.value], db.rows[fetched.value];
          && after.fetched && after.timeoutAt == Some(timeoutAt) && after.queue == before.queue
          && after.payload == before.payload && after.createdAt == before.createdAt
          && after.retryCount == before.retryCount && after.maxRetries == before.maxRetries
    {
      fetched := None;
      var rows := db.rows;
      var left := rows.Keys;
      while left != {}
        invariant db == old(db) && left <= rows.Keys && (fetched.Some? ==> Queued(rows, queue, fetched.value))
        invariant forall id :: id in rows && id !in left && Queued(rows, queue, id) ==>
          fetched.Some? && rows[fetched.value].createdAt <= rows[id].createdAt
        decreases left
      {
        HasMember(left);
        var id :| id in left;
        left := left - {id};
        if Queued(rows, queue, id) && (fetched.None? || rows[id].createdAt < rows[fetched.value].createdAt) {
          fetched := Some(id);
        }
      }
      if fetched.Some? {
        db := db.(rows := rows[fetched.value := Fetched(rows[fetched.value], timeoutAt)]);
      }
    }

    /** An unknown id throws, as in every other call by id: `Single` finds no row. */
    method RequeueItem(item: Item, retryCount: int) returns (ok: bool)
      modifies this
      ensures ok <==> item.id in old(db).rows
      ensures db == if ok then Requeue(old(db), item, retryCount).value else old(db)
      ensures db.dead == old(db).dead && db.rows.Keys == old(db).rows.Keys
      ensures forall id :: id in db.rows && id != item.id ==> db.rows[id] == old(db).rows[id]
      ensures ok ==> var before, after := old(db).rows[item.id], db.rows[item.id];
        && !after.fetched && after.timeoutAt.None? && after.retryCount == retryCount
        && after.createdAt == item.row.createdAt && after.payload == item.row.payload
        && after.queue == before.queue && after.maxRetries == before.maxRetries
    {
      ok := item.id in db.rows;
      if ok {
        var row := db.rows[item.id];
        db := db.(rows := db.rows[item.id := row.(
          createdAt := item.row.createdAt, payload := item.row.payload, retryCount := retryCount,
          fetched := false, timeoutAt := None)]);
      }
    }

    method MoveToDeadMessageQueue(item: Item) returns (ok: bool)
      modifies this
      ensures ok <==> item.id in old(db).rows
      ensures db == if ok then MoveToDead(old(db), item).value else old(db)
      ensures db.rows.Keys == old(db).rows.Keys - {item.id}
      ensures forall id :: id in db.rows ==> db.rows[id] == old(db).rows[id]
      ensures db.dead == old(db).dead + if ok then [item] else []
    {
      ok := item.id in db.rows;
      if ok { db := Db(Remove(db.rows, item.id), db.dead + [item]); }
    }

    method Acknowledge(id: int) returns (ok: bool)
      modifies this
      ensures ok <==> id in old(db).rows
      ensures db == if ok then Db(Remove(old(db).rows, id), old(db).dead) else old(db)
    {
      ok := id in db.rows;
      if ok { db := db.(rows := Remove(db.rows, id)); }
    }

    method GetTimeoutedItems(now: int) returns (items: seq<Item>)
      ensures ListsTimedOut(db.rows, now, items)
      ensures forall id :: Contains(items, id) <==>
        id in db.rows && db.rows[id].fetched && db.rows[id].timeoutAt.Some? && db.rows[id].timeoutAt.value < now
    {
      items := [];
      var rows := db.rows;
      var left := rows.Keys;
      while left != {}
        invariant left <= rows.Keys
        invariant forall k :: 0 <= k < |items| ==> items[k].id in rows && items[k].id !in left
        invariant forall k :: 0 <= k < |items| ==> items[k].row == rows[items[k].id] && TimedOut(items[k].row, now)
        invariant forall a, b :: 0 <= a < b < |items| ==> items[a].id != items[b].id
        invariant forall id :: id in rows && id !in left && TimedOut(rows[id], now) ==> Contains(items, id)
        decreases left
      {
        HasMember(left);
        var id :| id in left;
        left := left - {id};
        if TimedOut(rows[id], now) {
          ContainsAppend(items, Item(id, rows[id]));
          items := items + [Item(id, rows[id])];
        }
      }
    }
  }

  predicate Contains(items: seq<Item>, id: int) {
    exists k :: 0 <= k < |items| && items[k].id == id
  }

  lemma HasMember(ids: set<int>)
    ensures ids == {} || exists id :: id in ids
  {
    if forall id :: id !in ids { assert ids <= {}; }
  }

  lemma ContainsAppend(items: seq<Item>, item: Item)
    ensures forall id :: Contains(items + [item], id) <==> Contains(items, id) || id == item.id
  {
    var more := items + [item];
    assert more[|items|].id == item.id;
    forall id | Contains(items, id) ensures Contains(more, id) {
      var k :| 0 <= k < |items| && items[k].id == id;
      assert more[k].id == id;
    }
  }

  ghost predicate ListsTimedOut(rows: map<int, Row>, now: int, items: seq<Item>) {
    && (forall k :: 0 <= k < |items| ==>
          items[k].id in rows && items[k].row == rows[items[k].id] && TimedOut(items[k].row, now))
    && (forall a, b :: 0 <= a < b < |items| ==> items[a].id != items[b].id)
    && (forall id :: id in rows && TimedOut(rows[id], now) ==> Contains(items, id))
  }

  class QueuesFaultManager {
    const repository: EfQueueRepository

    constructor (repository: EfQueueRepository)
      ensures this.repository == repository
    {
      this.repository := repository;
    }

    /** Undisturbed, one pass treats every timed-out row and no other: with retries left it is queued
        again with one retry more, otherwise it moves to the dead letters, keeping the total. */
    method ProcessTimeoutedItems(now: int)
      modifies repository
      ensures var before, after := old(repository.db), repository.db;
        && (forall id :: id in after.rows ==> id in before.rows)
        && (forall id :: id in before.rows && !TimedOut(before.rows[id], now) ==>
              id in after.rows && after.rows[id] == before.rows[id])
        && (forall id :: id in before.rows && TimedOut(before.rows[id], now) ==>
              if before.rows[id].retryCount < before.rows[id].maxRetries
              then id in after.rows && after.rows[id]
                     == before.rows[id]
                       .(retryCount := before.rows[id].retryCount + 1, fetched := false, timeoutAt := None)
              else id !in after.rows && Contains(after.dead, id))
        && before.dead <= after.dead
    {
      var items := repository.GetTimeoutedItems(now);
      ghost var before := repository.db;
      for k := 0 to |items|
        invariant before.dead <= repository.db.dead
        invariant forall id :: id in repository.db.rows ==> id in before.rows
        invariant forall id :: id in before.rows && !Contains(items[..k], id) ==>
          id in repository.db.rows && repository.db.rows[id] == before.rows[id]
        invariant forall x :: 0 <= x < k ==> Treated(before, repository.db, items[x].id)
      {
        var item := items[k];
        assert !Contains(items[..k], item.id);
        ghost var db := repository.db;
        var ok;
        if item.row.retryCount < item.row.maxRetries {
          ok := repository.RequeueItem(item, item.row.retryCount + 1);
        } else {
          ok := repository.MoveToDeadMessageQueue(item);
        }
        assert ok && ProcessItem(db, item) == Some(repository.db);
        StillTreated(before, db, item, items[..k]);
        assert items[..k + 1] == items[..k] + [item];
        ContainsAppend(items[..k], item);
      }
      assert items[..|items|] == items;
    }
  }

  ghost predicate Treated(before: Db, after: Db, id: int) {
    id in before.rows &&
    if before.rows[id].retryCount < before.rows[id].maxRetries
    then id in after.rows && after.rows[id]
           == before.rows[id].(retryCount := before.rows[id].retryCount + 1, fetched := false, timeoutAt := None)
    else id !in after.rows && Contains(after.dead, id)
  }

  lemma StillTreated(before: Db, db: Db, item: Item, done: seq<Item>)
    requires ProcessItem(db, item).Some? && !Contains(done, item.id)
    requires forall x :: 0 <= x < |done| ==> Treated(before, db, done[x].id)
    requires item.id in before.rows && item.row == before.rows[item.id] && db.rows[item.id] == item.row
    ensures Treated(before, ProcessItem(db, item).value, item.id)
    ensures forall x :: 0 <= x < |done| ==> Treated(before, ProcessItem(db, item).value, done[x].id)
  {
    var after := ProcessItem(db, item).value;
    if after.dead != db.dead { assert after.dead[|db.dead|].id == item.id; }
    forall x | 0 <= x < |done| ensures Treated(before, after, done[x].id) {
      assert done[x].id != item.id;
      if Contains(db.dead, done[x].id) {
        var k :| 0 <= k < |db.dead| && db.dead[k].id == done[x].id;
        assert after.dead[k].id == done[x].id;
      }
    }
  }
}
