/** Whole runs of the queue: any number of producers, fetchers and acknowledgers, one fault manager.
    Every repository call is one atomic database step. */
module QueueRuns {
  import opened Common
  import opened Queues

  /** The fault manager between two passes, or inside one with the copies still to treat. */
  datatype Manager = Resting | Passing(items: seq<Item>)

  /** What was put, and when. */
  datatype Origin = Origin(queue: string, payload: Payload, at: int)

  /** History variables: the ids ever put, those removed by an acknowledgement, how often each was fetched,
      its MaxRetries, what was put, and until when the last fetch may take. */
  datatype State = State(
    now: int, db: Db, manager: Manager,
    put: set<int>, acked: set<int>, fetches: map<int, nat>, limits: map<int, int>,
    origins: map<int, Origin>, deadlines: map<int, int>)

  datatype Step =
    | Tick(elapsed: nat)
    | Put(id: int, queue: string, payload: Payload, maxRetries: int)
    | Fetch(id: int, queue: string, timeout: int)
    | Acknowledge(id: int)
    | StartPass(items: seq<Item>)
    | TreatNext

  ghost predicate Enabled(s: State, step: Step) {
    match step
    case Tick(_) => true
    case Put(id, _, _, _) => id !in s.put
    case Fetch(id, queue, _) => Oldest(s.db.rows, queue, id)
    case Acknowledge(_) => true
    case StartPass(items) => s.manager.Resting? && ListsTimedOut(s.db.rows, s.now, items)
    case TreatNext => s.manager.Passing?
  }

  function Apply(s: State, step: Step): State {
    match step
    case Tick(elapsed) => s.(now := s.now + elapsed)
    case Put(id, queue, payload, maxRetries) =>
      s.(db := s.db.(rows := s.db.rows[id := NewRow(queue, payload, maxRetries, s.now)]),
         put := s.put + {id}, fetches := s.fetches[id := 0], limits := s.limits[id := maxRetries],
         origins := s.origins[id := Origin(queue, payload, s.now)])
    case Fetch(id, queue, timeout) =>
      if id !in s.db.rows || id !in s.fetches then s
      else s.(db := s.db.(rows := s.db.rows[id := Fetched(s.db.rows[id], s.now + timeout)]),
              fetches := s.fetches[id := s.fetches[id] + 1], deadlines := s.deadlines[id := s.now + timeout])
    case Acknowledge(id) =>
      if id !in s.db.rows then s
      else s.(db := s.db.(rows := Remove(s.db.rows, id)), acked := s.acked + {id})
    case StartPass(items) => s.(manager := Passing(items))
    case TreatNext =>
      if s.manager.Resting? then s
      else if s.manager.items == [] then s.(manager := Resting)
      else
        // A row that has been acknowledged in the meantime makes the call throw: the pass is over.
        var next := ProcessItem(s.db, s.manager.items[0]);
        if next.None? then s.(manager := Resting)
        else s.(db := next.value, manager := Passing(s.manager.items[1..]))
  }

  function Initial(now: int): State { State(now, Db(map[], []), Resting, {}, {}, map[], map[], map[], map[]) }

  ghost predicate Takes(s: State, t: State, step: Step) {
    Enabled(s, step) && t == Apply(s, step)
  }

  ghost predicate Next(s: State, t: State) {
    exists step :: Takes(s, t, step)
  }

  ghost predicate IsRun(run: seq<State>) {
    && |run| > 0 && run[0] == Initial(run[0].now)
    && forall k :: 0 < k < |run| ==> StepAt(run, k)
  }

  ghost predicate StepAt(run: seq<State>, k: nat)
    requires 0 < k < |run|
  {
    Next(run[k - 1], run[k])
  }

  lemma Shorter(run: seq<State>, n: nat)
    requires IsRun(run) && 0 < n <= |run|
    ensures IsRun(run[..n])
  {
    forall k | 0 < k < n ensures StepAt(run[..n], k) { assert StepAt(run, k); }
  }

  // ---- The invariant -------------------------------------------------------------------

  /** Retries are granted up to MaxRetries; a negative limit grants none. */
  function Retries(limit: int): nat { if limit < 0 then 0 else limit }

  ghost predicate IsDead(s: State, id: int) { Contains(s.db.dead, id) }

  /** Every item is in exactly one place, and dies at most once. */
  ghost predicate Places(s: State) {
    && (forall id :: id in s.put <==> id in s.db.rows || id in s.acked || IsDead(s, id))
    && (forall id :: id in s.db.rows ==> id !in s.acked && !IsDead(s, id))
    && (forall id :: id in s.acked ==> !IsDead(s, id))
    && (forall a, b :: 0 <= a < b < |s.db.dead| ==> s.db.dead[a].id != s.db.dead[b].id)
  }

  ghost predicate RowCounts(s: State, id: int)
    requires id in s.db.rows
  {
    var r := s.db.rows[id];
    && id in s.put && id in s.limits && id in s.fetches
    && r.maxRetries == s.limits[id] && 0 <= r.retryCount <= Retries(s.limits[id])
    && s.fetches[id] == r.retryCount + (if r.fetched then 1 else 0)
  }

  ghost predicate DeadCounts(s: State, letter: Item) {
    && letter.id in s.put && letter.id in s.limits && letter.id in s.fetches
    && letter.row.retryCount == Retries(s.limits[letter.id])
    && s.fetches[letter.id] == letter.row.retryCount + 1
  }

  ghost predicate Counts(s: State) {
    && s.fetches.Keys == s.put == s.limits.Keys
    && (forall id :: id in s.db.rows ==> RowCounts(s, id))
    && (forall id :: id in s.put ==> s.fetches[id] <= Retries(s.limits[id]) + 1)
    && (forall k :: 0 <= k < |s.db.dead| ==> DeadCounts(s, s.db.dead[k]))
  }

  /** The copies of a pass agree with the rows that are still there: nobody else touches a fetched row
      except to acknowledge it. */
  ghost predicate PassOk(s: State) {
    s.manager.Passing? ==>
      && (forall a, b :: 0 <= a < b < |s.manager.items| ==> s.manager.items[a].id != s.manager.items[b].id)
      && (forall k :: 0 <= k < |s.manager.items| ==>
            var item := s.manager.items[k];
            item.row.fetched && item.id in s.put && (item.id in s.db.rows ==> s.db.rows[item.id] == item.row))
  }

  /** A row still carries what was put; while it is fetched its timeout is the one of the last fetch. */
  ghost predicate Carries(s: State, id: int, row: Row) {
    && id in s.origins && row.queue == s.origins[id].queue && row.payload == s.origins[id].payload
    && row.createdAt == s.origins[id].at
    && (if row.fetched then id in s.deadlines && row.timeoutAt == Some(s.deadlines[id]) else row.timeoutAt.None?)
  }

  ghost predicate ContentsOk(s: State) {
    && s.origins.Keys == s.put
    && (forall id :: id in s.db.rows ==> Carries(s, id, s.db.rows[id]))
    && (forall k :: 0 <= k < |s.db.dead| ==>
          s.db.dead[k].id !in s.db.rows && Carries(s, s.db.dead[k].id, s.db.dead[k].row))
  }

  ghost predicate ItemsOk(s: State) {
    Places(s) && Counts(s) && PassOk(s)
  }

  ghost predicate Inv(s: State) {
    ItemsOk(s) && ContentsOk(s)
  }

  lemma StepKeepsContents(s: State, step: Step)
    requires ItemsOk(s) && ContentsOk(s) && Enabled(s, step)
    ensures ContentsOk(Apply(s, step))
  {
    forall k | 0 <= k < |s.db.dead| ensures s.db.dead[k].id in s.put { assert DeadCounts(s, s.db.dead[k]); }
    match step
    case Put(id, queue, payload, maxRetries) => PutKeepsContents(s, id, queue, payload, maxRetries);
    case Fetch(id, queue, timeout) => FetchKeepsContents(s, id, queue, timeout);
    case Acknowledge(_) =>
    case TreatNext => TreatKeepsContents(s);
    case Tick(_) =>
    case StartPass(_) =>
  }

  lemma PutKeepsContents(s: State, id: int, queue: string, payload: Payload, maxRetries: int)
    requires ContentsOk(s) && id !in s.put && forall k :: 0 <= k < |s.db.dead| ==> s.db.dead[k].id in s.put
    ensures ContentsOk(Apply(s, Put(id, queue, payload, maxRetries)))
  {
    var t := Apply(s, Put(id, queue, payload, maxRetries));
    forall k | k in t.db.rows ensures Carries(t, k, t.db.rows[k]) {
      if k != id { assert Carries(s, k, s.db.rows[k]); }
    }
    forall k | 0 <= k < |t.db.dead| ensures Carries(t, t.db.dead[k].id, t.db.dead[k].row) {
      assert Carries(s, s.db.dead[k].id, s.db.dead[k].row);
    }
  }

  lemma FetchKeepsContents(s: State, id: int, queue: string, timeout: int)
    requires ContentsOk(s)
    ensures ContentsOk(Apply(s, Fetch(id, queue, timeout)))
  {
    var t := Apply(s, Fetch(id, queue, timeout));
    forall k | k in t.db.rows ensures Carries(t, k, t.db.rows[k]) { assert Carries(s, k, s.db.rows[k]); }
    forall k | 0 <= k < |t.db.dead| ensures Carries(t, t.db.dead[k].id, t.db.dead[k].row) {
      assert Carries(s, s.db.dead[k].id, s.db.dead[k].row);
    }
  }

  lemma TreatKeepsContents(s: State)
    requires PassOk(s) && ContentsOk(s)
    ensures ContentsOk(Apply(s, TreatNext))
  {
    if s.manager.Passing? && s.manager.items != [] && s.manager.items[0].id in s.db.rows {
      var item := s.manager.items[0];
      assert item.row == s.db.rows[item.id] && Carries(s, item.id, item.row);
      if item.row.retryCount < item.row.maxRetries {
        RequeueKeepsContents(s, item);
      } else {
        BuryKeepsContents(s, item);
      }
      SameContents(s.(db := ProcessItem(s.db, item).value), Apply(s, TreatNext));
    } else {
      SameContents(s, Apply(s, TreatNext));
    }
  }

  lemma SameContents(s: State, t: State)
    requires ContentsOk(s) && t.db == s.db && t.put == s.put && t.origins == s.origins && t.deadlines == s.deadlines
    ensures ContentsOk(t)
  {
    forall k | k in t.db.rows ensures Carries(t, k, t.db.rows[k]) { assert Carries(s, k, s.db.rows[k]); }
    forall k | 0 <= k < |t.db.dead| ensures Carries(t, t.db.dead[k].id, t.db.dead[k].row) {
      assert Carries(s, s.db.dead[k].id, s.db.dead[k].row);
    }
  }

  lemma RequeueKeepsContents(s: State, item: Item)
    requires ContentsOk(s) && item.id in s.db.rows && item.row == s.db.rows[item.id]
    requires item.row.retryCount < item.row.maxRetries && Carries(s, item.id, item.row)
    ensures ContentsOk(s.(db := ProcessItem(s.db, item).value))
  {
    var t := s.(db := ProcessItem(s.db, item).value);
    forall k | k in t.db.rows ensures Carries(t, k, t.db.rows[k]) { assert Carries(s, k, s.db.rows[k]); }
    forall k | 0 <= k < |t.db.dead| ensures Carries(t, t.db.dead[k].id, t.db.dead[k].row) {
      assert Carries(s, s.db.dead[k].id, s.db.dead[k].row);
    }
  }

  lemma BuryKeepsContents(s: State, item: Item)
    requires ContentsOk(s) && item.id in s.db.rows && item.row == s.db.rows[item.id]
    requires item.row.retryCount >= item.row.maxRetries && Carries(s, item.id, item.row)
    ensures ContentsOk(s.(db := ProcessItem(s.db, item).value))
  {
    var t := s.(db := ProcessItem(s.db, item).value);
    forall k | k in t.db.rows ensures Carries(t, k, t.db.rows[k]) { assert Carries(s, k, s.db.rows[k]); }
    forall k | 0 <= k < |t.db.dead|
      ensures t.db.dead[k].id !in t.db.rows && Carries(t, t.db.dead[k].id, t.db.dead[k].row)
    {
      if k < |s.db.dead| { assert Carries(s, s.db.dead[k].id, s.db.dead[k].row); }
    }
  }

  lemma PutKeepsItems(s: State, id: int, queue: string, payload: Payload, maxRetries: int)
    requires ItemsOk(s) && id !in s.put
    ensures ItemsOk(Apply(s, Put(id, queue, payload, maxRetries)))
  {
    var t := Apply(s, Put(id, queue, payload, maxRetries));
    assert forall x :: IsDead(t, x) <==> IsDead(s, x);
    assert !IsDead(s, id);
  }

  lemma FetchKeepsItems(s: State, id: int, queue: string, timeout: int)
    requires ItemsOk(s) && Oldest(s.db.rows, queue, id)
    ensures ItemsOk(Apply(s, Fetch(id, queue, timeout)))
  {
    var t := Apply(s, Fetch(id, queue, timeout));
    assert forall x :: IsDead(t, x) <==> IsDead(s, x);
    forall k | 0 <= k < |s.db.dead| ensures s.db.dead[k].id != id {
      assert Contains(s.db.dead, s.db.dead[k].id);
    }
  }

  lemma AcknowledgeKeepsItems(s: State, id: int)
    requires ItemsOk(s)
    ensures ItemsOk(Apply(s, Acknowledge(id)))
  {
    var t := Apply(s, Acknowledge(id));
    assert forall x :: IsDead(t, x) <==> IsDead(s, x);
  }

  lemma RequeueKeepsItems(s: State)
    requires ItemsOk(s) && s.manager.Passing? && s.manager.items != [] && s.manager.items[0].id in s.db.rows
    requires s.manager.items[0].row.retryCount < s.manager.items[0].row.maxRetries
    ensures ItemsOk(Apply(s, TreatNext))
  {
    var t := Apply(s, TreatNext);
    assert forall x :: IsDead(t, x) <==> IsDead(s, x);
    var item := s.manager.items[0];
    assert s.db.rows[item.id] == item.row;
    forall k | 0 <= k < |t.manager.items| ensures t.manager.items[k].id != item.id {
      assert t.manager.items[k] == s.manager.items[k + 1];
    }
    forall k | 0 <= k < |s.db.dead| ensures s.db.dead[k].id != item.id {
      assert Contains(s.db.dead, s.db.dead[k].id);
    }
  }

  lemma BuryKeepsItems(s: State)
    requires ItemsOk(s) && s.manager.Passing? && s.manager.items != [] && s.manager.items[0].id in s.db.rows
    requires s.manager.items[0].row.retryCount >= s.manager.items[0].row.maxRetries
    ensures ItemsOk(Apply(s, TreatNext))
  {
    var t := Apply(s, TreatNext);
    var item := s.manager.items[0];
    assert s.db.rows[item.id] == item.row;
    ContainsAppend(s.db.dead, item);
    assert forall x :: IsDead(t, x) <==> IsDead(s, x) || x == item.id;
    forall k | 0 <= k < |t.manager.items| ensures t.manager.items[k].id != item.id {
      assert t.manager.items[k] == s.manager.items[k + 1];
    }
    forall k | 0 <= k < |s.db.dead| ensures s.db.dead[k].id != item.id {
      assert Contains(s.db.dead, s.db.dead[k].id);
    }
  }

  lemma StepKeepsItems(s: State, step: Step)
    requires ItemsOk(s) && Enabled(s, step)
    ensures ItemsOk(Apply(s, step))
  {
    match step
    case Put(id, queue, payload, maxRetries) => PutKeepsItems(s, id, queue, payload, maxRetries);
    case Fetch(id, queue, timeout) => FetchKeepsItems(s, id, queue, timeout);
    case Acknowledge(id) => AcknowledgeKeepsItems(s, id);
    case Tick(_) => RestKeepsItems(s, step);
    case StartPass(items) => RestKeepsItems(s, step);
    case TreatNext =>
      if s.manager.Resting? || s.manager.items == [] || s.manager.items[0].id !in s.db.rows {
        RestKeepsItems(s, step);
      } else if s.manager.items[0].row.retryCount < s.manager.items[0].row.maxRetries {
        RequeueKeepsItems(s);
      } else {
        BuryKeepsItems(s);
      }
  }

  /** Steps that leave the tables alone. */
  lemma RestKeepsItems(s: State, step: Step)
    requires ItemsOk(s) && Enabled(s, step) && (step.Tick? || step.StartPass? || step.TreatNext?)
    requires step.TreatNext? ==>
      s.manager.Resting? || s.manager.items == [] || s.manager.items[0].id !in s.db.rows
    ensures ItemsOk(Apply(s, step))
  {
    var t := Apply(s, step);
    assert forall x :: IsDead(t, x) <==> IsDead(s, x);
    forall id | id in t.db.rows ensures RowCounts(t, id) { assert RowCounts(s, id); }
    forall k | 0 <= k < |t.db.dead| ensures DeadCounts(t, t.db.dead[k]) { assert DeadCounts(s, s.db.dead[k]); }
    if step.StartPass? {
      forall k | 0 <= k < |step.items| ensures step.items[k].id in s.put { assert RowCounts(s, step.items[k].id); }
    }
  }

  lemma StepKeepsInv(s: State, step: Step)
    requires Inv(s) && Enabled(s, step)
    ensures Inv(Apply(s, step))
  {
    StepKeepsItems(s, step);
    StepKeepsContents(s, step);
  }

  lemma {:induction false} RunInv(run: seq<State>)
    requires IsRun(run)
    ensures Inv(run[|run| - 1])
  {
    if |run| > 1 {
      Shorter(run, |run| - 1);
      RunInv(run[..|run| - 1]);
      assert StepAt(run, |run| - 1);
      var step :| Takes(run[|run| - 2], run[|run| - 1], step);
      StepKeepsInv(run[|run| - 2], step);
    }
  }

  // ---- What holds of every run ---------------------------------------------------------

  /** Every item put is in exactly one place: in the table, acknowledged, or dead; what is dead was
      never acknowledged and died once. */
  lemma ExactlyOnePlace(run: seq<State>, id: int)
    requires IsRun(run)
    ensures var s := run[|run| - 1];
      id in s.put <==>
        || (id in s.db.rows && id !in s.acked && !IsDead(s, id))
        || (id !in s.db.rows && id in s.acked && !IsDead(s, id))
        || (id !in s.db.rows && id !in s.acked && IsDead(s, id))
  {
    RunInv(run);
  }

  /** An item is fetched at most MaxRetries + 1 times; a row shows how often: RetryCount, plus one
      while fetched. A dead letter has used up all its retries. */
  lemma FetchesAreBounded(run: seq<State>, id: int)
    requires IsRun(run) && id in run[|run| - 1].put
    ensures var s := run[|run| - 1];
      && id in s.fetches && id in s.limits && s.fetches[id] <= Retries(s.limits[id]) + 1
      && (id in s.db.rows ==>
            s.fetches[id] == s.db.rows[id].retryCount + if s.db.rows[id].fetched then 1 else 0)
      && (IsDead(s, id) ==> s.fetches[id] == Retries(s.limits[id]) + 1)
  {
    RunInv(run);
    var s := run[|run| - 1];
    assert id in s.db.rows ==> RowCounts(s, id);
    if IsDead(s, id) {
      var k :| 0 <= k < |s.db.dead| && s.db.dead[k].id == id;
      assert DeadCounts(s, s.db.dead[k]);
    }
  }

  // ---- Draining ------------------------------------------------------------------------

  ghost function Weight(r: Row): nat {
    var left := Retries(r.maxRetries) - r.retryCount;
    2 * (if left < 0 then 0 else left) + if r.fetched then 1 else 2
  }

  ghost function TotalWeight(rows: map<int, Row>): nat
    decreases |rows|
  {
    if rows.Keys == {} then 0
    else
      HasMember(rows.Keys);
      var id :| id in rows.Keys;
      RemoveSmaller(rows, id);
      Weight(rows[id]) + TotalWeight(Remove(rows, id))
  }

  lemma RemoveSmaller(rows: map<int, Row>, id: int)
    requires id in rows
    ensures |Remove(rows, id)| < |rows|
  {
    assert Remove(rows, id).Keys == rows.Keys - {id};
  }

  lemma RemoveSwaps(rows: map<int, Row>, a: int, b: int)
    ensures Remove(Remove(rows, a), b) == Remove(Remove(rows, b), a)
  {
  }

  lemma {:induction false} WeightOf(rows: map<int, Row>, id: int)
    requires id in rows
    ensures TotalWeight(rows) == Weight(rows[id]) + TotalWeight(Remove(rows, id))
    decreases |rows|
  {
    var first :| first in rows && TotalWeight(rows) == Weight(rows[first]) + TotalWeight(Remove(rows, first));
    if first != id {
      RemoveSmaller(rows, first);
      WeightOf(Remove(rows, first), id);
      RemoveSmaller(rows, id);
      WeightOf(Remove(rows, id), first);
      RemoveSwaps(rows, first, id);
    }
  }

  lemma WeightAfterChange(rows: map<int, Row>, id: int, row: Row)
    requires id in rows
    ensures TotalWeight(rows[id := row]) == TotalWeight(rows) - Weight(rows[id]) + Weight(row)
  {
    WeightOf(rows, id);
    WeightOf(rows[id := row], id);
    assert Remove(rows[id := row], id) == Remove(rows, id);
  }

  ghost predicate Lighter(s: State, t: State) {
    t.db == s.db || TotalWeight(t.db.rows) < TotalWeight(s.db.rows)
  }

  /** Without new items the table drains: fetching, requeueing, dead-lettering and acknowledging all
      take weight away, and no other step adds any. */
  lemma StepsReduceWeight(s: State, step: Step)
    requires Inv(s) && Enabled(s, step) && !step.Put?
    ensures Lighter(s, Apply(s, step))
  {
    match step
    case Fetch(id, queue, timeout) => FetchReducesWeight(s, id, queue, timeout);
    case Acknowledge(id) => if id in s.db.rows { WeightOf(s.db.rows, id); }
    case TreatNext =>
      if s.manager.Passing? && s.manager.items != [] && s.manager.items[0].id in s.db.rows { TreatReducesWeight(s); }
    case Tick(_) =>
    case StartPass(_) =>
  }

  lemma FetchReducesWeight(s: State, id: int, queue: string, timeout: int)
    requires Oldest(s.db.rows, queue, id)
    ensures Lighter(s, Apply(s, Fetch(id, queue, timeout)))
  {
    WeightAfterChange(s.db.rows, id, Fetched(s.db.rows[id], s.now + timeout));
  }

  lemma TreatReducesWeight(s: State)
    requires Counts(s) && PassOk(s) && s.manager.Passing? && s.manager.items != []
    requires s.manager.items[0].id in s.db.rows
    ensures TotalWeight(Apply(s, TreatNext).db.rows) < TotalWeight(s.db.rows)
  {
    var item := s.manager.items[0];
    assert RowCounts(s, item.id) && s.db.rows[item.id] == item.row && item.row.fetched;
    TreatedIsLighter(s.db, item);
  }

  /** One more retry takes more weight away than queueing the row again puts on; a burial takes all of it. */
  lemma TreatedIsLighter(db: Db, item: Item)
    requires item.id in db.rows && db.rows[item.id] == item.row && item.row.fetched
    requires 0 <= item.row.retryCount <= Retries(item.row.maxRetries)
    ensures ProcessItem(db, item).Some? && TotalWeight(ProcessItem(db, item).value.rows) < TotalWeight(db.rows)
  {
    if item.row.retryCount < item.row.maxRetries {
      WeightAfterChange(db.rows, item.id, ProcessItem(db, item).value.rows[item.id]);
    } else {
      WeightOf(db.rows, item.id);
    }
  }

  /** How many steps of run[a..b] have changed the tables. */
  ghost function Changes(run: seq<State>, a: nat, b: nat): nat
    requires a <= b < |run|
    decreases b
  {
    if a == b then 0 else Changes(run, a, b - 1) + if run[b].db == run[b - 1].db then 0 else 1
  }

  lemma {:induction false} CountChanges(run: seq<State>, a: nat, b: nat)
    requires a <= b < |run| && forall k :: a < k <= b ==> Lighter(run[k - 1], run[k])
    ensures Changes(run, a, b) + TotalWeight(run[b].db.rows) <= TotalWeight(run[a].db.rows)
    decreases b
  {
    if a < b { CountChanges(run, a, b - 1); }
  }

  /** From any moment of any run on, for as long as nothing more is put, at most as many steps can
      still change the tables as the rows weigh at that moment: a row of a new item weighs twice its
      retries and two. */
  lemma Drains(run: seq<State>, a: nat, b: nat)
    requires IsRun(run) && a <= b < |run|
    requires forall k :: a <= k <= b ==> run[k].put == run[a].put
    ensures Changes(run, a, b) + TotalWeight(run[b].db.rows) <= TotalWeight(run[a].db.rows)
  {
    forall k | a < k <= b ensures Lighter(run[k - 1], run[k]) {
      assert run[k].put == run[a].put && run[k - 1].put == run[a].put;
      StateInv(run, k - 1);
      assert StepAt(run, k);
      NextReducesWeight(run[k - 1], run[k]);
    }
    CountChanges(run, a, b);
  }

  lemma StateInv(run: seq<State>, k: nat)
    requires IsRun(run) && k < |run|
    ensures Inv(run[k])
  {
    Shorter(run, k + 1);
    RunInv(run[..k + 1]);
  }

  lemma NextReducesWeight(s: State, t: State)
    requires Inv(s) && Next(s, t) && t.put == s.put
    ensures Lighter(s, t)
  {
    var step :| Takes(s, t, step);
    assert !step.Put?;
    StepsReduceWeight(s, step);
  }

  /** And it does not stop early: while a row is left, either it can be fetched, or after a tick the
      next pass treats it. */
  lemma RowsCanMove(s: State, id: int, items: seq<Item>, elapsed: nat)
    requires Inv(s) && id in s.db.rows && s.manager.Resting?
    requires s.db.rows[id].fetched && id in s.deadlines ==> s.deadlines[id] < s.now + elapsed
    requires ListsTimedOut(s.db.rows, s.now + elapsed, items)
    ensures !s.db.rows[id].fetched ==> exists k :: Oldest(s.db.rows, s.db.rows[id].queue, k)
    ensures s.db.rows[id].fetched ==>
      var t := Apply(Apply(s, Tick(elapsed)), StartPass(items));
      items != [] && Enabled(Apply(s, Tick(elapsed)), StartPass(items)) && Apply(t, TreatNext).db != s.db
  {
    if !s.db.rows[id].fetched {
      var k := OldestOf(s.db.rows, s.db.rows[id].queue, s.db.rows.Keys, id);
      assert Oldest(s.db.rows, s.db.rows[id].queue, k);
    } else {
      assert Carries(s, id, s.db.rows[id]) && Contains(items, id);
      TreatChanges(s.db, items[0]);
    }
  }

  lemma TreatChanges(db: Db, item: Item)
    requires item.id in db.rows && item.row == db.rows[item.id] && item.row.fetched
    ensures ProcessItem(db, item).Some? && ProcessItem(db, item).value != db
  {
    var after := ProcessItem(db, item).value;
    if item.row.retryCount < item.row.maxRetries {
      assert !after.rows[item.id].fetched;
    } else {
      assert item.id !in after.rows;
    }
  }

  lemma {:induction false} OldestOf(rows: map<int, Row>, queue: string, among: set<int>, id: int) returns (best: int)
    requires among <= rows.Keys && id in among && Queued(rows, queue, id)
    ensures best in among && Queued(rows, queue, best)
    ensures forall k :: k in among && Queued(rows, queue, k) ==> rows[best].createdAt <= rows[k].createdAt
    decreases among
  {
    var older := set k | k in among && Queued(rows, queue, k) && rows[k].createdAt < rows[id].createdAt;
    if forall k :: k !in older {
      best := id;
      forall k | k in among && Queued(rows, queue, k) ensures rows[best].createdAt <= rows[k].createdAt {
        assert k !in older;
      }
    } else {
      var k :| k in older;
      assert id !in older && id in among;
      best := OldestOf(rows, queue, older, k);
      forall k | k in among && Queued(rows, queue, k) ensures rows[best].createdAt <= rows[k].createdAt {
        if k !in older { assert best in older; }
      }
    }
  }
}
