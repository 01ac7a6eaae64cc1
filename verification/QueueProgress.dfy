/** What becomes of the items of the queue: what a row and a dead letter carry, when a fetch times out, and
    that an item which nobody acknowledges is retried until it is dead. */
module QueueProgress {
  import opened Common
  import opened Queues
  import opened QueueRuns

  ghost function Last(run: seq<State>): State
    requires |run| > 0
  {
    run[|run| - 1]
  }

  // ---- What rows and letters carry -----------------------------------------------------

  /** In every run a row, and a dead letter, still carry the queue, the payload and the creation time that
      were put, through any number of retries. */
  lemma NothingIsGarbled(run: seq<State>, id: int)
    requires IsRun(run) && id in Last(run).put
    ensures var s := Last(run);
      && id in s.origins
      && (id in s.db.rows ==> Matches(s.origins[id], s.db.rows[id]))
      && (forall k :: 0 <= k < |s.db.dead| && s.db.dead[k].id == id ==> Matches(s.origins[id], s.db.dead[k].row))
  {
    RunInv(run);
    var s := Last(run);
    assert id in s.db.rows ==> Carries(s, id, s.db.rows[id]);
    assert forall k :: 0 <= k < |s.db.dead| ==> Carries(s, s.db.dead[k].id, s.db.dead[k].row);
  }

  ghost predicate Matches(origin: Origin, row: Row) {
    row.queue == origin.queue && row.payload == origin.payload && row.createdAt == origin.at
  }

  /** A pass of the fault manager lists an item exactly if it is fetched and the time that its last fetch
      asked for has run out since. */
  lemma TimesOutExactly(run: seq<State>, items: seq<Item>, id: int)
    requires IsRun(run) && Enabled(Last(run), StartPass(items))
    ensures var s := Last(run);
      Contains(items, id) <==> id in s.db.rows && s.db.rows[id].fetched && id in s.deadlines && s.deadlines[id] < s.now
  {
    RunInv(run);
    var s := Last(run);
    if id in s.db.rows { assert Carries(s, id, s.db.rows[id]); }
  }

  /** What a fetch, an acknowledgement and the treatment of an item do to it and to nothing else. */
  lemma FetchLends(run: seq<State>, id: int, queue: string, timeout: int)
    requires IsRun(run) && Enabled(Last(run), Fetch(id, queue, timeout))
    ensures var s := Last(run); var t := Apply(s, Fetch(id, queue, timeout));
      && t.db.rows.Keys == s.db.rows.Keys && t.db.dead == s.db.dead && t.acked == s.acked
      && id in t.db.rows && t.db.rows[id].fetched && t.db.rows[id].timeoutAt == Some(s.now + timeout)
      && s.db.rows[id].queue == queue && id in t.deadlines && t.deadlines[id] == s.now + timeout
      && id in s.fetches && id in t.fetches && t.fetches[id] == s.fetches[id] + 1
      && forall k :: k in s.db.rows && k != id ==> t.db.rows[k] == s.db.rows[k]
  {
    RunInv(run);
    assert RowCounts(Last(run), id);
  }

  lemma AcknowledgeEnds(s: State, id: int)
    requires id in s.db.rows
    ensures var t := Apply(s, Acknowledge(id));
      && t.acked == s.acked + {id} && t.db.dead == s.db.dead && t.db.rows.Keys == s.db.rows.Keys - {id}
      && forall k :: k in t.db.rows ==> t.db.rows[k] == s.db.rows[k]
  {
  }

  // ---- Nobody acknowledges -------------------------------------------------------------

  /** Neither a put nor an acknowledgement. */
  predicate Abandons(step: Step) { !step.Put? && !step.Acknowledge? }

  ghost predicate AbandonsAt(run: seq<State>, k: nat)
    requires 0 < k < |run|
  {
    exists step :: Takes(run[k - 1], run[k], step) && Abandons(step)
  }

  ghost predicate GoesOn(run: seq<State>, longer: seq<State>) {
    && IsRun(longer) && 0 < |run| && run <= longer
    && forall k :: |run| <= k < |longer| ==> AbandonsAt(longer, k)
  }

  lemma GoesOnTwice(run: seq<State>, mid: seq<State>, longer: seq<State>)
    requires GoesOn(run, mid) && GoesOn(mid, longer)
    ensures GoesOn(run, longer)
  {
    forall k | |run| <= k < |longer| ensures AbandonsAt(longer, k) {
      if k < |mid| {
        assert AbandonsAt(mid, k) && longer[k] == mid[k] && longer[k - 1] == mid[k - 1];
      }
    }
  }

  lemma Append(run: seq<State>, step: Step) returns (longer: seq<State>)
    requires IsRun(run) && Enabled(Last(run), step) && Abandons(step)
    ensures GoesOn(run, longer) && |longer| == |run| + 1 && Last(longer) == Apply(Last(run), step)
  {
    longer := run + [Apply(Last(run), step)];
    assert Takes(Last(run), longer[|run|], step);
    forall k | 0 < k < |longer| ensures StepAt(longer, k) {
      if k < |run| { assert StepAt(run, k) && longer[k] == run[k] && longer[k - 1] == run[k - 1]; }
    }
    assert IsRun(longer) && AbandonsAt(longer, |run|);
  }

  lemma StateIsOk(run: seq<State>)
    requires IsRun(run)
    ensures Inv(Last(run))
  {
    RunInv(run);
  }

  /** From run to longer the table has lost weight, or nothing has happened to it. */
  ghost predicate NotHeavier(run: seq<State>, longer: seq<State>) {
    && GoesOn(run, longer) && TotalWeight(Last(longer).db.rows) <= TotalWeight(Last(run).db.rows)
    && Last(longer).put == Last(run).put && Last(longer).acked == Last(run).acked
  }

  lemma NotHeavierTwice(run: seq<State>, mid: seq<State>, longer: seq<State>)
    requires NotHeavier(run, mid) && NotHeavier(mid, longer)
    ensures NotHeavier(run, longer)
  {
    GoesOnTwice(run, mid, longer);
  }

  lemma StepIsNotHeavier(run: seq<State>, step: Step) returns (longer: seq<State>)
    requires IsRun(run) && Enabled(Last(run), step) && Abandons(step)
    ensures NotHeavier(run, longer) && Last(longer) == Apply(Last(run), step)
    ensures Last(longer).db == Last(run).db || TotalWeight(Last(longer).db.rows) < TotalWeight(Last(run).db.rows)
  {
    StateIsOk(run);
    longer := Append(run, step);
    StepsReduceWeight(Last(run), step);
  }

  /** The fault manager ends its pass. */
  lemma {:induction false} FinishPass(run: seq<State>) returns (longer: seq<State>)
    requires IsRun(run)
    ensures NotHeavier(run, longer) && Last(longer).manager.Resting? && Last(longer).now == Last(run).now
    decreases if Last(run).manager.Resting? then 0 else |Last(run).manager.items| + 1
  {
    longer := run;
    if Last(run).manager.Passing? {
      var next := StepIsNotHeavier(run, TreatNext);
      longer := FinishPass(next);
      NotHeavierTwice(run, next, longer);
    }
  }

  /** The list that GetTimeoutedItems makes. */
  lemma {:induction false} TimedOutList(rows: map<int, Row>, now: int, ids: set<int>) returns (items: seq<Item>)
    requires ids <= rows.Keys
    ensures forall k :: 0 <= k < |items| ==>
      items[k].id in ids && items[k].row == rows[items[k].id] && TimedOut(items[k].row, now)
    ensures forall a, b :: 0 <= a < b < |items| ==> items[a].id != items[b].id
    ensures forall id :: id in ids && TimedOut(rows[id], now) ==> Contains(items, id)
    decreases ids
  {
    items := [];
    if id :| id in ids {
      var rest := TimedOutList(rows, now, ids - {id});
      items := rest;
      if TimedOut(rows[id], now) {
        items := rest + [Item(id, rows[id])];
        ContainsAppend(rest, Item(id, rows[id]));
      }
    } else {
      assert forall id :: id !in ids;
    }
  }

  /** A moment after which a fetched row has timed out. */
  ghost function Until(s: State, id: int): nat {
    if id in s.deadlines && s.deadlines[id] >= s.now then s.deadlines[id] - s.now + 1 else 0
  }

  /** While a row is left the table can lose weight: somebody fetches one, or a fetched one times out and the
      next pass treats it. */
  lemma LoseWeight(run: seq<State>, id: int) returns (longer: seq<State>)
    requires IsRun(run) && id in Last(run).db.rows && Last(run).manager.Resting?
    ensures NotHeavier(run, longer) && TotalWeight(Last(longer).db.rows) < TotalWeight(Last(run).db.rows)
  {
    StateIsOk(run);
    var s := Last(run);
    var row := s.db.rows[id];
    if !row.fetched {
      var k := OldestOf(s.db.rows, row.queue, s.db.rows.Keys, id);
      assert RowCounts(s, k);
      longer := StepIsNotHeavier(run, Fetch(k, row.queue, 60));
      assert Last(longer).db.rows[k].fetched;
    } else {
      longer := PassOver(run, id);
    }
  }

  lemma PassOver(run: seq<State>, id: int) returns (longer: seq<State>)
    requires IsRun(run) && id in Last(run).db.rows && Last(run).manager.Resting? && Last(run).db.rows[id].fetched
    ensures NotHeavier(run, longer) && TotalWeight(Last(longer).db.rows) < TotalWeight(Last(run).db.rows)
  {
    StateIsOk(run);
    var s := Last(run);
    var elapsed := Until(s, id) + 1;
    var items := TimedOutList(s.db.rows, s.now + elapsed, s.db.rows.Keys);
    RowsCanMove(s, id, items, elapsed);
    var later := StepIsNotHeavier(run, Tick(elapsed));
    var begun := StepIsNotHeavier(later, StartPass(items));
    longer := StepIsNotHeavier(begun, TreatNext);
    NotHeavierTwice(run, later, begun);
    NotHeavierTwice(run, begun, longer);
  }

  lemma {:induction false} DrainRows(run: seq<State>) returns (longer: seq<State>)
    requires IsRun(run)
    ensures NotHeavier(run, longer) && Last(longer).db.rows == map[]
    decreases TotalWeight(Last(run).db.rows)
  {
    longer := FinishPass(run);
    HasMember(Last(longer).db.rows.Keys);
    if id :| id in Last(longer).db.rows {
      var rested := longer;
      var less := LoseWeight(rested, id);
      longer := DrainRows(less);
      NotHeavierTwice(run, rested, less);
      NotHeavierTwice(run, less, longer);
    } else {
      assert Last(longer).db.rows.Keys == {};
    }
  }

  /** From any moment of any run: if nobody acknowledges any more, fetching, waiting and the fault manager can
      bring every item that is left to the dead letters, each fetched as often as its retries allow. */
  lemma AbandonedItemsDie(run: seq<State>) returns (longer: seq<State>)
    requires IsRun(run)
    ensures GoesOn(run, longer) && Last(longer).db.rows == map[] && Last(longer).acked == Last(run).acked
    ensures forall id :: id in Last(run).db.rows ==>
      && IsDead(Last(longer), id) && id in Last(longer).fetches && id in Last(longer).limits
      && Last(longer).fetches[id] == Retries(Last(longer).limits[id]) + 1
  {
    longer := DrainRows(run);
    StateIsOk(run);
    StateIsOk(longer);
    forall id | id in Last(run).db.rows
      ensures IsDead(Last(longer), id) && id in Last(longer).fetches && id in Last(longer).limits
        && Last(longer).fetches[id] == Retries(Last(longer).limits[id]) + 1
    {
      assert RowCounts(Last(run), id);
      ExactlyOnePlace(longer, id);
      FetchesAreBounded(longer, id);
    }
  }
}
