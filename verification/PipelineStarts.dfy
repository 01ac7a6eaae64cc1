/** Processors that begin ahead of the ring, and what they are given too early. WaitFor
    (BlockingWaitStrategy.cs) waits for the cursor to reach the next sequence and then answers with the
    minimum of the barrier's processors, without looking at the cursor again. */
module PipelineStarts {
  import opened Slots
  import opened RingPipeline
  import opened RingBase
  import opened RingSchedules
  import P = PublishProtocol

  /** Consumer j has been given a sequence that the cursor does not cover. */
  ghost predicate Outruns(c: Config, s: State, j: nat) {
    && j < |s.consumers| && j < |c.starts|
    && s.consumers[j].next - 1 > s.publish.cursor && s.consumers[j].next - 1 > c.starts[j]
  }

  ghost predicate NobodyOutruns(c: Config, s: State) {
    forall j: nat :: !Outruns(c, s, j)
  }

  ghost predicate NeverOutruns(c: Config) {
    forall run :: IsRun(c, run) ==> NobodyOutruns(c, run[|run| - 1])
  }

  /** What Then does: a processor behind others begins at -1. */
  ghost predicate Chained(c: Config) {
    forall v :: 0 <= v < |c.graph.deps| && v < |c.starts| && c.graph.deps[v] != [] ==> c.starts[v] == -1
  }

  /** The cursor has reached 0, no processor has moved. */
  lemma CursorAtZero(c: Config) returns (s: State)
    requires c.Valid() && c.publish.threads > 0
    ensures Ready(c, s) && s.consumers == Initial(c, 0).consumers && s.publish.cursor == P.Max(c.publish.start, 0)
  {
    s := Initial(c, 0);
    StartReachable(c);
    if c.publish.start == -1 {
      assert Floor(s, -1);
      s := ClaimWithRoom(c, s, 0, 1, -1);
      assert !Visible(s.publish, 1);
      s := FillAll(c, s, 0, 0, 0, 1, 0);
      s := PublishInLine(c, s, 0, 0, 1, 0);
    }
  }

  /** A processor chained behind processors that all begin ahead of the ring is handed slots that
      nobody has published. */
  lemma ChainedAheadOutruns(c: Config, v: nat) returns (s: State)
    requires c.Valid() && Chained(c) && c.publish.threads > 0 && c.publish.start < MAX_LONG
    requires v < |c.graph.deps| && c.graph.deps[v] != [] && !c.HasAnchor(v)
    ensures Reachable(c, s) && Outruns(c, s, v)
  {
    var s0 := CursorAtZero(c);
    forall d | d in c.graph.deps[v] && d < |s0.consumers|
      ensures d != v && s0.consumers[d].sequence > s0.publish.cursor
    {
      assert s0.consumers[d].sequence == c.starts[d];
    }
    s := ConsumeTo(c, s0, v, s0.publish.cursor + 1);
  }

  /** In the graphs that HandleEventsWith and Then build, with somebody to publish, no processor is ever
      handed an unpublished slot exactly if each barrier names a processor that begins no later than the
      ring, or at 0. */
  lemma OutrunsExactly(c: Config)
    requires c.Valid() && Chained(c) && c.publish.threads > 0 && c.publish.start < MAX_LONG
    ensures NeverOutruns(c) <==> c.Aligned()
  {
    if c.Aligned() {
      forall run | IsRun(c, run) ensures NobodyOutruns(c, run[|run| - 1]) {
        RunBase(c, run);
        PositionsDoNotOutrun(c, run[|run| - 1]);
      }
    } else {
      var v :| 0 <= v < |c.graph.deps| && v < |c.starts| && c.graph.deps[v] != [] && !c.HasAnchor(v);
      var s := ChainedAheadOutruns(c, v);
    }
  }

  lemma PositionsDoNotOutrun(c: Config, s: State)
    requires PositionsOk(c, s)
    ensures NobodyOutruns(c, s)
  {
    forall j: nat ensures !Outruns(c, s, j) {
      if j < |s.consumers| { assert PositionOk(s, s.consumers[j], c.graph.deps[j], c.starts[j]); }
    }
  }
}
