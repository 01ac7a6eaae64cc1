/** The dependency graph built by the Disruptor DSL: src/Ozzy.Core/Disruptor/Dsl. */
module ProcessorGraph {
  import opened Slots

  /** Processors are numbered in the order of their creation; `deps[v]` is the barrier of processor v
      and `ends` are the processors marked as end of chain. */
  datatype Graph = Graph(deps: seq<seq<nat>>, ends: set<nat>)

  ghost predicate UsedInBarrier(g: Graph, u: nat) {
    exists v :: 0 <= v < |g.deps| && u in g.deps[v]
  }

  /** A barrier names processors that existed before, and only a processor that some barrier names
      has lost its mark. */
  ghost predicate WellFormed(g: Graph) {
    && (forall v, d :: 0 <= v < |g.deps| && d in g.deps[v] ==> d < v)
    && (forall e :: e in g.ends ==> e < |g.deps|)
    && (forall u :: 0 <= u < |g.deps| && u !in g.ends ==> UsedInBarrier(g, u))
  }

  /** What running the processors keeps: nobody overtakes a processor of its barrier. */
  ghost predicate Ordered(g: Graph, sequences: seq<int>) {
    && |sequences| == |g.deps|
    && forall v, d :: 0 <= v < |g.deps| && d in g.deps[v] && d < |sequences| ==> sequences[v] <= sequences[d]
  }

  /** Below every processor there is a marked one that is not ahead of it. */
  lemma {:induction false} EndBelow(g: Graph, sequences: seq<int>, u: nat) returns (e: nat)
    requires WellFormed(g) && Ordered(g, sequences) && u < |g.deps|
    ensures e in g.ends && e < |sequences| && sequences[e] <= sequences[u]
    decreases |g.deps| - u
  {
    if u in g.ends { return u; }
    assert UsedInBarrier(g, u);
    var v :| 0 <= v < |g.deps| && u in g.deps[v];
    e := EndBelow(g, sequences, v);
  }

  function Select(sequences: seq<int>, chosen: seq<nat>): (r: seq<int>)
    requires forall k :: 0 <= k < |chosen| ==> chosen[k] < |sequences|
    ensures |r| == |chosen|
    ensures forall k :: 0 <= k < |chosen| ==> r[k] == sequences[chosen[k]]
  {
    seq(|chosen|, k requires 0 <= k < |chosen| => sequences[chosen[k]])
  }

  ghost predicate Lists(chosen: seq<nat>, ends: set<nat>) {
    forall e :: e in chosen <==> e in ends
  }

  /** The slowest end of chain is the slowest processor: producers gated on the ends alone wait for
      every processor. */
  lemma EndsGateEverybody(g: Graph, sequences: seq<int>, gates: seq<nat>)
    requires WellFormed(g) && Ordered(g, sequences) && Lists(gates, g.ends)
    requires forall k :: 0 <= k < |gates| ==> gates[k] < |sequences|
    ensures MinOf(Select(sequences, gates)) == MinOf(sequences)
  {
    var chosen := Select(sequences, gates);
    var low, all := MinOf(chosen), MinOf(sequences);
    if low != MAX_LONG {
      var k :| 0 <= k < |chosen| && chosen[k] == low;
      assert sequences[gates[k]] == low;
    }
    if all != MAX_LONG {
      var u :| 0 <= u < |sequences| && sequences[u] == all;
      var e := EndBelow(g, sequences, u);
      assert e in gates;
      var k :| 0 <= k < |gates| && gates[k] == e;
      assert chosen[k] == sequences[e];
    }
  }

  datatype DslError = AlreadyStarted | HandlerNotFound
  datatype Result<T> = Ok(value: T) | Err(error: DslError)

  function Chain<T>(deps: seq<T>, barrier: T, n: nat): (r: seq<T>)
    ensures |r| == |deps| + n
    ensures forall v :: 0 <= v < |deps| ==> r[v] == deps[v]
    ensures forall v :: |deps| <= v < |deps| + n ==> r[v] == barrier
  {
    deps + seq(n, _ => barrier)
  }

  function Created(first: nat, n: nat): (r: seq<nat>)
    ensures |r| == n
    ensures forall k :: 0 <= k < n ==> r[k] == first + k
    ensures forall p :: p in r <==> first <= p < first + n
  {
    var r := seq(n, k => first + k);
    assert forall p :: first <= p < first + n ==> p in r by {
      forall p | first <= p < first + n ensures p in r { assert r[p - first] == p; }
    }
    r
  }

  lemma ChainIsOrdered(g: Graph, starts: seq<int>, barrier: seq<nat>, start: int, n: nat, ends: set<nat>)
    requires WellFormed(g) && Ordered(g, starts) && forall p :: p in barrier ==> p < |starts| && start <= starts[p]
    ensures Ordered(Graph(Chain(g.deps, barrier, n), ends), Chain(starts, start, n))
  {
    var deps, chained := Chain(g.deps, barrier, n), Chain(starts, start, n);
    forall v, d | 0 <= v < |deps| && d in deps[v] && d < |chained| ensures chained[v] <= chained[d] {
      if v < |g.deps| && d < |starts| { assert d in g.deps[v]; }
      if v < |g.deps| { assert deps[v] == g.deps[v]; } else { assert deps[v] == barrier; }
    }
  }

  /** Only the processors of the new barrier may lose their marks, and only if somebody is behind it. */
  lemma ChainIsWellFormed(g: Graph, barrier: seq<nat>, n: nat, ends: set<nat>)
    requires WellFormed(g) && forall p :: p in barrier ==> p < |g.deps|
    requires forall p: nat :: p in ends <==>
      |g.deps| <= p < |g.deps| + n || (p in g.ends && (n == 0 || p !in barrier))
    ensures WellFormed(Graph(Chain(g.deps, barrier, n), ends))
  {
    var h := Graph(Chain(g.deps, barrier, n), ends);
    forall u | 0 <= u < |h.deps| && u !in ends ensures UsedInBarrier(h, u) {
      if u in g.ends {
        assert u in barrier && h.deps[|g.deps|] == barrier;
      } else {
        assert UsedInBarrier(g, u);
        var v :| 0 <= v < |g.deps| && u in g.deps[v];
        assert h.deps[v] == g.deps[v];
      }
    }
  }

  /** Each handler is run by the processor created for it, the last one if it is given more than once;
      the others keep theirs. */
  ghost predicate RunBy(before: map<nat, nat>, handlers: seq<nat>, created: seq<nat>, after: map<nat, nat>)
    requires |handlers| <= |created|
  {
    && after.Keys == before.Keys + (set h | h in handlers)
    && (forall h :: h in before && h !in handlers ==> after[h] == before[h])
    && (forall i :: 0 <= i < |handlers| && handlers[i] !in handlers[i + 1..] ==> after[handlers[i]] == created[i])
  }

  /** One handler more: an earlier one stays the last of its kind only if it is another handler. */
  lemma LastOfKind(handlers: seq<nat>, n: nat, i: nat)
    requires i < n < |handlers| && handlers[i] !in handlers[..n + 1][i + 1..]
    ensures handlers[i] !in handlers[..n][i + 1..] && handlers[i] != handlers[n]
  {
    assert handlers[..n + 1][i + 1..] == handlers[..n][i + 1..] + [handlers[n]];
  }

  lemma RunByOneMore(before: map<nat, nat>, handlers: seq<nat>, created: seq<nat>, after: map<nat, nat>, n: nat)
    requires n < |handlers| <= |created| && RunBy(before, handlers[..n], created, after)
    ensures RunBy(before, handlers[..n + 1], created, after[handlers[n] := created[n]])
  {
    var fewer, more, last := handlers[..n], handlers[..n + 1], after[handlers[n] := created[n]];
    assert more == fewer + [handlers[n]];
    assert last.Keys == before.Keys + (set h | h in more);
    forall i | 0 <= i < |more| && more[i] !in more[i + 1..] ensures last[more[i]] == created[i] {
      if i < n {
        LastOfKind(handlers, n, i);
        assert fewer[i] == more[i];
      }
    }
  }

  /** `Disruptor` together with its `EventProcessorRepository`; handlers are named by numbers. */
  class Disruptor {
    var barriers: seq<seq<nat>>
    /** Where each processor begins. */
    var starts: seq<int>
    var infoByHandler: map<nat, nat>
    /** EventProcessorInfo.IsEndOfChain per registered processor. */
    var isEndOfChain: map<nat, bool>
    var running: bool

    constructor ()
      ensures Valid() && TheGraph() == Graph([], {}) && starts == [] && infoByHandler == map[] && !running
    {
      barriers, starts, infoByHandler, isEndOfChain, running := [], [], map[], map[], false;
    }

    ghost function TheGraph(): Graph
      reads this
    {
      Graph(barriers, set p | p in isEndOfChain && isEndOfChain[p])
    }

    ghost predicate Valid()
      reads this
    {
      && WellFormed(TheGraph()) && Ordered(TheGraph(), starts) && (forall v :: 0 <= v < |starts| ==> starts[v] >= -1)
      && (forall p: nat :: p in isEndOfChain <==> p < |barriers|)
      && (forall h :: h in infoByHandler ==> infoByHandler[h] < |barriers|)
    }

    method Add(eventProcessor: nat, eventHandler: nat)
      modifies this`infoByHandler, this`isEndOfChain
      ensures infoByHandler == old(infoByHandler)[eventHandler := eventProcessor]
      ensures isEndOfChain == old(isEndOfChain)[eventProcessor := true]
    {
      infoByHandler := infoByHandler[eventHandler := eventProcessor];
      isEndOfChain := isEndOfChain[eventProcessor := true];
    }

    /** HandleEventsWith, After and And given a processor. A custom one, built around a barrier of its
        own, becomes an end of chain; its barrier's processors keep their marks, which is one gate too
        many, never one too few. A processor added again is marked again. */
    method AddProcessor(processor: nat, barrier: seq<nat>, startSequence: int)
      requires Valid() && processor <= |barriers|
      requires processor == |barriers| ==> MayBegin(barrier, startSequence)
      modifies this`barriers, this`starts, this`isEndOfChain
      ensures Valid() && TheGraph().ends == old(TheGraph().ends) + {processor}
      ensures processor < old(|barriers|) ==> barriers == old(barriers) && starts == old(starts)
      ensures processor == old(|barriers|) ==>
        barriers == old(barriers) + [barrier] && starts == old(starts) + [startSequence]
    {
      if processor == |barriers| {
        barriers, starts := barriers + [barrier], starts + [startSequence];
      }
      isEndOfChain := isEndOfChain[processor := true];
      forall u | UsedInBarrier(old(TheGraph()), u) ensures UsedInBarrier(TheGraph(), u) {
        var v :| 0 <= v < |old(barriers)| && u in old(barriers)[v];
        assert barriers[v] == old(barriers)[v];
      }
    }

    /** A new processor behind this barrier does not begin ahead of it. Chained processors begin at -1. */
    ghost predicate MayBegin(barrier: seq<nat>, startSequence: int)
      reads this
    {
      startSequence >= -1 && forall p :: p in barrier ==> p < |barriers| && p < |starts| && startSequence <= starts[p]
    }

    method UnmarkEventProcessorsAsEndOfChain(eventProcessors: seq<nat>)
      requires forall p :: p in eventProcessors ==> p in isEndOfChain
      modifies this`isEndOfChain
      ensures isEndOfChain.Keys == old(isEndOfChain.Keys)
      ensures forall p :: p in isEndOfChain ==>
        isEndOfChain[p] == (old(isEndOfChain)[p] && p !in eventProcessors)
    {
      for k := 0 to |eventProcessors|
        invariant isEndOfChain.Keys == old(isEndOfChain.Keys)
        invariant forall p :: p in isEndOfChain ==>
          isEndOfChain[p] == (old(isEndOfChain)[p] && p !in eventProcessors[..k])
      {
        isEndOfChain := isEndOfChain[eventProcessors[k] := false];
      }
    }

    /** LastEventProcessorsInChain: exactly the ends of the graph. */
    method LastEventProcessorsInChain() returns (last: seq<nat>)
      requires Valid()
      ensures Lists(last, TheGraph().ends) && forall p :: p in last ==> p < |barriers|
    {
      last := [];
      var p := 0;
      while p < |barriers|
        invariant p <= |barriers|
        invariant forall e :: e in last <==> e < p && e in isEndOfChain && isEndOfChain[e]
      {
        if isEndOfChain[p] { last := last + [p]; }
        p := p + 1;
      }
    }

    /** New processors behind a common barrier. They become ends of chain and, unless there are none,
        the processors of the barrier stop being ends. */
    method CreateEventProcessors(barrier: seq<nat>, eventHandlers: seq<nat>, startSequence: int)
      returns (r: Result<seq<nat>>)
      requires Valid() && MayBegin(barrier, startSequence)
      modifies this
      ensures Valid() && running == old(running)
      ensures r.Err? <==> running
      ensures r.Err? ==>
        r == Err(AlreadyStarted) && TheGraph() == old(TheGraph())
        && starts == old(starts) && infoByHandler == old(infoByHandler)
      ensures r.Ok? ==>
        && r.value == Created(old(|barriers|), |eventHandlers|)
        && starts == Chain(old(starts), startSequence, |eventHandlers|)
        && TheGraph().deps == Chain(old(barriers), barrier, |eventHandlers|)
        && (forall p: nat :: p in TheGraph().ends <==>
              p in r.value || (p in old(TheGraph().ends) && (eventHandlers == [] || p !in barrier)))
        && RunBy(old(infoByHandler), eventHandlers, r.value, infoByHandler)
    {
      if running { return Err(AlreadyStarted); }
      ghost var g, before := TheGraph(), starts;
      var created := Created(|barriers|, |eventHandlers|);
      barriers := Chain(barriers, barrier, |eventHandlers|);
      starts := Chain(starts, startSequence, |eventHandlers|);
      AddAll(created, eventHandlers, |g.deps|);
      if |created| > 0 {
        UnmarkEventProcessorsAsEndOfChain(barrier);
      }
      ChainIsOrdered(g, before, barrier, startSequence, |eventHandlers|, TheGraph().ends);
      ChainIsWellFormed(g, barrier, |eventHandlers|, TheGraph().ends);
      return Ok(created);
    }

    /** The loop of CreateEventProcessors. */
    method AddAll(created: seq<nat>, eventHandlers: seq<nat>, ghost n: nat)
      requires created == Created(n, |eventHandlers|)
      requires forall p: nat :: p in isEndOfChain <==> p < n
      requires forall h :: h in infoByHandler ==> infoByHandler[h] < n
      modifies this`infoByHandler, this`isEndOfChain
      ensures forall p: nat :: p in isEndOfChain <==> p < n + |eventHandlers|
      ensures forall p :: p in isEndOfChain ==> isEndOfChain[p] == (p >= n || old(isEndOfChain)[p])
      ensures RunBy(old(infoByHandler), eventHandlers, created, infoByHandler)
      ensures forall h :: h in infoByHandler ==> infoByHandler[h] < n + |eventHandlers|
    {
      for i := 0 to |eventHandlers|
        invariant forall p: nat :: p in isEndOfChain <==> p < n + i
        invariant forall p :: p in isEndOfChain ==> isEndOfChain[p] == (p >= n || old(isEndOfChain)[p])
        invariant RunBy(old(infoByHandler), eventHandlers[..i], created, infoByHandler)
        invariant forall h :: h in infoByHandler ==> infoByHandler[h] < n + i
      {
        RunByOneMore(old(infoByHandler), eventHandlers, created, infoByHandler, i);
        Add(created[i], eventHandlers[i]);
      }
      assert eventHandlers[..|eventHandlers|] == eventHandlers;
    }

    /** HandleEventsWith on the disruptor itself: processors without a barrier, which may begin anywhere;
        the default is -1. */
    method HandleEventsWith(handlers: seq<nat>, startSequence: int) returns (r: Result<seq<nat>>)
      requires Valid() && startSequence >= -1
      modifies this
      ensures Valid() && running == old(running)
      ensures r.Err? <==> running
      ensures r.Err? ==> TheGraph() == old(TheGraph()) && starts == old(starts) && infoByHandler == old(infoByHandler)
      ensures r.Ok? ==>
        && r.value == Created(old(|barriers|), |handlers|)
        && TheGraph().deps == Chain(old(barriers), [], |handlers|)
        && starts == Chain(old(starts), startSequence, |handlers|)
        && (forall p: nat :: p in TheGraph().ends <==> p in r.value || p in old(TheGraph().ends))
        && RunBy(old(infoByHandler), handlers, r.value, infoByHandler)
    {
      r := CreateEventProcessors([], handlers, startSequence);
    }

    /** After: the group of the processors that run the given handlers; an unknown handler is refused
        (the dictionary throws). */
    method After(handlers: seq<nat>) returns (r: Result<seq<nat>>)
      requires Valid()
      ensures r.Ok? <==> forall h :: h in handlers ==> h in infoByHandler
      ensures r.Err? ==> r.error == HandlerNotFound
      ensures r.Ok? ==> |r.value| == |handlers|
      ensures r.Ok? ==> forall i :: 0 <= i < |handlers| ==> r.value[i] == infoByHandler[handlers[i]] < |barriers|
    {
      var selected := [];
      for i := 0 to |handlers|
        invariant |selected| == i
        invariant forall k :: 0 <= k < i ==> handlers[k] in infoByHandler && selected[k] == infoByHandler[handlers[k]]
      {
        if handlers[i] !in infoByHandler { return Err(HandlerNotFound); }
        selected := selected + [infoByHandler[handlers[i]]];
      }
      return Ok(selected);
    }

    /** EventHandlerGroup.And: the group extended by the processors of more handlers. */
    method And(group: seq<nat>, handlers: seq<nat>) returns (r: Result<seq<nat>>)
      requires Valid() && forall p :: p in group ==> p < |barriers|
      ensures r.Ok? <==> forall h :: h in handlers ==> h in infoByHandler
      ensures r.Err? ==> r.error == HandlerNotFound
      ensures r.Ok? ==> |r.value| == |group| + |handlers| && r.value[..|group|] == group
      ensures r.Ok? ==> forall i :: 0 <= i < |handlers| ==>
        r.value[|group| + i] == infoByHandler[handlers[i]] < |barriers|
    {
      var more := After(handlers);
      if more.Err? { return more; }
      return Ok(group + more.value);
    }

    /** EventHandlerGroup.Then and .HandleEventsWith: processors behind the whole group. They begin at -1,
        wherever the ring begins. */
    method Then(group: seq<nat>, handlers: seq<nat>) returns (r: Result<seq<nat>>)
      requires Valid() && forall p :: p in group ==> p < |barriers|
      modifies this
      ensures Valid() && running == old(running)
      ensures r.Err? <==> running
      ensures r.Err? ==> TheGraph() == old(TheGraph()) && starts == old(starts) && infoByHandler == old(infoByHandler)
      ensures r.Ok? ==>
        && r.value == Created(old(|barriers|), |handlers|)
        && TheGraph().deps == Chain(old(barriers), group, |handlers|)
        && starts == Chain(old(starts), -1, |handlers|)
        && (forall p: nat :: p in TheGraph().ends <==>
              p in r.value || (p in old(TheGraph().ends) && (handlers == [] || p !in group)))
        && RunBy(old(infoByHandler), handlers, r.value, infoByHandler)
    {
      r := CreateEventProcessors(group, handlers, -1);
    }

    /** Start: the gating sequences are those of the ends of chain; starting twice is refused. */
    method Start() returns (r: Result<seq<nat>>)
      requires Valid()
      modifies this`running
      ensures running && (r.Ok? <==> !old(running))
      ensures r.Ok? ==> Lists(r.value, TheGraph().ends) && forall p :: p in r.value ==> p < |barriers|
    {
      var gating := LastEventProcessorsInChain();
      if running { return Err(AlreadyStarted); }
      running := true;
      return Ok(gating);
    }
  }
}
