/**
 What the engine's superstep loop means for shortest paths. The engine clears its message queues at
 the end of the superstep in which they were filled, so the network of `ShortestPath` is the one
 that drops everything, and no distance ever leaves the source.
 */
module ShortestPathRun {
  import opened Wrappers
  import opened PregelModel
  import opened Superstep
  import opened EngineRun
  import ShortestPath

  /** The vertex programs of the run are `ShortestPathVertex` with one source. */
  ghost predicate IsShortestPath(compute: Program, source: VertexId) {
    forall v, s, msgs ::
      var r := ShortestPath.Compute(source, v, FieldsOf(s), msgs); var o := compute(v, s, msgs);
      o.returned == NewMap(r.state) && o.halt == r.halt && o.error.None?
  }

  function DistanceIn(s: StateMap): real {
    ShortestPath.CurrentDistance(FieldsOf(s))
  }

  /** Alone, the source announces its 0 for ever, and every other vertex halts at once. */
  lemma {:induction false} AloneKeepsDistance(c: Config, source: VertexId, v: VertexId, start: StateMap, n: nat)
    requires IsShortestPath(c.compute, source) && n > 0
    ensures var s := Iterate(c, v, start, n);
            && DistanceIn(s.state) == ShortestPath.StartDistance(source, v, FieldsOf(start))
            && (s.active <==> v == source && DistanceIn(s.state) == 0.0)
  {
    var before := Iterate(c, v, start, n - 1);
    if n > 1 {
      AloneKeepsDistance(c, source, v, start, n - 1);
    }
    if before.active {
      var o := c.compute(v, before.state, []);
      var r := ShortestPath.Compute(source, v, FieldsOf(before.state), []);
      assert o.returned == NewMap(r.state) && o.halt == r.halt && o.error.None?;
      assert ShortestPath.MinDistance(ShortestPath.StartDistance(source, v, FieldsOf(before.state)), [])
          == ShortestPath.StartDistance(source, v, FieldsOf(before.state));
    }
  }

  /** The program never fails, so nothing is tried again. */
  lemma NoFailures(c: Config, source: VertexId, vs: set<VertexId>, start: VertexId -> StateMap, n: nat)
    requires IsShortestPath(c.compute, source)
    ensures !FailsAt(c, vs, start, n) && QuietAt(c, vs, start, n)
  {
    assert forall v, s :: c.compute(v, s, []).error.None?;
  }

  /**
   Over every uncancelled run of at least one superstep, whatever the graph: each vertex other than
   the source ends with the distance it started with, the source at 0 if it started at infinity, and
   the engine halts early only if its source is not among the vertices or started elsewhere.
   */
  lemma DistancesNeverTravel(c: Config, source: VertexId, vs: set<VertexId>, e: Engine, max: nat, plans: seq<Plan>)
    requires Runnable(c) && IsShortestPath(c.compute, source)
    requires Fresh(vs, e) && max > 0 && RunOk(c, e, 0, false, max, plans) && Uncancelled(plans)
    ensures var r := RunExec(c, e, 0, false, max, plans);
            && r.failedAt == None
            && (forall v :: v in vs ==> DistanceIn(r.eng.StateOf(v)) == StartAt(source, v, e))
            && (r.halted <==> !(source in vs && StartAt(source, source, e) == 0.0))
  {
    forall n
      ensures !FailsAt(c, vs, e.StateOf, n) && QuietAt(c, vs, e.StateOf, n)
    {
      NoFailures(c, source, vs, e.StateOf, n);
    }
    RunIsIndependentIteration(c, vs, e, max, plans);
    forall v | v in vs
      ensures DistanceIn(Iterate(c, v, e.StateOf(v), max).state) == StartAt(source, v, e)
      ensures Iterate(c, v, e.StateOf(v), max).active <==> v == source && StartAt(source, v, e) == 0.0
    {
      AloneKeepsDistance(c, source, v, e.StateOf(v), max);
    }
  }

  /** The distance from which the first call of `v` starts. */
  function StartAt(source: VertexId, v: VertexId, e: Engine): real {
    ShortestPath.StartDistance(source, v, FieldsOf(e.StateOf(v)))
  }
}
