/**
 The sequential graph executor and its edge evaluator (internal/app/usecases/executor.go and
 evaluator.go). On a graph that passed validation with the cycle check, a run is a simple path of
 first-enabled edges.
 */
module Executor {
  import opened Wrappers
  import opened Sequences
  import opened GraphValidation

  datatype Value = Null | Text(s: string) | Other(tag: string)

  type State = map<string, Value>

  const DEFAULT_MAX_STEPS: nat := 100

  function LimitOf(maxSteps: int): (limit: nat)
    ensures limit > 0
  {
    if maxSteps > 0 then maxSteps else DEFAULT_MAX_STEPS
  }

  // ---------------------------------------------------------------- evaluator.go

  /** `Evaluate` and `evaluateSimpleCondition`: unknown conditions hold. */
  function Holds(condition: string, state: State): bool {
    if condition == "" || condition == "always" then true
    else if condition == "never" then false
    else if condition == "has_error" then "error" in state && state["error"] != Null
    else if condition == "no_error" then "error" in state ==> state["error"] == Null
    else if condition == "success" then "status" in state && state["status"] == Text("success")
    else if condition == "failure" then
      "status" in state && (state["status"] == Text("failure") || state["status"] == Text("failed"))
    else true
  }

  /** Which states let which conditions through; a condition that is not one of the known ones always passes. */
  lemma ConditionTable(condition: string, state: State)
    ensures condition == "never" ==> !Holds(condition, state)
    ensures condition in {"", "always"} ==> Holds(condition, state)
    ensures condition == "success" ==>
              (Holds(condition, state) <==> "status" in state && state["status"] == Text("success"))
    ensures condition == "failure" ==>
              (Holds(condition, state) <==> "status" in state && state["status"] in {Text("failure"), Text("failed")})
    ensures condition == "has_error" ==> (Holds(condition, state) <==> "error" in state && state["error"] != Null)
    ensures condition == "no_error" ==> (Holds(condition, state) <==> "error" !in state || state["error"] == Null)
    ensures condition !in {"never", "", "always", "success", "failure", "has_error", "no_error"} ==>
              Holds(condition, state)
  {
  }

  /** `e` leaves `id` and its condition does not hold it back in `state`. */
  ghost predicate Passes(e: Edge, id: NodeId, state: State) {
    && e.source == id && e.condition != "never"
    && (e.condition == "success" ==> "status" in state && state["status"] == Text("success"))
    && (e.condition == "failure" ==> "status" in state && state["status"] in {Text("failure"), Text("failed")})
    && (e.condition == "has_error" ==> "error" in state && state["error"] != Null)
    && (e.condition == "no_error" ==> "error" !in state || state["error"] == Null)
  }

  predicate Enabled(edge: Option<Edge>, id: NodeId, state: State) {
    edge.Some? && edge.value.source == id && Holds(edge.value.condition, state)
  }

  /** The next node is not looked up: it is a placeholder that carries only the identifier. */
  function Placeholder(id: NodeId): Node {
    Node(id, "Node-" + id, "function", false)
  }

  /** The targets of the enabled edges, in edge order. */
  function NextIds(edges: seq<Option<Edge>>, id: NodeId, state: State): seq<NodeId> {
    if edges == [] then []
    else
      var n := |edges| - 1;
      NextIds(edges[..n], id, state) + (if Enabled(edges[n], id, state) then [edges[n].value.target] else [])
  }

  lemma EnabledPasses(e: Edge, id: NodeId, state: State)
    ensures Enabled(Some(e), id, state) <==> Passes(e, id, state)
  {
    ConditionTable(e.condition, state);
  }

  /** The positions of the edges that pass, in order, each once. */
  ghost predicate Passing(edges: seq<Option<Edge>>, id: NodeId, state: State, at: seq<nat>) {
    && (forall i, j :: 0 <= i < j < |at| ==> at[i] < at[j])
    && (forall k: nat :: k in at <==> k < |edges| && edges[k].Some? && Passes(edges[k].value, id, state))
  }

  /** `ids` are the targets of the edges at these positions. */
  ghost predicate TargetsAt(edges: seq<Option<Edge>>, ids: seq<NodeId>, at: seq<nat>) {
    && |ids| == |at|
    && forall i :: 0 <= i < |at| ==> at[i] < |edges| && edges[at[i]].Some? && ids[i] == edges[at[i]].value.target
  }

  lemma PassingNext(edges: seq<Option<Edge>>, id: NodeId, state: State, at: seq<nat>)
    requires edges != [] && Passing(edges[..|edges| - 1], id, state, at)
    ensures var n := |edges| - 1;
            if edges[n].Some? && Passes(edges[n].value, id, state) then Passing(edges, id, state, at + [n])
            else Passing(edges, id, state, at)
  {
    var n := |edges| - 1;
    assert forall k: nat :: k < n ==> edges[..n][k] == edges[k];
    forall i | 0 <= i < |at|
      ensures at[i] < n
    {
      assert at[i] in at;
    }
    assert forall k: nat :: k in at + [n] <==> k in at || k == n;
  }

  lemma TargetsNext(edges: seq<Option<Edge>>, ids: seq<NodeId>, at: seq<nat>)
    requires edges != [] && TargetsAt(edges[..|edges| - 1], ids, at)
    ensures TargetsAt(edges, ids, at)
    ensures var n := |edges| - 1;
            edges[n].Some? ==> TargetsAt(edges, ids + [edges[n].value.target], at + [n])
  {
  }

  /** The edges whose targets are listed are exactly those that pass. */
  lemma {:induction false} NextEdges(edges: seq<Option<Edge>>, id: NodeId, state: State) returns (at: seq<nat>)
    ensures Passing(edges, id, state, at) && TargetsAt(edges, NextIds(edges, id, state), at)
  {
    if edges == [] {
      at := [];
    } else {
      var n := |edges| - 1;
      at := NextEdges(edges[..n], id, state);
      PassingNext(edges, id, state, at);
      TargetsNext(edges, NextIds(edges[..n], id, state), at);
      if edges[n].Some? {
        EnabledPasses(edges[n].value, id, state);
      }
      if Enabled(edges[n], id, state) {
        at := at + [n];
      }
    }
  }

  method GetNextNodes(id: NodeId, edges: seq<Option<Edge>>, state: State)
    returns (next: seq<Node>, ghost at: seq<nat>)
    requires forall i :: 0 <= i < |edges| ==> edges[i].Some?
    ensures var ids := NextIds(edges, id, state); next == seq(|ids|, i requires 0 <= i < |ids| => Placeholder(ids[i]))
    ensures Passing(edges, id, state, at) && |at| == |next|
    ensures forall i :: 0 <= i < |at| ==> at[i] < |edges|
    ensures forall i :: 0 <= i < |at| ==>
              var t := edges[at[i]].value.target; next[i] == Node(t, "Node-" + t, "function", false)
  {
    at := NextEdges(edges, id, state);
    next := [];
    for k := 0 to |edges|
      invariant |next| == |NextIds(edges[..k], id, state)|
      invariant forall i :: 0 <= i < |next| ==> next[i] == Placeholder(NextIds(edges[..k], id, state)[i])
    {
      assert edges[..k + 1][..k] == edges[..k];
      var edge := edges[k].value;
      if edge.source == id && Holds(edge.condition, state) {
        next := next + [Placeholder(edge.target)];
      }
    }
    assert edges[..|edges|] == edges;
  }

  /** The edge a run follows: the first enabled one. */
  function FirstEnabled(edges: seq<Option<Edge>>, id: NodeId, state: State): Option<NodeId> {
    if NextIds(edges, id, state) == [] then None else Some(NextIds(edges, id, state)[0])
  }

  lemma {:induction false} FirstEnabledIsFirst(edges: seq<Option<Edge>>, id: NodeId, state: State)
    ensures match FirstEnabled(edges, id, state)
            case None => forall i :: 0 <= i < |edges| ==> !Enabled(edges[i], id, state)
            case Some(t) => exists i :: 0 <= i < |edges| && Enabled(edges[i], id, state) && edges[i].value.target == t
                                        && forall j :: 0 <= j < i ==> !Enabled(edges[j], id, state)
  {
    if edges != [] {
      var n := |edges| - 1;
      FirstEnabledIsFirst(edges[..n], id, state);
      assert forall i :: 0 <= i < n ==> edges[..n][i] == edges[i];
      if FirstEnabled(edges[..n], id, state).Some? {
        var t := FirstEnabled(edges[..n], id, state).value;
        var i :| 0 <= i < n && Enabled(edges[..n][i], id, state) && edges[..n][i].value.target == t
                 && forall j :: 0 <= j < i ==> !Enabled(edges[..n][j], id, state);
        assert FirstEnabled(edges, id, state) == Some(t);
        assert Enabled(edges[i], id, state) && edges[i].value.target == t && forall j :: 0 <= j < i ==>
               !Enabled(edges[j], id, state);
      } else if Enabled(edges[n], id, state) {
        assert FirstEnabled(edges, id, state) == Some(edges[n].value.target);
      }
    }
  }

  /** The first edge from `id` that passes leads to `t`. */
  ghost predicate LeadsTo(edges: seq<Option<Edge>>, id: NodeId, state: State, t: NodeId) {
    exists k ::
      && 0 <= k < |edges| && edges[k].Some? && Passes(edges[k].value, id, state) && edges[k].value.target == t
      && forall j :: 0 <= j < k && edges[j].Some? ==> !Passes(edges[j].value, id, state)
  }

  /** No edge from `id` passes. */
  ghost predicate DeadEnd(edges: seq<Option<Edge>>, id: NodeId, state: State) {
    forall k :: 0 <= k < |edges| && edges[k].Some? ==> !Passes(edges[k].value, id, state)
  }

  lemma FollowedEdge(edges: seq<Option<Edge>>, id: NodeId, state: State)
    ensures match FirstEnabled(edges, id, state)
            case None => DeadEnd(edges, id, state)
            case Some(t) => LeadsTo(edges, id, state, t)
  {
    FirstEnabledIsFirst(edges, id, state);
    forall k | 0 <= k < |edges| && edges[k].Some?
      ensures Enabled(edges[k], id, state) <==> Passes(edges[k].value, id, state)
    {
      EnabledPasses(edges[k].value, id, state);
    }
  }

  // ---------------------------------------------------------------- executor.go

  /** A deterministic node processor. */
  type Processor = (Node, State) -> Result<State, string>

  datatype StepResult = StepResult(number: nat, nodeId: NodeId, nodeType: string, input: State, output: State)

  /** The node that step `i` of a run processes, and the state it is given. */
  ghost function NodeAt(entry: Node, steps: seq<StepResult>, i: nat): Node
    requires i < |steps|
  {
    if i == 0 then entry else Placeholder(steps[i].nodeId)
  }

  ghost function StateBefore(start: State, steps: seq<StepResult>, i: nat): State
    requires i <= |steps|
  {
    if i == 0 then start else steps[i - 1].output
  }

  /** Step `i` is numbered, records its node and the outcome of processing it; its input is not kept. */
  ghost predicate IsStep(process: Processor, entry: Node, start: State, steps: seq<StepResult>, i: nat)
    requires i < |steps|
  {
    && steps[i].number == i + 1
    && steps[i].nodeId == NodeAt(entry, steps, i).id
    && steps[i].nodeType == NodeAt(entry, steps, i).kind
    && process(NodeAt(entry, steps, i), StateBefore(start, steps, i)) == Success(steps[i].output)
    && steps[i].input == steps[i].output
  }

  /** The recorded steps of a run that has come this far. */
  ghost predicate IsTrace(
    process: Processor, edges: seq<Option<Edge>>, entry: Node, start: State, steps: seq<StepResult>)
  {
    && (forall i :: 0 <= i < |steps| ==> IsStep(process, entry, start, steps, i))
    && (forall i :: 0 <= i < |steps| - 1 ==>
        FirstEnabled(edges, steps[i].nodeId, steps[i].output) == Some(steps[i + 1].nodeId))
  }

  /** The node a run would process next, if it is not at its end. */
  ghost function Following(edges: seq<Option<Edge>>, entry: Node, steps: seq<StepResult>): Option<Node> {
    if steps == [] then Some(entry)
    else
      match FirstEnabled(edges, steps[|steps| - 1].nodeId, steps[|steps| - 1].output)
      case None => None
      case Some(id) => Some(Placeholder(id))
  }

  class ExecutionContext {
    var currentStep: nat
    var state: State
    const maxSteps: int

    constructor (state: State, maxSteps: int)
      ensures this.state == state && this.maxSteps == maxSteps && currentStep == 0
    {
      this.state, this.maxSteps, this.currentStep := state, maxSteps, 0;
    }
  }

  /** One step: process, record, and choose the next node. The state is replaced before it is recorded. */
  method RunSequentialStep(
    ctx: ExecutionContext, process: Processor, edges: seq<Option<Edge>>, current: Node, step: nat)
    returns (next: Option<Node>, recorded: Result<StepResult, string>)
    requires forall i :: 0 <= i < |edges| ==> edges[i].Some?
    modifies ctx`state
    ensures match process(current, old(ctx.state))
            case Failure(e) => recorded == Failure(e) && next == None && ctx.state == old(ctx.state)
            case Success(output) =>
              && ctx.state == output
              && recorded == Success(StepResult(step + 1, current.id, current.kind, output, output))
              && next == match FirstEnabled(edges, current.id, output)
                         case None => None
                         case Some(id) => Some(Placeholder(id))
  {
    var output := process(current, ctx.state);
    if output.Failure? {
      return None, Failure(output.error);
    }
    ctx.state := output.value;
    recorded := Success(StepResult(step + 1, current.id, current.kind, ctx.state, output.value));
    var nextNodes, _ := GetNextNodes(current.id, edges, ctx.state);
    next := if |nextNodes| == 0 then None else Some(nextNodes[0]);
  }

  /** A run that has ended: its trace and its state, and whether it failed, reached the limit or found no edge. */
  ghost predicate Ran(
    process: Processor, edges: seq<Option<Edge>>, entry: Node, start: State, steps: seq<StepResult>,
    err: Option<string>, output: State, limit: nat)
  {
    && IsTrace(process, edges, entry, start, steps) && output == StateBefore(start, steps, |steps|) && |steps| <= limit
    && (err.None? ==> |steps| == limit || Following(edges, entry, steps).None?)
    && (err.Some? ==> && |steps| < limit && Following(edges, entry, steps).Some?
                      && process(Following(edges, entry, steps).value, output) == Failure(err.value))
  }

  /** The step loop. It ends at a node without an enabled edge, at the limit, or with a failing node. */
  method ExecuteGraph(
    ctx: ExecutionContext, process: Processor, nodes: map<NodeId, Option<Node>>, edges: seq<Option<Edge>>,
                      entryPoint: NodeId)
    returns (steps: seq<StepResult>, err: Option<string>)
    requires forall i :: 0 <= i < |edges| ==> edges[i].Some?
    modifies ctx
    ensures ctx.currentStep == old(ctx.currentStep) + |steps| && |steps| <= LimitOf(ctx.maxSteps)
    ensures entryPoint !in nodes || nodes[entryPoint].None? ==>
            steps == [] && err == None && ctx.state == old(ctx.state)
    ensures entryPoint in nodes && nodes[entryPoint].Some? ==>
              Ran(process, edges, nodes[entryPoint].value, old(ctx.state), steps, err, ctx.state, LimitOf(ctx.maxSteps))
  {
    steps := [];
    err := None;
    var current: Option<Node> := if entryPoint in nodes then nodes[entryPoint] else None;
    ghost var entry := current;
    var step := 0;
    while step < LimitOf(ctx.maxSteps) && current.Some?
      invariant step == |steps| <= LimitOf(ctx.maxSteps) && ctx.currentStep == old(ctx.currentStep) + |steps|
                && err == None
      invariant entry.None? ==> current.None? && steps == [] && ctx.state == old(ctx.state)
      invariant entry.Some? ==> current == Following(edges, entry.value, steps)
      invariant entry.Some? ==> IsTrace(process, edges, entry.value, old(ctx.state), steps)
      invariant entry.Some? ==> ctx.state == StateBefore(old(ctx.state), steps, |steps|)
      decreases LimitOf(ctx.maxSteps) - step
    {
      var next, recorded := RunSequentialStep(ctx, process, edges, current.value, step);
      if recorded.Failure? {
        return steps, Some(recorded.error);
      }
      ExtendTrace(process, edges, entry.value, old(ctx.state), steps, current.value, recorded.value);
      steps := steps + [recorded.value];
      ctx.currentStep := ctx.currentStep + 1;
      current := next;
      step := step + 1;
    }
  }

  lemma ExtendTrace(
    process: Processor, edges: seq<Option<Edge>>, entry: Node, start: State, steps: seq<StepResult>, node: Node,
    r: StepResult)
    requires IsTrace(process, edges, entry, start, steps) && Following(edges, entry, steps) == Some(node)
    requires process(node, StateBefore(start, steps, |steps|)) == Success(r.output)
    requires r == StepResult(|steps| + 1, node.id, node.kind, r.output, r.output)
    ensures IsTrace(process, edges, entry, start, steps + [r])
  {
    var longer := steps + [r];
    forall i | 0 <= i < |longer|
      ensures IsStep(process, entry, start, longer, i)
    {
      assert StateBefore(start, longer, i) == StateBefore(start, steps, i);
      if i < |steps| {
        assert IsStep(process, entry, start, steps, i);
      }
    }
  }

  // ---------------------------------------------------------------- acyclic graphs

  function NodeIds(steps: seq<StepResult>): seq<NodeId> {
    seq(|steps|, i requires 0 <= i < |steps| => steps[i].nodeId)
  }

  /** On an acyclic graph no node occurs twice on a path. */
  lemma AcyclicPathIsSimple(edges: seq<Option<Edge>>, p: seq<NodeId>)
    requires IsPath(edges, p) && !Cyclic(edges)
    ensures Distinct(p)
  {
    if i, j :| 0 <= i < j < |p| && p[i] == p[j] {
      var c := p[i..j + 1];
      forall k | 0 <= k < |c| - 1
        ensures Arc(edges, c[k], c[k + 1])
      {
        assert Arc(edges, p[i + k], p[i + k + 1]);
      }
      assert IsCycle(edges, c);
    }
  }

  /** A simple path with at least one edge has at most as many nodes as the graph. */
  lemma SimplePathFits(nodes: set<NodeId>, edges: seq<Option<Edge>>, p: seq<NodeId>)
    requires Closed(nodes, edges) && IsPath(edges, p) && Distinct(p) && |p| >= 2
    ensures |p| <= |nodes|
  {
    forall i | 0 <= i < |p|
      ensures p[i] in nodes
    {
      if i > 0 {
        assert Arc(edges, p[i - 1], p[i]);
      } else {
        assert Arc(edges, p[0], p[1]);
      }
    }
    DistinctFits(nodes, p);
  }

  lemma {:induction false} DistinctFits(nodes: set<NodeId>, p: seq<NodeId>)
    requires Distinct(p) && forall i :: 0 <= i < |p| ==> p[i] in nodes
    ensures |p| <= |nodes|
  {
    if p != [] {
      var n := |p| - 1;
      DistinctFits(nodes - {p[n]}, p[..n]);
    }
  }

  lemma TraceIsPath(process: Processor, edges: seq<Option<Edge>>, entry: Node, start: State, steps: seq<StepResult>)
    requires IsTrace(process, edges, entry, start, steps)
    ensures IsPath(edges, NodeIds(steps))
    ensures steps != [] && Following(edges, entry, steps).Some?
            ==> IsPath(edges, NodeIds(steps) + [Following(edges, entry, steps).value.id])
  {
    var ids := NodeIds(steps);
    forall i | 0 <= i < |steps|
      ensures FirstEnabled(edges, steps[i].nodeId, steps[i].output).Some?
              ==> Arc(edges, steps[i].nodeId, FirstEnabled(edges, steps[i].nodeId, steps[i].output).value)
    {
      FirstEnabledIsFirst(edges, steps[i].nodeId, steps[i].output);
    }
  }

  /** Each step of a trace follows the first edge that its recorded output lets through; at its end there is none. */
  lemma TraceFollows(process: Processor, edges: seq<Option<Edge>>, entry: Node, start: State, steps: seq<StepResult>)
    requires IsTrace(process, edges, entry, start, steps)
    ensures forall i :: 0 <= i < |steps| - 1 ==>
              LeadsTo(edges, steps[i].nodeId, steps[i].output, steps[i + 1].nodeId)
    ensures steps != [] && Following(edges, entry, steps).None? ==>
              DeadEnd(edges, steps[|steps| - 1].nodeId, steps[|steps| - 1].output)
    ensures steps != [] && Following(edges, entry, steps).Some? ==>
              var last := steps[|steps| - 1];
              LeadsTo(edges, last.nodeId, last.output, Following(edges, entry, steps).value.id)
  {
    forall i | 0 <= i < |steps|
      ensures match FirstEnabled(edges, steps[i].nodeId, steps[i].output)
              case None => DeadEnd(edges, steps[i].nodeId, steps[i].output)
              case Some(t) => LeadsTo(edges, steps[i].nodeId, steps[i].output, t)
    {
      FollowedEdge(edges, steps[i].nodeId, steps[i].output);
    }
  }

  /**
   Runs on acyclic graphs. A trace visits a simple path; it has no more steps than the graph has
   nodes; and with a limit of at least that many, a run that did not fail has stopped at a node from
   which no edge is enabled. The entry node need not carry the identifier it is filed under.
   */
  lemma AcyclicRun(
    process: Processor, nodes: map<NodeId, Option<Node>>, edges: seq<Option<Edge>>, entryPoint: NodeId,
    start: State, steps: seq<StepResult>, limit: nat)
    requires Closed(nodes.Keys, edges) && !Cyclic(edges)
    requires entryPoint in nodes && nodes[entryPoint].Some?
    requires IsTrace(process, edges, nodes[entryPoint].value, start, steps)
    requires |steps| == limit || Following(edges, nodes[entryPoint].value, steps).None?
    ensures Distinct(NodeIds(steps)) && IsPath(edges, NodeIds(steps)) && |steps| <= |nodes|
    ensures limit >= |nodes| ==> Following(edges, nodes[entryPoint].value, steps).None?
  {
    var entry := nodes[entryPoint].value;
    TraceIsPath(process, edges, entry, start, steps);
    AcyclicPathIsSimple(edges, NodeIds(steps));
    assert |nodes.Keys| >= 1;
    if |steps| >= 2 {
      SimplePathFits(nodes.Keys, edges, NodeIds(steps));
    }
    if Following(edges, entry, steps).Some? && steps != [] {
      var longer := NodeIds(steps) + [Following(edges, entry, steps).value.id];
      AcyclicPathIsSimple(edges, longer);
      SimplePathFits(nodes.Keys, edges, longer);
    }
  }

  /** Each step leads on by the first edge that its output lets through; a run below its limit ends in a dead end. */
  ghost predicate Followed(
    edges: seq<Option<Edge>>, entry: Node, steps: seq<StepResult>, failed: Option<string>, limit: nat)
  {
    && (forall i :: 0 <= i < |steps| - 1 ==>
          LeadsTo(edges, steps[i].nodeId, steps[i].output, steps[i + 1].nodeId))
    && (failed.None? && steps != [] && |steps| < limit ==>
          DeadEnd(edges, steps[|steps| - 1].nodeId, steps[|steps| - 1].output))
  }

  lemma RanFollowed(
    process: Processor, edges: seq<Option<Edge>>, entry: Node, start: State, steps: seq<StepResult>,
    err: Option<string>, output: State, limit: nat)
    requires Ran(process, edges, entry, start, steps, err, output, limit)
    ensures Followed(edges, entry, steps, err, limit)
  {
    TraceFollows(process, edges, entry, start, steps);
  }

  lemma AcyclicFacts(
    process: Processor, nodes: map<NodeId, Option<Node>>, edges: seq<Option<Edge>>, entryPoint: NodeId,
    start: State, steps: seq<StepResult>, err: Option<string>, output: State, limit: nat)
    requires Closed(nodes.Keys, edges) && !Cyclic(edges) && entryPoint in nodes && nodes[entryPoint].Some?
    requires Ran(process, edges, nodes[entryPoint].value, start, steps, err, output, limit)
    ensures Distinct(NodeIds(steps)) && |steps| <= |nodes|
    ensures err.None? && limit >= |nodes| ==> Following(edges, nodes[entryPoint].value, steps).None?
  {
    TraceIsPath(process, edges, nodes[entryPoint].value, start, steps);
    AcyclicPathIsSimple(edges, NodeIds(steps));
    assert |nodes.Keys| >= 1;
    if |steps| >= 2 {
      SimplePathFits(nodes.Keys, edges, NodeIds(steps));
    }
    if err.None? {
      AcyclicRun(process, nodes, edges, entryPoint, start, steps, limit);
    }
  }

  /** `Execute`: validate first, always; then run. */
  method Execute(g: Graph?, validateCycles: bool, process: Processor, input: State, maxSteps: int)
    returns (steps: seq<StepResult>, rejected: Option<GraphError>, failed: Option<string>, output: State)
    modifies if g == null then {} else {g}
    ensures rejected.Some? ==> steps == [] && failed == None && output == input
    ensures rejected.None? <==>
              && g != null && WellFormed(g.name, g.nodes, old(g.edges), g.entryPoint)
              && (validateCycles ==> !Cyclic(old(g.edges)))
    ensures rejected.None? ==> g.nodes == old(g.nodes) && g.entryPoint == old(g.entryPoint)
    ensures rejected.None? ==>
              var entry, limit := g.nodes[g.entryPoint].value, if maxSteps > 0 then maxSteps else 100;
              && Ran(process, g.edges, entry, input, steps, failed, output, limit)
              && Followed(g.edges, entry, steps, failed, limit)
    ensures rejected.None? && validateCycles ==> Distinct(NodeIds(steps)) && |steps| <= |g.nodes|
    ensures rejected.None? && validateCycles && failed.None? && LimitOf(maxSteps) >= |g.nodes| ==>
              Following(g.edges, g.nodes[g.entryPoint].value, steps).None?
  {
    steps, failed, output := [], None, input;
    rejected := ValidateCoreGraph(g, validateCycles);
    if rejected.Some? {
      return;
    }
    AcceptedEdges(g.nodes, old(g.edges));
    NormalizeKeepsArcs(old(g.edges));
    var ctx := new ExecutionContext(input, maxSteps);
    assert NodeFault(g.nodes[g.entryPoint]).None?;
    steps, failed := ExecuteGraph(ctx, process, g.nodes, g.edges, g.entryPoint);
    output := ctx.state;
    RanFollowed(process, g.edges, g.nodes[g.entryPoint].value, input, steps, failed, output, LimitOf(maxSteps));
    if validateCycles {
      AcyclicFacts(process, g.nodes, g.edges, g.entryPoint, input, steps, failed, output, LimitOf(maxSteps));
    }
  }
}
