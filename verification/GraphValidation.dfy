/**
 Structural validation of a graph and its cycle check (pkg/validation/graph.go,
 internal/core/graph). The depth-first search with three colours is proved exact: it reports a
 cycle if and only if the graph has one.
 */
module GraphValidation {
  import opened Wrappers
  import opened Sequences

  type NodeId = string

  datatype Node = Node(id: NodeId, name: string, kind: string, conditional: bool)

  datatype Edge = Edge(source: NodeId, target: NodeId, kind: string, condition: string)

  datatype GraphError =
    | NilGraph | InvalidGraphName | NoEntryPoint | InvalidEntryPoint | CyclicGraph
    | NilNode | InvalidNodeId | InvalidNodeName | InvalidNodeType | MissingConditional
    | NilEdge | InvalidSource | InvalidTarget | SelfLoop | SourceNodeNotFound | TargetNodeNotFound | DuplicateEdge

  /** A nil pointer in the node map or the edge list is `None`. */
  class Graph {
    var name: string
    var nodes: map<NodeId, Option<Node>>
    var edges: seq<Option<Edge>>
    var entryPoint: NodeId

    constructor (name: string, nodes: map<NodeId, Option<Node>>, edges: seq<Option<Edge>>, entryPoint: NodeId)
      ensures this.name == name && this.nodes == nodes && this.edges == edges && this.entryPoint == entryPoint
    {
      this.name, this.nodes, this.edges, this.entryPoint := name, nodes, edges, entryPoint;
    }
  }

  // ---------------------------------------------------------------- cycles

  ghost predicate Arc(edges: seq<Option<Edge>>, u: NodeId, v: NodeId) {
    exists i :: 0 <= i < |edges| && edges[i].Some? && edges[i].value.source == u && edges[i].value.target == v
  }

  ghost predicate IsPath(edges: seq<Option<Edge>>, p: seq<NodeId>) {
    forall i :: 0 <= i < |p| - 1 ==> Arc(edges, p[i], p[i + 1])
  }

  /** A closed path with at least one edge. */
  ghost predicate IsCycle(edges: seq<Option<Edge>>, p: seq<NodeId>) {
    |p| >= 2 && p[0] == p[|p| - 1] && IsPath(edges, p)
  }

  ghost predicate Cyclic(edges: seq<Option<Edge>>) {
    exists p :: IsCycle(edges, p)
  }

  /** Every edge between nodes. */
  ghost predicate Closed(nodes: set<NodeId>, edges: seq<Option<Edge>>) {
    forall i :: 0 <= i < |edges| ==> edges[i].Some? && edges[i].value.source in nodes && edges[i].value.target in nodes
  }

  function Successors(edges: seq<Option<Edge>>, u: NodeId): seq<NodeId> {
    if edges == [] then []
    else
      var n := |edges| - 1;
      Successors(edges[..n], u) + (if edges[n].Some? && edges[n].value.source == u then [edges[n].value.target] else [])
  }

  lemma {:induction false} SuccessorsAreArcs(edges: seq<Option<Edge>>, u: NodeId, v: NodeId)
    ensures v in Successors(edges, u) <==> Arc(edges, u, v)
  {
    if edges != [] {
      var n := |edges| - 1;
      SuccessorsAreArcs(edges[..n], u, v);
      assert forall i :: 0 <= i < n ==> edges[..n][i] == edges[i];
      if Arc(edges, u, v) && !Arc(edges[..n], u, v) {
        assert edges[n].Some? && edges[n].value.source == u && edges[n].value.target == v;
      }
    }
  }

  function Targets(adj: map<NodeId, seq<NodeId>>, u: NodeId): seq<NodeId> {
    if u in adj then adj[u] else []
  }

  /** The adjacency lists of `hasCycle`. */
  method Adjacency(edges: seq<Option<Edge>>) returns (adj: map<NodeId, seq<NodeId>>)
    requires forall i :: 0 <= i < |edges| ==> edges[i].Some?
    ensures forall u :: Targets(adj, u) == Successors(edges, u)
  {
    adj := map[];
    for i := 0 to |edges|
      invariant forall u :: Targets(adj, u) == Successors(edges[..i], u)
    {
      var e := edges[i].value;
      assert edges[..i + 1][..i] == edges[..i];
      adj := adj[e.source := Targets(adj, e.source) + [e.target]];
    }
    assert edges[..|edges|] == edges;
  }

  // ---------------------------------------------------------------- topological orders

  /** Every successor of a listed node is listed before it. */
  ghost predicate Topological(edges: seq<Option<Edge>>, order: seq<NodeId>) {
    Distinct(order) && forall i, v :: 0 <= i < |order| && v in Successors(edges, order[i]) ==> v in order[..i]
  }

  ghost function Position(order: seq<NodeId>, v: NodeId): (i: nat)
    requires v in order
    ensures i < |order| && order[i] == v
  {
    var i :| 0 <= i < |order| && order[i] == v; i
  }

  lemma {:induction false} PathDescends(edges: seq<Option<Edge>>, order: seq<NodeId>, p: seq<NodeId>)
    requires Topological(edges, order) && IsPath(edges, p) && |p| >= 1 && p[0] in order
    ensures p[|p| - 1] in order
    ensures Position(order, p[|p| - 1]) + |p| - 1 <= Position(order, p[0])
    decreases |p|
  {
    if |p| >= 2 {
      var n := |p| - 1;
      var q := p[..n];
      PathDescends(edges, order, q);
      assert Arc(edges, p[n - 1], p[n]);
      SuccessorsAreArcs(edges, p[n - 1], p[n]);
      var i := Position(order, p[n - 1]);
      assert p[n] in order[..i];
      var j :| 0 <= j < i && order[j] == p[n];
      assert Position(order, p[n]) == j;
    }
  }

  /** Where all nodes are listed in topological order there is no cycle. */
  lemma TopologicalIsAcyclic(nodes: set<NodeId>, edges: seq<Option<Edge>>, order: seq<NodeId>)
    requires Closed(nodes, edges) && Topological(edges, order) && forall v :: v in nodes ==> v in order
    ensures !Cyclic(edges)
  {
    if p :| IsCycle(edges, p) {
      assert Arc(edges, p[0], p[1]);
      PathDescends(edges, order, p);
    }
  }

  // ---------------------------------------------------------------- the search

  /** A node that is in neither colour is white. */
  datatype Color = Gray | Black

  class CycleSearch {
    const edges: seq<Option<Edge>>
    ghost const nodes: set<NodeId>
    const adj: map<NodeId, seq<NodeId>>
    var color: map<NodeId, Color>
    ghost var stack: seq<NodeId>   // the gray nodes, as the path from the root of the search
    ghost var order: seq<NodeId>   // the black nodes, in the order in which they were finished

    ghost predicate Valid()
      reads this
    {
      && Closed(nodes, edges) && color.Keys <= nodes
      && (forall u :: Targets(adj, u) == Successors(edges, u))
      && (forall v :: v in stack <==> v in color && color[v].Gray?)
      && (forall v :: v in order <==> v in color && color[v].Black?)
      && IsPath(edges, stack) && Distinct(stack)
      && Topological(edges, order)
    }

    constructor (edges: seq<Option<Edge>>, adj: map<NodeId, seq<NodeId>>, ghost nodes: set<NodeId>)
      requires Closed(nodes, edges) && forall u :: Targets(adj, u) == Successors(edges, u)
      ensures Valid() && this.edges == edges && this.nodes == nodes
      ensures color == map[] && stack == [] && order == []
    {
      this.edges, this.adj, this.nodes, this.color := edges, adj, nodes, map[];
      this.stack, this.order := [], [];
    }

    /**
     The recursive closure `dfs`: a gray successor closes a cycle along the stack; without one, `u`
     and everything reachable from it end black, after all of their successors.
     */
    method Dfs(u: NodeId) returns (found: bool)
      requires Valid() && u in nodes && u !in color
      requires stack != [] ==> Arc(edges, stack[|stack| - 1], u)
      modifies this
      ensures found ==> Cyclic(edges)
      ensures !found ==> Valid() && stack == old(stack) && u in order && old(color.Keys) <= color.Keys
      ensures !found ==> old(order) <= order
      decreases nodes - color.Keys, 0
    {
      Enter(u);
      Smaller(nodes, color.Keys, old(color.Keys), u);
      found := VisitAll(u);
      if found {
        return;
      }
      assert (old(stack) + [u])[..|old(stack)|] == old(stack);
      Finish(u);
    }

    /** All successors of the gray node on top of the stack, one after the other. */
    method VisitAll(u: NodeId) returns (found: bool)
      requires Valid() && stack != [] && stack[|stack| - 1] == u
      modifies this
      ensures found ==> Cyclic(edges)
      ensures !found ==> Valid() && stack == old(stack) && old(color.Keys) <= color.Keys && old(order) <= order
      ensures !found ==> forall v :: v in Successors(edges, u) ==> v in order
      decreases nodes - color.Keys, 2
    {
      var targets := Targets(adj, u);
      found := false;
      for i := 0 to |targets|
        invariant Valid() && stack == old(stack) && old(color.Keys) <= color.Keys
        invariant old(order) <= order && targets[..i] <= targets
        invariant forall v :: v in targets[..i] ==> v in order
      {
        SuccessorsAreArcs(edges, u, targets[i]);
        ghost var before := order;
        found := Visit(u, targets[i]);
        if found {
          return;
        }
        StillListed(old(order), before, order);
        assert targets[..i + 1] == targets[..i] + [targets[i]];
      }
      assert targets[..|targets|] == targets;
      return false;
    }

    /** One successor of the gray node on top of the stack: a back edge, a node to search, or a finished one. */
    method Visit(u: NodeId, v: NodeId) returns (found: bool)
      requires Valid() && stack != [] && stack[|stack| - 1] == u && Arc(edges, u, v)
      modifies this
      ensures found ==> Cyclic(edges)
      ensures !found ==> Valid() && stack == old(stack) && v in order && old(color.Keys) <= color.Keys
      ensures !found ==> old(order) <= order
      decreases nodes - color.Keys, 1
    {
      if v in color && color[v] == Gray {
        CloseCycle(edges, stack, v);
        return true;
      }
      if v !in color {
        found := Dfs(v);
        return;
      }
      return false;
    }

    /** `u` turns gray on top of the stack. */
    method Enter(u: NodeId)
      requires Valid() && u in nodes && u !in color
      requires stack != [] ==> Arc(edges, stack[|stack| - 1], u)
      modifies this
      ensures Valid() && stack == old(stack) + [u] && order == old(order) && color == old(color)[u := Gray]
    {
      color := color[u := Gray];
      stack := stack + [u];
      assert forall v :: v in stack <==> v in old(stack) || v == u;
    }

    /** `u` has only black successors left and turns black itself. */
    ghost method FinishOrder(u: NodeId)
      requires u !in order && Topological(edges, order)
      requires forall v :: v in Successors(edges, u) ==> v in order
      modifies `order
      ensures order == old(order) + [u] && Topological(edges, order)
    {
      order := order + [u];
      assert order[..|order| - 1] == old(order);
      forall i, v | 0 <= i < |order| && v in Successors(edges, order[i])
        ensures v in order[..i]
      {
        if i < |old(order)| {
          assert order[..i] == old(order)[..i];
        }
      }
    }

    method Finish(u: NodeId)
      requires Valid() && stack != [] && stack[|stack| - 1] == u && u in nodes
      requires forall v :: v in Successors(edges, u) ==> v in order
      modifies this
      ensures Valid() && stack == old(stack)[..|old(stack)| - 1] && order == old(order) + [u]
      ensures color == old(color)[u := Black]
    {
      FinishOrder(u);
      PopLast(edges, stack);
      color := color[u := Black];
      stack := stack[..|stack| - 1];
    }
  }

  lemma StillListed(start: seq<NodeId>, before: seq<NodeId>, now: seq<NodeId>)
    requires start <= before <= now
    ensures start <= now && forall v :: v in before ==> v in now
  {
  }

  /** What is left of a path without repetitions when its last node is taken away. */
  lemma PopLast(edges: seq<Option<Edge>>, stack: seq<NodeId>)
    requires stack != [] && IsPath(edges, stack) && Distinct(stack)
    ensures var n := |stack| - 1;
            && IsPath(edges, stack[..n]) && Distinct(stack[..n])
            && forall v :: v in stack[..n] <==> v in stack && v != stack[n]
  {
  }

  lemma Smaller(nodes: set<NodeId>, now: set<NodeId>, before: set<NodeId>, u: NodeId)
    requires u in nodes && u !in before && before + {u} <= now
    ensures nodes - now < nodes - before
  {
    assert u in nodes - before && u !in nodes - now;
  }

  /** The stack from a gray node to its top, closed by the edge back to that node. */
  lemma CloseCycle(edges: seq<Option<Edge>>, stack: seq<NodeId>, v: NodeId)
    requires IsPath(edges, stack) && v in stack && Arc(edges, stack[|stack| - 1], v)
    ensures Cyclic(edges)
  {
    var k :| 0 <= k < |stack| && stack[k] == v;
    var p := stack[k..] + [v];
    forall i | 0 <= i < |p| - 1
      ensures Arc(edges, p[i], p[i + 1])
    {
      if i < |p| - 2 {
        assert p[i] == stack[k + i] && p[i + 1] == stack[k + i + 1];
      } else {
        assert p[i] == stack[|stack| - 1];
      }
    }
    assert IsCycle(edges, p);
  }

  /** Cycle detection is exact, in whatever order the nodes are visited. */
  method HasCycle(nodes: map<NodeId, Option<Node>>, edges: seq<Option<Edge>>) returns (cycle: bool)
    requires Closed(nodes.Keys, edges)
    ensures cycle <==> Cyclic(edges)
  {
    var adj := Adjacency(edges);
    var search := new CycleSearch(edges, adj, nodes.Keys);
    var todo := nodes.Keys;
    while todo != {}
      invariant fresh(search) && search.Valid() && search.stack == [] && search.edges == edges
                && search.nodes == nodes.Keys
      invariant todo <= nodes.Keys && forall v :: v in nodes.Keys - todo ==> v in search.order
      decreases |todo|
    {
      var id :| id in todo;
      todo := todo - {id};
      if id !in search.color {
        var found := search.Dfs(id);
        if found {
          return true;
        }
      }
    }
    TopologicalIsAcyclic(nodes.Keys, edges, search.order);
    return false;
  }

  // ---------------------------------------------------------------- validation

  function NodeFault(n: Option<Node>): Option<GraphError> {
    if n.None? then Some(NilNode)
    else if n.value.id == "" then Some(InvalidNodeId)
    else if n.value.name == "" then Some(InvalidNodeName)
    else if n.value.kind == "" then Some(InvalidNodeType)
    else if n.value.kind == "conditional" && !n.value.conditional then Some(MissingConditional)
    else None
  }

  /** Which fault of a node is reported: the first of five, and none iff there is none. */
  lemma NodeFaultMeans(n: Option<Node>)
    ensures NodeFault(n) == None <==>
              && n.Some? && n.value.id != "" && n.value.name != "" && n.value.kind != ""
              && (n.value.kind == "conditional" ==> n.value.conditional)
    ensures n == None <==> NodeFault(n) == Some(NilNode)
    ensures n.Some? && |n.value.id| == 0 <==> NodeFault(n) == Some(InvalidNodeId)
    ensures n.Some? && |n.value.id| > 0 && |n.value.name| == 0 <==> NodeFault(n) == Some(InvalidNodeName)
    ensures n.Some? && |n.value.id| > 0 && |n.value.name| > 0 && |n.value.kind| == 0 <==>
              NodeFault(n) == Some(InvalidNodeType)
    ensures NodeFault(n) == Some(MissingConditional) <==>
              && n.Some? && |n.value.id| > 0 && |n.value.name| > 0
              && n.value.kind == "conditional" && !n.value.conditional
  {
  }

  function BasicFault(name: string, nodes: map<NodeId, Option<Node>>, entryPoint: NodeId): Option<GraphError> {
    if name == "" then Some(InvalidGraphName)
    else if entryPoint == "" then Some(NoEntryPoint)
    else if entryPoint !in nodes then Some(InvalidEntryPoint)
    else None
  }

  lemma BasicFaultMeans(name: string, nodes: map<NodeId, Option<Node>>, entryPoint: NodeId)
    ensures BasicFault(name, nodes, entryPoint) == None <==> name != "" && entryPoint != "" && entryPoint in nodes
    ensures BasicFault(name, nodes, entryPoint) == Some(InvalidGraphName) <==> |name| == 0
    ensures BasicFault(name, nodes, entryPoint) == Some(NoEntryPoint) <==> |name| > 0 && |entryPoint| == 0
    ensures BasicFault(name, nodes, entryPoint) == Some(InvalidEntryPoint) <==>
              |name| > 0 && |entryPoint| > 0 && entryPoint !in nodes
  {
  }

  /** An edge without a type becomes a default edge once its endpoints have been accepted. */
  function Normalize(e: Option<Edge>): Option<Edge> {
    if e.Some? && e.value.source != "" && e.value.target != "" && e.value.source != e.value.target && e.value.kind == ""
    then Some(e.value.(kind := "default")) else e
  }

  /** Only an empty type is filled in, with "default", and only on an edge that joins two different names. */
  lemma NormalizeMeans(e: Edge)
    ensures var n := Normalize(Some(e));
            && n.Some? && n.value.source == e.source && n.value.target == e.target && n.value.condition == e.condition
            && (e.kind != "" ==> n.value.kind == e.kind)
            && (e.kind == "" && |e.source| > 0 && |e.target| > 0 && e.source != e.target ==> n.value.kind == "default")
            && (e.source == "" || e.target == "" || e.source == e.target ==> n.value == e)
    ensures Normalize(None) == None
  {
  }

  function NormalizeAll(edges: seq<Option<Edge>>): (r: seq<Option<Edge>>)
    ensures |r| == |edges|
  {
    seq(|edges|, i requires 0 <= i < |edges| => Normalize(edges[i]))
  }

  /** The duplicate keys of edges that have been accepted: their normalized contents. */
  function SeenKeys(edges: seq<Option<Edge>>): set<Edge> {
    if edges == [] then {}
    else
      var n := |edges| - 1;
      SeenKeys(edges[..n]) + (if edges[n].Some? then {Normalize(edges[n]).value} else {})
  }

  lemma {:induction false} SeenKey(edges: seq<Option<Edge>>, k: Edge)
    ensures k in SeenKeys(edges) <==> exists i :: 0 <= i < |edges| && Normalize(edges[i]) == Some(k)
  {
    if edges != [] {
      var n := |edges| - 1;
      SeenKey(edges[..n], k);
      assert forall i :: 0 <= i < n ==> edges[..n][i] == edges[i];
      if i :| 0 <= i < |edges| && Normalize(edges[i]) == Some(k) {
        assert i < n ==> Normalize(edges[..n][i]) == Some(k);
      }
    }
  }

  /** The fault of an edge, given the keys of the edges before it. */
  function EdgeFault(nodes: map<NodeId, Option<Node>>, seen: set<Edge>, e: Option<Edge>): Option<GraphError> {
    if e.None? then Some(NilEdge)
    else if e.value.source == "" then Some(InvalidSource)
    else if e.value.target == "" then Some(InvalidTarget)
    else if e.value.source == e.value.target then Some(SelfLoop)
    else if e.value.source !in nodes then Some(SourceNodeNotFound)
    else if e.value.target !in nodes then Some(TargetNodeNotFound)
    else if Normalize(e).value in seen then Some(DuplicateEdge)
    else None
  }

  /** Which fault of an edge is reported: the first of seven, in this order. */
  lemma EdgeFaultMeans(nodes: map<NodeId, Option<Node>>, seen: set<Edge>, e: Edge)
    ensures EdgeFault(nodes, seen, None) == Some(NilEdge)
    ensures EdgeFault(nodes, seen, Some(e)) == Some(InvalidSource) <==> |e.source| == 0
    ensures EdgeFault(nodes, seen, Some(e)) == Some(InvalidTarget) <==> |e.source| > 0 && |e.target| == 0
    ensures EdgeFault(nodes, seen, Some(e)) == Some(SelfLoop) <==> |e.source| > 0 && e.source == e.target
    ensures |e.source| > 0 && |e.target| > 0 && e.source != e.target ==>
              var fault := EdgeFault(nodes, seen, Some(e));
              && (fault == Some(SourceNodeNotFound) <==> e.source !in nodes)
              && (fault == Some(TargetNodeNotFound) <==> e.source in nodes && e.target !in nodes)
              && (e.source in nodes && e.target in nodes ==>
                    fault == if Normalize(Some(e)).value in seen then Some(DuplicateEdge) else None)
  {
  }

  /** The fault of the edge at index `i`. */
  function FaultAt(nodes: map<NodeId, Option<Node>>, edges: seq<Option<Edge>>, i: nat): Option<GraphError>
    requires i < |edges|
  {
    EdgeFault(nodes, SeenKeys(edges[..i]), edges[i])
  }

  /** The first `n` edges are acceptable, one after the other. */
  ghost predicate EdgesAccepted(nodes: map<NodeId, Option<Node>>, edges: seq<Option<Edge>>, n: nat)
    requires n <= |edges|
  {
    forall i :: 0 <= i < n ==> FaultAt(nodes, edges, i).None?
  }

  /** What acceptance of all edges means: real edges between different nodes, and no two alike. */
  lemma AcceptedEdges(nodes: map<NodeId, Option<Node>>, edges: seq<Option<Edge>>)
    ensures EdgesAccepted(nodes, edges, |edges|) <==>
            && (forall i :: 0 <= i < |edges| ==>
                  && edges[i].Some? && edges[i].value.source != "" && edges[i].value.target != ""
                  && edges[i].value.source != edges[i].value.target
                  && edges[i].value.source in nodes && edges[i].value.target in nodes)
            && (forall i, j :: 0 <= i < j < |edges| ==> Normalize(edges[i]) != Normalize(edges[j]))
  {
    forall j | 0 <= j < |edges| && edges[j].Some?
      ensures Normalize(edges[j]).value in SeenKeys(edges[..j]) <==>
              exists i :: 0 <= i < j && Normalize(edges[i]) == Normalize(edges[j])
    {
      SeenKey(edges[..j], Normalize(edges[j]).value);
      if i :| 0 <= i < j && Normalize(edges[i]) == Normalize(edges[j]) {
        assert Normalize(edges[..j][i]) == Normalize(edges[j]);
      }
    }
    if EdgesAccepted(nodes, edges, |edges|) {
      forall i, j | 0 <= i < j < |edges|
        ensures Normalize(edges[i]) != Normalize(edges[j])
      {
        assert FaultAt(nodes, edges, j).None?;
      }
      forall i | 0 <= i < |edges|
        ensures edges[i].Some? && edges[i].value.source != "" && edges[i].value.target != ""
        ensures edges[i].value.source != edges[i].value.target
        ensures edges[i].value.source in nodes && edges[i].value.target in nodes
      {
        assert FaultAt(nodes, edges, i).None?;
      }
    } else {
      var i :| 0 <= i < |edges| && FaultAt(nodes, edges, i).Some?;
    }
  }

  ghost predicate NodesAccepted(nodes: map<NodeId, Option<Node>>) {
    forall id :: id in nodes ==> NodeFault(nodes[id]).None?
  }

  /** Everything the validation checks about the shape of a graph. */
  ghost predicate WellFormed(
    name: string, nodes: map<NodeId, Option<Node>>, edges: seq<Option<Edge>>, entryPoint: NodeId)
  {
    BasicFault(name, nodes, entryPoint).None? && NodesAccepted(nodes) && EdgesAccepted(nodes, edges, |edges|)
  }

  /** Well-formedness in full: named graph, an entry among its nodes, sound nodes, sound edges, no two edges alike. */
  lemma WellFormedMeans(name: string, nodes: map<NodeId, Option<Node>>, edges: seq<Option<Edge>>, entryPoint: NodeId)
    ensures WellFormed(name, nodes, edges, entryPoint) <==>
            && name != "" && entryPoint != "" && entryPoint in nodes
            && (forall id :: id in nodes ==>
                  && nodes[id].Some? && nodes[id].value.id != "" && nodes[id].value.name != ""
                  && nodes[id].value.kind != ""
                  && (nodes[id].value.kind == "conditional" ==> nodes[id].value.conditional))
            && (forall i :: 0 <= i < |edges| ==>
                  && edges[i].Some? && edges[i].value.source != "" && edges[i].value.target != ""
                  && edges[i].value.source != edges[i].value.target
                  && edges[i].value.source in nodes && edges[i].value.target in nodes)
            && (forall i, j :: 0 <= i < j < |edges| && edges[i].Some? && edges[j].Some? ==>
                  !Alike(edges[i].value, edges[j].value))
  {
    BasicFaultMeans(name, nodes, entryPoint);
    AcceptedEdges(nodes, edges);
    forall id | id in nodes
      ensures NodeFault(nodes[id]).None? <==>
                && nodes[id].Some? && nodes[id].value.id != "" && nodes[id].value.name != ""
                && nodes[id].value.kind != "" && (nodes[id].value.kind == "conditional" ==> nodes[id].value.conditional)
    {
      NodeFaultMeans(nodes[id]);
    }
    forall i, j | 0 <= i < j < |edges| && edges[i].Some? && edges[j].Some?
                  && edges[i].value.source != "" && edges[i].value.target != ""
                  && edges[i].value.source != edges[i].value.target
      ensures Normalize(edges[i]) == Normalize(edges[j]) <==> Alike(edges[i].value, edges[j].value)
    {
      NormalizeMeans(edges[i].value);
      NormalizeMeans(edges[j].value);
    }
  }

  /** The same ends and condition, and the same type once an empty one counts as "default". */
  ghost predicate Alike(e: Edge, f: Edge) {
    && e.source == f.source && e.target == f.target && e.condition == f.condition
    && (e.kind == f.kind || {e.kind, f.kind} == {"", "default"})
  }

  /** Giving edges their default type changes neither arcs nor cycles. */
  lemma NormalizeKeepsArcs(edges: seq<Option<Edge>>)
    ensures forall u, v :: Arc(NormalizeAll(edges), u, v) <==> Arc(edges, u, v)
    ensures Cyclic(NormalizeAll(edges)) <==> Cyclic(edges)
  {
    var normal := NormalizeAll(edges);
    forall u, v
      ensures Arc(normal, u, v) <==> Arc(edges, u, v)
    {
      if Arc(edges, u, v) {
        var i :| 0 <= i < |edges| && edges[i].Some? && edges[i].value.source == u && edges[i].value.target == v;
        assert normal[i].Some? && normal[i].value.source == u && normal[i].value.target == v;
      }
      if Arc(normal, u, v) {
        var i :| 0 <= i < |normal| && normal[i].Some? && normal[i].value.source == u && normal[i].value.target == v;
        assert edges[i].Some? && edges[i].value.source == u && edges[i].value.target == v;
      }
    }
    if p :| IsCycle(edges, p) {
      assert IsCycle(normal, p);
    }
    if p :| IsCycle(normal, p) {
      assert IsCycle(edges, p);
    }
  }

  method ValidateNodes(nodes: map<NodeId, Option<Node>>) returns (err: Option<GraphError>)
    ensures err.None? <==> NodesAccepted(nodes)
    ensures err.Some? ==> exists id :: id in nodes && NodeFault(nodes[id]) == err
  {
    var todo := nodes.Keys;
    while todo != {}
      invariant todo <= nodes.Keys && forall id :: id in nodes.Keys - todo ==> NodeFault(nodes[id]).None?
      decreases |todo|
    {
      var id :| id in todo;
      todo := todo - {id};
      err := NodeFault(nodes[id]);
      if err.Some? {
        return;
      }
    }
    err := None;
  }

  /** The edge loop stopped at the faulty edge `k`: types are filled in up to and including it. */
  ghost predicate StoppedAt(
    nodes: map<NodeId, Option<Node>>, edges: seq<Option<Edge>>, now: seq<Option<Edge>>, err: Option<GraphError>,
    k: nat)
  {
    && k < |edges| && EdgesAccepted(nodes, edges, k) && FaultAt(nodes, edges, k) == err
    && now == NormalizeAll(edges[..k + 1]) + edges[k + 1..]
  }

  /** One round of the edge loop: the edge is normalized in place and its fault reported. */
  method ValidateEdge(g: Graph, i: nat, seen: set<Edge>) returns (err: Option<GraphError>)
    requires i < |g.edges|
    modifies g`edges
    ensures g.edges == old(g.edges)[i := Normalize(old(g.edges)[i])]
    ensures err == EdgeFault(g.nodes, seen, old(g.edges)[i])
  {
    if g.edges[i].None? {
      return Some(NilEdge);
    }
    g.edges := g.edges[i := Normalize(g.edges[i])];
    var e := g.edges[i].value;
    if e.source == "" {
      return Some(InvalidSource);
    }
    if e.target == "" {
      return Some(InvalidTarget);
    }
    if e.source == e.target {
      return Some(SelfLoop);
    }
    if e.source !in g.nodes {
      return Some(SourceNodeNotFound);
    }
    if e.target !in g.nodes {
      return Some(TargetNodeNotFound);
    }
    err := if e in seen then Some(DuplicateEdge) else None;
  }

  /** The edge loop: the first fault in order is reported. */
  method ValidateEdges(g: Graph) returns (err: Option<GraphError>)
    modifies g`edges
    ensures err.None? <==> EdgesAccepted(g.nodes, old(g.edges), |old(g.edges)|)
    ensures err.None? ==> g.edges == NormalizeAll(old(g.edges))
    ensures err.Some? ==> exists k: nat :: StoppedAt(g.nodes, old(g.edges), g.edges, err, k)
  {
    ghost var edges := g.edges;
    var seen: set<Edge> := {};
    var i := 0;
    assert NormalizeAll(edges[..0]) + edges[0..] == edges;
    while i < |g.edges|
      invariant i <= |g.edges| == |edges|
      invariant g.edges == NormalizeAll(edges[..i]) + edges[i..]
      invariant EdgesAccepted(g.nodes, edges, i)
      invariant seen == SeenKeys(edges[..i])
    {
      EdgeStep(edges, i);
      err := ValidateEdge(g, i, seen);
      assert err == FaultAt(g.nodes, edges, i);
      if err.Some? {
        assert StoppedAt(g.nodes, edges, g.edges, err, i);
        return;
      }
      seen := seen + {g.edges[i].value};
      i := i + 1;
    }
    assert edges[..i] == edges;
    err := None;
  }

  /** Normalizing the edge at `i` moves the boundary of the normalized part by one. */
  lemma EdgeStep(edges: seq<Option<Edge>>, i: nat)
    requires i < |edges|
    ensures (NormalizeAll(edges[..i]) + edges[i..])[i := Normalize(edges[i])]
            == NormalizeAll(edges[..i + 1]) + edges[i + 1..]
    ensures (NormalizeAll(edges[..i]) + edges[i..])[i] == edges[i]
    ensures SeenKeys(edges[..i + 1])
            == SeenKeys(edges[..i]) + (if edges[i].Some? then {Normalize(edges[i]).value} else {})
  {
    NormalizePrefix(edges, i);
    assert edges[..i + 1][..i] == edges[..i];
  }

  lemma NormalizePrefix(edges: seq<Option<Edge>>, i: nat)
    requires i < |edges|
    ensures NormalizeAll(edges[..i + 1]) == NormalizeAll(edges[..i]) + [Normalize(edges[i])]
  {
  }

  /**
   A graph is accepted if and only if it is well formed and, when asked for, free of cycles. Faults
   are reported in the order graph, nodes, edges, cycle; among faulty nodes any one may be reported.
   */
  method ValidateCoreGraph(g: Graph?, checkCycles: bool) returns (err: Option<GraphError>)
    modifies if g == null then {} else {g}
    ensures g == null ==> err == Some(NilGraph)
    ensures g != null ==> g.name == old(g.name) && g.nodes == old(g.nodes) && g.entryPoint == old(g.entryPoint)
    ensures g != null ==> (err.None? <==> && WellFormed(g.name, g.nodes, old(g.edges), g.entryPoint)
                                          && (checkCycles ==> !Cyclic(old(g.edges))))
    ensures g != null && BasicFault(g.name, g.nodes, g.entryPoint).Some? ==>
              err == BasicFault(g.name, g.nodes, g.entryPoint) && g.edges == old(g.edges)
    ensures g != null && BasicFault(g.name, g.nodes, g.entryPoint).None? && !NodesAccepted(g.nodes) ==>
              g.edges == old(g.edges) && exists id :: id in g.nodes && NodeFault(g.nodes[id]) == err
    ensures g != null && BasicFault(g.name, g.nodes, g.entryPoint).None? && NodesAccepted(g.nodes)
            && !EdgesAccepted(g.nodes, old(g.edges), |old(g.edges)|) ==>
              exists k: nat :: StoppedAt(g.nodes, old(g.edges), g.edges, err, k)
    ensures g != null && WellFormed(g.name, g.nodes, old(g.edges), g.entryPoint) ==>
              g.edges == NormalizeAll(old(g.edges)) && (err.Some? ==> err == Some(CyclicGraph))
    ensures g != null ==> forall u, v :: Arc(g.edges, u, v) <==> Arc(old(g.edges), u, v)
  {
    if g == null {
      return Some(NilGraph);
    }
    err := BasicFault(g.name, g.nodes, g.entryPoint);
    if err.Some? {
      return;
    }
    err := ValidateNodes(g.nodes);
    if err.Some? {
      return;
    }
    err := ValidateEdges(g);
    if err.Some? {
      ghost var k: nat :| StoppedAt(g.nodes, old(g.edges), g.edges, err, k);
      PartlyNormalized(old(g.edges), g.edges, k + 1);
      return;
    }
    NormalizeKeepsArcs(old(g.edges));
    if checkCycles {
      AcceptedEdges(g.nodes, old(g.edges));
      var cycle := HasCycle(g.nodes, g.edges);
      if cycle {
        return Some(CyclicGraph);
      }
    }
    err := None;
  }

  lemma PartlyNormalized(edges: seq<Option<Edge>>, now: seq<Option<Edge>>, k: nat)
    requires k <= |edges| && now == NormalizeAll(edges[..k]) + edges[k..]
    ensures forall u, v :: Arc(now, u, v) <==> Arc(edges, u, v)
  {
    forall i | 0 <= i < |edges|
      ensures now[i].Some? == edges[i].Some?
      ensures now[i].Some? ==>
              now[i].value.source == edges[i].value.source && now[i].value.target == edges[i].value.target
    {
      if i < k {
        assert now[i] == Normalize(edges[i]);
      }
    }
  }
}
