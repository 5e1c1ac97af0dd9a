/**
 The single-source shortest-path vertex program (internal/core/pregel/vertex.go) on a network that
 may drop, delay, duplicate and reorder messages, and the combiners seen from the programs that
 receive their output.
 */
module ShortestPath {
  import opened Wrappers
  import opened PregelModel
  import Messages

  // ---------------------------------------------------------------- the program

  function CurrentDistance(state: Fields): real {
    if "distance" in state && state["distance"].Decimal? then state["distance"].r else INFINITY
  }

  function EdgesOf(state: Fields): map<VertexId, real> {
    if "edges" in state && state["edges"].Weights? then state["edges"].w else map[]
  }

  function MinDistance(current: real, msgs: seq<Message>): real {
    if msgs == [] then current
    else
      var n := |msgs| - 1;
      var least := MinDistance(current, msgs[..n]);
      if msgs[n].value.FloatValue? && msgs[n].value.f < least then msgs[n].value.f else least
  }

  /** The distance a call starts from: the source turns its infinite distance into 0. */
  function StartDistance(source: VertexId, v: VertexId, state: Fields): real {
    if v == source && CurrentDistance(state) == INFINITY then 0.0 else CurrentDistance(state)
  }

  /** The new state, whether the distance is propagated, and the halt flag. */
  datatype Reply = Reply(state: Fields, distance: real, changed: bool, halt: bool)

  function NewState(state: Fields, distance: real, changed: bool): Fields {
    map["distance" := Decimal(distance),
        "edges" := if "edges" in state then state["edges"] else Nothing,
        "changed" := Flag(changed)]
  }

  function Compute(source: VertexId, v: VertexId, state: Fields, msgs: seq<Message>): Reply {
    var current := StartDistance(source, v, state);
    var least := MinDistance(current, msgs);
    var announce := v == source && current == 0.0 && |msgs| == 0;
    var changed := least < current || announce;
    Reply(NewState(state, least, changed), least, changed, if announce then false else !changed)
  }

  /** The message over the edge to `n`: the distance plus the weight. */
  function Over(v: VertexId, edges: map<VertexId, real>, distance: real, n: VertexId): Message
    requires n in edges
  {
    Message(v, n, FloatValue(distance + edges[n]), 0)
  }

  /** What a call sends: one message over every edge, when the distance changed. */
  ghost function Sent(v: VertexId, edges: map<VertexId, real>, reply: Reply): (s: set<Message>)
    ensures forall m :: m in s <==> reply.changed && m.target in edges && m == Over(v, edges, reply.distance, m.target)
  {
    if reply.changed then set n | n in edges :: Over(v, edges, reply.distance, n) else {}
  }

  method FindMinDistance(current: real, msgs: seq<Message>) returns (least: real)
    ensures least == MinDistance(current, msgs)
  {
    least := current;
    for i := 0 to |msgs|
      invariant least == MinDistance(current, msgs[..i])
    {
      assert msgs[..i + 1][..i] == msgs[..i];
      if msgs[i].value.FloatValue? {
        var dist := msgs[i].value.f;
        if dist < least {
          least := dist;
        }
      }
    }
    assert msgs[..|msgs|] == msgs;
  }

  method CreatePropagationMessages(v: VertexId, distance: real, edges: map<VertexId, real>) returns (out: seq<Message>)
    ensures forall m :: m in out <==> m.target in edges && m == Over(v, edges, distance, m.target)
    ensures |out| == |edges|
  {
    out := [];
    var todo := edges.Keys;
    while todo != {}
      invariant todo <= edges.Keys
      invariant forall m :: m in out <==> m.target in edges.Keys - todo && m == Over(v, edges, distance, m.target)
      invariant |out| + |todo| == |edges|
      decreases |todo|
    {
      var n :| n in todo;
      out := out + [Over(v, edges, distance, n)];
      todo := todo - {n};
    }
  }

  method ComputeVertex(source: VertexId, v: VertexId, state: Fields, msgs: seq<Message>)
    returns (newState: Fields, out: seq<Message>, halt: bool)
    ensures var r := Compute(source, v, state, msgs);
            && newState == r.state && halt == r.halt
            && (forall m :: m in out <==> m in Sent(v, EdgesOf(state), r))
            && |out| == (if r.changed then |EdgesOf(state)| else 0)
    ensures var start := StartDistance(source, v, state);
            halt <==>
              && (forall i :: 0 <= i < |msgs| && msgs[i].value.FloatValue? ==> start <= msgs[i].value.f)
              && !(v == source && start == 0.0 && msgs == [])
    ensures newState.Keys == {"distance", "edges", "changed"} && newState["changed"] == Flag(!halt)
    ensures newState["edges"] == if "edges" in state then state["edges"] else Nothing
    ensures halt ==> out == []
  {
    ComputeMeans(source, v, state, msgs);
    var currentDistance := CurrentDistance(state);
    var isSource := v == source;
    if isSource && currentDistance == INFINITY {
      currentDistance := 0.0;
    }
    assert currentDistance == StartDistance(source, v, state);
    var minDistance := FindMinDistance(currentDistance, msgs);
    var announce := isSource && currentDistance == 0.0 && |msgs| == 0;
    var changed := minDistance < currentDistance || announce;
    out := [];
    if changed {
      out := CreatePropagationMessages(v, minDistance, EdgesOf(state));
    }
    newState := NewState(state, minDistance, changed);
    halt := !changed;
    if announce {
      halt := false;
    }
  }

  /** A stored decimal is the current distance, anything else a million; the source turns a million into 0. */
  lemma StartMeans(source: VertexId, v: VertexId, state: Fields, d: real)
    ensures "distance" in state && state["distance"] == Decimal(d) && d != 1000000.0 ==>
              StartDistance(source, v, state) == d
    ensures ("distance" in state && state["distance"].Decimal? ==> state["distance"].r == 1000000.0) ==>
              StartDistance(source, v, state) == if v == source then 0.0 else 1000000.0
    ensures "edges" in state && state["edges"].Weights? ==> EdgesOf(state) == state["edges"].w
    ensures !("edges" in state && state["edges"].Weights?) ==> EdgesOf(state) == map[]
  {
  }

  /**
   A call halts iff it was told of no shorter distance, unless it is the source with no messages at
   distance 0. The new state says so under "changed", keeps the edges and has nothing else.
   */
  lemma ComputeMeans(source: VertexId, v: VertexId, state: Fields, msgs: seq<Message>)
    ensures var r, start := Compute(source, v, state, msgs), StartDistance(source, v, state);
            && (r.halt <==>
                  && (forall i :: 0 <= i < |msgs| && msgs[i].value.FloatValue? ==> start <= msgs[i].value.f)
                  && !(v == source && start == 0.0 && msgs == []))
            && r.changed == !r.halt
            && r.state.Keys == {"distance", "edges", "changed"}
            && r.state["changed"] == Flag(!r.halt) && r.state["distance"] == Decimal(r.distance)
            && ("edges" in state ==> r.state["edges"] == state["edges"])
            && ("edges" !in state ==> r.state["edges"] == Nothing)
            && r.distance <= start
            && (forall i :: 0 <= i < |msgs| && msgs[i].value.FloatValue? ==> r.distance <= msgs[i].value.f)
            && (r.distance == start || exists i :: 0 <= i < |msgs| && msgs[i].value == FloatValue(r.distance))
  {
    MinDistanceIsMin(StartDistance(source, v, state), msgs);
  }

  lemma {:induction false} MinDistanceIsMin(current: real, msgs: seq<Message>)
    ensures var d := MinDistance(current, msgs);
            && d <= current
            && (forall i :: 0 <= i < |msgs| && msgs[i].value.FloatValue? ==> d <= msgs[i].value.f)
            && (d == current || exists i :: 0 <= i < |msgs| && msgs[i].value == FloatValue(d))
  {
    if msgs != [] {
      var n := |msgs| - 1;
      MinDistanceIsMin(current, msgs[..n]);
      assert forall i :: 0 <= i < n ==> msgs[..n][i] == msgs[i];
    }
  }

  // ---------------------------------------------------------------- walks

  type Graph = VertexId -> map<VertexId, real>

  ghost predicate IsWalk(g: Graph, source: VertexId, v: VertexId, p: seq<VertexId>) {
    && |p| >= 1 && p[0] == source && p[|p| - 1] == v
    && forall i :: 0 <= i < |p| - 1 ==> p[i + 1] in g(p[i])
  }

  ghost function Length(g: Graph, p: seq<VertexId>): real {
    if |p| <= 1 then 0.0
    else
      var n := |p| - 1;
      Length(g, p[..n]) + (if p[n] in g(p[n - 1]) then g(p[n - 1])[p[n]] else 0.0)
  }

  ghost predicate IsWalkLength(g: Graph, source: VertexId, v: VertexId, d: real) {
    exists p :: IsWalk(g, source, v, p) && Length(g, p) == d
  }

  lemma ExtendWalk(g: Graph, source: VertexId, u: VertexId, d: real, v: VertexId)
    requires IsWalkLength(g, source, u, d) && v in g(u)
    ensures IsWalkLength(g, source, v, d + g(u)[v])
  {
    var p :| IsWalk(g, source, u, p) && Length(g, p) == d;
    var q := p + [v];
    assert q[..|q| - 1] == p;
    assert IsWalk(g, source, v, q);
    assert Length(g, q) == d + g(u)[v];
  }

  // ---------------------------------------------------------------- the network

  /** Vertex states, every message ever sent, and those delivered at least once. */
  datatype Net = Net(states: map<VertexId, Fields>, sent: set<Message>, delivered: set<Message>)
  {
    function StateOf(v: VertexId): Fields { Lookup(states, v, map[]) }

    function Distance(v: VertexId): real { CurrentDistance(StateOf(v)) }
  }

  /** One call of `Compute` at `v`, on any selection of the messages ever sent to it. */
  datatype Call = Call(v: VertexId, inbox: seq<Message>)

  ghost predicate Possible(n: Net, c: Call) {
    forall m :: m in c.inbox ==> m in n.sent && m.target == c.v
  }

  ghost function Deliver(source: VertexId, n: Net, c: Call): Net {
    var state := n.StateOf(c.v);
    var r := Compute(source, c.v, state, c.inbox);
    Net(n.states[c.v := r.state], n.sent + Sent(c.v, EdgesOf(state), r), n.delivered + (set m | m in c.inbox))
  }

  ghost predicate PossibleRun(source: VertexId, n: Net, calls: seq<Call>)
    decreases |calls|
  {
    calls == [] || (Possible(n, calls[0]) && PossibleRun(source, Deliver(source, n, calls[0]), calls[1..]))
  }

  ghost function RunCalls(source: VertexId, n: Net, calls: seq<Call>): Net
    decreases |calls|
  {
    if calls == [] then n else RunCalls(source, Deliver(source, n, calls[0]), calls[1..])
  }

  /** Nothing sent yet, every distance infinite or absent, and the edges those of the graph. */
  ghost predicate Initial(g: Graph, n: Net) {
    n.sent == {} && n.delivered == {} && forall v :: n.Distance(v) == INFINITY && EdgesOf(n.StateOf(v)) == g(v)
  }

  /** Everything stored or sent is infinite or the length of a real walk. */
  ghost predicate Sound(g: Graph, source: VertexId, n: Net) {
    && (forall v :: EdgesOf(n.StateOf(v)) == g(v))
    && (forall v :: n.Distance(v) == INFINITY || IsWalkLength(g, source, v, n.Distance(v)))
    && (forall m :: m in n.sent ==> m.value.FloatValue? && IsWalkLength(g, source, m.target, m.value.f))
  }

  /** Everything delivered has been taken into account, and every finite distance has been announced. */
  ghost predicate Complete(g: Graph, source: VertexId, n: Net) {
    && n.delivered <= n.sent
    && (forall v :: n.Distance(v) <= INFINITY)
    && (forall m :: m in n.delivered && m.value.FloatValue? ==> n.Distance(m.target) <= m.value.f)
    && (forall u, v :: n.Distance(u) != INFINITY && v in g(u) ==>
        Message(u, v, FloatValue(n.Distance(u) + g(u)[v]), 0) in n.sent)
    && (n.Distance(source) == INFINITY ==> n.sent == {} && forall v :: n.Distance(v) == INFINITY)
    && (n.Distance(source) != INFINITY ==> n.Distance(source) <= 0.0)
  }

  /** The effect of a call, seen from outside: one new distance, its announcement, and nothing else. */
  ghost predicate Effect(g: Graph, source: VertexId, n: Net, c: Call, n': Net, start: real, d: real, changed: bool) {
    && (forall v :: v != c.v ==> n'.StateOf(v) == n.StateOf(v))
    && n'.Distance(c.v) == d && EdgesOf(n'.StateOf(c.v)) == g(c.v)
    && (forall m :: m in n'.sent <==>
        m in n.sent || (changed && m.target in g(c.v) && m == Over(c.v, g(c.v), d, m.target)))
    && (forall m :: m in n'.delivered <==> m in n.delivered || m in c.inbox)
    && d <= start && (forall m :: m in c.inbox && m.value.FloatValue? ==> d <= m.value.f)
    && (d == start || exists m :: m in c.inbox && m.value == FloatValue(d))
    && start == (if c.v == source && n.Distance(c.v) == INFINITY then 0.0 else n.Distance(c.v))
    && (changed <==> d < start || (c.v == source && start == 0.0 && c.inbox == []))
  }

  lemma CallEffect(g: Graph, source: VertexId, n: Net, c: Call)
    requires EdgesOf(n.StateOf(c.v)) == g(c.v)
    ensures var state := n.StateOf(c.v); var r := Compute(source, c.v, state, c.inbox);
            Effect(g, source, n, c, Deliver(source, n, c), StartDistance(source, c.v, state), r.distance, r.changed)
  {
    var state := n.StateOf(c.v);
    MinDistanceIsMin(StartDistance(source, c.v, state), c.inbox);
  }

  lemma DistanceIsWalk(g: Graph, source: VertexId, n: Net, c: Call, n': Net, start: real, d: real, changed: bool)
    requires Possible(n, c) && Sound(g, source, n) && Effect(g, source, n, c, n', start, d, changed)
    ensures d == INFINITY || IsWalkLength(g, source, c.v, d)
    ensures changed ==> IsWalkLength(g, source, c.v, d)
    ensures d <= n.Distance(c.v)
  {
    assert IsWalk(g, source, source, [source]) && Length(g, [source]) == 0.0;
    assert IsWalkLength(g, source, source, 0.0);
    if d != start {
      var m :| m in c.inbox && m.value == FloatValue(d);
      assert m in n.sent;
    }
  }

  lemma EffectSound(g: Graph, source: VertexId, n: Net, c: Call, n': Net, start: real, d: real, changed: bool)
    requires Possible(n, c) && Sound(g, source, n) && Effect(g, source, n, c, n', start, d, changed)
    ensures Sound(g, source, n')
  {
    DistanceIsWalk(g, source, n, c, n', start, d, changed);
    forall m | m in n'.sent
      ensures m.value.FloatValue? && IsWalkLength(g, source, m.target, m.value.f)
    {
      if m !in n.sent {
        ExtendWalk(g, source, c.v, d, m.target);
      }
    }
    forall v
      ensures EdgesOf(n'.StateOf(v)) == g(v)
      ensures n'.Distance(v) == INFINITY || IsWalkLength(g, source, v, n'.Distance(v))
    {
      assert v != c.v ==> n'.StateOf(v) == n.StateOf(v);
      assert n'.Distance(v) == if v == c.v then d else n.Distance(v);
    }
  }

  /** An unchanged vertex keeps its distance: the source never sees mail before it has started. */
  lemma UnchangedKeeps(g: Graph, source: VertexId, n: Net, c: Call, n': Net, start: real, d: real, changed: bool)
    requires Possible(n, c) && Complete(g, source, n) && Effect(g, source, n, c, n', start, d, changed)
    ensures d <= n.Distance(c.v) && (!changed ==> d == n.Distance(c.v))
    ensures forall v :: n'.Distance(v) == if v == c.v then d else n.Distance(v)
  {
    assert c.inbox == [] || c.inbox[0] in n.sent;
    assert forall v :: v != c.v ==> n'.StateOf(v) == n.StateOf(v);
  }

  /** What has been announced stays announced. */
  lemma StillAnnounced(g: Graph, source: VertexId, n: Net, n': Net, u: VertexId, v: VertexId)
    requires Complete(g, source, n) && n'.Distance(u) == n.Distance(u) != INFINITY && v in g(u) && n.sent <= n'.sent
    ensures Message(u, v, FloatValue(n'.Distance(u) + g(u)[v]), 0) in n'.sent
  {
    assert Message(u, v, FloatValue(n.Distance(u) + g(u)[v]), 0) in n.sent;
  }

  lemma Announces(g: Graph, source: VertexId, n: Net, c: Call, n': Net, start: real, d: real, v: VertexId)
    requires Effect(g, source, n, c, n', start, d, true) && v in g(c.v)
    ensures Message(c.v, v, FloatValue(n'.Distance(c.v) + g(c.v)[v]), 0) in n'.sent
  {
    assert Over(c.v, g(c.v), d, v) in n'.sent;
  }

  lemma AnnouncedAfter(
    g: Graph, source: VertexId, n: Net, c: Call, n': Net, start: real, d: real, changed: bool, u: VertexId, v: VertexId)
    requires Possible(n, c) && Complete(g, source, n) && Effect(g, source, n, c, n', start, d, changed)
    requires n'.Distance(u) != INFINITY && v in g(u)
    ensures Message(u, v, FloatValue(n'.Distance(u) + g(u)[v]), 0) in n'.sent
  {
    if u == c.v && changed {
      Announces(g, source, n, c, n', start, d, v);
    } else {
      UnchangedKeeps(g, source, n, c, n', start, d, changed);
      StillAnnounced(g, source, n, n', u, v);
    }
  }

  lemma EffectComplete(g: Graph, source: VertexId, n: Net, c: Call, n': Net, start: real, d: real, changed: bool)
    requires Possible(n, c) && Complete(g, source, n) && Effect(g, source, n, c, n', start, d, changed)
    ensures Complete(g, source, n')
  {
    UnchangedKeeps(g, source, n, c, n', start, d, changed);
    forall u, v | n'.Distance(u) != INFINITY && v in g(u)
      ensures Message(u, v, FloatValue(n'.Distance(u) + g(u)[v]), 0) in n'.sent
    {
      AnnouncedAfter(g, source, n, c, n', start, d, changed, u, v);
    }
    forall m | m in n'.delivered && m.value.FloatValue?
      ensures n'.Distance(m.target) <= m.value.f
    {
      assert n'.Distance(m.target) <= n.Distance(m.target);
    }
  }

  lemma {:induction false} RunSound(g: Graph, source: VertexId, n: Net, calls: seq<Call>)
    requires PossibleRun(source, n, calls) && Sound(g, source, n)
    ensures Sound(g, source, RunCalls(source, n, calls))
    ensures forall v :: RunCalls(source, n, calls).Distance(v) <= n.Distance(v)
    decreases |calls|
  {
    if calls != [] {
      var c := calls[0];
      var n' := Deliver(source, n, c);
      var r := Compute(source, c.v, n.StateOf(c.v), c.inbox);
      CallEffect(g, source, n, c);
      EffectSound(g, source, n, c, n', StartDistance(source, c.v, n.StateOf(c.v)), r.distance, r.changed);
      DistanceIsWalk(g, source, n, c, n', StartDistance(source, c.v, n.StateOf(c.v)), r.distance, r.changed);
      assert forall v :: n'.Distance(v) <= n.Distance(v) by {
        assert forall v :: v != c.v ==> n'.StateOf(v) == n.StateOf(v);
      }
      RunSound(g, source, n', calls[1..]);
    }
  }

  lemma {:induction false} RunComplete(g: Graph, source: VertexId, n: Net, calls: seq<Call>)
    requires PossibleRun(source, n, calls) && Sound(g, source, n) && Complete(g, source, n)
    ensures Complete(g, source, RunCalls(source, n, calls))
    decreases |calls|
  {
    if calls != [] {
      var c := calls[0];
      var n' := Deliver(source, n, c);
      var r := Compute(source, c.v, n.StateOf(c.v), c.inbox);
      CallEffect(g, source, n, c);
      EffectSound(g, source, n, c, n', StartDistance(source, c.v, n.StateOf(c.v)), r.distance, r.changed);
      EffectComplete(g, source, n, c, n', StartDistance(source, c.v, n.StateOf(c.v)), r.distance, r.changed);
      RunComplete(g, source, n', calls[1..]);
    }
  }

  /**
   Soundness under an adversarial network: after any calls with any messages dropped, delayed,
   duplicated or reordered, a stored distance is infinite or the length of a real walk from the
   source, every message carries a walk length to its target, and no further call raises a distance.
   */
  lemma DistancesAreWalks(g: Graph, source: VertexId, n: Net, calls: seq<Call>, more: seq<Call>)
    requires Initial(g, n) && PossibleRun(source, n, calls) && PossibleRun(source, RunCalls(source, n, calls), more)
    ensures var m := RunCalls(source, n, calls);
            && (forall v :: m.Distance(v) == INFINITY || IsWalkLength(g, source, v, m.Distance(v)))
            && (forall x :: x in m.sent ==> x.value.FloatValue? && IsWalkLength(g, source, x.target, x.value.f))
            && (forall v :: RunCalls(source, m, more).Distance(v) <= m.Distance(v) <= INFINITY)
  {
    RunSound(g, source, n, calls);
    RunSound(g, source, RunCalls(source, n, calls), more);
  }

  /** Every vertex along the walk is reached below infinity. */
  ghost predicate Finite(g: Graph, p: seq<VertexId>) {
    forall i :: 1 <= i <= |p| ==> Length(g, p[..i]) < INFINITY
  }

  lemma AnnouncementArrives(g: Graph, source: VertexId, n: Net, u: VertexId, v: VertexId)
    requires Complete(g, source, n) && n.sent <= n.delivered && n.Distance(u) != INFINITY && v in g(u)
    ensures n.Distance(v) <= n.Distance(u) + g(u)[v]
  {
    var m := Message(u, v, FloatValue(n.Distance(u) + g(u)[v]), 0);
    assert m in n.sent;
    assert m in n.delivered;
  }

  /** A walk without its last step. */
  lemma WalkPrefix(g: Graph, source: VertexId, v: VertexId, p: seq<VertexId>)
    requires IsWalk(g, source, v, p) && Finite(g, p) && |p| > 1
    ensures var k := |p| - 1;
            && IsWalk(g, source, p[k - 1], p[..k]) && Finite(g, p[..k]) && Length(g, p[..k]) < INFINITY
            && v in g(p[k - 1]) && Length(g, p) == Length(g, p[..k]) + g(p[k - 1])[v]
  {
    var k := |p| - 1;
    var q := p[..k];
    assert p[k - 1 + 1] in g(p[k - 1]);
    assert forall i :: 1 <= i <= |q| ==> q[..i] == p[..i];
  }

  lemma {:induction false} WalkBoundsDistance(g: Graph, source: VertexId, n: Net, v: VertexId, p: seq<VertexId>)
    requires Complete(g, source, n) && Sound(g, source, n) && n.sent <= n.delivered && n.Distance(source) != INFINITY
    requires IsWalk(g, source, v, p) && Finite(g, p)
    ensures n.Distance(v) <= Length(g, p)
    decreases |p|
  {
    if |p| > 1 {
      var k := |p| - 1;
      WalkPrefix(g, source, v, p);
      WalkBoundsDistance(g, source, n, p[k - 1], p[..k]);
      AnnouncementArrives(g, source, n, p[k - 1], v);
    }
  }

  /**
   Exactness at quiescence: once the source has run and every message sent has been delivered at
   least once, a stored distance is at most the length of every walk that stays below infinity, and
   is itself infinite or such a length. Whatever the weights, it is the shortest of them.
   */
  lemma QuiescentDistancesAreShortest(g: Graph, source: VertexId, n: Net, calls: seq<Call>, v: VertexId)
    requires Initial(g, n) && PossibleRun(source, n, calls)
    requires RunCalls(source, n, calls).sent <= RunCalls(source, n, calls).delivered
    requires RunCalls(source, n, calls).Distance(source) != INFINITY
    ensures var m := RunCalls(source, n, calls);
            && (m.Distance(v) == INFINITY || IsWalkLength(g, source, v, m.Distance(v)))
            && (forall p :: IsWalk(g, source, v, p) && Finite(g, p) ==> m.Distance(v) <= Length(g, p))
  {
    RunSound(g, source, n, calls);
    RunComplete(g, source, n, calls);
    forall p | IsWalk(g, source, v, p) && Finite(g, p)
      ensures RunCalls(source, n, calls).Distance(v) <= Length(g, p)
    {
      WalkBoundsDistance(g, source, RunCalls(source, n, calls), v, p);
    }
  }

  // ---------------------------------------------------------------- combiners

  /** What a vertex is handed by an aggregator with `MinCombiner`. */
  function Combined(msgs: seq<Message>): seq<Message> {
    Messages.Delivered(Messages.MinCombiner, msgs)
  }

  /** Some numeric value, of either type, lies below the sentinel of the combiner. */
  ghost predicate SomeBelow(msgs: seq<Message>) {
    exists i :: 0 <= i < |msgs| && Messages.Numeric(msgs[i].value).Some?
        && Messages.Numeric(msgs[i].value).value < INFINITY
  }

  /** The current distance or a float64 value is at most `x`. */
  ghost predicate Matched(current: real, msgs: seq<Message>, x: real) {
    current <= x || exists j :: 0 <= j < |msgs| && msgs[j].value.FloatValue? && msgs[j].value.f <= x
  }

  /** No int value, which only the combiner reads, is less than all that the program reads. */
  ghost predicate IntegersMatched(current: real, msgs: seq<Message>) {
    forall i :: 0 <= i < |msgs| && msgs[i].value.IntValue? ==> Matched(current, msgs, msgs[i].value.i as real)
  }

  /** With every value at or above the sentinel the first message stands for all: nothing beats it or the distance. */
  ghost predicate FirstMatches(current: real, msgs: seq<Message>) {
    forall i :: 0 <= i < |msgs| && msgs[i].value.FloatValue? ==>
      current <= msgs[i].value.f || (msgs[0].value.FloatValue? && msgs[0].value.f <= msgs[i].value.f)
  }

  lemma OneMessage(current: real, m: Message)
    ensures MinDistance(current, [m]) == if m.value.FloatValue? && m.value.f < current then m.value.f else current
  {
    assert [m][..0] == [];
    assert MinDistance(current, []) == current;
  }

  lemma CombinedBelow(current: real, msgs: seq<Message>)
    requires |msgs| > 1 && SomeBelow(msgs)
    ensures MinDistance(current, Combined(msgs)) == MinDistance(current, msgs) <==> IntegersMatched(current, msgs)
  {
    Messages.BestIndexIsFirstMinimum(Messages.MinCombiner, msgs);
    MinDistanceIsMin(current, msgs);
    OneMessage(current, Messages.Combine(Messages.MinCombiner, msgs));
    var d := MinDistance(current, msgs);
    var i :| 0 <= i < |msgs| && Messages.Numeric(msgs[i].value).Some?
        && Messages.Numeric(msgs[i].value).value < INFINITY;
    assert Messages.Key(Messages.MinCombiner, msgs[i].value).Some?;
    var b := Messages.BestIndex(Messages.MinCombiner, msgs).value;
    var least := Messages.Numeric(msgs[b].value).value;
    if IntegersMatched(current, msgs) {
      assert msgs[b].value.IntValue? ==> Matched(current, msgs, least);
      if d != current {
        var j :| 0 <= j < |msgs| && msgs[j].value == FloatValue(d);
        assert Messages.Key(Messages.MinCombiner, msgs[j].value).Some?;
      }
    }
    if MinDistance(current, Combined(msgs)) == d {
      forall j | 0 <= j < |msgs| && msgs[j].value.IntValue?
        ensures Matched(current, msgs, msgs[j].value.i as real)
      {
        assert Messages.Key(Messages.MinCombiner, msgs[j].value).Some?;
        assert d <= least <= msgs[j].value.i as real;
      }
    }
  }

  lemma CombinedFallback(current: real, msgs: seq<Message>)
    requires |msgs| > 1 && !SomeBelow(msgs)
    ensures MinDistance(current, Combined(msgs)) == MinDistance(current, msgs) <==> FirstMatches(current, msgs)
  {
    Messages.BestIndexIsFirstMinimum(Messages.MinCombiner, msgs);
    MinDistanceIsMin(current, msgs);
    if Messages.BestIndex(Messages.MinCombiner, msgs).Some? {
      assert SomeBelow(msgs);
    }
    OneMessage(current, msgs[0]);
    var d := MinDistance(current, msgs);
    if d != current {
      var j :| 0 <= j < |msgs| && msgs[j].value == FloatValue(d);
    }
  }

  /**
   On every inbox, `Compute` cannot tell what `MinCombiner` delivers from the full one exactly when
   nothing is combined, or some value lies below the sentinel and no int value is less than the
   current distance and all float64 values, or no value lies below the sentinel and no float64 value
   is less than the current distance and the first message.
   */
  lemma MinCombinerTransparent(source: VertexId, v: VertexId, state: Fields, msgs: seq<Message>)
    ensures Compute(source, v, state, Combined(msgs)) == Compute(source, v, state, msgs) <==>
              || |msgs| <= 1
              || (if SomeBelow(msgs) then IntegersMatched(StartDistance(source, v, state), msgs)
                  else FirstMatches(StartDistance(source, v, state), msgs))
  {
    var current := StartDistance(source, v, state);
    if |msgs| > 1 {
      if SomeBelow(msgs) {
        CombinedBelow(current, msgs);
      } else {
        CombinedFallback(current, msgs);
      }
      assert Compute(source, v, state, msgs).distance == MinDistance(current, msgs);
      assert Compute(source, v, state, Combined(msgs)).distance == MinDistance(current, Combined(msgs));
    }
  }

  /** From a distance that the program itself stores, only int values can make a difference. */
  lemma MinCombinerTransparentBelowSentinel(source: VertexId, v: VertexId, state: Fields, msgs: seq<Message>)
    requires CurrentDistance(state) <= INFINITY
    ensures Compute(source, v, state, Combined(msgs)) == Compute(source, v, state, msgs) <==>
              |msgs| <= 1 || IntegersMatched(StartDistance(source, v, state), msgs)
  {
    MinCombinerTransparent(source, v, state, msgs);
    var current := StartDistance(source, v, state);
    if !SomeBelow(msgs) {
      forall i | 0 <= i < |msgs| && Messages.Numeric(msgs[i].value).Some?
        ensures current <= INFINITY <= Messages.Numeric(msgs[i].value).value
      {
        assert Messages.Numeric(msgs[i].value).Some?;
      }
    }
  }

  /** The failing input: an int 5 beside a float64 10, at distance 20, gives 5 when combined and 10 when not. */
  lemma IntegersShowThrough(source: VertexId, v: VertexId, a: VertexId)
    requires v != source
    ensures var state := map["distance" := Decimal(20.0)];
            var msgs := [Message(a, v, IntValue(5), 0), Message(a, v, FloatValue(10.0), 0)];
            && Compute(source, v, state, Combined(msgs)).distance == 5.0
            && Compute(source, v, state, msgs).distance == 10.0
  {
    var msgs := [Message(a, v, IntValue(5), 0), Message(a, v, FloatValue(10.0), 0)];
    Messages.BestIndexIsFirstMinimum(Messages.MinCombiner, msgs);
    assert Messages.Key(Messages.MinCombiner, msgs[0].value) == Some(5.0);
    assert Messages.Key(Messages.MinCombiner, msgs[1].value) == Some(10.0);
    OneMessage(20.0, Messages.Combine(Messages.MinCombiner, msgs));
    OneMessage(20.0, msgs[0]);
    assert msgs[..1] == [msgs[0]];
  }

  // ---------------------------------------------------------------- PageRank's sum

  /** What `sumIncomingRank` adds up: float64 payloads only. */
  function RankSum(msgs: seq<Message>): real {
    if msgs == [] then 0.0
    else
      var n := |msgs| - 1;
      RankSum(msgs[..n]) + (if msgs[n].value.FloatValue? then msgs[n].value.f else 0.0)
  }

  function IntegerSum(msgs: seq<Message>): int {
    if msgs == [] then 0
    else
      var n := |msgs| - 1;
      IntegerSum(msgs[..n]) + (if msgs[n].value.IntValue? then msgs[n].value.i else 0)
  }

  method SumIncomingRank(msgs: seq<Message>) returns (incoming: real)
    ensures incoming == RankSum(msgs)
  {
    incoming := 0.0;
    for i := 0 to |msgs|
      invariant incoming == RankSum(msgs[..i])
    {
      assert msgs[..i + 1][..i] == msgs[..i];
      if msgs[i].value.FloatValue? {
        incoming := incoming + msgs[i].value.f;
      }
    }
    assert msgs[..|msgs|] == msgs;
  }

  lemma {:induction false} SumSplits(msgs: seq<Message>)
    ensures Messages.SumNumeric(msgs) == RankSum(msgs) + IntegerSum(msgs) as real
  {
    if msgs != [] {
      SumSplits(msgs[..|msgs| - 1]);
    }
  }

  /**
   On every inbox the rank sum cannot tell what `SumCombiner` delivers from the full one exactly when
   nothing is combined or the int payloads, which the program ignores and the combiner counts, cancel.
   */
  lemma SumCombinerTransparent(msgs: seq<Message>)
    ensures RankSum(Messages.Delivered(Messages.SumCombiner, msgs)) == RankSum(msgs) <==>
              |msgs| <= 1 || IntegerSum(msgs) == 0
  {
    if |msgs| > 1 {
      SumSplits(msgs);
      var combined := [Messages.Combine(Messages.SumCombiner, msgs)];
      assert combined[..0] == [];
      assert RankSum(combined) == Messages.SumNumeric(msgs);
    }
  }

  /** The failing input: an int 5 beside a float64 1 gives 6 when combined and 1 when not. */
  lemma IntegersAreCounted(v: VertexId, a: VertexId)
    ensures var msgs := [Message(a, v, IntValue(5), 0), Message(a, v, FloatValue(1.0), 0)];
            RankSum(Messages.Delivered(Messages.SumCombiner, msgs)) == 6.0 && RankSum(msgs) == 1.0
  {
    var msgs := [Message(a, v, IntValue(5), 0), Message(a, v, FloatValue(1.0), 0)];
    var combined := Messages.Combine(Messages.SumCombiner, msgs);
    OneSum(msgs[0]);
    assert msgs[..|msgs| - 1] == [msgs[0]];
    SumSplits(msgs);
    OneSum(combined);
  }

  lemma OneSum(m: Message)
    ensures RankSum([m]) == if m.value.FloatValue? then m.value.f else 0.0
    ensures IntegerSum([m]) == if m.value.IntValue? then m.value.i else 0
  {
    assert [m][..0] == [];
    assert RankSum([]) == 0.0 && IntegerSum([]) == 0;
  }
}
