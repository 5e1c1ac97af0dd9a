/**
 The sequential parts of the cache-optimized engine (internal/core/pregel/cache_optimizer.go): the
 partition of the vertices into blocks, its lookup, the two places that regroup by partition, and the
 collection loop. Regrouping must lose nothing and apply nothing twice, because map iteration visits
 the groups in any order; the loop must be the fold of `Gather` over the results that arrive.
 */
module CacheOptimizer {
  import opened Wrappers
  import opened Sequences
  import opened PregelModel
  import opened Superstep
  import opened Conservation
  import opened RetryBounds
  import opened Confluence

  const BLOCK_SIZE: nat := 8

  /** A partition is a list of blocks, a block a list of vertices. */
  type Blocks = seq<seq<VertexId>>

  function Flatten(blocks: Blocks): seq<VertexId> {
    if blocks == [] then [] else blocks[0] + Flatten(blocks[1..])
  }

  lemma {:induction false} FlattenAppend(blocks: Blocks, v: VertexId)
    requires blocks != []
    ensures var n := |blocks| - 1; Flatten(blocks[n := blocks[n] + [v]]) == Flatten(blocks) + [v]
  {
    var n := |blocks| - 1;
    if n == 0 {
      assert blocks[n := blocks[n] + [v]][1..] == [] && blocks[1..] == [];
    } else {
      FlattenAppend(blocks[1..], v);
      assert blocks[n := blocks[n] + [v]][1..] == blocks[1..][n - 1 := blocks[n] + [v]];
    }
  }

  lemma {:induction false} FlattenNewBlock(blocks: Blocks)
    ensures Flatten(blocks + [[]]) == Flatten(blocks)
  {
    if blocks == [] {
      var single: Blocks := [[]];
      assert blocks + [[]] == single && single[1..] == [];
    } else {
      assert (blocks + [[]])[1..] == blocks[1..] + [[]];
      FlattenNewBlock(blocks[1..]);
    }
  }

  /** The vertices dealt to partition `p` of `n`: every n-th one, in order. */
  function Dealt(vs: seq<VertexId>, n: nat, p: nat): seq<VertexId>
    requires n > 0
  {
    if vs == [] then []
    else
      var k := |vs| - 1;
      Dealt(vs[..k], n, p) + (if k % n == p then [vs[k]] else [])
  }

  lemma {:induction false} DealtFrom(vs: seq<VertexId>, n: nat, p: nat, v: VertexId) returns (i: nat)
    requires n > 0 && v in Dealt(vs, n, p)
    ensures i < |vs| && vs[i] == v && i % n == p
  {
    var k := |vs| - 1;
    if v in Dealt(vs[..k], n, p) {
      i := DealtFrom(vs[..k], n, p, v);
    } else {
      i := k;
    }
  }

  lemma {:induction false} DealtTo(vs: seq<VertexId>, n: nat, i: nat)
    requires n > 0 && i < |vs|
    ensures vs[i] in Dealt(vs, n, i % n)
  {
    var k := |vs| - 1;
    if i < k {
      DealtTo(vs[..k], n, i);
    }
  }

  /** Round-robin dealing covers: a vertex is in the partition its index selects and in no other. */
  lemma DealtExactly(vs: seq<VertexId>, n: nat, i: nat, p: nat)
    requires n > 0 && Distinct(vs) && i < |vs|
    ensures vs[i] in Dealt(vs, n, p) <==> p == i % n
  {
    DealtTo(vs, n, i);
    if vs[i] in Dealt(vs, n, p) {
      var j := DealtFrom(vs, n, p, vs[i]);
    }
  }

  /** The partition of a vertex: its index modulo the number of partitions, or 0 for an unknown one. */
  function PartitionOf(vs: seq<VertexId>, n: nat, v: VertexId): (p: nat)
    requires n > 0
    ensures p < n
  {
    if vs == [] then 0
    else
      var k := |vs| - 1;
      if vs[k] == v then k % n else PartitionOf(vs[..k], n, v)
  }

  lemma {:induction false} PartitionOfAt(vs: seq<VertexId>, n: nat, i: nat)
    requires n > 0 && Distinct(vs) && i < |vs|
    ensures PartitionOf(vs, n, vs[i]) == i % n
  {
    var k := |vs| - 1;
    if i < k {
      PartitionOfAt(vs[..k], n, i);
    }
  }

  lemma {:induction false} PartitionOfNone(vs: seq<VertexId>, n: nat, v: VertexId)
    requires n > 0 && forall p :: 0 <= p < n ==> v !in Dealt(vs, n, p)
    ensures v !in vs && PartitionOf(vs, n, v) == 0
  {
    if vs != [] {
      var k := |vs| - 1;
      assert v !in Dealt(vs, n, k % n);
      forall p | 0 <= p < n
        ensures v !in Dealt(vs[..k], n, p)
      {
        assert v !in Dealt(vs, n, p);
      }
      PartitionOfNone(vs[..k], n, v);
      assert vs == vs[..k] + [vs[k]];
    }
  }

  ghost predicate AllIn(group: seq<TaskResult>, vs: seq<VertexId>, n: nat, p: nat)
    requires n > 0
  {
    forall r :: r in group ==> PartitionOf(vs, n, r.vid) == p
  }

  /** Every result is under the partition of its vertex. */
  ghost predicate Sorted(updates: map<nat, seq<TaskResult>>, vs: seq<VertexId>, n: nat)
    requires n > 0
  {
    forall p :: p in updates ==> AllIn(updates[p], vs, n, p)
  }

  lemma AppendSorted(updates: map<nat, seq<TaskResult>>, vs: seq<VertexId>, n: nat, p: nat, r: TaskResult)
    requires n > 0 && Sorted(updates, vs, n) && p == PartitionOf(vs, n, r.vid)
    ensures Sorted(Append(updates, p, r), vs, n)
  {
    var longer := Append(updates, p, r);
    assert p in updates ==> AllIn(updates[p], vs, n, p);
    assert AllIn(longer[p], vs, n, p);
  }

  /** Every vertex is under its partition. */
  ghost predicate Filed(groups: map<nat, seq<VertexId>>, vs: seq<VertexId>, n: nat)
    requires n > 0
  {
    forall p, i :: p in groups && 0 <= i < |groups[p]| ==> PartitionOf(vs, n, groups[p][i]) == p
  }

  lemma FiledNext(groups: map<nat, seq<VertexId>>, vs: seq<VertexId>, n: nat, p: nat, v: VertexId)
    requires n > 0 && Filed(groups, vs, n) && p == PartitionOf(vs, n, v)
    ensures Filed(Append(groups, p, v), vs, n)
  {
  }

  /** The vertices of one partition stand together. */
  ghost predicate Contiguous(order: seq<VertexId>, vs: seq<VertexId>, n: nat)
    requires n > 0
  {
    forall i, j, k :: 0 <= i < j < k < |order| && PartitionOf(vs, n, order[i]) == PartitionOf(vs, n, order[k]) ==>
      PartitionOf(vs, n, order[j]) == PartitionOf(vs, n, order[i])
  }

  /** The partitions that are in the order already have no group left. */
  ghost predicate Exhausted(order: seq<VertexId>, groups: map<nat, seq<VertexId>>, vs: seq<VertexId>, n: nat)
    requires n > 0
  {
    forall i :: 0 <= i < |order| ==> PartitionOf(vs, n, order[i]) !in groups
  }

  lemma AppendGroup(order: seq<VertexId>, groups: map<nat, seq<VertexId>>, vs: seq<VertexId>, n: nat, p: nat)
    requires n > 0 && Filed(groups, vs, n) && Contiguous(order, vs, n) && Exhausted(order, groups, vs, n) && p in groups
    ensures Contiguous(order + groups[p], vs, n) && Exhausted(order + groups[p], groups - {p}, vs, n)
    ensures Filed(groups - {p}, vs, n)
  {
    var longer := order + groups[p];
    forall i | 0 <= i < |longer|
      ensures i < |order| ==> longer[i] == order[i] && PartitionOf(vs, n, longer[i]) !in groups
      ensures i >= |order| ==> PartitionOf(vs, n, longer[i]) == p
    {
      assert i >= |order| ==> longer[i] == groups[p][i - |order|];
    }
  }

  /** Each partition holds the vertices dealt to it. */
  ghost predicate Holds(parts: seq<Blocks>, vs: seq<VertexId>, n: nat)
    requires n > 0
  {
    |parts| == n && forall p :: 0 <= p < n ==> Flatten(parts[p]) == Dealt(vs, n, p)
  }

  /** One more vertex goes to the partition in turn. */
  lemma DealNext(parts: seq<Blocks>, vs: seq<VertexId>, i: nat, n: nat, blocks: Blocks)
    requires n > 0 && i < |vs| && Holds(parts, vs[..i], n)
    requires Flatten(blocks) == Flatten(parts[i % n]) + [vs[i]]
    ensures Holds(parts[i % n := blocks], vs[..i + 1], n)
  {
    var after: seq<Blocks> := parts[i % n := blocks];
    assert vs[..i + 1][..i] == vs[..i];
    forall p | 0 <= p < n
      ensures Flatten(after[p]) == Dealt(vs[..i + 1], n, p)
    {
      assert Flatten(parts[p]) == Dealt(vs[..i], n, p);
    }
  }

  class CacheOptimizedEngine {
    const numPartitions: nat
    var vertexPartitions: seq<Blocks>
    var vertexStates: map<VertexId, Ref>
    var activeVertices: map<VertexId, bool>
    ghost var vertexList: seq<VertexId>

    /** The blocks of each partition hold exactly the vertices dealt to it. */
    ghost predicate Valid()
      reads this
    {
      && numPartitions > 0 && Distinct(vertexList)
      && Holds(vertexPartitions, vertexList, numPartitions)
    }

    /** `partitionVertices`, on the vertices in the order in which the map is traversed. */
    constructor (vertices: seq<VertexId>, partitions: int, states: map<VertexId, Ref>)
      requires Distinct(vertices)
      ensures Valid() && vertexList == vertices && vertexStates == states
      ensures numPartitions == if partitions <= 0 then 1 else partitions
      ensures activeVertices == map v | v in vertices :: true
    {
      var n := if partitions <= 0 then 1 else partitions;
      numPartitions := n;
      vertexList := vertices;
      vertexStates := states;
      activeVertices := map v | v in vertices :: true;
      vertexPartitions := seq(n, i => []);
      new;
      for i := 0 to |vertices|
        invariant |vertexPartitions| == numPartitions == n && n > 0 && vertexList == vertices && vertexStates == states
        invariant activeVertices == map v | v in vertices :: true
        invariant Holds(vertexPartitions, vertices[..i], n)
      {
        var current := i % n;
        var blocks := vertexPartitions[current];
        FlattenNewBlock(blocks);
        if i % BLOCK_SIZE == 0 && i > 0 {
          blocks := blocks + [[]];
        }
        if |blocks| == 0 {
          blocks := blocks + [[]];
        }
        FlattenAppend(blocks, vertices[i]);
        var last := |blocks| - 1;
        blocks := blocks[last := blocks[last] + [vertices[i]]];
        DealNext(vertexPartitions, vertices, i, n, blocks);
        vertexPartitions := vertexPartitions[current := blocks];
      }
      assert vertices[..|vertices|] == vertices;
    }

    /** The first partition with a block that lists the vertex, or 0: exactly the one it was dealt to. */
    method GetVertexPartition(v: VertexId) returns (partition: nat)
      requires Valid()
      ensures partition < numPartitions && partition == PartitionOf(vertexList, numPartitions, v)
    {
      partition := 0;
      while partition < |vertexPartitions|
        invariant partition <= |vertexPartitions|
        invariant forall p :: 0 <= p < partition ==> v !in Flatten(vertexPartitions[p])
      {
        var found := Lists(vertexPartitions[partition], v);
        if found {
          ghost var i := DealtFrom(vertexList, numPartitions, partition, v);
          PartitionOfAt(vertexList, numPartitions, i);
          return;
        }
        partition := partition + 1;
      }
      PartitionOfNone(vertexList, numPartitions, v);
      partition := 0;
    }

    /** The two inner loops of the search. */
    static method Lists(blocks: Blocks, v: VertexId) returns (found: bool)
      ensures found <==> v in Flatten(blocks)
    {
      var b := 0;
      while b < |blocks|
        invariant b <= |blocks|
        invariant v in Flatten(blocks) <==> v in Flatten(blocks[b..])
      {
        assert blocks[b..][1..] == blocks[b + 1..];
        assert blocks[b..][0] == blocks[b];
        var j := 0;
        while j < |blocks[b]|
          invariant j <= |blocks[b]|
          invariant v !in blocks[b][..j]
        {
          if blocks[b][j] == v {
            assert v in Flatten(blocks[b..]);
            return true;
          }
          j := j + 1;
        }
        assert blocks[b][..j] == blocks[b];
        b := b + 1;
      }
      assert blocks[b..] == [];
      return false;
    }

    /** Scheduling by partition: the active vertices again, each once, partition by partition. */
    method GroupActive(active: seq<VertexId>) returns (order: seq<VertexId>)
      requires Valid()
      ensures multiset(order) == multiset(active)
      ensures Contiguous(order, vertexList, numPartitions)
    {
      var groups: map<nat, seq<VertexId>> := map[];
      for i := 0 to |active|
        invariant Grouped(groups) == multiset(active[..i])
        invariant Filed(groups, vertexList, numPartitions)
      {
        var p := GetVertexPartition(active[i]);
        GroupNext(groups, active, i, p);
        FiledNext(groups, vertexList, numPartitions, p, active[i]);
        groups := Append(groups, p, active[i]);
      }
      assert active[..|active|] == active;
      order := [];
      while groups != map[]
        invariant multiset(order) + Grouped(groups) == multiset(active)
        invariant Filed(groups, vertexList, numPartitions)
        invariant Contiguous(order, vertexList, numPartitions) && Exhausted(order, groups, vertexList, numPartitions)
        decreases |groups|
      {
        var p :| p in groups;
        TakeGroup(order, groups, p);
        AppendGroup(order, groups, vertexList, numPartitions, p);
        order := order + groups[p];
        groups := groups - {p};
      }
    }

    /** The fields that a batch writes, as an engine without messages. */
    ghost function View(): Engine
      reads this
    {
      Engine(map[], 1, vertexStates, activeVertices, map[], map[], map[])
    }

    /** `partitionUpdates`: the results of a batch, each under the partition of its vertex. */
    method GroupUpdates(batch: seq<TaskResult>) returns (updates: map<nat, seq<TaskResult>>)
      requires Valid()
      ensures Grouped(updates) == multiset(batch)
      ensures Sorted(updates, vertexList, numPartitions)
    {
      updates := map[];
      for i := 0 to |batch|
        invariant Grouped(updates) == multiset(batch[..i])
        invariant Sorted(updates, vertexList, numPartitions)
      {
        var p := GetVertexPartition(batch[i].vid);
        GroupNext(updates, batch, i, p);
        AppendSorted(updates, vertexList, numPartitions, p, batch[i]);
        updates := Append(updates, p, batch[i]);
      }
      assert batch[..|batch|] == batch;
    }

    /**
     Applies a batch partition by partition, and stops at the first error it meets: what it has written
     by then are error-free results of the batch.
     */
    method ProcessBatch(batch: seq<TaskResult>) returns (err: Option<VertexError>, ghost applied: seq<TaskResult>)
      requires Valid() && DistinctResults(batch)
      modifies `vertexStates, `activeVertices
      ensures Valid()
      ensures err.None? <==> forall r :: r in batch ==> r.error.None?
      ensures err.None? ==> View() == ApplyBatch(old(View()), batch)
      ensures err.Some? ==> exists r :: r in batch && r.error.Some? && err.value == PlainError(r.error.value)
      ensures View() == ApplyBatch(old(View()), applied) && forall r :: r in applied ==> r.error.None?
      ensures multiset(applied) <= multiset(batch)
    {
      var updates := GroupUpdates(batch);
      applied := [];
      while updates != map[]
        invariant Valid()
        invariant multiset(applied) + Grouped(updates) == multiset(batch)
        invariant View() == ApplyBatch(old(View()), applied)
        invariant forall r :: r in applied ==> r.error.None?
        decreases |updates|
      {
        var p :| p in updates;
        GroupedRemove(updates, p);
        GroupInBatch(updates[p], updates, multiset(applied), batch);
        err, applied := ApplyGroup(updates[p], old(View()), applied);
        if err.Some? {
          return;
        }
        updates := updates - {p};
      }
      assert multiset(applied) == multiset(batch);
      SameElements(applied, batch);
      DistinctIsFunctional(batch);
      BatchPermutation(old(View()), applied, batch);
      err := None;
    }

    /** The updates of one partition, applied under one hold of the lock. */
    method ApplyGroup(group: seq<TaskResult>, ghost start: Engine, ghost before: seq<TaskResult>)
      returns (err: Option<VertexError>, ghost applied: seq<TaskResult>)
      requires Valid() && View() == ApplyBatch(start, before) && forall r :: r in before ==> r.error.None?
      modifies `vertexStates, `activeVertices
      ensures Valid()
      ensures View() == ApplyBatch(start, applied) && forall r :: r in applied ==> r.error.None?
      ensures multiset(applied) <= multiset(before) + multiset(group)
      ensures err.None? ==> multiset(applied) == multiset(before) + multiset(group)
      ensures err.Some? ==> exists r :: r in group && r.error.Some? && err.value == PlainError(r.error.value)
    {
      applied := before;
      for i := 0 to |group|
        invariant Valid()
        invariant multiset(applied) == multiset(before) + multiset(group[..i])
        invariant View() == ApplyBatch(start, applied)
        invariant forall r :: r in applied ==> r.error.None?
      {
        var r := group[i];
        if r.error.Some? {
          Prefixes(group, i);
          return Some(PlainError(r.error.value)), applied;
        }
        vertexStates := vertexStates[r.vid := r.ref];
        activeVertices := activeVertices[r.vid := !r.halt];
        AppliedNext(start, applied, before, group, i);
        applied := applied + [r];
      }
      assert group[..|group|] == group;
      err := None;
    }

    /** The fields hold what has been applied; after an error also some error-free results of the failing batch. */
    ghost predicate Leaves(g: Gathering, err: Option<VertexError>, stray: seq<TaskResult>)
      reads this
    {
      if err.None? then g.errs == [] && View() == g.eng && stray == []
      else
        && err.value in g.errs && View() == ApplyBatch(g.eng, stray)
        && multiset(stray) <= multiset(g.batch) && forall x :: x in stray ==> x.error.None?
    }

    /** One result joins the batch, which is processed when it holds 32 of them or is the last one. */
    method CollectResult(r: TaskResult, collected: nat, expected: nat, gathered: seq<TaskResult>, ghost g: Gathering)
      returns (err: Option<VertexError>, batch: seq<TaskResult>, ghost g': Gathering, ghost stray: seq<TaskResult>)
      requires Valid() && DistinctResults(gathered + [r]) && View() == g.eng
      requires g.errs == [] && g.batch == gathered && |g.done| + 1 == collected
      modifies `vertexStates, `activeVertices
      ensures Valid() && g' == Gather(g, r, expected) && Leaves(g', err, stray)
      ensures err.None? ==> g'.batch == batch && |g'.done| == collected && (batch == [] || batch == gathered + [r])
    {
      g' := Gather(g, r, expected);
      batch := gathered + [r];
      err, stray := None, [];
      if |batch| >= BATCH_SIZE || collected == expected {
        NoBatchErrors(batch);
        err, stray := ProcessBatch(batch);
        if err.Some? {
          ErrorListed(batch, err.value);
          return;
        }
        batch, stray := [], [];
      }
    }

    /**
     The collection loop is the fold of the protocol's `Gather` over the results it uses, up to the
     first batch that fails.
     */
    method CollectResults(expected: nat, arrivals: seq<TaskResult>)
      returns (err: Option<VertexError>, used: nat, timedOut: bool, ghost g: Gathering, ghost stray: seq<TaskResult>)
      requires Valid() && DistinctResults(arrivals)
      modifies `vertexStates, `activeVertices
      ensures Valid() && used <= |arrivals| && Leaves(g, err, stray)
      ensures g == GatherFirst(Gathering(old(View()), [], [], []), arrivals, used, expected)
      ensures timedOut <==> err.None? && |g.done| < expected
      ensures timedOut ==> used == |arrivals|
    {
      var batch: seq<TaskResult> := [];
      used, err, stray := 0, None, [];
      ghost var g0 := Gathering(View(), [], [], []);
      g := g0;
      while used < expected
        invariant Valid() && used <= |arrivals| && used <= expected && View() == g.eng
        invariant g == GatherFirst(g0, arrivals, used, expected)
        invariant Collecting(g, arrivals, used, batch)
        decreases expected - used
      {
        if used == |arrivals| {
          return None, used, true, g, [];
        }
        BatchSlice(arrivals, batch, used);
        err, batch, g, stray := CollectResult(arrivals[used], used + 1, expected, batch, g);
        used := used + 1;
        if err.Some? {
          return err, used, false, g, stray;
        }
      }
      return None, used, false, g, [];
    }
  }

  /** Half way: no errors so far, and the batch holds the latest of the `n` results used. */
  ghost predicate Collecting(g: Gathering, arrivals: seq<TaskResult>, n: nat, batch: seq<TaskResult>) {
    && n <= |arrivals| && g.errs == [] && g.batch == batch && |g.done| == n
    && |batch| <= n && batch == arrivals[n - |batch|..n]
  }

  // ---------------------------------------------------------------- the fold over the arrivals

  /** The fields that collecting in batches writes, as an engine without messages. */
  function Written(e: Engine): Engine {
    Engine(map[], 1, e.states, e.active, map[], map[], map[])
  }

  function GatheringOf(s: Sys): Gathering {
    Gathering(Written(s.eng), s.done, s.errs, s.batch)
  }

  /** Collecting the first `n` results in batches, one after the other. */
  function GatherFirst(g: Gathering, rs: seq<TaskResult>, n: nat, expected: nat): Gathering
    requires n <= |rs|
  {
    if n == 0 then g else Gather(GatherFirst(g, rs, n - 1, expected), rs[n - 1], expected)
  }

  lemma {:induction false} WrittenBatch(e: Engine, batch: seq<TaskResult>)
    ensures Written(ApplyBatch(e, batch)) == ApplyBatch(Written(e), batch)
    decreases |batch|
  {
    if batch != [] {
      WrittenBatch(e, batch[..|batch| - 1]);
    }
  }

  /** Collecting a result in batches looks at nothing but these fields and the number of vertices. */
  lemma GatheringAlone(s: Sys, r: TaskResult)
    ensures GatheringOf(CollectBatched(s, r)) == Gather(GatheringOf(s), r, |s.order|)
  {
    WrittenBatch(s.eng, s.batch + [r]);
  }

  lemma {:induction false} GatherFirstCons(g: Gathering, r: TaskResult, rs: seq<TaskResult>, n: nat, expected: nat)
    requires n <= |rs|
    ensures GatherFirst(g, [r] + rs, n + 1, expected) == GatherFirst(Gather(g, r, expected), rs, n, expected)
  {
    if n == 0 {
      assert GatherFirst(g, [r] + rs, 0, expected) == g;
    } else {
      GatherFirstCons(g, r, rs, n - 1, expected);
    }
  }

  lemma CollectGathers(c: Config, s: Sys)
    requires Runnable(c) && c.mode.Cached? && Enabled(c, s, Collect)
    ensures GatheringOf(Apply(c, s, Collect)) == Gather(GatheringOf(s), s.results[0], |s.order|)
  {
    GatheringAlone(s.(results := s.results[1..]), s.results[0]);
  }

  lemma OthersKeepGathering(c: Config, s: Sys, a: Action)
    requires Runnable(c) && Enabled(c, s, a) && !a.Collect?
    ensures GatheringOf(Apply(c, s, a)) == GatheringOf(s)
  {
  }

  /** Over any interleaving of the cache-optimized engine, what is collected is the fold over the arrivals. */
  lemma {:induction false} GatheringFollowsArrivals(c: Config, s: Sys, script: seq<Action>)
    requires Runnable(c) && c.mode.Cached? && Admits(c, s, script)
    ensures var rs := Arrivals(c, s, script);
            GatheringOf(Exec(c, s, script)) == GatherFirst(GatheringOf(s), rs, |rs|, |s.order|)
    decreases |script|
  {
    if script != [] {
      var s' := Apply(c, s, script[0]);
      var rest := Arrivals(c, s', script[1..]);
      GatheringFollowsArrivals(c, s', script[1..]);
      StepKeepsOrder(c, s, script[0]);
      if script[0].Collect? {
        CollectGathers(c, s);
        GatherFirstCons(GatheringOf(s), s.results[0], rest, |rest|, |s.order|);
      } else {
        OthersKeepGathering(c, s, script[0]);
        assert Arrivals(c, s, script) == rest;
      }
    }
  }

  /** The batch and the next result are the latest arrivals, of different vertices. */
  lemma BatchSlice(arrivals: seq<TaskResult>, batch: seq<TaskResult>, n: nat)
    requires n < |arrivals| && |batch| <= n && batch == arrivals[n - |batch|..n] && DistinctResults(arrivals)
    ensures var longer := batch + [arrivals[n]];
            longer == arrivals[n + 1 - |longer|..n + 1] && DistinctResults(longer)
  {
  }

  /** An error of a batch is among those the protocol lists. */
  lemma {:induction false} ErrorListed(batch: seq<TaskResult>, err: VertexError)
    requires exists r :: r in batch && r.error.Some? && err == PlainError(r.error.value)
    ensures err in BatchErrors(batch)
  {
    var n := |batch| - 1;
    var r :| r in batch && r.error.Some? && err == PlainError(r.error.value);
    if r != batch[n] {
      assert batch == batch[..n] + [batch[n]];
      assert r in batch[..n];
      ErrorListed(batch[..n], err);
    }
  }

  // ---------------------------------------------------------------- grouping

  /** Everything in the groups of a map from partitions, in whatever order they are visited. */
  ghost function Grouped<T>(groups: map<nat, seq<T>>): multiset<T>
    decreases |groups|
  {
    if groups == map[] then multiset{}
    else
      var p :| p in groups;
      multiset(groups[p]) + Grouped(groups - {p})
  }

  lemma {:induction false} GroupedRemove<T>(groups: map<nat, seq<T>>, p: nat)
    requires p in groups
    ensures Grouped(groups) == multiset(groups[p]) + Grouped(groups - {p})
    decreases |groups|
  {
    var q :| q in groups && Grouped(groups) == multiset(groups[q]) + Grouped(groups - {q});
    if q != p {
      GroupedRemove(groups - {q}, p);
      assert groups - {q} - {p} == groups - {p} - {q};
      GroupedRemove(groups - {p}, q);
    }
  }

  lemma SameElements<T>(xs: seq<T>, ys: seq<T>)
    requires multiset(xs) == multiset(ys)
    ensures forall x :: x in xs <==> x in ys
  {
    assert forall x :: x in xs <==> x in multiset(xs);
    assert forall y :: y in ys <==> y in multiset(ys);
  }

  lemma GroupInBatch<T>(group: seq<T>, groups: map<nat, seq<T>>, applied: multiset<T>, batch: seq<T>)
    requires multiset(group) <= Grouped(groups) && applied + Grouped(groups) == multiset(batch)
    ensures forall x :: x in group ==> x in batch
  {
    forall x | x in group
      ensures x in batch
    {
      assert x in multiset(group);
      assert x in Grouped(groups);
      assert x in multiset(batch);
    }
  }

  /** `groups[p] = append(groups[p], x)`. */
  function Append<T>(groups: map<nat, seq<T>>, p: nat, x: T): map<nat, seq<T>> {
    groups[p := (if p in groups then groups[p] else []) + [x]]
  }

  lemma OneMore<T>(xs: seq<T>, x: T)
    ensures multiset(xs + [x]) == multiset(xs) + multiset{x}
  {
  }

  lemma Prefixes<T>(xs: seq<T>, i: nat)
    requires i < |xs|
    ensures multiset(xs[..i + 1]) == multiset(xs[..i]) + multiset{xs[i]} && multiset(xs[..i]) <= multiset(xs)
  {
    OneMore(xs[..i], xs[i]);
    assert xs[..i + 1] == xs[..i] + [xs[i]];
    assert xs == xs[..i] + xs[i..];
  }

  lemma GroupedWithout<T>(groups: map<nat, seq<T>>, p: nat)
    ensures Grouped(groups) == multiset(if p in groups then groups[p] else []) + Grouped(groups - {p})
  {
    if p in groups {
      GroupedRemove(groups, p);
    } else {
      assert groups - {p} == groups;
    }
  }

  lemma AppendGroups<T>(groups: map<nat, seq<T>>, p: nat, x: T)
    ensures Grouped(Append(groups, p, x)) == Grouped(groups) + multiset{x}
  {
    var longer: map<nat, seq<T>> := Append(groups, p, x);
    GroupedWithout(groups, p);
    GroupedWithout(longer, p);
    assert longer - {p} == groups - {p};
    OneMore(if p in groups then groups[p] else [], x);
  }

  lemma GroupNext<T>(groups: map<nat, seq<T>>, xs: seq<T>, i: nat, p: nat)
    requires i < |xs| && Grouped(groups) == multiset(xs[..i])
    ensures Grouped(Append(groups, p, xs[i])) == multiset(xs[..i + 1])
  {
    AppendGroups(groups, p, xs[i]);
    Prefixes(xs, i);
  }

  lemma TakeGroup<T>(order: seq<T>, groups: map<nat, seq<T>>, p: nat)
    requires p in groups
    ensures multiset(order + groups[p]) + Grouped(groups - {p}) == multiset(order) + Grouped(groups)
  {
    GroupedRemove(groups, p);
  }

  lemma {:induction false} BatchesCompose(e: Engine, a: seq<TaskResult>, b: seq<TaskResult>)
    ensures ApplyBatch(ApplyBatch(e, a), b) == ApplyBatch(e, a + b)
    decreases |b|
  {
    if b == [] {
      assert a + b == a;
    } else {
      var n := |b| - 1;
      assert (a + b)[..|a + b| - 1] == a + b[..n];
      BatchesCompose(e, a, b[..n]);
    }
  }

  lemma SameAt(e: Engine, xs: seq<TaskResult>, ys: seq<TaskResult>, v: VertexId)
    requires Functional(multiset(xs)) && multiset(xs) == multiset(ys)
    ensures var x, y := ApplyBatch(e, xs), ApplyBatch(e, ys);
            && (v in x.states <==> v in y.states) && x.RefOf(v) == y.RefOf(v)
            && (v in x.active <==> v in y.active) && x.IsActive(v) == y.IsActive(v)
  {
    if r :| r in multiset(xs) && r.vid == v {
      assert r in xs && r in ys;
      BatchUpdates(e, xs, r);
      BatchUpdates(e, ys, r);
    } else {
      assert forall r :: r in xs ==> r in multiset(xs);
      assert forall r :: r in ys ==> r in multiset(ys);
      BatchSpares(e, xs, v);
      BatchSpares(e, ys, v);
    }
  }

  /** The order in which the results of a batch are applied does not matter. */
  lemma BatchPermutation(e: Engine, xs: seq<TaskResult>, ys: seq<TaskResult>)
    requires Functional(multiset(xs)) && multiset(xs) == multiset(ys)
    ensures ApplyBatch(e, xs) == ApplyBatch(e, ys)
  {
    var x, y := ApplyBatch(e, xs), ApplyBatch(e, ys);
    forall v
      ensures (v in x.states <==> v in y.states) && x.RefOf(v) == y.RefOf(v)
      ensures (v in x.active <==> v in y.active) && x.IsActive(v) == y.IsActive(v)
    {
      SameAt(e, xs, ys, v);
    }
    SameMap(x.states, y.states, 0);
    SameMap(x.active, y.active, false);
    BatchKeepsAttempts(e, xs);
    BatchKeepsAttempts(e, ys);
  }

  lemma SameMap<T>(x: map<VertexId, T>, y: map<VertexId, T>, default: T)
    requires forall v :: (v in x <==> v in y) && Lookup(x, v, default) == Lookup(y, v, default)
    ensures x == y
  {
    forall v | v in x
      ensures v in y && x[v] == y[v]
    {
      assert Lookup(x, v, default) == Lookup(y, v, default);
    }
    forall v | v in y
      ensures v in x
    {
      assert Lookup(x, v, default) == Lookup(y, v, default);
    }
  }

  /** One more result of the group. */
  lemma AppliedNext(e: Engine, applied: seq<TaskResult>, before: seq<TaskResult>, group: seq<TaskResult>, i: nat)
    requires i < |group| && multiset(applied) == multiset(before) + multiset(group[..i])
    ensures multiset(applied + [group[i]]) == multiset(before) + multiset(group[..i + 1])
    ensures var r, prior := group[i], ApplyBatch(e, applied);
            ApplyBatch(e, applied + [r])
            == prior.(states := prior.states[r.vid := r.ref], active := prior.active[r.vid := !r.halt])
  {
    Prefixes(group, i);
    OneMore(applied, group[i]);
    assert (applied + [group[i]])[..|applied|] == applied;
  }
}
