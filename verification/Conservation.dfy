/**
 Safety and progress of one superstep: no task is ever lost or duplicated, a worker that has a
 result can always deliver it, an unfinished superstep can always move, and every interleaving is
 finite because retries run out.
 */
module Conservation {
  import opened Sequences
  import opened PregelModel
  import opened Superstep

  // ---------------------------------------------------------------- where the tasks are

  function TaskVids(ts: seq<Task>): seq<VertexId> {
    seq(|ts|, i requires 0 <= i < |ts| => ts[i].vid)
  }

  function ResultVids(rs: seq<TaskResult>): seq<VertexId> {
    seq(|rs|, i requires 0 <= i < |rs| => rs[i].vid)
  }

  ghost function WithCoordinator(coord: Coordinator): multiset<VertexId> {
    match coord
    case Dispatching(rest) => multiset(rest)
    case Placing(t, _, rest) => multiset{t.vid} + multiset(rest)
    case Stopped => multiset{}
  }

  ghost function Queued(queues: seq<seq<Task>>): multiset<VertexId> {
    if queues == [] then multiset{} else multiset(TaskVids(queues[0])) + Queued(queues[1..])
  }

  ghost function TaskOf(w: Worker): multiset<VertexId> {
    if w.Running? then multiset{w.task.vid} else multiset{}
  }

  ghost function ResultOf(w: Worker): multiset<VertexId> {
    if w.Sending? then multiset{w.result.vid} else multiset{}
  }

  ghost function InWorkers(ws: seq<Worker>, f: Worker -> multiset<VertexId>): multiset<VertexId> {
    if ws == [] then multiset{} else f(ws[0]) + InWorkers(ws[1..], f)
  }

  /** How often `v` is still to be run: unscheduled, in the coordinator's hand, queued or running. */
  ghost function Waiting(s: Sys, v: VertexId): nat {
    WithCoordinator(s.coord)[v] + Queued(s.queues)[v] + InWorkers(s.workers, TaskOf)[v]
  }

  /** How often a result of `v` is with a worker or in the result channel. */
  ghost function Ran(s: Sys, v: VertexId): nat {
    InWorkers(s.workers, ResultOf)[v] + multiset(ResultVids(s.results))[v]
  }

  lemma {:induction false} QueuedUpdate(queues: seq<seq<Task>>, i: nat, q: seq<Task>)
    requires i < |queues|
    ensures forall v ::
              Queued(queues[i := q])[v] + multiset(TaskVids(queues[i]))[v] ==
              Queued(queues)[v] + multiset(TaskVids(q))[v]
  {
    if i == 0 {
      assert queues[i := q][1..] == queues[1..];
    } else {
      QueuedUpdate(queues[1..], i - 1, q);
      assert queues[i := q][1..] == queues[1..][i - 1 := q];
    }
  }

  lemma {:induction false} WorkerUpdate(ws: seq<Worker>, i: nat, w: Worker, f: Worker -> multiset<VertexId>)
    requires i < |ws|
    ensures forall v :: InWorkers(ws[i := w], f)[v] + f(ws[i])[v] == InWorkers(ws, f)[v] + f(w)[v]
  {
    if i == 0 {
      assert ws[i := w][1..] == ws[1..];
    } else {
      WorkerUpdate(ws[1..], i - 1, w, f);
      assert ws[i := w][1..] == ws[1..][i - 1 := w];
    }
  }

  lemma TaskVidsAppend(q: seq<Task>, t: Task)
    ensures multiset(TaskVids(q + [t])) == multiset(TaskVids(q)) + multiset{t.vid}
  {
    assert TaskVids(q + [t]) == TaskVids(q) + [t.vid];
  }

  lemma TaskVidsHead(q: seq<Task>)
    requires q != []
    ensures multiset(TaskVids(q)) == multiset{q[0].vid} + multiset(TaskVids(q[1..]))
  {
    assert TaskVids(q) == [q[0].vid] + TaskVids(q[1..]);
  }

  lemma ResultVidsAppend(rs: seq<TaskResult>, r: TaskResult)
    ensures forall v :: multiset(ResultVids(rs + [r]))[v] == multiset(ResultVids(rs))[v] + One(r.vid, v)
  {
    assert ResultVids(rs + [r]) == ResultVids(rs) + [r.vid];
  }

  lemma ResultVidsHead(rs: seq<TaskResult>)
    requires rs != []
    ensures multiset(ResultVids(rs)) == multiset{rs[0].vid} + multiset(ResultVids(rs[1..]))
  {
    assert ResultVids(rs) == [rs[0].vid] + ResultVids(rs[1..]);
  }

  // ---------------------------------------------------------------- the invariant

  /** As many queues and workers as configured, and no queue above its capacity. */
  ghost predicate Shaped(c: Config, s: Sys) {
    && |s.queues| == c.workers == |s.workers|
    && (forall i :: 0 <= i < |s.queues| ==> |s.queues[i]| <= c.queueCap)
    && (s.coord.Placing? ==> s.coord.slot < c.workers)
    && !s.coord.Stopped?
  }

  /** Conservation: every vertex of the superstep is in exactly one place. */
  ghost predicate Conserved(s: Sys) {
    && Distinct(s.order)
    && forall v :: multiset(s.order)[v] == multiset(s.done)[v] + Waiting(s, v) + Ran(s, v)
  }

  ghost predicate Inv(c: Config, s: Sys) {
    Shaped(c, s) && Conserved(s)
  }

  lemma {:induction false} EmptyQueues(n: nat)
    ensures Queued(seq(n, i => [])) == multiset{}
  {
    if n > 0 {
      EmptyQueues(n - 1);
      var empty: seq<seq<Task>> := seq(n, i => []);
      assert empty[1..] == seq(n - 1, i => []);
      assert TaskVids([]) == [];
    }
  }

  lemma {:induction false} IdleWorkers(n: nat, f: Worker -> multiset<VertexId>)
    requires f(Idle) == multiset{}
    ensures InWorkers(seq(n, i => Idle), f) == multiset{}
  {
    if n > 0 {
      IdleWorkers(n - 1, f);
      assert seq(n, i => Idle)[1..] == seq(n - 1, i => Idle);
    }
  }

  lemma StartInv(c: Config, e: Engine, order: seq<VertexId>, step: nat, counter: nat)
    requires Distinct(order)
    ensures Inv(c, Start(c, e, order, step, counter))
    ensures var s := Start(c, e, order, step, counter);
            forall v :: Waiting(s, v) == multiset(order)[v] && Ran(s, v) == 0
  {
    EmptyQueues(c.workers);
    IdleWorkers(c.workers, TaskOf);
    IdleWorkers(c.workers, ResultOf);
    assert ResultVids([]) == [];
  }

  function One(v: VertexId, u: VertexId): nat {
    if u == v then 1 else 0
  }

  // What each action does to the whereabouts of every vertex.

  /** Nobody passes from waiting to run, or on to the coordinator. */
  ghost predicate Stays(s: Sys, s': Sys) {
    forall v :: Waiting(s', v) == Waiting(s, v) && Ran(s', v) == Ran(s, v)
  }

  /** One vertex is run. */
  ghost predicate RunsOnce(s: Sys, s': Sys, u: VertexId) {
    forall v :: Waiting(s', v) + One(u, v) == Waiting(s, v) && Ran(s', v) == Ran(s, v) + One(u, v)
  }

  /** The coordinator takes one vertex, and may send it back. */
  ghost predicate IsTaken(s: Sys, s': Sys, u: VertexId, again: bool) {
    forall v ::
      && Waiting(s', v) == Waiting(s, v) + (if again then One(u, v) else 0)
      && Ran(s', v) + One(u, v) == Ran(s, v)
  }

  lemma AddOne(m: multiset<VertexId>, m': multiset<VertexId>, v: VertexId)
    requires forall u :: m'[u] == m[u] + One(v, u)
    ensures |m'| == |m| + 1
  {
    assert m' == m + multiset{v};
  }

  lemma SameSize(m: multiset<VertexId>, m': multiset<VertexId>)
    requires forall u :: m'[u] == m[u]
    ensures |m'| == |m|
  {
    assert m' == m;
  }

  lemma QueueGrows(queues: seq<seq<Task>>, i: nat, t: Task)
    requires i < |queues|
    ensures forall v :: Queued(queues[i := queues[i] + [t]])[v] == Queued(queues)[v] + One(t.vid, v)
    ensures |Queued(queues[i := queues[i] + [t]])| == |Queued(queues)| + 1
  {
    QueuedUpdate(queues, i, queues[i] + [t]);
    TaskVidsAppend(queues[i], t);
    AddOne(Queued(queues), Queued(queues[i := queues[i] + [t]]), t.vid);
  }

  /** Taking the head of a queue removes one task. */
  lemma QueuePops(queues: seq<seq<Task>>, i: nat)
    requires i < |queues| && queues[i] != []
    ensures forall v :: Queued(queues)[v] == Queued(queues[i := queues[i][1..]])[v] + One(queues[i][0].vid, v)
    ensures |Queued(queues)| == |Queued(queues[i := queues[i][1..]])| + 1
  {
    QueuedUpdate(queues, i, queues[i][1..]);
    TaskVidsHead(queues[i]);
    AddOne(Queued(queues[i := queues[i][1..]]), Queued(queues), queues[i][0].vid);
  }

  /** An idle worker that picks up a task holds it, and no result. */
  lemma WorkerPicksUp(ws: seq<Worker>, w: nat, t: Task)
    requires w < |ws| && ws[w].Idle?
    ensures var after := ws[w := Running(t)];
            && (forall v :: InWorkers(after, TaskOf)[v] == InWorkers(ws, TaskOf)[v] + One(t.vid, v))
            && (forall v :: InWorkers(after, ResultOf)[v] == InWorkers(ws, ResultOf)[v])
            && |InWorkers(after, TaskOf)| == |InWorkers(ws, TaskOf)| + 1
            && |InWorkers(after, ResultOf)| == |InWorkers(ws, ResultOf)|
  {
    var after := ws[w := Running(t)];
    WorkerUpdate(ws, w, Running(t), TaskOf);
    WorkerUpdate(ws, w, Running(t), ResultOf);
    AddOne(InWorkers(ws, TaskOf), InWorkers(after, TaskOf), t.vid);
    SameSize(InWorkers(ws, ResultOf), InWorkers(after, ResultOf));
  }

  /** A worker that has run its task holds the result instead. */
  lemma WorkerReturns(ws: seq<Worker>, w: nat, r: TaskResult)
    requires w < |ws| && ws[w].Running? && ws[w].task.vid == r.vid
    ensures var after := ws[w := Sending(r)];
            && (forall v :: InWorkers(after, TaskOf)[v] + One(r.vid, v) == InWorkers(ws, TaskOf)[v])
            && (forall v :: InWorkers(after, ResultOf)[v] == InWorkers(ws, ResultOf)[v] + One(r.vid, v))
            && |InWorkers(after, TaskOf)| + 1 == |InWorkers(ws, TaskOf)|
            && |InWorkers(after, ResultOf)| == |InWorkers(ws, ResultOf)| + 1
  {
    var after := ws[w := Sending(r)];
    WorkerUpdate(ws, w, Sending(r), TaskOf);
    WorkerUpdate(ws, w, Sending(r), ResultOf);
    AddOne(InWorkers(after, TaskOf), InWorkers(ws, TaskOf), r.vid);
    AddOne(InWorkers(ws, ResultOf), InWorkers(after, ResultOf), r.vid);
  }

  /** A worker that has delivered its result is idle. */
  lemma WorkerDelivers(ws: seq<Worker>, w: nat)
    requires w < |ws| && ws[w].Sending?
    ensures var after := ws[w := Idle];
            && (forall v :: InWorkers(after, TaskOf)[v] == InWorkers(ws, TaskOf)[v])
            && (forall v :: InWorkers(after, ResultOf)[v] + One(ws[w].result.vid, v) == InWorkers(ws, ResultOf)[v])
            && |InWorkers(after, TaskOf)| == |InWorkers(ws, TaskOf)|
            && |InWorkers(after, ResultOf)| + 1 == |InWorkers(ws, ResultOf)|
  {
    var after := ws[w := Idle];
    WorkerUpdate(ws, w, Idle, TaskOf);
    WorkerUpdate(ws, w, Idle, ResultOf);
    SameSize(InWorkers(ws, TaskOf), InWorkers(after, TaskOf));
    AddOne(InWorkers(after, ResultOf), InWorkers(ws, ResultOf), ws[w].result.vid);
  }

  lemma NextMoves(c: Config, s: Sys)
    requires Runnable(c) && Shaped(c, s) && Enabled(c, s, Next)
    ensures var s' := Apply(c, s, Next);
            Shaped(c, s') && Stays(s, s')
  {
    assert s.coord.rest == [s.coord.rest[0]] + s.coord.rest[1..];
  }

  /** One queue changes, within its capacity. */
  lemma QueuesShaped(c: Config, s: Sys, s': Sys, i: nat, q: seq<Task>)
    requires Shaped(c, s) && i < |s.queues| && s'.queues == s.queues[i := q] && |q| <= c.queueCap
    requires |s'.workers| == |s.workers| && (s'.coord == s.coord || s'.coord.Dispatching?)
    ensures Shaped(c, s')
  {
    forall k | 0 <= k < |s'.queues|
      ensures |s'.queues[k]| <= c.queueCap
    {
      assert |s.queues[k]| <= c.queueCap;
    }
  }

  lemma EnqueueMoves(c: Config, s: Sys)
    requires Runnable(c) && Shaped(c, s) && Enabled(c, s, Enqueue)
    ensures var s' := Apply(c, s, Enqueue);
            Shaped(c, s') && Stays(s, s')
  {
    var i := s.coord.slot;
    QueuesShaped(c, s, Apply(c, s, Enqueue), i, s.queues[i] + [s.coord.task]);
    QueueGrows(s.queues, i, s.coord.task);
  }

  lemma TakeMoves(c: Config, s: Sys, w: nat, i: nat)
    requires Runnable(c) && Shaped(c, s) && Enabled(c, s, Take(w, i))
    ensures var s' := Apply(c, s, Take(w, i));
            Shaped(c, s') && Stays(s, s')
  {
    QueuesShaped(c, s, Apply(c, s, Take(w, i)), i, s.queues[i][1..]);
    QueuePops(s.queues, i);
    WorkerPicksUp(s.workers, w, s.queues[i][0]);
  }

  lemma FinishMoves(c: Config, s: Sys, w: nat)
    requires Runnable(c) && Shaped(c, s) && Enabled(c, s, Finish(w))
    ensures var s' := Apply(c, s, Finish(w));
            Shaped(c, s')
            && RunsOnce(s, s', s.workers[w].task.vid)
  {
    WorkerReturns(s.workers, w, Apply(c, s, Finish(w)).workers[w].result);
  }

  lemma SendMoves(c: Config, s: Sys, w: nat)
    requires Runnable(c) && Shaped(c, s) && Enabled(c, s, Send(w))
    ensures var s' := Apply(c, s, Send(w));
            Shaped(c, s') && Stays(s, s')
  {
    WorkerDelivers(s.workers, w);
    ResultVidsAppend(s.results, s.workers[w].result);
  }

  /** The part of the state that collecting a result touches, in the standard engine. */
  lemma HandleShape(c: Config, s: Sys, r: TaskResult)
    requires Runnable(c) && c.mode.Standard?
    ensures var s' := HandleResult(c, s, r);
            && s'.order == s.order && s'.queues == s.queues && s'.workers == s.workers && s'.results == s.results
            && (if Retries(c, s.eng, r) then
                  && s'.coord.Placing? && s'.coord.task.vid == r.vid && s'.coord.slot < c.workers && s'.coord.rest == []
                  && s'.eng.attempts == s.eng.attempts[r.vid := s.eng.AttemptsOf(r.vid) + 1] && s'.done == s.done
                else
                  && s'.done == s.done + [r.vid] && s'.coord == s.coord
                  && forall v :: v != r.vid ==> s'.eng.AttemptsOf(v) == s.eng.AttemptsOf(v))
  {
  }

  /** The same for the cache-optimized engine, which never retries and never counts attempts. */
  lemma BatchShape(s: Sys, r: TaskResult)
    ensures var s' := CollectBatched(s, r);
            && s'.order == s.order && s'.queues == s.queues && s'.workers == s.workers && s'.results == s.results
            && s'.done == s.done + [r.vid] && s'.coord == s.coord && s'.eng.attempts == s.eng.attempts
  {
    BatchKeepsAttempts(s.eng, s.batch + [r]);
  }

  lemma {:induction false} BatchKeepsAttempts(e: Engine, batch: seq<TaskResult>)
    ensures ApplyBatch(e, batch).attempts == e.attempts && ApplyBatch(e, batch).inbox == e.inbox
    ensures ApplyBatch(e, batch).cells == e.cells && ApplyBatch(e, batch).next == e.next
    ensures ApplyBatch(e, batch).checkpoints == e.checkpoints
    decreases |batch|
  {
    if batch != [] {
      BatchKeepsAttempts(e, batch[..|batch| - 1]);
    }
  }

  /** What taking the first result does to the counts, when the rest stays in its place. */
  lemma TakenCounts(s: Sys, s': Sys, again: bool)
    requires s.coord == Dispatching([]) && s.results != []
    requires s'.queues == s.queues && s'.workers == s.workers && s'.results == s.results[1..]
    requires !again ==> s'.coord == s.coord
    requires again ==> s'.coord.Placing? && s'.coord.task.vid == s.results[0].vid && s'.coord.rest == []
    ensures IsTaken(s, s', s.results[0].vid, again)
  {
    ResultVidsHead(s.results);
  }

  /** A collected vertex is done, or is placed again for a retry. */
  lemma CollectMoves(c: Config, s: Sys)
    requires Runnable(c) && Shaped(c, s) && Enabled(c, s, Collect)
    ensures var s' := Apply(c, s, Collect); var r := s.results[0]; var again := Retries(c, s.eng, r);
            && Shaped(c, s') && s'.order == s.order && s'.done == (if again then s.done else s.done + [r.vid])
            && IsTaken(s, s', r.vid, again)
  {
    var r := s.results[0];
    var s1 := s.(results := s.results[1..]);
    if c.mode.Standard? {
      HandleShape(c, s1, r);
    } else {
      BatchShape(s1, r);
    }
    TakenCounts(s, Apply(c, s, Collect), Retries(c, s.eng, r));
  }

  lemma StepConserves(c: Config, s: Sys, a: Action)
    requires Runnable(c) && Inv(c, s) && Enabled(c, s, a)
    ensures Inv(c, Apply(c, s, a))
  {
    match a
    case Next => NextMoves(c, s);
    case Enqueue => EnqueueMoves(c, s);
    case Take(w, q) => TakeMoves(c, s, w, q);
    case Finish(w) => FinishMoves(c, s, w);
    case Send(w) => SendMoves(c, s, w);
    case Collect => CollectMoves(c, s);
  }

  /** Conservation over every interleaving. */
  lemma {:induction false} RunConserves(c: Config, s: Sys, script: seq<Action>)
    requires Runnable(c) && Inv(c, s) && Admits(c, s, script)
    ensures Inv(c, Exec(c, s, script))
    decreases |script|
  {
    if script != [] {
      StepConserves(c, s, script[0]);
      RunConserves(c, Apply(c, s, script[0]), script[1..]);
    }
  }

  // ---------------------------------------------------------------- capacity and progress

  lemma {:induction false} CountAtMostOne(vs: seq<VertexId>, v: VertexId)
    requires Distinct(vs)
    ensures multiset(vs)[v] <= 1
  {
    if vs != [] {
      assert vs == [vs[0]] + vs[1..];
      CountAtMostOne(vs[1..], v);
      assert v == vs[0] ==> v !in vs[1..];
    }
  }

  /** The number of vertices in flight: scheduled or being scheduled, and not yet collected. */
  ghost function InFlight(s: Sys): nat {
    |WithCoordinator(s.coord)| + |Queued(s.queues)| + |InWorkers(s.workers, TaskOf)|
    + |InWorkers(s.workers, ResultOf)| + |s.results|
  }

  /** Nothing is in flight beyond the vertices not yet collected. */
  lemma Accounting(c: Config, s: Sys)
    requires Inv(c, s)
    ensures |s.order| == |s.done| + InFlight(s)
  {
    var all := multiset(s.done) + WithCoordinator(s.coord) + Queued(s.queues) + InWorkers(s.workers, TaskOf)
               + InWorkers(s.workers, ResultOf) + multiset(ResultVids(s.results));
    assert forall v :: all[v] == multiset(s.done)[v] + Waiting(s, v) + Ran(s, v);
    assert multiset(s.order) == all;
    assert |multiset(s.order)| == |s.order|;
    assert |multiset(ResultVids(s.results))| == |s.results|;
  }

  lemma SizeAtLeast(m: multiset<VertexId>, v: VertexId)
    requires m[v] >= 1
    ensures |m| >= 1
  {
  }

  /** The result channel always has room for a finished task: `task.Result <- result` never blocks. */
  lemma SendNeverBlocks(c: Config, s: Sys, w: nat)
    requires Runnable(c) && Inv(c, s) && w < |s.workers| && s.workers[w].Sending?
    ensures Enabled(c, s, Send(w))
  {
    Accounting(c, s);
    WorkerUpdate(s.workers, w, Idle, ResultOf);
    SizeAtLeast(InWorkers(s.workers, ResultOf), s.workers[w].result.vid);
  }

  lemma {:induction false} FindQueue(queues: seq<seq<Task>>) returns (i: nat)
    requires Queued(queues) != multiset{}
    ensures i < |queues| && queues[i] != []
  {
    if queues[0] != [] {
      i := 0;
    } else {
      assert TaskVids(queues[0]) == [];
      var j := FindQueue(queues[1..]);
      i := j + 1;
    }
  }

  lemma {:induction false} FindWorker(ws: seq<Worker>, f: Worker -> multiset<VertexId>) returns (i: nat)
    requires InWorkers(ws, f) != multiset{}
    ensures i < |ws| && f(ws[i]) != multiset{}
  {
    if f(ws[0]) != multiset{} {
      i := 0;
    } else {
      var j := FindWorker(ws[1..], f);
      i := j + 1;
    }
  }

  /** A worker with something to do can do it; an idle one can take from any non-empty queue. */
  lemma WorkerMoves(c: Config, s: Sys, w: nat, q: nat) returns (a: Action)
    requires Runnable(c) && Inv(c, s) && w < |s.workers| && q < |s.queues| && s.queues[q] != []
    ensures IsWorkerAction(a) && Enabled(c, s, a)
  {
    match s.workers[w]
    case Idle => a := Take(w, q);
    case Running(_) => a := Finish(w);
    case Sending(_) =>
      SendNeverBlocks(c, s, w);
      a := Send(w);
  }

  /** Deadlock freedom: an unfinished superstep always has an enabled action, even when a queue is full. */
  lemma Progress(c: Config, s: Sys) returns (a: Action)
    requires Runnable(c) && Inv(c, s) && !Finished(c, s)
    ensures Enabled(c, s, a)
  {
    if s.coord.Placing? {
      if |s.queues[s.coord.slot]| < c.queueCap {
        a := Enqueue;
      } else {
        a := WorkerMoves(c, s, s.coord.slot, s.coord.slot);
      }
    } else if s.coord.rest != [] {
      a := Next;
    } else if s.results != [] {
      Accounting(c, s);
      a := Collect;
    } else {
      Accounting(c, s);
      assert |s.done| != |s.order|;
      if InWorkers(s.workers, ResultOf) != multiset{} {
        var w := FindWorker(s.workers, ResultOf);
        SendNeverBlocks(c, s, w);
        a := Send(w);
      } else if InWorkers(s.workers, TaskOf) != multiset{} {
        var w := FindWorker(s.workers, TaskOf);
        a := Finish(w);
      } else {
        var q := FindQueue(s.queues);
        a := WorkerMoves(c, s, 0, q);
      }
    }
  }

  // ---------------------------------------------------------------- every interleaving is finite

  function Max0(n: int): nat {
    if n > 0 then n else 0
  }

  /** Retries still allowed to the vertices that have not been collected. */
  ghost function RetryBudget(c: Config, attempts: map<VertexId, nat>, order: seq<VertexId>, done: seq<VertexId>): nat {
    if order == [] then 0
    else (if order[0] in done then 0 else Max0(c.maxRetries - Lookup(attempts, order[0], 0)))
         + RetryBudget(c, attempts, order[1..], done)
  }

  lemma {:induction false} BudgetShrinks(
    c: Config, a: map<VertexId, nat>, a': map<VertexId, nat>, order: seq<VertexId>, done: seq<VertexId>,
    done': seq<VertexId>, v0: VertexId)
    requires forall v :: v in order && v !in done' ==> v !in done && Lookup(a, v, 0) <= Lookup(a', v, 0)
    ensures RetryBudget(c, a', order, done') <= RetryBudget(c, a, order, done)
    ensures v0 in order && v0 !in done' && Lookup(a, v0, 0) < Lookup(a', v0, 0) && Lookup(a, v0, 0) < c.maxRetries
            ==> RetryBudget(c, a', order, done') < RetryBudget(c, a, order, done)
  {
    if order != [] {
      BudgetShrinks(c, a, a', order[1..], done, done', v0);
    }
  }

  lemma {:induction false} BudgetBound(c: Config, a: map<VertexId, nat>, order: seq<VertexId>, done: seq<VertexId>)
    ensures RetryBudget(c, a, order, done) <= |order| * Max0(c.maxRetries)
  {
    if order != [] {
      BudgetBound(c, a, order[1..], done);
      assert |order| * Max0(c.maxRetries) == Max0(c.maxRetries) + |order[1..]| * Max0(c.maxRetries);
    }
  }

  /** A vertex passes six stages on its way to the coordinator; a retry sends it back five of them. */
  ghost function Measure(c: Config, s: Sys): nat {
    6 * (if s.coord.Stopped? then 0 else |s.coord.rest|) + 5 * (if s.coord.Placing? then 1 else 0)
    + 4 * |Queued(s.queues)| + 3 * |InWorkers(s.workers, TaskOf)| + 2 * |InWorkers(s.workers, ResultOf)|
    + |s.results| + 5 * RetryBudget(c, s.eng.attempts, s.order, s.done)
  }

  /** The vertex whose result is at hand belongs to the superstep and has not been collected. */
  lemma ResultIsOutstanding(c: Config, s: Sys, v: VertexId)
    requires Inv(c, s) && Ran(s, v) >= 1
    ensures v in s.order && v !in s.done && Waiting(s, v) == 0 && Ran(s, v) == 1
  {
    CountAtMostOne(s.order, v);
    assert multiset(s.order)[v] == multiset(s.done)[v] + Waiting(s, v) + Ran(s, v);
    assert multiset(s.order)[v] == 1;
    assert v in multiset(s.order);
    assert multiset(s.done)[v] == 0;
    assert v !in multiset(s.done);
  }

  lemma CollectAttempts(c: Config, s: Sys)
    requires Runnable(c) && Enabled(c, s, Collect)
    ensures var s' := Apply(c, s, Collect); var r := s.results[0]; var again := Retries(c, s.eng, r);
            && s'.queues == s.queues && s'.workers == s.workers && s'.results == s.results[1..] && s'.order == s.order
            && s'.done == (if again then s.done else s.done + [r.vid])
            && s'.coord.rest == [] && s'.coord.Placing? == again && !s'.coord.Stopped?
            && (forall v :: v != r.vid ==> s'.eng.AttemptsOf(v) == s.eng.AttemptsOf(v))
            && (again ==> s'.eng.AttemptsOf(r.vid) == s.eng.AttemptsOf(r.vid) + 1)
  {
    var s1 := s.(results := s.results[1..]);
    if c.mode.Standard? {
      HandleShape(c, s1, s.results[0]);
    } else {
      BatchShape(s1, s.results[0]);
    }
  }

  lemma CollectMeasure(c: Config, s: Sys, s': Sys, again: bool)
    requires Inv(c, s) && s.coord == Dispatching([]) && s.results != []
    requires s'.queues == s.queues && s'.workers == s.workers && s'.results == s.results[1..] && s'.order == s.order
    requires s'.done == (if again then s.done else s.done + [s.results[0].vid])
    requires !s'.coord.Stopped? && s'.coord.rest == [] && s'.coord.Placing? == again
    requires forall v :: v != s.results[0].vid ==> s'.eng.AttemptsOf(v) == s.eng.AttemptsOf(v)
    requires again ==> s.eng.AttemptsOf(s.results[0].vid) < s'.eng.AttemptsOf(s.results[0].vid)
                       && s.eng.AttemptsOf(s.results[0].vid) < c.maxRetries
    ensures Measure(c, s') < Measure(c, s)
  {
    var v0 := s.results[0].vid;
    ResultVidsHead(s.results);
    assert Ran(s, v0) >= 1;
    ResultIsOutstanding(c, s, v0);
    forall v | v in s.order && v !in s'.done
      ensures v !in s.done && Lookup(s.eng.attempts, v, 0) <= Lookup(s'.eng.attempts, v, 0)
    {
      assert v != v0 ==> s'.eng.AttemptsOf(v) == s.eng.AttemptsOf(v);
    }
    BudgetShrinks(c, s.eng.attempts, s'.eng.attempts, s.order, s.done, s'.done, v0);
  }

  lemma CollectDecreases(c: Config, s: Sys)
    requires Runnable(c) && Inv(c, s) && Enabled(c, s, Collect)
    ensures Measure(c, Apply(c, s, Collect)) < Measure(c, s)
  {
    CollectAttempts(c, s);
    CollectMeasure(c, s, Apply(c, s, Collect), Retries(c, s.eng, s.results[0]));
  }

  lemma EnqueueDecreases(c: Config, s: Sys)
    requires Runnable(c) && Inv(c, s) && Enabled(c, s, Enqueue)
    ensures Measure(c, Apply(c, s, Enqueue)) < Measure(c, s)
  {
    QueueGrows(s.queues, s.coord.slot, s.coord.task);
  }

  lemma TakeDecreases(c: Config, s: Sys, w: nat, i: nat)
    requires Runnable(c) && Inv(c, s) && Enabled(c, s, Take(w, i))
    ensures Measure(c, Apply(c, s, Take(w, i))) < Measure(c, s)
  {
    QueuePops(s.queues, i);
    WorkerPicksUp(s.workers, w, s.queues[i][0]);
  }

  lemma FinishDecreases(c: Config, s: Sys, w: nat)
    requires Runnable(c) && Inv(c, s) && Enabled(c, s, Finish(w))
    ensures Measure(c, Apply(c, s, Finish(w))) < Measure(c, s)
  {
    WorkerReturns(s.workers, w, Apply(c, s, Finish(w)).workers[w].result);
  }

  lemma SendDecreases(c: Config, s: Sys, w: nat)
    requires Runnable(c) && Inv(c, s) && Enabled(c, s, Send(w))
    ensures Measure(c, Apply(c, s, Send(w))) < Measure(c, s)
  {
    WorkerDelivers(s.workers, w);
  }

  lemma StepDecreases(c: Config, s: Sys, a: Action)
    requires Runnable(c) && Inv(c, s) && Enabled(c, s, a)
    ensures Measure(c, Apply(c, s, a)) < Measure(c, s)
  {
    match a
    case Next =>
    case Enqueue => EnqueueDecreases(c, s);
    case Take(w, i) => TakeDecreases(c, s, w, i);
    case Finish(w) => FinishDecreases(c, s, w);
    case Send(w) => SendDecreases(c, s, w);
    case Collect => CollectDecreases(c, s);
  }

  lemma {:induction false} RunDecreases(c: Config, s: Sys, script: seq<Action>)
    requires Runnable(c) && Inv(c, s) && Admits(c, s, script)
    ensures Measure(c, Exec(c, s, script)) + |script| <= Measure(c, s)
    decreases |script|
  {
    if script != [] {
      StepConserves(c, s, script[0]);
      StepDecreases(c, s, script[0]);
      RunDecreases(c, Apply(c, s, script[0]), script[1..]);
    }
  }

  lemma StartMeasure(c: Config, e: Engine, order: seq<VertexId>, step: nat, counter: nat)
    ensures Measure(c, Start(c, e, order, step, counter)) == 6 * |order| + 5 * RetryBudget(c, e.attempts, order, [])
  {
    EmptyQueues(c.workers);
    IdleWorkers(c.workers, TaskOf);
    IdleWorkers(c.workers, ResultOf);
  }

  lemma Distribute(n: nat, m: nat)
    ensures n * (6 + 5 * m) == 6 * n + 5 * (n * m)
  {
  }

  /** Termination: no interleaving of a superstep is longer than six steps a vertex and five a retry. */
  lemma SuperstepTerminates(c: Config, e: Engine, order: seq<VertexId>, step: nat, counter: nat, script: seq<Action>)
    requires Runnable(c) && Distinct(order)
    requires Admits(c, Start(c, e, order, step, counter), script)
    ensures |script| <= |order| * (6 + 5 * Max0(c.maxRetries))
  {
    assert Measure(c, Start(c, e, order, step, counter)) <= |order| * (6 + 5 * Max0(c.maxRetries)) by {
      StartMeasure(c, e, order, step, counter);
      BudgetBound(c, e.attempts, order, []);
      Distribute(|order|, Max0(c.maxRetries));
    }
    assert |script| <= Measure(c, Start(c, e, order, step, counter)) by {
      StartInv(c, e, order, step, counter);
      RunDecreases(c, Start(c, e, order, step, counter), script);
    }
  }

  /** From every reachable point some interleaving completes the superstep. */
  lemma {:induction false} Completable(c: Config, s: Sys) returns (script: seq<Action>)
    requires Runnable(c) && Inv(c, s)
    ensures Admits(c, s, script) && Finished(c, Exec(c, s, script))
    decreases Measure(c, s)
  {
    if Finished(c, s) {
      script := [];
    } else {
      var a := Progress(c, s);
      StepConserves(c, s, a);
      StepDecreases(c, s, a);
      var rest := Completable(c, Apply(c, s, a));
      script := [a] + rest;
      assert script[1..] == rest;
    }
  }

  /** An interleaving that cannot be extended has completed the superstep. */
  lemma MaximalRunsFinish(c: Config, e: Engine, order: seq<VertexId>, step: nat, counter: nat, script: seq<Action>)
    requires Runnable(c) && Distinct(order) && Admits(c, Start(c, e, order, step, counter), script)
    requires forall a :: !Enabled(c, Exec(c, Start(c, e, order, step, counter), script), a)
    ensures Finished(c, Exec(c, Start(c, e, order, step, counter), script))
  {
    StartInv(c, e, order, step, counter);
    RunConserves(c, Start(c, e, order, step, counter), script);
    if !Finished(c, Exec(c, Start(c, e, order, step, counter), script)) {
      var a := Progress(c, Exec(c, Start(c, e, order, step, counter), script));
    }
  }
}
