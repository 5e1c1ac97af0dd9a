/**
 The sequential parts of the standard engine as they are written: the collection loop of
 `executeSuperstep` with `handleVertexResult` (internal/core/pregel/engine.go) and the queues of
 the work-stealing scheduler (internal/core/pregel/scheduler.go). Handling a result, placing, sending,
 receiving and stealing are proved against what the protocol in `Superstep` does in the same step.
 */
module Coordinator {
  import opened Wrappers
  import opened Sequences
  import opened PregelModel
  import Messages
  import opened Superstep
  import opened Conservation
  import opened Confluence

  // ---------------------------------------------------------------- the ledger of the coordinator

  /** The fields that the collection loop writes, as an engine without state maps. */
  function Written(e: Engine): Engine {
    Engine(map[], 1, e.states, e.active, e.attempts, e.inbox, map[])
  }

  function LedgerOf(s: Sys): Ledger {
    Ledger(Written(s.eng), s.done, s.errs)
  }

  function WithInbox(l: Ledger, inbox: map<VertexId, seq<Message>>): Ledger {
    l.(eng := l.eng.(inbox := inbox))
  }

  /** The fold over the first `n` results. */
  function HandleFirst(c: Config, l: Ledger, rs: seq<TaskResult>, n: nat, step: nat): Ledger
    requires n <= |rs|
  {
    if n == 0 then l else Handle(c, HandleFirst(c, l, rs, n - 1, step), rs[n - 1], step)
  }

  lemma {:induction false} HandleFirstCons(c: Config, l: Ledger, r: TaskResult, rs: seq<TaskResult>, n: nat, step: nat)
    requires n <= |rs|
    ensures HandleFirst(c, l, [r] + rs, n + 1, step) == HandleFirst(c, Handle(c, l, r, step), rs, n, step)
  {
    if n == 0 {
      assert HandleFirst(c, l, [r] + rs, 0, step) == l;
    } else {
      HandleFirstCons(c, l, r, rs, n - 1, step);
    }
  }

  lemma CollectHandles(c: Config, s: Sys)
    requires Runnable(c) && c.mode.Standard? && Enabled(c, s, Collect)
    ensures LedgerOf(Apply(c, s, Collect)) == Handle(c, LedgerOf(s), s.results[0], s.step)
  {
    LedgerAlone(c, s.(results := s.results[1..]), s.results[0]);
  }

  /** Handling a result looks at nothing but the ledger. */
  lemma LedgerAlone(c: Config, s: Sys, r: TaskResult)
    requires c.workers >= 1
    ensures LedgerOf(HandleResult(c, s, r)) == Handle(c, LedgerOf(s), r, s.step)
  {
    assert Written(s.eng).AttemptsOf(r.vid) == s.eng.AttemptsOf(r.vid);
  }

  lemma OthersKeepLedger(c: Config, s: Sys, a: Action)
    requires Runnable(c) && Enabled(c, s, a) && !a.Collect?
    ensures LedgerOf(Apply(c, s, a)) == LedgerOf(s)
  {
  }

  /**
   The collection loop sees the protocol only through the results it receives: over any
   interleaving, the coordinator's state is the fold of `handleVertexResult` over the arrivals.
   */
  lemma {:induction false} LedgerFollowsArrivals(c: Config, s: Sys, script: seq<Action>)
    requires Runnable(c) && c.mode.Standard? && Admits(c, s, script)
    ensures var rs := Arrivals(c, s, script);
            LedgerOf(Exec(c, s, script)) == HandleFirst(c, LedgerOf(s), rs, |rs|, s.step)
    decreases |script|
  {
    if script != [] {
      var s' := Apply(c, s, script[0]);
      var rest := Arrivals(c, s', script[1..]);
      LedgerFollowsArrivals(c, s', script[1..]);
      if script[0].Collect? {
        CollectHandles(c, s);
        HandleFirstCons(c, LedgerOf(s), s.results[0], rest, |rest|, s.step);
      } else {
        OthersKeepLedger(c, s, script[0]);
        assert Arrivals(c, s, script) == rest;
      }
    }
  }

  // ---------------------------------------------------------------- engine.go

  class Coordinator {
    const config: Config
    const aggregator: Messages.MessageAggregator
    var vertexStates: map<VertexId, Ref>
    var activeVertices: map<VertexId, bool>
    var retryAttempts: map<VertexId, nat>
    ghost var errors: seq<VertexError>
    ghost var finished: seq<VertexId>

    constructor (config: Config, vertices: set<VertexId>, initialStates: map<VertexId, Ref>)
      ensures fresh(this) && fresh(aggregator) && this.config == config && aggregator.combiner == config.combiner
      ensures vertexStates == initialStates && retryAttempts == map[] && aggregator.messages == map[]
      ensures errors == [] && finished == []
      ensures activeVertices == map v | v in vertices :: true
    {
      this.config := config;
      this.aggregator := new Messages.MessageAggregator(config.combiner);
      this.vertexStates := initialStates;
      this.activeVertices := map v | v in vertices :: true;
      this.retryAttempts := map[];
      this.errors, this.finished := [], [];
    }

    ghost function View(): Ledger
      reads this, aggregator
    {
      var e := Engine(map[], 1, vertexStates, activeVertices, retryAttempts, aggregator.messages, map[]);
      Ledger(e, finished, errors)
    }

    /** Every active vertex once, in the order in which the map happens to be traversed. */
    method GetActiveVertices() returns (active: seq<VertexId>)
      ensures Distinct(active)
      ensures forall v :: v in active <==> v in activeVertices && activeVertices[v]
    {
      active := [];
      var todo := activeVertices.Keys;
      while todo != {}
        invariant todo <= activeVertices.Keys
        invariant Distinct(active)
        invariant forall v :: v in active <==> v in activeVertices.Keys - todo && activeVertices[v]
        decreases |todo|
      {
        var v :| v in todo;
        todo := todo - {v};
        if activeVertices[v] {
          active := active + [v];
        }
      }
    }

    method HasActiveVertices() returns (any: bool)
      ensures any <==> exists v :: v in activeVertices && activeVertices[v]
    {
      var todo := activeVertices.Keys;
      while todo != {}
        invariant todo <= activeVertices.Keys
        invariant forall v :: v in activeVertices.Keys - todo ==> !activeVertices[v]
        decreases |todo|
      {
        var v :| v in todo;
        if activeVertices[v] {
          return true;
        }
        todo := todo - {v};
      }
      return false;
    }

    /** `ErrorRecoveryHandler.HandleError`: its verdict, and how long it sleeps before it asks for a retry. */
    method HandleError(vid: VertexId, err: string, attempt: nat)
      returns (retry: bool, handled: Option<VertexError>, sleepMs: int)
      ensures retry <==> attempt < config.maxRetries
      ensures handled == if retry then None else Some(RetryableError(vid, err, attempt))
      ensures sleepMs == if retry then Backoff(config, attempt) else 0
    {
      if attempt >= config.maxRetries {
        return false, Some(RetryableError(vid, err, attempt)), 0;
      }
      sleepMs := 0;
      if config.backoffMs > 0 {
        var factor := 1;
        for i := 0 to attempt
          invariant factor == Pow2(i)
        {
          factor := factor * 2;
        }
        sleepMs := config.backoffMs * factor;
      }
      return true, None, sleepMs;
    }

    /** One received result; a retry is returned as the task that the scheduler is to be given. */
    method HandleVertexResult(result: TaskResult, step: nat) returns (retry: Option<Task>, err: Option<VertexError>)
      requires aggregator.combiner == config.combiner && config.mode.Standard?
      modifies this, aggregator
      ensures View() == Handle(config, old(View()), result, step)
      ensures var n := Lookup(old(retryAttempts), result.vid, 0);
              if result.error.None? then
                && retry.None? && err.None? && vertexStates == old(vertexStates)[result.vid := result.ref]
                && activeVertices == old(activeVertices)[result.vid := !result.halt]
                && retryAttempts == old(retryAttempts)[result.vid := 0]
              else
                && vertexStates == old(vertexStates) && activeVertices == old(activeVertices)
                && aggregator.messages == old(aggregator.messages)
                && (n < config.maxRetries ==>
                      retry.Some? && err.None? && retryAttempts == old(retryAttempts)[result.vid := n + 1])
                && (n >= config.maxRetries ==>
                      && retry.None? && err == Some(RetryableError(result.vid, result.error.value, n))
                      && retryAttempts == old(retryAttempts))
      ensures result.error.None? ==>
                forall t :: Lookup(aggregator.messages, t, [])
                         == Lookup(old(aggregator.messages), t, []) + SentBy(result.msgs, step, t)
      ensures retry.Some? <==> finished == old(finished)
      ensures retry.Some? ==> && retry.value.vid == result.vid
                              && retry.value.ref == Lookup(vertexStates, result.vid, 0)
                              && retry.value.msgs
                                  == Messages.Delivered(config.combiner, Lookup(aggregator.messages, result.vid, []))
      ensures errors == old(errors) + (if err.Some? then [err.value] else [])
    {
      if result.error.Some? {
        var attempt := if result.vid in retryAttempts then retryAttempts[result.vid] else 0;
        var again: bool;
        var sleepMs: int;
        again, err, sleepMs := HandleError(result.vid, result.error.value, attempt);
        if again {
          retryAttempts := retryAttempts[result.vid := attempt + 1];
          var msgs := aggregator.GetMessages(result.vid);
          var ref := if result.vid in vertexStates then vertexStates[result.vid] else 0;
          return Some(Task(result.vid, ref, msgs)), None;
        }
        errors := errors + [err.value];
        finished := finished + [result.vid];
        return None, err;
      }
      vertexStates := vertexStates[result.vid := result.ref];
      activeVertices := activeVertices[result.vid := !result.halt];
      retryAttempts := retryAttempts[result.vid := 0];
      finished := finished + [result.vid];
      label queueing:
      for i := 0 to |result.msgs|
        invariant View() == WithInbox(old@queueing(View()), aggregator.messages)
        invariant QueueAll(aggregator.messages, result.msgs[i..], step)
                  == QueueAll(old(aggregator.messages), result.msgs, step)
      {
        aggregator.AddMessage(Stamp(result.msgs[i], step));
      }
      forall t
        ensures Lookup(aggregator.messages, t, [])
             == Lookup(old(aggregator.messages), t, []) + SentBy(result.msgs, step, t)
      {
        QueueAllAppends(old(aggregator.messages), result.msgs, step, t);
      }
      return None, None;
    }

    /**
     The collection loop: a retried result is not counted, so it runs until `expected` results have
     been handled for good, or until the context ends before the next result arrives.
     */
    method CollectResults(expected: nat, step: nat, arrivals: seq<TaskResult>)
      returns (errs: seq<VertexError>, used: nat, timedOut: bool)
      requires aggregator.combiner == config.combiner && config.mode.Standard?
      requires errors == [] && finished == []
      modifies this, aggregator
      ensures used <= |arrivals| && View() == HandleFirst(config, old(View()), arrivals, used, step)
      ensures errs == errors
      ensures timedOut <==> |finished| < expected
      ensures timedOut ==> used == |arrivals|
      ensures !timedOut ==> |finished| == expected
    {
      errs := [];
      used := 0;
      var collected := 0;
      while collected < expected
        invariant used <= |arrivals| && collected <= expected
        invariant View() == HandleFirst(config, old(View()), arrivals, used, step)
        invariant errs == errors && collected == |finished|
        decreases |arrivals| - used
      {
        if used == |arrivals| {
          return errs, used, true;
        }
        var result := arrivals[used];
        used := used + 1;
        collected := collected + 1;
        var retry, err := HandleVertexResult(result, step);
        if retry.Some? {
          collected := collected - 1;
        } else if err.Some? {
          errs := errs + [err.value];
        }
      }
      return errs, used, false;
    }
  }

  // ---------------------------------------------------------------- scheduler.go

  class WorkStealingScheduler {
    var queues: seq<seq<Task>>
    var counter: nat
    const numWorkers: nat
    const queueCapacity: nat

    ghost predicate Valid()
      reads this
    {
      && numWorkers >= 1 && queueCapacity >= 1 && |queues| == numWorkers
      && forall i :: 0 <= i < |queues| ==> |queues[i]| <= queueCapacity
    }

    /** Invalid sizes fall back to the number of CPUs and to 100. */
    constructor (workers: int, capacity: int, cpus: int)
      ensures Valid() && counter == 0 && queues == seq(numWorkers, i => [])
      ensures workers > 0 ==> numWorkers == workers
      ensures workers <= 0 ==> numWorkers == if cpus >= 1 then cpus else 1
      ensures queueCapacity == if capacity > 0 then capacity else 100
    {
      var n := if workers > 0 then workers else if cpus < 1 then 1 else cpus;
      this.numWorkers := n;
      this.queueCapacity := if capacity > 0 then capacity else 100;
      this.queues := seq(n, i => []);
      this.counter := 0;
    }

    /** The scheduler of a protocol state: the same queues and the same counter. */
    ghost predicate Serves(c: Config, s: Sys)
      reads this
    {
      && c.workers == numWorkers && c.queueCap == queueCapacity
      && s.queues == queues && s.counter == counter
    }

    /** The queue of the next task, in turn: what placing a task does to the counter, and the slot it picks. */
    method NextSlot(ghost c: Config, ghost s: Sys, ghost v: VertexId, ghost rest: seq<VertexId>) returns (slot: nat)
      requires Valid() && Serves(c, s)
      modifies `counter
      ensures Valid() && slot < numWorkers && counter == old(counter) + 1
      ensures Serves(c, PlaceTask(c, s, v, rest)) && slot == PlaceTask(c, s, v, rest).coord.slot
    {
      counter := counter + 1;
      slot := counter % numWorkers;
    }

    /** The send into a queue: `Enqueue`, with its guard. */
    method TrySend(slot: nat, task: Task, ghost c: Config, ghost s: Sys) returns (sent: bool)
      requires Valid() && Serves(c, s) && s.coord.Placing? && slot == s.coord.slot < numWorkers && task == s.coord.task
      modifies `queues
      ensures Valid() && (sent <==> Enabled(c, s, Enqueue))
      ensures if sent then Serves(c, Apply(c, s, Enqueue)) else queues == old(queues)
      ensures sent <==> |old(queues)[slot]| < queueCapacity
      ensures sent ==> queues == old(queues)[slot := old(queues)[slot] + [task]]
    {
      sent := |queues[slot]| < queueCapacity;
      if sent {
        queues := queues[slot := queues[slot] + [task]];
      }
    }

    /** A non-blocking receive by the idle worker `w`: `Take`, with its guard. */
    method TryReceive(q: nat, ghost w: nat, ghost c: Config, ghost s: Sys) returns (task: Option<Task>)
      requires Valid() && Serves(c, s) && q < numWorkers && w < |s.workers| && s.workers[w].Idle?
      modifies `queues
      ensures Valid() && (task.Some? <==> Enabled(c, s, Take(w, q)))
      ensures task.None? ==> queues == old(queues)
      ensures task.Some? <==> old(queues)[q] != []
      ensures task.Some? ==> old(queues)[q][0] == task.value && queues == old(queues)[q := old(queues)[q][1..]]
      ensures task.Some? ==>
                Serves(c, Apply(c, s, Take(w, q))) && Apply(c, s, Take(w, q)).workers[w] == Running(task.value)
    {
      if queues[q] == [] {
        return None;
      }
      task := Some(queues[q][0]);
      queues := queues[q := queues[q][1..]];
    }

    /** Takes from the first queue of another worker that has a task; there is none only if they are all empty. */
    method StealWork(worker: nat, ghost c: Config, ghost s: Sys) returns (victim: nat, task: Option<Task>)
      requires Valid() && Serves(c, s) && worker < |s.workers| && s.workers[worker].Idle?
      modifies `queues
      ensures Valid()
      ensures task.None? ==> queues == old(queues) && forall q: nat :: Enabled(c, s, Take(worker, q)) ==> q == worker
      ensures task.None? <==> forall q :: 0 <= q < numWorkers && q != worker ==> old(queues)[q] == []
      ensures task.Some? ==> victim != worker && Enabled(c, s, Take(worker, victim))
      ensures task.Some? ==>
                && Serves(c, Apply(c, s, Take(worker, victim)))
                && Apply(c, s, Take(worker, victim)).workers[worker] == Running(task.value)
      ensures task.Some? ==> forall q: nat :: q < victim && Enabled(c, s, Take(worker, q)) ==> q == worker
    {
      task := None;
      victim := 0;
      while victim < numWorkers
        invariant Valid() && Serves(c, s) && victim <= numWorkers && queues == old(queues) && task == None
        invariant forall q: nat :: q < victim && Enabled(c, s, Take(worker, q)) ==> q == worker
        invariant forall q :: 0 <= q < victim && q != worker ==> queues[q] == []
      {
        if victim != worker {
          task := TryReceive(victim, worker, c, s);
          if task.Some? {
            return;
          }
        }
        victim := victim + 1;
      }
    }

    /** One turn of an idle worker: its own queue first, then another one. It finds a task iff some queue holds one. */
    method FindTask(worker: nat, ghost c: Config, ghost s: Sys) returns (queue: nat, task: Option<Task>)
      requires Valid() && Serves(c, s) && worker < |s.workers| == numWorkers && s.workers[worker].Idle?
      modifies `queues
      ensures Valid() && (task.Some? <==> exists q: nat :: Enabled(c, s, Take(worker, q)))
      ensures task.None? <==> forall q :: 0 <= q < numWorkers ==> old(queues)[q] == []
      ensures old(queues)[worker] != [] ==> queue == worker
      ensures task.None? ==> queues == old(queues)
      ensures task.Some? ==> Enabled(c, s, Take(worker, queue))
      ensures task.Some? ==>
                && Serves(c, Apply(c, s, Take(worker, queue)))
                && Apply(c, s, Take(worker, queue)).workers[worker] == Running(task.value)
    {
      queue := worker;
      task := TryReceive(worker, worker, c, s);
      if task.None? {
        queue, task := StealWork(worker, c, s);
      }
    }
  }

  /** The queue of the `j`-th task from now. */
  function Turn(c: Config, counter: nat, j: nat): nat
    requires c.workers >= 1
  {
    Slot(c, counter + j)
  }

  /** Round robin: of any `workers` consecutive tasks, exactly one goes to each queue. */
  lemma RoundRobin(c: Config, counter: nat, q: nat) returns (k: nat)
    requires c.workers >= 1 && q < c.workers
    ensures 1 <= k <= c.workers && Turn(c, counter, k) == q
    ensures forall j: nat :: 1 <= j <= c.workers && Turn(c, counter, j) == q ==> j == k
  {
    var m, r := c.workers, counter % c.workers;
    k := if q > r then q - r else m + q - r;
    forall j: nat | 1 <= j <= m
      ensures Turn(c, counter, j) == if r + j < m then r + j else r + j - m
    {
      Later(counter, m, j);
    }
  }

  lemma Later(n: nat, m: nat, j: nat)
    requires 1 <= j <= m
    ensures (n + j) % m == if n % m + j < m then n % m + j else n % m + j - m
  {
    var d, r := n / m, n % m;
    if r + j < m {
      Modulo(n + j, m, d, r + j);
    } else {
      Distribute(d, m);
      Modulo(n + j, m, d + 1, r + j - m);
    }
  }

  lemma Distribute(d: int, m: int)
    ensures (d + 1) * m == d * m + m
  {
  }

  lemma Multiple(a: int, m: int)
    requires a >= 1 && m >= 1
    ensures a * m >= m
  {
  }

  lemma Modulo(n: nat, m: nat, d: nat, r: nat)
    requires m >= 1 && n == d * m + r && r < m
    ensures n % m == r
  {
    var d', r' := n / m, n % m;
    assert n == d' * m + r';
    if d' > d {
      Multiple(d' - d, m);
      Minus(d', d, m);
    } else if d' < d {
      Multiple(d - d', m);
      Minus(d, d', m);
    }
  }

  lemma Minus(a: int, b: int, m: int)
    ensures (a - b) * m == a * m - b * m
  {
  }
}
