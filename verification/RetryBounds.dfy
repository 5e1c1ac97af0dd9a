/**
 Retry accounting over every interleaving of a superstep (internal/core/pregel/recovery.go and
 `handleVertexResult`): how often a vertex runs, how long it backs off, and what the retry
 counters hold when the superstep succeeds.
 */
module RetryBounds {
  import opened Sequences
  import opened PregelModel
  import opened Superstep
  import opened Conservation

  function Allowed(c: Config): nat {
    Max0(c.maxRetries)
  }

  /** The back-off of the first `n` retries of one vertex. */
  function TotalBackoff(c: Config, n: nat): int {
    if n == 0 then 0 else TotalBackoff(c, n - 1) + Backoff(c, n - 1)
  }

  lemma {:induction false} BackoffClosedForm(c: Config, n: nat)
    ensures TotalBackoff(c, n) == Max0(c.backoffMs) * (Pow2(n) - 1)
  {
    if n > 0 {
      BackoffClosedForm(c, n - 1);
      Doubling(Max0(c.backoffMs), Pow2(n - 1));
    }
  }

  lemma Doubling(b: int, p: int)
    ensures b * (p - 1) + b * p == b * (2 * p - 1)
    ensures b == 0 ==> b * p == 0
  {
  }

  lemma {:induction false} BackoffMonotone(c: Config, m: nat, n: nat)
    requires m <= n
    ensures TotalBackoff(c, m) <= TotalBackoff(c, n)
  {
    if m < n {
      BackoffMonotone(c, m, n - 1);
    }
  }

  function Execs(s: Sys, v: VertexId): nat { Lookup(s.hist.execs, v, 0) }

  function Slept(s: Sys, v: VertexId): int { Lookup(s.hist.slept, v, 0) }

  /** `v` has been run `attempts + ran` times in this superstep and has slept for its retries only. */
  ghost predicate Tallied(c: Config, s: Sys, v: VertexId, ran: nat) {
    && s.eng.AttemptsOf(v) <= Allowed(c)
    && Execs(s, v) == s.eng.AttemptsOf(v) + ran
    && Slept(s, v) == TotalBackoff(c, s.eng.AttemptsOf(v))
  }

  /** The invariant at one vertex. */
  ghost predicate TalliedAt(c: Config, s: Sys, v: VertexId) {
    && (Waiting(s, v) >= 1 ==> Tallied(c, s, v, 0))
    && (Ran(s, v) >= 1 ==> Tallied(c, s, v, 1))
    && Execs(s, v) <= Allowed(c) + 1 && Slept(s, v) <= TotalBackoff(c, Allowed(c))
  }

  ghost predicate RetryInv(c: Config, s: Sys) {
    && (forall v :: TalliedAt(c, s, v))
    && (s.errs == [] ==> forall v :: v in s.done ==> s.eng.AttemptsOf(v) == 0)
    && (forall v :: v !in s.order ==> s.eng.AttemptsOf(v) == 0)
  }

  lemma StartRetryInv(c: Config, e: Engine, order: seq<VertexId>, step: nat, counter: nat)
    requires Distinct(order) && forall v :: e.AttemptsOf(v) == 0
    ensures RetryInv(c, Start(c, e, order, step, counter))
  {
    StartInv(c, e, order, step, counter);
    BackoffMonotone(c, 0, Allowed(c));
  }

  /** Actions that leave counters, history and errors alone and move no vertex between the two stages. */
  lemma QuietStep(c: Config, s: Sys, s': Sys)
    requires RetryInv(c, s)
    requires s'.eng == s.eng && s'.hist == s.hist && s'.errs == s.errs && s'.done == s.done && s'.order == s.order
    requires Stays(s, s')
    ensures RetryInv(c, s')
  {
    forall v
      ensures TalliedAt(c, s', v)
    {
      assert TalliedAt(c, s, v) && Waiting(s', v) == Waiting(s, v) && Ran(s', v) == Ran(s, v);
    }
    assert forall v :: s'.eng.AttemptsOf(v) == s.eng.AttemptsOf(v);
  }

  /** A run of `v0` moves it to the second stage with one more execution. */
  lemma RanOnceAt(c: Config, s: Sys, s': Sys, v0: VertexId, v: VertexId)
    requires TalliedAt(c, s, v) && s'.eng.AttemptsOf(v) == s.eng.AttemptsOf(v) && Slept(s', v) == Slept(s, v)
    requires Execs(s', v) == Execs(s, v) + One(v0, v) && (v == v0 ==> Waiting(s, v) == 1 && Ran(s, v) == 0)
    requires Waiting(s', v) + One(v0, v) == Waiting(s, v) && Ran(s', v) == Ran(s, v) + One(v0, v)
    ensures TalliedAt(c, s', v)
  {
  }

  /** What a run of `v0` counts: one execution, and nothing else. */
  ghost predicate RunCounted(s: Sys, s': Sys, v0: VertexId) {
    && s'.eng.attempts == s.eng.attempts && s'.hist.slept == s.hist.slept
    && s'.errs == s.errs && s'.done == s.done && s'.order == s.order
    && s'.hist.execs == s.hist.execs[v0 := Execs(s, v0) + 1]
  }

  lemma RanOnce(c: Config, s: Sys, s': Sys, v0: VertexId)
    requires RetryInv(c, s) && Waiting(s, v0) == 1 && Ran(s, v0) == 0
    requires RunCounted(s, s', v0) && RunsOnce(s, s', v0)
    ensures RetryInv(c, s')
  {
    forall v
      ensures TalliedAt(c, s', v) && s'.eng.AttemptsOf(v) == s.eng.AttemptsOf(v)
    {
      assert TalliedAt(c, s, v);
      RanOnceAt(c, s, s', v0, v);
    }
  }

  lemma FinishTally(c: Config, s: Sys, w: nat)
    requires Runnable(c) && Enabled(c, s, Finish(w))
    ensures RunCounted(s, Apply(c, s, Finish(w)), s.workers[w].task.vid)
  {
  }

  lemma FinishWaits(c: Config, s: Sys, w: nat)
    requires Runnable(c) && Inv(c, s) && Enabled(c, s, Finish(w))
    ensures Waiting(s, s.workers[w].task.vid) == 1 && Ran(s, s.workers[w].task.vid) == 0
  {
    FinishMoves(c, s, w);
    assert Waiting(s, s.workers[w].task.vid) >= 1;
    WaitingIsOutstanding(c, s, s.workers[w].task.vid);
  }

  lemma FinishRetryInv(c: Config, s: Sys, w: nat)
    requires Runnable(c) && Inv(c, s) && RetryInv(c, s) && Enabled(c, s, Finish(w))
    ensures RetryInv(c, Apply(c, s, Finish(w)))
  {
    FinishMoves(c, s, w);
    FinishWaits(c, s, w);
    FinishTally(c, s, w);
    RanOnce(c, s, Apply(c, s, Finish(w)), s.workers[w].task.vid);
  }

  lemma WaitingIsOutstanding(c: Config, s: Sys, v: VertexId)
    requires Inv(c, s) && Waiting(s, v) >= 1
    ensures v in s.order && v !in s.done && Waiting(s, v) == 1 && Ran(s, v) == 0
  {
    CountAtMostOne(s.order, v);
    assert multiset(s.order)[v] == multiset(s.done)[v] + Waiting(s, v) + Ran(s, v);
    assert multiset(s.order)[v] == 1;
    assert v in multiset(s.order);
    assert multiset(s.done)[v] == 0;
    assert v !in multiset(s.done);
  }

  /** What collecting a result does to counters and history. */
  ghost predicate Counted(c: Config, s: Sys, s': Sys, r: TaskResult) {
    var n := s.eng.AttemptsOf(r.vid);
    && s'.hist.execs == s.hist.execs && s'.order == s.order
    && (forall v :: v != r.vid ==> s'.eng.AttemptsOf(v) == s.eng.AttemptsOf(v) && Slept(s', v) == Slept(s, v))
    && (if Retries(c, s.eng, r) then
          && s'.eng.AttemptsOf(r.vid) == n + 1 && n < c.maxRetries && s'.errs == s.errs && s'.done == s.done
          && Slept(s', r.vid) == Slept(s, r.vid) + Backoff(c, n)
        else
          && Slept(s', r.vid) == Slept(s, r.vid) && s'.done == s.done + [r.vid]
          && (s'.errs == [] ==> s.errs == [] && s'.eng.AttemptsOf(r.vid) == (if c.mode.Standard? then 0 else n)))
  }

  lemma HandleTally(c: Config, s: Sys, r: TaskResult)
    requires Runnable(c) && c.mode.Standard?
    ensures Counted(c, s, HandleResult(c, s, r), r)
  {
  }

  lemma BatchTally(c: Config, s: Sys, r: TaskResult)
    requires c.mode.Cached?
    ensures Counted(c, s, CollectBatched(s, r), r)
  {
    BatchKeepsAttempts(s.eng, s.batch + [r]);
  }

  lemma CollectTally(c: Config, s: Sys)
    requires Runnable(c) && Enabled(c, s, Collect)
    ensures Counted(c, s, Apply(c, s, Collect), s.results[0])
  {
    var s1 := s.(results := s.results[1..]);
    if c.mode.Standard? {
      HandleTally(c, s1, s.results[0]);
    } else {
      BatchTally(c, s1, s.results[0]);
    }
  }

  lemma CollectRetryInv(c: Config, s: Sys)
    requires Runnable(c) && Inv(c, s) && RetryInv(c, s) && Enabled(c, s, Collect)
    requires c.mode.Cached? ==> forall v :: s.eng.AttemptsOf(v) == 0
    ensures RetryInv(c, Apply(c, s, Collect))
  {
    var v0 := s.results[0].vid;
    ResultVidsHead(s.results);
    assert Ran(s, v0) >= 1;
    ResultIsOutstanding(c, s, v0);
    CollectMoves(c, s);
    CollectTally(c, s);
    CollectRetryInvFrom(c, s, Apply(c, s, Collect), s.results[0]);
  }

  lemma CollectRetryInvFrom(c: Config, s: Sys, s': Sys, r: TaskResult)
    requires RetryInv(c, s) && Ran(s, r.vid) == 1 && Waiting(s, r.vid) == 0 && r.vid !in s.done && r.vid in s.order
    requires c.mode.Cached? ==> s.eng.AttemptsOf(r.vid) == 0
    requires Counted(c, s, s', r) && IsTaken(s, s', r.vid, Retries(c, s.eng, r))
    ensures RetryInv(c, s')
  {
    var v0, again := r.vid, Retries(c, s.eng, r);
    assert TalliedAt(c, s, v0);
    if again {
      BackoffMonotone(c, s'.eng.AttemptsOf(v0), Allowed(c));
    }
    assert TalliedAt(c, s', v0);
    forall v | v != v0
      ensures TalliedAt(c, s', v)
    {
      assert TalliedAt(c, s, v) && Execs(s', v) == Execs(s, v);
    }
  }

  lemma CachedKeepsAttempts(c: Config, s: Sys, a: Action)
    requires Runnable(c) && c.mode.Cached? && Enabled(c, s, a)
    ensures Apply(c, s, a).eng.attempts == s.eng.attempts
  {
    if a.Collect? {
      BatchKeepsAttempts(s.eng, s.batch + [s.results[0]]);
    }
  }

  lemma StepRetryInv(c: Config, s: Sys, a: Action)
    requires Runnable(c) && Inv(c, s) && RetryInv(c, s) && Enabled(c, s, a)
    requires c.mode.Cached? ==> forall v :: s.eng.AttemptsOf(v) == 0
    ensures RetryInv(c, Apply(c, s, a))
  {
    match a
    case Next => NextMoves(c, s); QuietStep(c, s, Apply(c, s, a));
    case Enqueue => EnqueueMoves(c, s); QuietStep(c, s, Apply(c, s, a));
    case Take(w, q) => TakeMoves(c, s, w, q); QuietStep(c, s, Apply(c, s, a));
    case Finish(w) => FinishRetryInv(c, s, w);
    case Send(w) => SendMoves(c, s, w); QuietStep(c, s, Apply(c, s, a));
    case Collect => CollectRetryInv(c, s);
  }

  lemma {:induction false} RunRetryInv(c: Config, s: Sys, script: seq<Action>)
    requires Runnable(c) && Inv(c, s) && RetryInv(c, s) && Admits(c, s, script)
    requires c.mode.Cached? ==> forall v :: s.eng.AttemptsOf(v) == 0
    ensures Inv(c, Exec(c, s, script)) && RetryInv(c, Exec(c, s, script))
    decreases |script|
  {
    if script != [] {
      StepConserves(c, s, script[0]);
      StepRetryInv(c, s, script[0]);
      if c.mode.Cached? {
        CachedKeepsAttempts(c, s, script[0]);
        assert forall v :: Apply(c, s, script[0]).eng.AttemptsOf(v) == s.eng.AttemptsOf(v);
      }
      RunRetryInv(c, Apply(c, s, script[0]), script[1..]);
    }
  }

  lemma InvBounds(c: Config, s: Sys)
    requires RetryInv(c, s)
    ensures forall v :: Execs(s, v) <= Max0(c.maxRetries) + 1
    ensures forall v :: Slept(s, v) <= Max0(c.backoffMs) * (Pow2(Max0(c.maxRetries)) - 1)
  {
    BackoffClosedForm(c, Allowed(c));
    forall v
      ensures Execs(s, v) <= Max0(c.maxRetries) + 1
      ensures Slept(s, v) <= Max0(c.backoffMs) * (Pow2(Max0(c.maxRetries)) - 1)
    {
      assert TalliedAt(c, s, v);
    }
  }

  /**
   With retry counters at zero when a superstep starts, no interleaving runs a vertex more than
   max(MaxRetries, 0) + 1 times or makes it back off for longer than BackoffMs * (2^MaxRetries - 1),
   and a superstep that succeeds leaves every counter at zero again.
   */
  lemma RetriesAreBounded(c: Config, e: Engine, order: seq<VertexId>, step: nat, counter: nat, script: seq<Action>)
    requires Runnable(c) && Distinct(order) && Admits(c, Start(c, e, order, step, counter), script)
    requires forall v :: e.AttemptsOf(v) == 0
    ensures var s := Exec(c, Start(c, e, order, step, counter), script);
            && (forall v :: Execs(s, v) <= Max0(c.maxRetries) + 1)
            && (forall v :: Slept(s, v) <= Max0(c.backoffMs) * (Pow2(Max0(c.maxRetries)) - 1))
            && (Finished(c, s) && s.errs == [] ==> forall v :: s.eng.AttemptsOf(v) == 0)
  {
    StartInv(c, e, order, step, counter);
    StartRetryInv(c, e, order, step, counter);
    RunRetryInv(c, Start(c, e, order, step, counter), script);
    var s := Exec(c, Start(c, e, order, step, counter), script);
    InvBounds(c, s);
    if Finished(c, s) && s.errs == [] {
      AllDone(c, s);
    }
  }

  lemma StepKeepsOrder(c: Config, s: Sys, a: Action)
    requires Runnable(c) && Enabled(c, s, a)
    ensures Apply(c, s, a).order == s.order && Apply(c, s, a).step == s.step
  {
  }

  lemma {:induction false} KeepsOrder(c: Config, s: Sys, script: seq<Action>)
    requires Runnable(c) && Admits(c, s, script)
    ensures Exec(c, s, script).order == s.order && Exec(c, s, script).step == s.step
    decreases |script|
  {
    if script != [] {
      StepKeepsOrder(c, s, script[0]);
      KeepsOrder(c, Apply(c, s, script[0]), script[1..]);
    }
  }

  /** A finished superstep without errors has collected every vertex exactly once. */
  lemma AllDone(c: Config, s: Sys)
    requires Inv(c, s) && Finished(c, s) && s.errs == []
    ensures multiset(s.done) == multiset(s.order)
    ensures forall v :: v in s.order <==> v in s.done
    ensures s.results == [] && forall v :: Waiting(s, v) == 0 && Ran(s, v) == 0
  {
    Accounting(c, s);
    assert InFlight(s) == 0;
    assert Queued(s.queues) == multiset{} && InWorkers(s.workers, TaskOf) == multiset{};
    assert InWorkers(s.workers, ResultOf) == multiset{} && ResultVids(s.results) == [];
    assert forall v :: multiset(s.order)[v] == multiset(s.done)[v];
    assert multiset(s.done) == multiset(s.order);
    assert forall v :: v in s.order <==> v in multiset(s.order);
  }
}
