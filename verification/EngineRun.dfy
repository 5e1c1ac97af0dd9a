/**
 Whole runs: the superstep loop of `Engine.Run` and `CacheOptimizedEngine.Run`, the checkpoint of
 each superstep and the rollback of a failed one, and what both engines compute over all
 interleavings.
 */
module EngineRun {
  import opened Wrappers
  import opened Sequences
  import opened PregelModel
  import Recovery
  import opened Superstep
  import opened Conservation
  import opened RetryBounds
  import opened Confluence

  // ---------------------------------------------------------------- checkpoints

  /** Fresh and pairwise different addresses for the maps that a copy loop allocates. */
  ghost predicate FreshRefs(keys: set<VertexId>, e: Engine, refs: map<VertexId, Ref>, next: Ref) {
    && refs.Keys == keys
    && (forall v :: v in refs ==> e.next <= refs[v] < next)
    && (forall u, v :: u in refs && v in refs && u != v ==> refs[u] != refs[v])
    && 1 <= e.next <= next
  }

  /** The copy loops: what the maps at `source` hold now, in new maps at `refs`. */
  ghost function Copies(e: Engine, source: map<VertexId, Ref>, refs: map<VertexId, Ref>, next: Ref): map<Ref, Fields>
    requires FreshRefs(source.Keys, e, refs, next)
  {
    map v | v in refs :: refs[v] := FieldsOf(Read(e.cells, source[v]))
  }

  /** The checkpoints that remain when `step` has been added. */
  ghost function Kept(checkpoints: map<nat, map<VertexId, Ref>>, step: nat): map<nat, map<VertexId, Ref>> {
    map k | k in checkpoints && k in Recovery.Retained(checkpoints.Keys, step) :: checkpoints[k]
  }

  /** `SaveCheckpoint`: copies of all states, under the step. */
  ghost function Saved(e: Engine, step: nat, refs: map<VertexId, Ref>, next: Ref): Engine
    requires FreshRefs(e.states.Keys, e, refs, next)
  {
    e.(cells := e.cells + Copies(e, e.states, refs, next), next := next,
       checkpoints := Kept(e.checkpoints[step := refs], step))
  }

  ghost predicate CanLoad(e: Engine, step: nat, refs: map<VertexId, Ref>, next: Ref) {
    step in e.checkpoints ==> FreshRefs(e.checkpoints[step].Keys, e, refs, next)
  }

  /** `LoadCheckpoint` and the assignment of what it returns: copies of what the saved maps hold now. */
  ghost function Loaded(e: Engine, step: nat, refs: map<VertexId, Ref>, next: Ref): Engine
    requires CanLoad(e, step, refs, next)
  {
    if step !in e.checkpoints then e
    else e.(cells := e.cells + Copies(e, e.checkpoints[step], refs, next), next := next, states := refs)
  }

  // ---------------------------------------------------------------- the loop

  /**
   The choices the environment makes in one superstep: where the checkpoint is allocated, the order in
   which the active vertices come out of the map, the scheduler's counter, the interleaving, whether
   the context is cancelled at its end, and where the states are restored if the superstep fails.
   */
  datatype Plan = Plan(
    saved: map<VertexId, Ref>, savedNext: Ref, order: seq<VertexId>, counter: nat, script: seq<Action>,
    aborted: bool, refs: map<VertexId, Ref>, next: Ref)

  /** `getActiveVertices`: every active vertex once, in some order. */
  ghost predicate Enumerates(order: seq<VertexId>, e: Engine) {
    Distinct(order) && forall v :: v in order <==> e.IsActive(v)
  }

  ghost predicate AnyActive(e: Engine) {
    exists v :: e.IsActive(v)
  }

  /** The superstep begins when the checkpoint has been saved. */
  ghost function Begin(c: Config, e: Engine, step: nat, p: Plan): Sys
    requires FreshRefs(e.states.Keys, e, p.saved, p.savedNext)
  {
    Start(c, Saved(e, step, p.saved, p.savedNext), p.order, step, p.counter)
  }

  /** The plan leads somewhere: to the end of the superstep or to a point where it is given up. */
  ghost predicate Started(c: Config, e: Engine, step: nat, p: Plan)
    requires Runnable(c)
  {
    && FreshRefs(e.states.Keys, e, p.saved, p.savedNext)
    && Admits(c, Begin(c, e, step, p), p.script)
    && CanLoad(AtEnd(c, e, step, p).eng, step, p.refs, p.next)
  }

  ghost function AtEnd(c: Config, e: Engine, step: nat, p: Plan): Sys
    requires Runnable(c) && FreshRefs(e.states.Keys, e, p.saved, p.savedNext)
             && Admits(c, Begin(c, e, step, p), p.script)
  {
    Exec(c, Begin(c, e, step, p), p.script)
  }

  ghost predicate PlanOk(c: Config, e: Engine, step: nat, p: Plan)
    requires Runnable(c)
  {
    && Enumerates(p.order, e) && Started(c, e, step, p)
    && var s := AtEnd(c, e, step, p);
       if p.aborted then s.coord == Dispatching([]) && !Finished(c, s) else Finished(c, s)
  }

  ghost predicate Succeeds(c: Config, e: Engine, step: nat, p: Plan)
    requires Runnable(c) && PlanOk(c, e, step, p)
  {
    !p.aborted && AtEnd(c, e, step, p).errs == []
  }

  /** The engine when `runStep` returns: messages cleared on success, states restored on failure. */
  ghost function StepEngine(c: Config, e: Engine, step: nat, p: Plan): Engine
    requires Runnable(c) && PlanOk(c, e, step, p)
  {
    var s := AtEnd(c, e, step, p);
    if Succeeds(c, e, step, p) then s.eng.(inbox := map[]) else Loaded(s.eng, step, p.refs, p.next)
  }

  datatype RunResult = RunResult(eng: Engine, halted: bool, failedAt: Option<nat>)

  ghost predicate RunOk(c: Config, e: Engine, step: nat, halted: bool, max: nat, plans: seq<Plan>)
    requires Runnable(c)
    decreases |plans|
  {
    if halted || step >= max then plans == []
    else
      && plans != [] && PlanOk(c, e, step, plans[0])
      && (if Succeeds(c, e, step, plans[0]) then
            var e' := StepEngine(c, e, step, plans[0]);
            RunOk(c, e', step + 1, !AnyActive(e'), max, plans[1..])
          else plans[1..] == [])
  }

  ghost function RunExec(c: Config, e: Engine, step: nat, halted: bool, max: nat, plans: seq<Plan>): RunResult
    requires Runnable(c) && RunOk(c, e, step, halted, max, plans)
    decreases |plans|
  {
    if halted || step >= max then RunResult(e, halted, None)
    else
      var e' := StepEngine(c, e, step, plans[0]);
      if Succeeds(c, e, step, plans[0]) then RunExec(c, e', step + 1, !AnyActive(e'), max, plans[1..])
      else RunResult(e', halted, Some(step))
  }

  // ---------------------------------------------------------------- one vertex on its own

  datatype Solo = Solo(state: StateMap, active: bool)

  /** The retries of a vertex whose counter is at zero. */
  function Retry(c: Config): nat {
    if c.mode.Standard? && c.maxRetries > 0 then c.maxRetries else 0
  }

  /** The attempt that counts, of a vertex alone with an empty inbox. */
  function Alone(c: Config, v: VertexId, state: StateMap): Attempt {
    LastAttempt(c.compute, v, state, [], Retry(c))
  }

  /** A vertex run by itself `n` times with an empty inbox, stopping once it has halted. */
  function Iterate(c: Config, v: VertexId, start: StateMap, n: nat): Solo {
    if n == 0 then Solo(start, true)
    else
      var before := Iterate(c, v, start, n - 1);
      if !before.active then before
      else
        var a := Alone(c, v, before.state);
        Solo(FinalState(a.state, a.outcome), !a.outcome.halt)
  }

  /** Some vertex fails all its attempts in its `n`-th iteration. */
  ghost predicate FailsAt(c: Config, vs: set<VertexId>, start: VertexId -> StateMap, n: nat) {
    exists v :: v in vs && var s := Iterate(c, v, start(v), n); s.active && Alone(c, v, s.state).outcome.error.Some?
  }

  /** `v` is tried again in its `n`-th iteration. */
  ghost predicate TriedAgain(c: Config, v: VertexId, s: Solo) {
    s.active && Retry(c) > 0 && c.compute(v, s.state, []).error.Some?
  }

  /** And mail that arrives in the meantime can change what an attempt after the first does. */
  ghost predicate HeedsMail(c: Config, v: VertexId, s: Solo) {
    TriedAgain(c, v, s) && !Ignores(c, v, [], LeftBehind(s.state, c.compute(v, s.state, [])), Retry(c) - 1)
  }

  /** `u` succeeds in its `n`-th iteration and writes to `v`. */
  ghost predicate Writes(c: Config, u: VertexId, s: Solo, v: VertexId) {
    var o := Alone(c, u, s.state).outcome;
    s.active && o.error.None? && exists m :: m in o.messages && m.target == v
  }

  /** In the `n`-th iteration nobody writes to another vertex that is tried again and heeds it. */
  ghost predicate QuietAt(c: Config, vs: set<VertexId>, start: VertexId -> StateMap, n: nat) {
    forall u, v :: u in vs && v in vs && u != v && HeedsMail(c, v, Iterate(c, v, start(v), n))
      ==> !Writes(c, u, Iterate(c, u, start(u), n), v)
  }

  lemma {:induction false} HaltedStays(c: Config, v: VertexId, start: StateMap, m: nat, n: nat)
    requires m <= n && !Iterate(c, v, start, m).active
    ensures Iterate(c, v, start, n) == Iterate(c, v, start, m)
  {
    if m < n {
      HaltedStays(c, v, start, m, n - 1);
    }
  }

  // ---------------------------------------------------------------- saving changes no state

  lemma KeepsCurrent(checkpoints: map<nat, map<VertexId, Ref>>, step: nat)
    requires step in checkpoints
    ensures step in Kept(checkpoints, step) && Kept(checkpoints, step)[step] == checkpoints[step]
  {
    assert step in Recovery.Within(checkpoints.Keys, step);
  }

  /** Copies land in new maps and hold what the sources held. */
  lemma CopiesAt(e: Engine, source: map<VertexId, Ref>, refs: map<VertexId, Ref>, next: Ref)
    requires FreshRefs(source.Keys, e, refs, next)
    ensures var m := Copies(e, source, refs, next);
            && (forall v :: v in refs ==> refs[v] in m && m[refs[v]] == FieldsOf(Read(e.cells, source[v])))
            && (forall r :: r in m ==> e.next <= r < next)
  {
    var m := Copies(e, source, refs, next);
    forall v | v in refs
      ensures refs[v] in m && m[refs[v]] == FieldsOf(Read(e.cells, source[v]))
    {
      assert refs[v] in m;
    }
  }

  /** What was allocated before the copies is as it was. */
  lemma CopiesSpare(e: Engine, source: map<VertexId, Ref>, refs: map<VertexId, Ref>, next: Ref, r: Ref)
    requires FreshRefs(source.Keys, e, refs, next) && r < e.next
    ensures Read(e.cells + Copies(e, source, refs, next), r) == Read(e.cells, r)
    ensures r in e.cells + Copies(e, source, refs, next) <==> r in e.cells
  {
    CopiesAt(e, source, refs, next);
  }

  lemma SavedWellFormed(e: Engine, step: nat, refs: map<VertexId, Ref>, next: Ref)
    requires WellFormed(e) && FreshRefs(e.states.Keys, e, refs, next)
    ensures WellFormed(Saved(e, step, refs, next))
  {
    var e1 := Saved(e, step, refs, next);
    CopiesAt(e, e.states, refs, next);
    forall r | r in e1.cells
      ensures 1 <= r < next
    {
      assert r in e.cells || r in Copies(e, e.states, refs, next);
    }
    assert e1.states == e.states && e.next <= next;
  }

  lemma SavedSeparated(e: Engine, step: nat, refs: map<VertexId, Ref>, next: Ref)
    requires WellFormed(e) && Separated(e) && FreshRefs(e.states.Keys, e, refs, next)
    ensures Separated(Saved(e, step, refs, next))
  {
    var cells := Saved(e, step, refs, next).cells;
    forall u, v | u in e.states && v in e.states && u != v && e.states[u] in cells
      ensures e.states[u] != e.states[v]
    {
      CopiesSpare(e, e.states, refs, next, e.states[u]);
    }
  }

  lemma SavedCopies(e: Engine, step: nat, refs: map<VertexId, Ref>, next: Ref, v: VertexId)
    requires FreshRefs(e.states.Keys, e, refs, next) && v in refs
    ensures var cells := Saved(e, step, refs, next).cells; refs[v] in cells && cells[refs[v]] == FieldsOf(e.StateOf(v))
  {
    CopiesAt(e, e.states, refs, next);
  }

  lemma SavedSame(e: Engine, step: nat, refs: map<VertexId, Ref>, next: Ref)
    requires WellFormed(e) && FreshRefs(e.states.Keys, e, refs, next)
    ensures var e1 := Saved(e, step, refs, next);
            && WellFormed(e1) && (Separated(e) ==> Separated(e1))
            && step in e1.checkpoints && e1.checkpoints[step] == refs
            && (forall v :: e1.StateOf(v) == e.StateOf(v))
            && (forall v :: v in refs ==> refs[v] in e1.cells && e1.cells[refs[v]] == FieldsOf(e.StateOf(v)))
  {
    SavedWellFormed(e, step, refs, next);
    if Separated(e) {
      SavedSeparated(e, step, refs, next);
    }
    KeepsCurrent(e.checkpoints[step := refs], step);
    var e1 := Saved(e, step, refs, next);
    forall v
      ensures e1.StateOf(v) == e.StateOf(v)
    {
      assert e.RefOf(v) < e.next;
      CopiesSpare(e, e.states, refs, next, e.RefOf(v));
    }
    forall v | v in refs
      ensures refs[v] in e1.cells && e1.cells[refs[v]] == FieldsOf(e.StateOf(v))
    {
      SavedCopies(e, step, refs, next, v);
    }
  }

  // ---------------------------------------------------------------- the engine against the iteration

  /** The engine has run `step` supersteps: every vertex is where its own iteration is. */
  ghost predicate InStep(c: Config, vs: set<VertexId>, start: VertexId -> StateMap, e: Engine, step: nat) {
    && WellFormed(e) && Separated(e)
    && (forall t :: Lookup(e.inbox, t, []) == [])
    && (forall v :: e.AttemptsOf(v) == 0)
    && (forall v :: e.IsActive(v) ==> v in vs)
    && (forall v :: v in vs ==> Solo(e.StateOf(v), e.IsActive(v)) == Iterate(c, v, start(v), step))
  }

  lemma SameInStep(c: Config, vs: set<VertexId>, start: VertexId -> StateMap, e: Engine, e': Engine, step: nat)
    requires InStep(c, vs, start, e, step) && WellFormed(e') && Separated(e')
    requires e'.inbox == e.inbox && e'.attempts == e.attempts && e'.active == e.active
    requires forall v :: e'.StateOf(v) == e.StateOf(v)
    ensures InStep(c, vs, start, e', step)
  {
    forall v
      ensures e'.AttemptsOf(v) == 0 && e'.IsActive(v) == e.IsActive(v)
    {
      assert e.AttemptsOf(v) == 0;
    }
  }

  lemma SavedInStep(
    c: Config, vs: set<VertexId>, start: VertexId -> StateMap, e: Engine, step: nat, refs: map<VertexId, Ref>,
    next: Ref)
    requires InStep(c, vs, start, e, step) && FreshRefs(e.states.Keys, e, refs, next)
    ensures InStep(c, vs, start, Saved(e, step, refs, next), step)
  {
    SavedSame(e, step, refs, next);
    SameInStep(c, vs, start, e, Saved(e, step, refs, next), step);
  }

  lemma ActiveOutcome(c: Config, vs: set<VertexId>, start: VertexId -> StateMap, e: Engine, step: nat, v: VertexId)
    requires InStep(c, vs, start, e, step) && v in vs
    ensures Final(c, e, v) == Alone(c, v, Iterate(c, v, start(v), step).state)
    ensures e.StateOf(v) == Iterate(c, v, start(v), step).state
    ensures e.IsActive(v) == Iterate(c, v, start(v), step).active
    ensures e.IsActive(v) ==> (Heeds(c, e, v) <==> HeedsMail(c, v, Iterate(c, v, start(v), step)))
  {
    assert Solo(e.StateOf(v), e.IsActive(v)) == Iterate(c, v, start(v), step);
    assert e.MessagesFor(c, v) == [];
    assert Remaining(c, e, v) == Retry(c);
  }

  /** What the iterations say about mail holds of the superstep. */
  lemma QuietIsUndisturbed(
    c: Config, vs: set<VertexId>, start: VertexId -> StateMap, e: Engine, step: nat, order: seq<VertexId>)
    requires InStep(c, vs, start, e, step) && QuietAt(c, vs, start, step) && Enumerates(order, e)
    ensures Undisturbed(c, e, order)
  {
    forall u, v | u in order && v in order && u != v && Heeds(c, e, v)
      ensures !Mails(c, e, u, v)
    {
      ActiveOutcome(c, vs, start, e, step, u);
      ActiveOutcome(c, vs, start, e, step, v);
      assert !Writes(c, u, Iterate(c, u, start(u), step), v);
    }
  }

  /** A failure of the superstep is one of the iterations. */
  lemma FailuresMatch(
    c: Config, vs: set<VertexId>, start: VertexId -> StateMap, e: Engine, step: nat, order: seq<VertexId>)
    requires InStep(c, vs, start, e, step) && Enumerates(order, e)
    ensures (exists v :: v in order && Fails(c, e, v)) <==> FailsAt(c, vs, start, step)
  {
    forall v | v in vs
      ensures Final(c, e, v) == Alone(c, v, Iterate(c, v, start(v), step).state)
      ensures v in order <==> Iterate(c, v, start(v), step).active
    {
      ActiveOutcome(c, vs, start, e, step, v);
    }
    if v :| v in order && Fails(c, e, v) {
      assert v in vs;
    }
    if FailsAt(c, vs, start, step) {
      var v :| v in vs && var s := Iterate(c, v, start(v), step); s.active && Alone(c, v, s.state).outcome.error.Some?;
      assert v in order && Fails(c, e, v);
    }
  }

  /**
   A superstep that ends without cancellation, and in which nobody writes to a vertex that is tried
   again and heeds it, fails exactly when an iteration fails at that step, and otherwise advances every
   vertex by one.
   */
  lemma StepMatches(c: Config, vs: set<VertexId>, start: VertexId -> StateMap, e: Engine, step: nat, p: Plan)
    requires Runnable(c) && InStep(c, vs, start, e, step) && PlanOk(c, e, step, p) && QuietAt(c, vs, start, step)
    ensures !p.aborted ==> (Succeeds(c, e, step, p) <==> !FailsAt(c, vs, start, step))
    ensures Succeeds(c, e, step, p) ==> InStep(c, vs, start, StepEngine(c, e, step, p), step + 1)
  {
    if !p.aborted {
      var e1 := Saved(e, step, p.saved, p.savedNext);
      SavedInStep(c, vs, start, e, step, p.saved, p.savedNext);
      assert Enumerates(p.order, e1);
      QuietIsUndisturbed(c, vs, start, e1, step, p.order);
      FailuresMatch(c, vs, start, e1, step, p.order);
      SuperstepConfluence(c, e1, p.order, step, p.counter, p.script);
      if Succeeds(c, e, step, p) {
        RetriesAreBounded(c, e1, p.order, step, p.counter, p.script);
        NextInStep(c, vs, start, e1, step, p.order, AtEnd(c, e, step, p).eng);
      }
    }
  }

  lemma NextVertex(
    c: Config, vs: set<VertexId>, start: VertexId -> StateMap, e: Engine, step: nat, order: seq<VertexId>,
                   e1: Engine, v: VertexId)
    requires InStep(c, vs, start, e, step) && Enumerates(order, e) && AfterSuperstep(c, e, order, step, e1) && v in vs
    ensures Solo(e1.StateOf(v), e1.IsActive(v)) == Iterate(c, v, start(v), step + 1)
  {
    ActiveOutcome(c, vs, start, e, step, v);
    if v in order {
      assert e.IsActive(v);
    } else {
      assert !e.IsActive(v) && e1.StateOf(v) == e.StateOf(v);
    }
  }

  lemma NextInStep(
    c: Config, vs: set<VertexId>, start: VertexId -> StateMap, e: Engine, step: nat, order: seq<VertexId>, e1: Engine)
    requires InStep(c, vs, start, e, step) && Enumerates(order, e) && AfterSuperstep(c, e, order, step, e1)
    requires forall v :: e1.AttemptsOf(v) == 0
    ensures InStep(c, vs, start, e1.(inbox := map[]), step + 1)
  {
    var e2 := e1.(inbox := map[]);
    forall v | v in vs
      ensures Solo(e2.StateOf(v), e2.IsActive(v)) == Iterate(c, v, start(v), step + 1)
    {
      NextVertex(c, vs, start, e, step, order, e1, v);
      assert e2.StateOf(v) == e1.StateOf(v) && e2.IsActive(v) == e1.IsActive(v);
    }
    forall v
      ensures e2.AttemptsOf(v) == 0 && (e2.IsActive(v) ==> v in vs)
    {
      assert e1.AttemptsOf(v) == 0 && e2.IsActive(v) == e1.IsActive(v);
    }
  }

  // ---------------------------------------------------------------- nobody holds a checkpoint

  /** No task that is still to be run refers to one of the maps. */
  ghost predicate TasksAvoid(s: Sys, kept: set<Ref>) {
    && (s.coord.Placing? ==> s.coord.task.ref !in kept)
    && (forall i, j :: 0 <= i < |s.queues| && 0 <= j < |s.queues[i]| ==> s.queues[i][j].ref !in kept)
    && (forall w :: 0 <= w < |s.workers| && s.workers[w].Running? ==> s.workers[w].task.ref !in kept)
  }

  /** No result and no vertex refers to one of the maps. */
  ghost predicate ResultsAvoid(s: Sys, kept: set<Ref>) {
    && (forall w :: 0 <= w < |s.workers| && s.workers[w].Sending? ==> s.workers[w].result.ref !in kept)
    && (forall i :: 0 <= i < |s.results| ==> s.results[i].ref !in kept)
    && (forall i :: 0 <= i < |s.batch| ==> s.batch[i].ref !in kept)
  }

  ghost predicate StatesAvoid(e: Engine, kept: set<Ref>) {
    forall v :: v in e.states ==> e.states[v] !in kept
  }

  ghost predicate Allocated(e: Engine, kept: set<Ref>) {
    forall r :: r in kept ==> 1 <= r < e.next
  }

  ghost predicate HeldByNobody(s: Sys, kept: set<Ref>) {
    TasksAvoid(s, kept) && ResultsAvoid(s, kept) && StatesAvoid(s.eng, kept) && Allocated(s.eng, kept)
  }

  ghost predicate SameMaps(e: Engine, e': Engine, kept: set<Ref>) {
    forall r :: r in kept ==> Read(e'.cells, r) == Read(e.cells, r)
  }

  lemma TakeAvoids(s: Sys, s': Sys, q: nat, kept: set<Ref>)
    requires TasksAvoid(s, kept) && q < |s.queues| && s.queues[q] != []
    requires s'.queues == s.queues[q := s.queues[q][1..]] && s'.coord == s.coord
    requires forall w :: 0 <= w < |s'.workers| && s'.workers[w].Running? ==>
               s'.workers[w].task == s.queues[q][0] || (w < |s.workers| && s'.workers[w] == s.workers[w])
    ensures TasksAvoid(s', kept)
  {
    forall i, j | 0 <= i < |s'.queues| && 0 <= j < |s'.queues[i]|
      ensures s'.queues[i][j].ref !in kept
    {
      if i == q {
        assert s'.queues[i][j] == s.queues[i][j + 1];
      }
    }
  }

  lemma EnqueueAvoids(c: Config, s: Sys, kept: set<Ref>)
    requires Runnable(c) && TasksAvoid(s, kept) && Enabled(c, s, Enqueue)
    ensures TasksAvoid(Apply(c, s, Enqueue), kept)
  {
    var s' := Apply(c, s, Enqueue);
    forall i, j | 0 <= i < |s'.queues| && 0 <= j < |s'.queues[i]|
      ensures s'.queues[i][j].ref !in kept
    {
      if i != s.coord.slot || j < |s.queues[i]| {
        assert s'.queues[i][j] == s.queues[i][j];
      }
    }
  }

  lemma NextAvoids(c: Config, s: Sys, v: VertexId, rest: seq<VertexId>, kept: set<Ref>)
    requires Runnable(c) && HeldByNobody(s, kept)
    ensures HeldByNobody(PlaceTask(c, s, v, rest), kept)
  {
    assert s.eng.RefOf(v) !in kept;
  }

  /** A program writes the map of its task and allocates new ones. */
  lemma FinishAvoids(c: Config, s: Sys, w: nat, kept: set<Ref>)
    requires Runnable(c) && TasksAvoid(s, kept) && Allocated(s.eng, kept) && Enabled(c, s, Finish(w))
    ensures var s' := Apply(c, s, Finish(w));
            && TasksAvoid(s', kept) && Allocated(s'.eng, kept) && SameMaps(s.eng, s'.eng, kept)
            && s'.eng.states == s.eng.states && s'.eng.checkpoints == s.eng.checkpoints
            && (ResultsAvoid(s, kept) ==> ResultsAvoid(s', kept))
  {
    var t := s.workers[w].task;
    var o := c.compute(t.vid, Read(s.eng.cells, t.ref), t.msgs);
    forall r | r in kept
      ensures Read(Apply(c, s, Finish(w)).eng.cells, r) == Read(s.eng.cells, r)
    {
      ExecuteFrame(s.eng.cells, s.eng.next, t.ref, o, r);
    }
  }

  lemma {:induction false} BatchAvoids(e: Engine, batch: seq<TaskResult>, kept: set<Ref>)
    requires StatesAvoid(e, kept) && forall r :: r in batch ==> r.ref !in kept
    ensures StatesAvoid(ApplyBatch(e, batch), kept)
    decreases |batch|
  {
    if batch != [] {
      var n := |batch| - 1;
      BatchAvoids(e, batch[..n], kept);
      assert batch[n] in batch;
    }
  }

  lemma CollectAvoids(c: Config, s: Sys, kept: set<Ref>)
    requires Runnable(c) && HeldByNobody(s, kept) && Enabled(c, s, Collect)
    ensures var s' := Apply(c, s, Collect);
            && HeldByNobody(s', kept) && SameMaps(s.eng, s'.eng, kept) && s'.eng.checkpoints == s.eng.checkpoints
  {
    var s1 := s.(results := s.results[1..]);
    var r := s.results[0];
    assert ResultsAvoid(s1, kept) && HeldByNobody(s1, kept);
    if c.mode.Cached? {
      BatchedAvoids(s1, r, kept);
    } else {
      HandledAvoids(c, s1, r, kept);
    }
  }

  lemma BatchedAvoids(s: Sys, r: TaskResult, kept: set<Ref>)
    requires HeldByNobody(s, kept) && r.ref !in kept
    ensures var s' := CollectBatched(s, r);
            HeldByNobody(s', kept) && s'.eng.cells == s.eng.cells && s'.eng.checkpoints == s.eng.checkpoints
  {
    BatchAvoids(s.eng, s.batch + [r], kept);
    BatchKeepsAttempts(s.eng, s.batch + [r]);
  }

  lemma HandledAvoids(c: Config, s: Sys, r: TaskResult, kept: set<Ref>)
    requires Runnable(c) && HeldByNobody(s, kept) && r.ref !in kept
    ensures var s' := HandleResult(c, s, r);
            HeldByNobody(s', kept) && s'.eng.cells == s.eng.cells && s'.eng.checkpoints == s.eng.checkpoints
  {
    assert s.eng.RefOf(r.vid) !in kept;
  }

  lemma StepAvoids(c: Config, s: Sys, a: Action, kept: set<Ref>)
    requires Runnable(c) && HeldByNobody(s, kept) && Enabled(c, s, a)
    ensures var s' := Apply(c, s, a);
            && HeldByNobody(s', kept) && SameMaps(s.eng, s'.eng, kept) && s'.eng.checkpoints == s.eng.checkpoints
  {
    match a
    case Next => NextAvoids(c, s, s.coord.rest[0], s.coord.rest[1..], kept);
    case Enqueue => EnqueueAvoids(c, s, kept);
    case Take(w, q) => TakeAvoids(s, Apply(c, s, a), q, kept);
    case Finish(w) => FinishAvoids(c, s, w, kept);
    case Send(w) =>
    case Collect => CollectAvoids(c, s, kept);
  }

  /** Over any interleaving, maps that nobody holds are held by nobody and keep their contents. */
  lemma {:induction false} RunAvoids(c: Config, s: Sys, script: seq<Action>, kept: set<Ref>)
    requires Runnable(c) && HeldByNobody(s, kept) && Admits(c, s, script)
    ensures var s' := Exec(c, s, script);
            && HeldByNobody(s', kept) && SameMaps(s.eng, s'.eng, kept) && s'.eng.checkpoints == s.eng.checkpoints
    decreases |script|
  {
    if script != [] {
      StepAvoids(c, s, script[0], kept);
      RunAvoids(c, Apply(c, s, script[0]), script[1..], kept);
    }
  }

  /** Right after it has been saved, a checkpoint is held by nobody. */
  lemma SavedHeldByNobody(
    c: Config, e: Engine, step: nat, refs: map<VertexId, Ref>, next: Ref, order: seq<VertexId>, counter: nat)
    requires WellFormed(e) && FreshRefs(e.states.Keys, e, refs, next)
    ensures HeldByNobody(Start(c, Saved(e, step, refs, next), order, step, counter), refs.Values)
  {
    assert forall r :: r in refs.Values ==> e.next <= r < next;
  }

  /** The checkpoint `saved` of `e` is in place in `now`, with the contents of the states of `e`. */
  ghost predicate Holds(e: Engine, now: Engine, step: nat, saved: map<VertexId, Ref>) {
    && step in now.checkpoints && now.checkpoints[step] == saved && saved.Keys == e.states.Keys
    && forall v :: v in saved ==> Read(now.cells, saved[v]) == Live(FieldsOf(e.StateOf(v)))
  }

  lemma StillHolds(e: Engine, e1: Engine, e2: Engine, step: nat, saved: map<VertexId, Ref>)
    requires Holds(e, e1, step, saved) && SameMaps(e1, e2, saved.Values) && e2.checkpoints == e1.checkpoints
    ensures Holds(e, e2, step, saved)
  {
    forall v | v in saved
      ensures Read(e2.cells, saved[v]) == Read(e1.cells, saved[v])
    {
      assert saved[v] in saved.Values;
    }
  }

  /**
   At whatever point a superstep is, its checkpoint is there, no task, worker, result or vertex refers
   to one of its maps, and they hold what the vertices held when the superstep began.
   */
  lemma CheckpointUntouched(c: Config, e: Engine, step: nat, p: Plan)
    requires Runnable(c) && WellFormed(e) && Started(c, e, step, p)
    ensures HeldByNobody(AtEnd(c, e, step, p), p.saved.Values) && Holds(e, AtEnd(c, e, step, p).eng, step, p.saved)
  {
    SavedSame(e, step, p.saved, p.savedNext);
    SavedHeldByNobody(c, e, step, p.saved, p.savedNext, p.order, p.counter);
    RunAvoids(c, Begin(c, e, step, p), p.script, p.saved.Values);
    StillHolds(e, Saved(e, step, p.saved, p.savedNext), AtEnd(c, e, step, p).eng, step, p.saved);
  }

  // ---------------------------------------------------------------- rollback

  /** Loading gives the vertices of the checkpoint what its maps hold, in maps that nothing else refers to. */
  lemma LoadedStates(e: Engine, step: nat, refs: map<VertexId, Ref>, next: Ref)
    requires WellFormed(e) && step in e.checkpoints && CanLoad(e, step, refs, next)
    ensures var r := Loaded(e, step, refs, next); var saved := e.checkpoints[step];
            && WellFormed(r) && Separated(r) && r.states == refs
            && (forall v :: v in saved ==> r.StateOf(v) == Live(FieldsOf(Read(e.cells, saved[v]))))
            && (forall v :: v !in saved ==> r.StateOf(v) == NilMap)
  {
    CopiesAt(e, e.checkpoints[step], refs, next);
  }

  /** Every vertex of `e` has in `r` the contents it has in `e`, in a map of its own. */
  ghost predicate Restored(e: Engine, r: Engine) {
    && WellFormed(r) && Separated(r) && r.states.Keys == e.states.Keys
    && (forall v :: v in e.states ==> r.StateOf(v) == Live(FieldsOf(e.StateOf(v))))
    && (forall v :: FieldsOf(r.StateOf(v)) == FieldsOf(e.StateOf(v)))
  }

  /** A live state comes back with its contents, a nil one as an empty map. */
  lemma RestoredMeans(e: Engine, r: Engine, v: VertexId)
    requires Restored(e, r) && v in e.states
    ensures e.StateOf(v).Live? ==> r.StateOf(v) == e.StateOf(v)
    ensures e.StateOf(v).NilMap? ==> r.StateOf(v) == Live(map[])
  {
  }

  lemma LoadRestores(e: Engine, now: Engine, step: nat, saved: map<VertexId, Ref>, refs: map<VertexId, Ref>, next: Ref)
    requires WellFormed(e) && WellFormed(now) && Holds(e, now, step, saved) && CanLoad(now, step, refs, next)
    ensures Restored(e, Loaded(now, step, refs, next)) && Loaded(now, step, refs, next).states == refs
  {
    LoadedStates(now, step, refs, next);
    var r := Loaded(now, step, refs, next);
    forall v
      ensures v in e.states ==> r.StateOf(v) == Live(FieldsOf(e.StateOf(v)))
      ensures FieldsOf(r.StateOf(v)) == FieldsOf(e.StateOf(v))
    {
      assert v in saved <==> v in e.states;
    }
  }

  lemma StartBounded(c: Config, e: Engine, order: seq<VertexId>, step: nat, counter: nat)
    requires WellFormed(e)
    ensures RefsBounded(Start(c, e, order, step, counter))
  {
  }

  lemma EndBounded(c: Config, e: Engine, step: nat, p: Plan)
    requires Runnable(c) && WellFormed(e) && Started(c, e, step, p)
    ensures RefsBounded(AtEnd(c, e, step, p))
  {
    SavedSame(e, step, p.saved, p.savedNext);
    StartBounded(c, Saved(e, step, p.saved, p.savedNext), p.order, step, p.counter);
    RunBounded(c, Begin(c, e, step, p), p.script);
  }

  /** At whatever point a superstep is given up, rollback gives every vertex the contents it had when it began. */
  lemma RollbackRestores(c: Config, e: Engine, step: nat, p: Plan)
    requires Runnable(c) && WellFormed(e) && Started(c, e, step, p)
    ensures Restored(e, Loaded(AtEnd(c, e, step, p).eng, step, p.refs, p.next))
    ensures RefsBounded(AtEnd(c, e, step, p)) && Loaded(AtEnd(c, e, step, p).eng, step, p.refs, p.next).states == p.refs
  {
    CheckpointUntouched(c, e, step, p);
    EndBounded(c, e, step, p);
    LoadRestores(e, AtEnd(c, e, step, p).eng, step, p.saved, p.refs, p.next);
  }

  /** References held by tasks and by the engine were allocated before now. */
  ghost predicate RefsBounded(s: Sys) {
    && WellFormed(s.eng)
    && (s.coord.Placing? ==> s.coord.task.ref < s.eng.next)
    && (forall i, j :: 0 <= i < |s.queues| && 0 <= j < |s.queues[i]| ==> s.queues[i][j].ref < s.eng.next)
    && (forall w :: 0 <= w < |s.workers| && s.workers[w].Running? ==> s.workers[w].task.ref < s.eng.next)
    && (forall w :: 0 <= w < |s.workers| && s.workers[w].Sending? ==> s.workers[w].result.ref < s.eng.next)
    && (forall i :: 0 <= i < |s.results| ==> s.results[i].ref < s.eng.next)
    && (forall i :: 0 <= i < |s.batch| ==> s.batch[i].ref < s.eng.next)
  }

  lemma ScheduleBounded(c: Config, s: Sys, a: Action)
    requires Runnable(c) && RefsBounded(s) && Enabled(c, s, a) && (a.Next? || a.Enqueue?)
    ensures RefsBounded(Apply(c, s, a))
  {
    var s' := Apply(c, s, a);
    if a.Next? {
      assert s.eng.RefOf(s.coord.rest[0]) < s.eng.next;
    } else {
      forall i, j | 0 <= i < |s'.queues| && 0 <= j < |s'.queues[i]|
        ensures s'.queues[i][j].ref < s'.eng.next
      {
        if i != s.coord.slot || j < |s.queues[i]| {
          assert s'.queues[i][j] == s.queues[i][j];
        }
      }
    }
  }

  lemma WorkerBounded(c: Config, s: Sys, a: Action)
    requires Runnable(c) && RefsBounded(s) && Enabled(c, s, a) && IsWorkerAction(a)
    ensures RefsBounded(Apply(c, s, a))
  {
    var s' := Apply(c, s, a);
    match a
    case Take(w, q) =>
      forall i, j | 0 <= i < |s'.queues| && 0 <= j < |s'.queues[i]|
        ensures s'.queues[i][j].ref < s'.eng.next
      {
        if i == q {
          assert s'.queues[i][j] == s.queues[i][j + 1];
        }
      }
    case Finish(w) =>
    case Send(w) =>
  }

  lemma BatchBounded(c: Config, e: Engine, h: History, batch: seq<TaskResult>, r: TaskResult)
    requires WellFormed(e) && (forall i :: 0 <= i < |batch| ==> batch[i].ref < e.next) && r.ref < e.next
    ensures var b := batch + [r];
            && WellFormed(ApplyBatch(e, b)) && ApplyBatch(e, b).next == e.next
            && forall i :: 0 <= i < |b| ==> b[i].ref < e.next
  {
    BatchStatesWellFormed(c, e, h, e, batch + [r]);
    BatchKeepsAttempts(e, batch + [r]);
  }

  lemma CollectBounded(c: Config, s: Sys)
    requires Runnable(c) && RefsBounded(s) && Enabled(c, s, Collect)
    ensures RefsBounded(Apply(c, s, Collect))
  {
    var r := s.results[0];
    var s1 := s.(results := s.results[1..]);
    assert s.eng.RefOf(r.vid) < s.eng.next;
    assert RefsBounded(s1);
    if c.mode.Cached? {
      BatchedBounded(c, s1, r);
    } else {
      HandledBounded(c, s1, r);
    }
  }

  lemma HandleBounded(c: Config, l: Ledger, r: TaskResult, step: nat)
    requires WellFormed(l.eng) && r.ref < l.eng.next
    ensures WellFormed(Handle(c, l, r, step).eng) && Handle(c, l, r, step).eng.next == l.eng.next
  {
  }

  lemma HandledBounded(c: Config, s: Sys, r: TaskResult)
    requires Runnable(c) && RefsBounded(s) && r.ref < s.eng.next
    ensures RefsBounded(HandleResult(c, s, r))
  {
    HandleBounded(c, Ledger(s.eng, s.done, s.errs), r, s.step);
    var s' := HandleResult(c, s, r);
    assert s'.queues == s.queues && s'.workers == s.workers && s'.results == s.results && s'.batch == s.batch;
    assert s'.eng.RefOf(r.vid) < s'.eng.next;
  }

  lemma BatchedBounded(c: Config, s: Sys, r: TaskResult)
    requires RefsBounded(s) && r.ref < s.eng.next
    ensures RefsBounded(CollectBatched(s, r))
  {
    BatchBounded(c, s.eng, s.hist, s.batch, r);
  }

  lemma {:induction false} RunBounded(c: Config, s: Sys, script: seq<Action>)
    requires Runnable(c) && RefsBounded(s) && Admits(c, s, script)
    ensures RefsBounded(Exec(c, s, script))
    decreases |script|
  {
    if script != [] {
      match script[0] {
        case Next => ScheduleBounded(c, s, Next);
        case Enqueue => ScheduleBounded(c, s, Enqueue);
        case Collect => CollectBounded(c, s);
        case _ => WorkerBounded(c, s, script[0]);
      }
      RunBounded(c, Apply(c, s, script[0]), script[1..]);
    }
  }

  /** The protocol after `Run` has returned an error: the workers go on, the coordinator does not. */
  ghost function Abandoned(c: Config, e: Engine, step: nat, p: Plan): Sys
    requires Runnable(c) && Started(c, e, step, p)
  {
    var s := AtEnd(c, e, step, p);
    s.(eng := Loaded(s.eng, step, p.refs, p.next), coord := Stopped)
  }

  /** Workers that go on after the coordinator has stopped write only to maps of tasks, and to no state. */
  lemma StragglerStep(c: Config, s: Sys, a: Action, kept: set<Ref>)
    requires Runnable(c) && s.coord.Stopped? && TasksAvoid(s, kept) && Allocated(s.eng, kept) && Enabled(c, s, a)
    ensures var s' := Apply(c, s, a);
            && s'.coord.Stopped? && TasksAvoid(s', kept) && Allocated(s'.eng, kept)
            && s'.eng.states == s.eng.states && SameMaps(s.eng, s'.eng, kept)
            && (0 !in s.eng.cells && s.eng.next >= 1 ==> 0 !in s'.eng.cells && s'.eng.next >= 1)
  {
    if a.Take? {
      TakeAvoids(s, Apply(c, s, a), a.queue, kept);
    } else if a.Finish? {
      FinishAvoids(c, s, a.w, kept);
    }
  }

  lemma {:induction false} StragglersCannotReach(c: Config, s: Sys, kept: set<Ref>, script: seq<Action>)
    requires Runnable(c) && s.coord.Stopped? && TasksAvoid(s, kept) && Allocated(s.eng, kept) && Admits(c, s, script)
    requires 0 !in s.eng.cells && s.eng.next >= 1
    ensures var s' := Exec(c, s, script);
            s'.eng.states == s.eng.states && SameMaps(s.eng, s'.eng, kept) && 0 !in s'.eng.cells
    decreases |script|
  {
    if script != [] {
      StragglerStep(c, s, script[0], kept);
      StragglersCannotReach(c, Apply(c, s, script[0]), kept, script[1..]);
    }
  }

  /**
   Rollback under in-place mutation. At whatever point an interleaving (retries included) is given
   up, restoring leaves every vertex the contents it had when the superstep started, and no
   interleaving of the tasks that are still queued or running changes them afterwards.
   */
  lemma RollbackIsFinal(c: Config, e: Engine, step: nat, p: Plan, stragglers: seq<Action>)
    requires Runnable(c) && WellFormed(e) && Started(c, e, step, p) && Admits(c, Abandoned(c, e, step, p), stragglers)
    ensures var later := Exec(c, Abandoned(c, e, step, p), stragglers).eng;
            forall v :: (v in later.states <==> v in e.states) && FieldsOf(later.StateOf(v)) == FieldsOf(e.StateOf(v))
  {
    var left := Abandoned(c, e, step, p);
    RollbackRestores(c, e, step, p);
    CheckpointUntouched(c, e, step, p);
    RestoredOutOfReach(AtEnd(c, e, step, p), left, p.refs, p.next);
    StragglersCannotReach(c, left, p.refs.Values, stragglers);
    StaysRestored(e, left.eng, Exec(c, left, stragglers).eng, p.refs);
  }

  lemma StaysRestored(e: Engine, r: Engine, later: Engine, refs: map<VertexId, Ref>)
    requires Restored(e, r) && r.states == refs && later.states == refs && SameMaps(r, later, refs.Values)
    requires 0 !in later.cells
    ensures forall v :: (v in later.states <==> v in e.states) && FieldsOf(later.StateOf(v)) == FieldsOf(e.StateOf(v))
  {
    forall v
      ensures later.StateOf(v) == r.StateOf(v)
    {
      if v in refs {
        assert refs[v] in refs.Values;
      }
    }
  }

  /** No task refers to a map allocated after it was scheduled. */
  lemma RestoredOutOfReach(s: Sys, left: Sys, refs: map<VertexId, Ref>, next: Ref)
    requires RefsBounded(s) && left.queues == s.queues && left.workers == s.workers && left.coord.Stopped?
    requires left.eng.next == next && forall v :: v in refs ==> 1 <= s.eng.next <= refs[v] < next
    ensures TasksAvoid(left, refs.Values) && Allocated(left.eng, refs.Values)
  {
    assert forall r :: r in refs.Values ==> s.eng.next <= r < next;
  }

  // ---------------------------------------------------------------- the whole run

  ghost predicate Uncancelled(plans: seq<Plan>) {
    forall i :: 0 <= i < |plans| ==> !plans[i].aborted
  }

  /** From `step` on nobody writes to a vertex that is tried again and heeds it. */
  ghost predicate QuietFrom(c: Config, vs: set<VertexId>, start: VertexId -> StateMap, step: nat, max: nat) {
    forall n :: step <= n < max ==> QuietAt(c, vs, start, n)
  }

  /**
   What a run leaves behind, in terms of the iterations alone: the states of the last iteration, or
   those of the superstep that failed, which is the first in which an iteration fails, unless the
   run was cancelled.
   */
  ghost predicate Settles(
    c: Config, vs: set<VertexId>, start: VertexId -> StateMap, step: nat, max: nat, cancelled: bool, r: RunResult)
  {
    match r.failedAt
    case None =>
      && (forall n :: step <= n < max ==> !FailsAt(c, vs, start, n))
      && (forall v :: v in vs ==> r.eng.StateOf(v) == Iterate(c, v, start(v), max).state)
      && (r.halted <==> max > 0 && forall v :: v in vs ==> !Iterate(c, v, start(v), max).active)
    case Some(n) =>
      && step <= n < max && (cancelled || FailsAt(c, vs, start, n)) && !r.halted
      && (forall k :: step <= k < n ==> !FailsAt(c, vs, start, k))
      && (forall v :: v in vs ==> FieldsOf(r.eng.StateOf(v)) == FieldsOf(Iterate(c, v, start(v), n).state))
  }

  lemma QuietOnceHalted(c: Config, vs: set<VertexId>, start: VertexId -> StateMap, e: Engine, step: nat, n: nat)
    requires InStep(c, vs, start, e, step) && !AnyActive(e) && step <= n
    ensures !FailsAt(c, vs, start, n)
    ensures forall v :: v in vs ==> Iterate(c, v, start(v), n) == Iterate(c, v, start(v), step)
  {
    forall v | v in vs
      ensures Iterate(c, v, start(v), n) == Iterate(c, v, start(v), step)
      ensures !Iterate(c, v, start(v), n).active
    {
      ActiveOutcome(c, vs, start, e, step, v);
      assert !e.IsActive(v);
      HaltedStays(c, v, start(v), step, n);
    }
  }

  /** After a failure the restored states are those of the iterations at the failing step. */
  lemma FailureRestores(c: Config, vs: set<VertexId>, start: VertexId -> StateMap, e: Engine, step: nat, p: Plan)
    requires Runnable(c) && InStep(c, vs, start, e, step) && PlanOk(c, e, step, p) && !Succeeds(c, e, step, p)
    ensures forall v :: v in vs ==>
              FieldsOf(StepEngine(c, e, step, p).StateOf(v)) == FieldsOf(Iterate(c, v, start(v), step).state)
  {
    RollbackRestores(c, e, step, p);
    forall v | v in vs
      ensures FieldsOf(StepEngine(c, e, step, p).StateOf(v)) == FieldsOf(Iterate(c, v, start(v), step).state)
    {
      ActiveOutcome(c, vs, start, e, step, v);
    }
  }

  /** `Halted` says whether anybody is active, once a superstep has been run. */
  ghost predicate HaltedOk(e: Engine, step: nat, halted: bool) {
    if step == 0 then !halted else halted <==> !AnyActive(e)
  }

  /** The loop is left: the engine has halted, or has reached the limit. */
  lemma RunEnds(c: Config, vs: set<VertexId>, start: VertexId -> StateMap, e: Engine, step: nat, halted: bool, max: nat)
    requires InStep(c, vs, start, e, step) && HaltedOk(e, step, halted) && step <= max && (halted || step == max)
    ensures Settles(c, vs, start, step, max, false, RunResult(e, halted, None))
  {
    forall n | step <= n < max
      ensures !FailsAt(c, vs, start, n)
    {
      QuietOnceHalted(c, vs, start, e, step, n);
    }
    if halted {
      QuietOnceHalted(c, vs, start, e, step, max);
    }
    forall v | v in vs
      ensures e.StateOf(v) == Iterate(c, v, start(v), max).state && e.IsActive(v) == Iterate(c, v, start(v), max).active
    {
      ActiveOutcome(c, vs, start, e, step, v);
    }
  }

  /** The loop of `Run`, from the given state, ends in `r`. */
  ghost predicate Runs(c: Config, e: Engine, step: nat, halted: bool, max: nat, plans: seq<Plan>, r: RunResult)
    requires Runnable(c)
  {
    RunOk(c, e, step, halted, max, plans) && RunExec(c, e, step, halted, max, plans) == r
  }

  /** One round of the loop: `ok` when the superstep succeeds and the loop goes on from `e'`. */
  lemma Round(c: Config, e: Engine, step: nat, halted: bool, max: nat, plans: seq<Plan>, r: RunResult)
    returns (e': Engine, ok: bool)
    requires Runnable(c) && Runs(c, e, step, halted, max, plans, r) && !halted && step < max
    ensures plans != [] && PlanOk(c, e, step, plans[0])
    ensures e' == StepEngine(c, e, step, plans[0]) && ok == Succeeds(c, e, step, plans[0])
    ensures ok ==> Runs(c, e', step + 1, !AnyActive(e'), max, plans[1..], r)
    ensures !ok ==> r == RunResult(e', halted, Some(step))
  {
    e' := StepEngine(c, e, step, plans[0]);
    ok := Succeeds(c, e, step, plans[0]);
  }

  lemma LoopOver(c: Config, e: Engine, step: nat, halted: bool, max: nat, plans: seq<Plan>, r: RunResult)
    requires Runnable(c) && Runs(c, e, step, halted, max, plans, r) && (halted || step == max)
    ensures r == RunResult(e, halted, None)
  {
  }

  /**
   The loop stands before superstep `step`, every vertex is where its iteration is, and `r` is how it
   will end; `cancelled` allows a superstep that is given up.
   */
  ghost predicate Running(
    c: Config, vs: set<VertexId>, start: VertexId -> StateMap, e: Engine, step: nat, halted: bool, max: nat,
    plans: seq<Plan>, cancelled: bool, r: RunResult)
    requires Runnable(c)
  {
    && Runs(c, e, step, halted, max, plans, r) && step <= max && (cancelled || Uncancelled(plans))
    && InStep(c, vs, start, e, step) && HaltedOk(e, step, halted) && QuietFrom(c, vs, start, step, max)
  }

  /** One round, in terms of the iterations. */
  lemma RoundMatches(
    c: Config, vs: set<VertexId>, start: VertexId -> StateMap, e: Engine, step: nat, halted: bool, max: nat,
    plans: seq<Plan>, cancelled: bool, r: RunResult)
    returns (e': Engine, ok: bool)
    requires Runnable(c) && Running(c, vs, start, e, step, halted, max, plans, cancelled, r) && !halted && step < max
    ensures plans != []
    ensures ok ==> Running(c, vs, start, e', step + 1, !AnyActive(e'), max, plans[1..], cancelled, r)
    ensures ok ==> !FailsAt(c, vs, start, step)
    ensures !ok ==>
              && r == RunResult(e', halted, Some(step)) && (cancelled || FailsAt(c, vs, start, step))
              && forall v :: v in vs ==> FieldsOf(e'.StateOf(v)) == FieldsOf(Iterate(c, v, start(v), step).state)
  {
    e', ok := Round(c, e, step, halted, max, plans, r);
    StepMatches(c, vs, start, e, step, plans[0]);
    if !ok {
      FailureRestores(c, vs, start, e, step, plans[0]);
    }
  }

  /** The last round: the superstep has failed, or has been cancelled. */
  lemma SettlesFailed(
    c: Config, vs: set<VertexId>, start: VertexId -> StateMap, step: nat, max: nat, cancelled: bool, e': Engine,
    r: RunResult)
    requires step < max && (cancelled || FailsAt(c, vs, start, step))
    requires r == RunResult(e', false, Some(step))
    requires forall v :: v in vs ==> FieldsOf(e'.StateOf(v)) == FieldsOf(Iterate(c, v, start(v), step).state)
    ensures Settles(c, vs, start, step, max, cancelled, r)
  {
  }

  lemma SettlesOver(
    c: Config, vs: set<VertexId>, start: VertexId -> StateMap, e: Engine, step: nat, halted: bool, max: nat,
    plans: seq<Plan>, cancelled: bool, r: RunResult)
    requires Runnable(c) && Running(c, vs, start, e, step, halted, max, plans, cancelled, r) && (halted || step == max)
    ensures Settles(c, vs, start, step, max, cancelled, r)
  {
    RunEnds(c, vs, start, e, step, halted, max);
    LoopOver(c, e, step, halted, max, plans, r);
  }

  /** A run, cancelled or not, in terms of the iterations. */
  lemma {:induction false} RunMatches(
    c: Config, vs: set<VertexId>, start: VertexId -> StateMap, e: Engine, step: nat, halted: bool, max: nat,
    plans: seq<Plan>, cancelled: bool, r: RunResult)
    requires Runnable(c) && Running(c, vs, start, e, step, halted, max, plans, cancelled, r)
    ensures Settles(c, vs, start, step, max, cancelled, r)
    decreases |plans|, 1
  {
    if halted || step == max {
      SettlesOver(c, vs, start, e, step, halted, max, plans, cancelled, r);
    } else {
      var e', ok := RoundMatches(c, vs, start, e, step, halted, max, plans, cancelled, r);
      if ok {
        RunRest(c, vs, start, e', step, max, plans[1..], cancelled, r);
      } else {
        SettlesFailed(c, vs, start, step, max, cancelled, e', r);
      }
    }
  }

  lemma {:induction false} RunRest(
    c: Config, vs: set<VertexId>, start: VertexId -> StateMap, e: Engine, step: nat, max: nat, rest: seq<Plan>,
    cancelled: bool, r: RunResult)
    requires Runnable(c) && Running(c, vs, start, e, step + 1, !AnyActive(e), max, rest, cancelled, r)
    requires !FailsAt(c, vs, start, step)
    ensures Settles(c, vs, start, step, max, cancelled, r)
    decreases |rest|, 2
  {
    RunMatches(c, vs, start, e, step + 1, !AnyActive(e), max, rest, cancelled, r);
    SettlesFromNext(c, vs, start, step, max, cancelled, r);
  }

  lemma SettlesFromNext(
    c: Config, vs: set<VertexId>, start: VertexId -> StateMap, step: nat, max: nat, cancelled: bool, r: RunResult)
    requires Settles(c, vs, start, step + 1, max, cancelled, r) && !FailsAt(c, vs, start, step)
    ensures Settles(c, vs, start, step, max, cancelled, r)
  {
  }

  /** A freshly initialised engine: `initActiveVertices` has run, no message is queued, no retry counted. */
  ghost predicate Fresh(vs: set<VertexId>, e: Engine) {
    && WellFormed(e) && Separated(e)
    && (forall t :: Lookup(e.inbox, t, []) == [])
    && (forall v :: e.AttemptsOf(v) == 0)
    && (forall v :: e.IsActive(v) <==> v in vs)
  }

  /**
   Whole-run refinement. When no vertex fails on its own, and nobody writes to a vertex that is tried
   again and heeds it, every interleaving of an uncancelled run ends with each vertex in the state of
   its own iteration, without messages, up to its first halt or the superstep limit.
   */
  lemma RunIsIndependentIteration(c: Config, vs: set<VertexId>, e: Engine, max: nat, plans: seq<Plan>)
    requires Runnable(c) && Fresh(vs, e) && RunOk(c, e, 0, false, max, plans) && Uncancelled(plans)
    requires forall n :: 0 <= n < max ==> !FailsAt(c, vs, e.StateOf, n) && QuietAt(c, vs, e.StateOf, n)
    ensures var r := RunExec(c, e, 0, false, max, plans);
            && r.failedAt == None
            && (forall v :: v in vs ==> r.eng.StateOf(v) == Iterate(c, v, e.StateOf(v), max).state)
            && (r.halted <==> max > 0 && forall v :: v in vs ==> !Iterate(c, v, e.StateOf(v), max).active)
  {
    RunMatches(c, vs, e.StateOf, e, 0, false, max, plans, false, RunExec(c, e, 0, false, max, plans));
  }

  /** Without retries nobody is tried again. */
  lemma NoRetriesIsQuiet(c: Config, vs: set<VertexId>, start: VertexId -> StateMap, max: nat)
    requires Retry(c) == 0
    ensures QuietFrom(c, vs, start, 0, max)
  {
  }

  /**
   The two engines agree. Without retries, and whatever their interleavings, batches and scheduling
   orders, they succeed or fail at the same superstep and leave the same vertex states and the same
   `Halted`. After a failure the states are equal in contents.
   */
  lemma EnginesAgree(
    standard: Config, cached: Config, vs: set<VertexId>, e: Engine, f: Engine, max: nat, plans: seq<Plan>,
    plans': seq<Plan>)
    requires Runnable(standard) && Runnable(cached)
    requires standard.mode.Standard? && cached.mode.Cached? && standard.maxRetries <= 0
    requires forall v, s, m :: standard.compute(v, s, m) == cached.compute(v, s, m)
    requires Fresh(vs, e) && Fresh(vs, f) && forall v :: v in vs ==> e.StateOf(v) == f.StateOf(v)
    requires RunOk(standard, e, 0, false, max, plans) && Uncancelled(plans)
    requires RunOk(cached, f, 0, false, max, plans') && Uncancelled(plans')
    ensures var r := RunExec(standard, e, 0, false, max, plans);
            var r' := RunExec(cached, f, 0, false, max, plans');
            && r.failedAt == r'.failedAt && r.halted == r'.halted
            && (r.failedAt.None? ==> forall v :: v in vs ==> r.eng.StateOf(v) == r'.eng.StateOf(v))
            && forall v :: v in vs ==> FieldsOf(r.eng.StateOf(v)) == FieldsOf(r'.eng.StateOf(v))
  {
    var r := RunExec(standard, e, 0, false, max, plans);
    var r' := RunExec(cached, f, 0, false, max, plans');
    SettledRun(standard, vs, e, max, plans, r);
    SettledRun(cached, vs, f, max, plans', r');
    SettledAgree(standard, cached, vs, e.StateOf, f.StateOf, max, r, r');
  }

  lemma SettledRun(c: Config, vs: set<VertexId>, e: Engine, max: nat, plans: seq<Plan>, r: RunResult)
    requires Runnable(c) && Retry(c) == 0 && Fresh(vs, e)
    requires Runs(c, e, 0, false, max, plans, r) && Uncancelled(plans)
    ensures Settles(c, vs, e.StateOf, 0, max, false, r)
  {
    NoRetriesIsQuiet(c, vs, e.StateOf, max);
    RunMatches(c, vs, e.StateOf, e, 0, false, max, plans, false, r);
  }

  lemma SettledAgree(
    c: Config, c': Config, vs: set<VertexId>, start: VertexId -> StateMap, start': VertexId -> StateMap, max: nat,
    r: RunResult, r': RunResult)
    requires Retry(c) == Retry(c') && forall v, s, m :: c.compute(v, s, m) == c'.compute(v, s, m)
    requires forall v :: v in vs ==> start(v) == start'(v)
    requires Settles(c, vs, start, 0, max, false, r) && Settles(c', vs, start', 0, max, false, r')
    ensures r.failedAt == r'.failedAt && r.halted == r'.halted
    ensures r.failedAt.None? ==> forall v :: v in vs ==> r.eng.StateOf(v) == r'.eng.StateOf(v)
    ensures forall v :: v in vs ==> FieldsOf(r.eng.StateOf(v)) == FieldsOf(r'.eng.StateOf(v))
  {
    forall v, n: nat | v in vs
      ensures Iterate(c, v, start(v), n) == Iterate(c', v, start'(v), n)
    {
      IterateSame(c, c', v, start(v), n);
    }
    forall n: nat
      ensures FailsAt(c, vs, start, n) <==> FailsAt(c', vs, start', n)
    {
      SameFailures(c, c', vs, start, start', n);
    }
  }

  lemma {:induction false} AttemptSame(f: Program, g: Program, v: VertexId, s: StateMap, retries: nat)
    requires forall v, s, m :: f(v, s, m) == g(v, s, m)
    ensures LastAttempt(f, v, s, [], retries) == LastAttempt(g, v, s, [], retries)
    decreases retries
  {
    if retries > 0 {
      AttemptSame(f, g, v, LeftBehind(s, f(v, s, [])), retries - 1);
    }
  }

  lemma {:induction false} IterateSame(c: Config, c': Config, v: VertexId, s: StateMap, n: nat)
    requires Retry(c) == Retry(c') && forall v, s, m :: c.compute(v, s, m) == c'.compute(v, s, m)
    ensures Iterate(c, v, s, n) == Iterate(c', v, s, n)
  {
    if n > 0 {
      IterateSame(c, c', v, s, n - 1);
      AttemptSame(c.compute, c'.compute, v, Iterate(c, v, s, n - 1).state, Retry(c));
    }
  }

  lemma SameFailures(
    c: Config, c': Config, vs: set<VertexId>, start: VertexId -> StateMap, start': VertexId -> StateMap, n: nat)
    requires Retry(c) == Retry(c') && forall v, s, m :: c.compute(v, s, m) == c'.compute(v, s, m)
    requires forall v :: v in vs ==> start(v) == start'(v)
    ensures FailsAt(c, vs, start, n) <==> FailsAt(c', vs, start', n)
  {
    forall v | v in vs
      ensures Iterate(c, v, start(v), n) == Iterate(c', v, start'(v), n)
      ensures Alone(c, v, Iterate(c, v, start(v), n).state) == Alone(c', v, Iterate(c', v, start'(v), n).state)
    {
      IterateSame(c, c', v, start(v), n);
      AttemptSame(c.compute, c'.compute, v, Iterate(c, v, start(v), n).state, Retry(c));
    }
  }

  // ---------------------------------------------------------------- the checkpoints of a run

  lemma SavedKeys(e: Engine, step: nat, refs: map<VertexId, Ref>, next: Ref)
    requires FreshRefs(e.states.Keys, e, refs, next) && e.checkpoints.Keys == Recovery.WindowBefore(step)
    ensures Saved(e, step, refs, next).checkpoints.Keys == Recovery.Window(step)
  {
    Recovery.WindowNext(step);
    var checkpoints := e.checkpoints[step := refs];
    assert checkpoints.Keys == Recovery.WindowBefore(step) + {step};
    assert Kept(checkpoints, step).Keys == Recovery.Retained(checkpoints.Keys, step);
  }

  /** From the moment it begins, a superstep keeps the checkpoints of its window, rollback included. */
  lemma StepWindow(c: Config, e: Engine, step: nat, p: Plan)
    requires Runnable(c) && Started(c, e, step, p) && e.checkpoints.Keys == Recovery.WindowBefore(step)
    ensures AtEnd(c, e, step, p).eng.checkpoints.Keys == Recovery.Window(step)
    ensures Loaded(AtEnd(c, e, step, p).eng, step, p.refs, p.next).checkpoints.Keys == Recovery.Window(step)
  {
    SavedKeys(e, step, p.saved, p.savedNext);
    RunAvoids(c, Begin(c, e, step, p), p.script, {});
  }

  /** The first superstep of a run that has one, and what is left of the run. */
  lemma FirstStep(c: Config, e: Engine, step: nat, halted: bool, max: nat, plans: seq<Plan>)
    returns (e': Engine, ok: bool)
    requires Runnable(c) && RunOk(c, e, step, halted, max, plans) && plans != []
    ensures !halted && step < max && PlanOk(c, e, step, plans[0])
    ensures e' == StepEngine(c, e, step, plans[0]) && ok == Succeeds(c, e, step, plans[0])
    ensures if ok then RunOk(c, e', step + 1, !AnyActive(e'), max, plans[1..]) else |plans| == 1
  {
    e' := StepEngine(c, e, step, plans[0]);
    ok := Succeeds(c, e, step, plans[0]);
  }

  lemma RoundWindow(c: Config, e: Engine, step: nat, max: nat, plans: seq<Plan>, r: RunResult)
    returns (e': Engine, ok: bool)
    requires Runnable(c) && Runs(c, e, step, false, max, plans, r) && step < max
    requires e.checkpoints.Keys == Recovery.WindowBefore(step)
    ensures plans != [] && e'.checkpoints.Keys == Recovery.WindowBefore(step + 1)
    ensures if ok then Runs(c, e', step + 1, !AnyActive(e'), max, plans[1..], r) else |plans| == 1 && r.eng == e'
  {
    e', ok := Round(c, e, step, false, max, plans, r);
    StepWindow(c, e, step, plans[0]);
    var _, _ := FirstStep(c, e, step, false, max, plans);
  }

  lemma {:induction false} RunWindow(
    c: Config, e: Engine, step: nat, halted: bool, max: nat, plans: seq<Plan>, r: RunResult, end: nat)
    requires Runnable(c) && Runs(c, e, step, halted, max, plans, r) && step <= max && end == step + |plans|
    requires e.checkpoints.Keys == Recovery.WindowBefore(step)
    ensures r.eng.checkpoints.Keys == Recovery.WindowBefore(end)
    decreases |plans|, 1
  {
    if halted || step == max {
      RunOver(c, e, step, halted, max, plans, r);
    } else {
      var e', ok := RoundWindow(c, e, step, max, plans, r);
      if ok {
        RestWindow(c, e', step + 1, max, plans[1..], r, end);
      }
    }
  }

  lemma {:induction false} RestWindow(
    c: Config, e: Engine, step: nat, max: nat, rest: seq<Plan>, r: RunResult, end: nat)
    requires Runnable(c) && Runs(c, e, step, !AnyActive(e), max, rest, r) && step <= max && end == step + |rest|
    requires e.checkpoints.Keys == Recovery.WindowBefore(step)
    ensures r.eng.checkpoints.Keys == Recovery.WindowBefore(end)
    decreases |rest|, 2
  {
    RunWindow(c, e, step, !AnyActive(e), max, rest, r, end);
  }

  lemma RunOver(c: Config, e: Engine, step: nat, halted: bool, max: nat, plans: seq<Plan>, r: RunResult)
    requires Runnable(c) && Runs(c, e, step, halted, max, plans, r) && (halted || step == max)
    ensures plans == [] && r.eng == e
  {
  }

  lemma PrefixParts(plans: seq<Plan>, n: nat)
    requires 1 <= n <= |plans|
    ensures plans[..n] != [] && plans[..n][0] == plans[0] && plans[..n][1..] == plans[1..][..n - 1]
    ensures |plans| == 1 ==> plans[..n] == [plans[0]]
  {
  }

  lemma NoSteps(c: Config, e: Engine, step: nat, halted: bool)
    requires Runnable(c)
    ensures RunOk(c, e, step, halted, step, [])
  {
  }

  /** The first `n` supersteps of a run are a run with MaxSupersteps `n`. */
  lemma {:induction false} RunPrefix(
    c: Config, e: Engine, step: nat, halted: bool, max: nat, plans: seq<Plan>, n: nat, first: seq<Plan>, end: nat)
    requires Runnable(c) && RunOk(c, e, step, halted, max, plans)
    requires n <= |plans| && first == plans[..n] && end == step + n
    ensures RunOk(c, e, step, halted, end, first)
    decreases n, 1
  {
    if n == 0 {
      NoSteps(c, e, step, halted);
    } else {
      var e', ok := FirstStep(c, e, step, halted, max, plans);
      PrefixParts(plans, n);
      if ok {
        RestPrefix(c, e', step + 1, max, plans[1..], n - 1, first[1..], end);
        OneMoreStep(c, e, step, end, e', first);
      } else {
        LastStep(c, e, step, end, plans[0]);
      }
    }
  }

  lemma {:induction false} RestPrefix(
    c: Config, e: Engine, step: nat, max: nat, rest: seq<Plan>, n: nat, first: seq<Plan>, end: nat)
    requires Runnable(c) && RunOk(c, e, step, !AnyActive(e), max, rest)
    requires n <= |rest| && first == rest[..n] && end == step + n
    ensures RunOk(c, e, step, !AnyActive(e), end, first)
    decreases n, 2
  {
    RunPrefix(c, e, step, !AnyActive(e), max, rest, n, first, end);
  }

  /**
   After each of its supersteps a run that began without checkpoints, whatever became of the superstep,
   holds exactly the checkpoints of the last eleven.
   */
  lemma CheckpointsOfRun(c: Config, e: Engine, max: nat, plans: seq<Plan>, n: nat)
    requires Runnable(c) && RunOk(c, e, 0, false, max, plans) && e.checkpoints == map[] && n <= |plans|
    ensures RunOk(c, e, 0, false, n, plans[..n])
    ensures forall k: nat ::
              k in RunExec(c, e, 0, false, n, plans[..n]).eng.checkpoints <==> k < n <= k + 11
  {
    RunPrefix(c, e, 0, false, max, plans, n, plans[..n], n);
    WindowOfRun(c, e, n, plans[..n]);
    Recovery.WindowBeforeMeans(n);
  }

  lemma WindowOfRun(c: Config, e: Engine, max: nat, plans: seq<Plan>)
    requires Runnable(c) && RunOk(c, e, 0, false, max, plans) && e.checkpoints == map[]
    ensures RunExec(c, e, 0, false, max, plans).eng.checkpoints.Keys == Recovery.WindowBefore(|plans|)
  {
    RunWindow(c, e, 0, false, max, plans, RunExec(c, e, 0, false, max, plans), |plans|);
  }

  // ---------------------------------------------------------------- every run can be completed

  lemma {:induction false} Enumeration(s: set<VertexId>) returns (order: seq<VertexId>)
    ensures Distinct(order) && forall v :: v in order <==> v in s
  {
    if s == {} {
      order := [];
    } else {
      var v :| v in s;
      var rest := Enumeration(s - {v});
      order := [v] + rest;
    }
  }

  lemma {:induction false} Allocation(e: Engine, keys: set<VertexId>) returns (refs: map<VertexId, Ref>, next: Ref)
    requires e.next >= 1
    ensures FreshRefs(keys, e, refs, next)
  {
    if keys == {} {
      refs, next := map[], e.next;
    } else {
      var v :| v in keys;
      refs, next := Allocation(e, keys - {v});
      refs, next := refs[v := next], next + 1;
    }
  }

  /** The checkpoint is saved and some interleaving completes the superstep. */
  lemma ScriptExists(c: Config, e: Engine, step: nat, saved: map<VertexId, Ref>, savedNext: Ref, order: seq<VertexId>)
    returns (p: Plan)
    requires Runnable(c) && FreshRefs(e.states.Keys, e, saved, savedNext) && Distinct(order)
    ensures p.saved == saved && p.savedNext == savedNext && p.order == order && !p.aborted
    ensures Admits(c, Begin(c, e, step, p), p.script) && Finished(c, AtEnd(c, e, step, p))
  {
    p := Plan(saved, savedNext, order, 0, [], false, map[], 0);
    StartInv(c, Saved(e, step, saved, savedNext), order, step, 0);
    var script := Completable(c, Begin(c, e, step, p));
    p := p.(script := script);
  }

  /** Wherever it has stopped, the engine can load a checkpoint. */
  lemma LoadExists(e: Engine, step: nat) returns (refs: map<VertexId, Ref>, next: Ref)
    requires WellFormed(e)
    ensures CanLoad(e, step, refs, next)
  {
    refs, next := Allocation(e, if step in e.checkpoints then e.checkpoints[step].Keys else {});
  }

  lemma EndWellFormed(c: Config, e: Engine, step: nat, p: Plan)
    requires Runnable(c) && WellFormed(e) && FreshRefs(e.states.Keys, e, p.saved, p.savedNext)
    requires Admits(c, Begin(c, e, step, p), p.script)
    ensures WellFormed(AtEnd(c, e, step, p).eng)
  {
    SavedWellFormed(e, step, p.saved, p.savedNext);
    StartBounded(c, Saved(e, step, p.saved, p.savedNext), p.order, step, p.counter);
    RunBounded(c, Begin(c, e, step, p), p.script);
  }

  lemma StartedExists(c: Config, e: Engine, step: nat, order: seq<VertexId>) returns (p: Plan)
    requires Runnable(c) && WellFormed(e) && Distinct(order)
    ensures p.order == order && !p.aborted && Started(c, e, step, p) && Finished(c, AtEnd(c, e, step, p))
  {
    var saved, savedNext := Allocation(e, e.states.Keys);
    var q := ScriptExists(c, e, step, saved, savedNext, order);
    EndWellFormed(c, e, step, q);
    var refs, next := LoadExists(AtEnd(c, e, step, q).eng, step);
    p := q.(refs := refs, next := next);
  }

  lemma PlanExists(c: Config, e: Engine, step: nat) returns (p: Plan)
    requires Runnable(c) && WellFormed(e)
    ensures PlanOk(c, e, step, p) && !p.aborted
  {
    var order := Enumeration(set v | v in e.active && e.active[v]);
    p := StartedExists(c, e, step, order);
  }

  lemma OneMoreStep(c: Config, e: Engine, step: nat, max: nat, e': Engine, plans: seq<Plan>)
    requires Runnable(c) && step < max && plans != [] && PlanOk(c, e, step, plans[0]) && Succeeds(c, e, step, plans[0])
    requires e' == StepEngine(c, e, step, plans[0]) && RunOk(c, e', step + 1, !AnyActive(e'), max, plans[1..])
    ensures RunOk(c, e, step, false, max, plans)
  {
  }

  lemma LastStep(c: Config, e: Engine, step: nat, max: nat, p: Plan)
    requires Runnable(c) && step < max && PlanOk(c, e, step, p) && !Succeeds(c, e, step, p)
    ensures RunOk(c, e, step, false, max, [p])
  {
    assert [p][1..] == [];
  }

  lemma SomeRound(c: Config, e: Engine, step: nat) returns (p: Plan, e': Engine)
    requires Runnable(c) && WellFormed(e)
    ensures PlanOk(c, e, step, p) && !p.aborted && e' == StepEngine(c, e, step, p)
    ensures Succeeds(c, e, step, p) ==> WellFormed(e')
  {
    p := PlanExists(c, e, step);
    e' := StepEngine(c, e, step, p);
    EndWellFormed(c, e, step, p);
  }

  /** Whatever the engine and the vertex programs, some interleavings take the run to its end, without cancellation. */
  lemma {:induction false} RunCompletes(c: Config, e: Engine, step: nat, halted: bool, max: nat)
    returns (plans: seq<Plan>)
    requires Runnable(c) && WellFormed(e)
    ensures RunOk(c, e, step, halted, max, plans) && Uncancelled(plans)
    decreases if step < max then max - step else 0, 1
  {
    if halted || step >= max {
      plans := [];
    } else {
      plans := TakeStep(c, e, step, max);
    }
  }

  lemma Prepend(p: Plan, rest: seq<Plan>) returns (plans: seq<Plan>)
    requires !p.aborted && Uncancelled(rest)
    ensures plans != [] && plans[0] == p && plans[1..] == rest && Uncancelled(plans)
  {
    plans := [p] + rest;
  }

  lemma TakeStep(c: Config, e: Engine, step: nat, max: nat) returns (plans: seq<Plan>)
    requires Runnable(c) && WellFormed(e) && step < max
    ensures RunOk(c, e, step, false, max, plans) && Uncancelled(plans)
    decreases max - step, 0
  {
    var p, e' := SomeRound(c, e, step);
    if Succeeds(c, e, step, p) {
      var rest := RunCompletes(c, e', step + 1, !AnyActive(e'), max);
      plans := Prepend(p, rest);
      OneMoreStep(c, e, step, max, e', plans);
    } else {
      LastStep(c, e, step, max, p);
      plans := [p];
    }
  }
}
