/**
 One superstep of the Pregel engine as a concurrent protocol: a coordinator that schedules every
 active vertex and then collects results (internal/core/pregel/engine.go), and a pool of workers
 that pop from their own queue or steal from another one (internal/core/pregel/scheduler.go).

 A state is a `Sys`, an atomic step is an `Action`, and an interleaving is a script of enabled
 actions. Two coordinators share the machine: the standard engine, which retries failed vertices
 and queues messages, and the cache-optimized one, which applies results in batches of 32.
 */
module Superstep {
  import opened Wrappers
  import opened PregelModel
  import Messages

  const BATCH_SIZE: nat := 32

  datatype Mode = Standard | Cached

  datatype Config = Config(
    compute: Program, mode: Mode, combiner: Messages.Combiner,
    maxRetries: int, backoffMs: int, workers: nat, queueCap: nat)

  /** The scheduler never runs without a worker or without queue capacity. */
  ghost predicate Runnable(c: Config) {
    c.workers >= 1 && c.queueCap >= 1
  }

  datatype Task = Task(vid: VertexId, ref: Ref, msgs: seq<Message>)

  datatype TaskResult = TaskResult(vid: VertexId, ref: Ref, msgs: seq<Message>, halt: bool, error: Option<string>)

  datatype VertexError = RetryableError(vid: VertexId, original: string, attempt: nat) | PlainError(original: string)

  /** The fields of the engine that outlive a superstep, with the store of state maps. */
  datatype Engine = Engine(
    cells: map<Ref, Fields>,
    next: Ref,
    states: map<VertexId, Ref>,
    active: map<VertexId, bool>,
    attempts: map<VertexId, nat>,
    inbox: map<VertexId, seq<Message>>,
    checkpoints: map<nat, map<VertexId, Ref>>)
  {
    function RefOf(v: VertexId): Ref { Lookup(states, v, 0) }

    function StateOf(v: VertexId): StateMap { Read(cells, RefOf(v)) }

    function IsActive(v: VertexId): bool { Lookup(active, v, false) }

    function AttemptsOf(v: VertexId): nat { Lookup(attempts, v, 0) }

    function MessagesFor(c: Config, v: VertexId): seq<Message> {
      Messages.Delivered(c.combiner, Lookup(inbox, v, []))
    }
  }

  /** Every allocated map lies below the allocation pointer, and 0 is the nil map. */
  ghost predicate WellFormed(e: Engine) {
    && e.next >= 1
    && (forall r :: r in e.cells ==> 1 <= r < e.next)
    && (forall v :: v in e.states ==> e.states[v] < e.next)
  }

  /** No two vertices share one live state map. */
  ghost predicate Separated(e: Engine) {
    forall u, v :: u in e.states && v in e.states && u != v && e.states[u] in e.cells ==> e.states[u] != e.states[v]
  }

  datatype Worker = Idle | Running(task: Task) | Sending(result: TaskResult)

  /** `Dispatching([])` is the collection loop; `Placing` is a send into a queue that may be full. */
  datatype Coordinator =
    | Dispatching(rest: seq<VertexId>)
    | Placing(task: Task, slot: nat, rest: seq<VertexId>)
    | Stopped

  /** What has happened so far; the protocol itself never reads it. */
  datatype History = History(
    before: map<VertexId, StateMap>,  // what the latest run of each vertex was given
    produced: map<VertexId, Ref>,     // the map returned by the latest run of each vertex
    applied: set<VertexId>,           // vertices whose result has been written back
    execs: map<VertexId, nat>,        // runs per vertex
    slept: map<VertexId, int>)        // back-off per vertex, in milliseconds

  datatype Sys = Sys(
    eng: Engine,
    step: nat,
    order: seq<VertexId>,          // the active vertices, in the order they are scheduled
    counter: nat,
    queues: seq<seq<Task>>,
    workers: seq<Worker>,
    results: seq<TaskResult>,
    coord: Coordinator,
    done: seq<VertexId>,           // collected results that were not retried
    errs: seq<VertexError>,
    batch: seq<TaskResult>,
    hist: History)

  datatype Action =
    | Next                         // the coordinator takes the next vertex to schedule
    | Enqueue                      // its send into the chosen queue succeeds
    | Take(w: nat, queue: nat)     // an idle worker pops (its own queue) or steals (another one)
    | Finish(w: nat)               // a vertex program returns
    | Send(w: nat)                 // a worker delivers its result
    | Collect                      // the coordinator handles one result

  predicate IsWorkerAction(a: Action) {
    a.Take? || a.Finish? || a.Send?
  }

  // ---------------------------------------------------------------- single steps

  function Start(c: Config, e: Engine, order: seq<VertexId>, step: nat, counter: nat): Sys {
    Sys(e, step, order, counter,
        seq(c.workers, i => []), seq(c.workers, i => Idle), [],
        Dispatching(order), [], [], [], History(map[], map[], {}, map[], map[]))
  }

  /** The collection loop has returned: every vertex is accounted for, or a batch has failed. */
  ghost predicate Finished(c: Config, s: Sys) {
    && s.coord == Dispatching([])
    && (|s.done| == |s.order| || (c.mode.Cached? && s.errs != []))
  }

  function Slot(c: Config, counter: nat): nat
    requires c.workers >= 1
  {
    counter % c.workers
  }

  predicate Enabled(c: Config, s: Sys, a: Action)
    requires c.workers >= 1
  {
    match a
    case Next => s.coord.Dispatching? && s.coord.rest != []
    case Enqueue => s.coord.Placing? && s.coord.slot < |s.queues| && |s.queues[s.coord.slot]| < c.queueCap
    case Take(w, q) => w < |s.workers| && s.workers[w].Idle? && q < |s.queues| && s.queues[q] != []
    case Finish(w) => w < |s.workers| && s.workers[w].Running?
    case Send(w) => w < |s.workers| && s.workers[w].Sending? && |s.results| < |s.order|
    case Collect =>
      && s.coord == Dispatching([]) && s.results != [] && |s.done| < |s.order|
      && !(c.mode.Cached? && s.errs != [])
  }

  /** A task for `v` on the engine as it is now, bound for the next queue in turn. */
  function PlaceTask(c: Config, s: Sys, v: VertexId, rest: seq<VertexId>): Sys
    requires c.workers >= 1
  {
    s.(counter := s.counter + 1,
       coord := Placing(Task(v, s.eng.RefOf(v), s.eng.MessagesFor(c, v)), Slot(c, s.counter + 1), rest))
  }

  /** The store, the allocation pointer and the returned reference after a program has run. */
  datatype Effect = Effect(cells: map<Ref, Fields>, next: Ref, ref: Ref)

  /** A program may write its argument in place, and may return it or a newly allocated map. */
  function Execute(cells: map<Ref, Fields>, next: Ref, ref: Ref, o: Outcome): Effect {
    var written := Write(cells, ref, o.written);
    match o.returned
    case Argument => Effect(written, next, ref)
    case NewMap(fields) => Effect(written[next := fields], next + 1, next)
  }

  /** `executeTask`, up to the send of its result. */
  function RunTask(c: Config, s: Sys, w: nat): Sys
    requires w < |s.workers| && s.workers[w].Running?
  {
    var t := s.workers[w].task;
    var o := c.compute(t.vid, Read(s.eng.cells, t.ref), t.msgs);
    var e := Execute(s.eng.cells, s.eng.next, t.ref, o);
    s.(eng := s.eng.(cells := e.cells, next := e.next),
       workers := s.workers[w := Sending(TaskResult(t.vid, e.ref, o.messages, o.halt, o.error))],
       hist := s.hist.(
         before := s.hist.before[t.vid := Read(s.eng.cells, t.ref)],
         produced := s.hist.produced[t.vid := e.ref],
         execs := s.hist.execs[t.vid := Lookup(s.hist.execs, t.vid, 0) + 1]))
  }

  /**
   What one call of a program does to the store and hands back. Its argument map holds what it wrote,
   and no other map that was there changes; the result refers to the argument or to a new map, which
   holds what was returned. An address that is not allocated stays so.
   */
  lemma RunTaskMeans(c: Config, s: Sys, w: nat)
    requires w < |s.workers| && s.workers[w].Running? && WellFormed(s.eng) && s.workers[w].task.ref < s.eng.next
    ensures var t, s' := s.workers[w].task, RunTask(c, s, w);
            var given := if t.ref in s.eng.cells then Live(s.eng.cells[t.ref]) else NilMap;
            var o := c.compute(t.vid, given, t.msgs);
            && s'.workers[w].Sending? && s'.workers[w].result.vid == t.vid
            && s'.workers[w].result.msgs == o.messages && s'.workers[w].result.halt == o.halt
            && s'.workers[w].result.error == o.error
            && (t.ref in s.eng.cells ==> t.ref in s'.eng.cells && s'.eng.cells[t.ref] == o.written)
            && (t.ref !in s.eng.cells ==> t.ref !in s'.eng.cells)
            && (forall r :: r < s.eng.next && r != t.ref ==>
                  (r in s'.eng.cells <==> r in s.eng.cells) && (r in s.eng.cells ==> s'.eng.cells[r] == s.eng.cells[r]))
            && (o.returned.Argument? ==> s'.workers[w].result.ref == t.ref && s'.eng.next == s.eng.next)
            && (o.returned.NewMap? ==>
                  var ref := s'.workers[w].result.ref;
                  ref !in s.eng.cells && ref in s'.eng.cells && s'.eng.cells[ref] == o.returned.fields
                  && ref < s'.eng.next)
            && s'.eng == s.eng.(cells := s'.eng.cells, next := s'.eng.next)
            && s' == s.(eng := s'.eng, workers := s.workers[w := s'.workers[w]], hist := s'.hist)
  {
  }

  function Stamp(m: Message, step: nat): Message {
    m.(step := step + 1)
  }

  function QueueAll(inbox: map<VertexId, seq<Message>>, msgs: seq<Message>, step: nat): map<VertexId, seq<Message>>
    decreases |msgs|
  {
    if msgs == [] then inbox
    else QueueAll(Messages.Queue(inbox, Stamp(msgs[0], step)), msgs[1..], step)
  }

  /** The success path of `handleVertexResult`. */
  function ApplyResult(e: Engine, r: TaskResult, step: nat): Engine {
    e.(states := e.states[r.vid := r.ref],
       active := e.active[r.vid := !r.halt],
       attempts := e.attempts[r.vid := 0],
       inbox := QueueAll(e.inbox, r.msgs, step))
  }

  function Pow2(n: nat): nat {
    if n == 0 then 1 else 2 * Pow2(n - 1)
  }

  function Backoff(c: Config, attempt: nat): int {
    if c.backoffMs > 0 then c.backoffMs * Pow2(attempt) else 0
  }

  /** `HandleError` asks for another attempt; the cache-optimized engine never does. */
  predicate Retries(c: Config, e: Engine, r: TaskResult) {
    c.mode.Standard? && r.error.Some? && e.AttemptsOf(r.vid) < c.maxRetries
  }

  /** The retries that `v` has left. */
  function Remaining(c: Config, e: Engine, v: VertexId): nat {
    if c.mode.Standard? && e.AttemptsOf(v) < c.maxRetries then c.maxRetries - e.AttemptsOf(v) else 0
  }

  /** What the collection loop of the standard engine works on. */
  datatype Ledger = Ledger(eng: Engine, done: seq<VertexId>, errs: seq<VertexError>)

  /** What `handleVertexResult` records: a result, a failure for good, or one more attempt. */
  function Handle(c: Config, l: Ledger, r: TaskResult, step: nat): Ledger {
    var n := l.eng.AttemptsOf(r.vid);
    if r.error.None? then l.(eng := ApplyResult(l.eng, r, step), done := l.done + [r.vid])
    else if n >= c.maxRetries then
      l.(done := l.done + [r.vid], errs := l.errs + [RetryableError(r.vid, r.error.value, n)])
    else l.(eng := l.eng.(attempts := l.eng.attempts[r.vid := n + 1]))
  }

  /** `handleVertexResult` of the standard engine; a retry goes back to the scheduler after its back-off. */
  function HandleResult(c: Config, s: Sys, r: TaskResult): Sys
    requires c.workers >= 1
  {
    var n := s.eng.AttemptsOf(r.vid);
    var l := Handle(c, Ledger(s.eng, s.done, s.errs), r, s.step);
    var s1 := s.(eng := l.eng, done := l.done, errs := l.errs);
    if r.error.None? then s1.(hist := s.hist.(applied := s.hist.applied + {r.vid}))
    else if n >= c.maxRetries then s1
    else
      var slept := s.hist.slept[r.vid := Lookup(s.hist.slept, r.vid, 0) + Backoff(c, n)];
      PlaceTask(c, s1.(hist := s.hist.(slept := slept)), r.vid, [])
  }

  /** What a batch does to the engine when none of its results is an error. */
  function ApplyBatch(e: Engine, batch: seq<TaskResult>): Engine
    decreases |batch|
  {
    if batch == [] then e
    else
      var n := |batch| - 1;
      var prior := ApplyBatch(e, batch[..n]);
      prior.(states := prior.states[batch[n].vid := batch[n].ref],
             active := prior.active[batch[n].vid := !batch[n].halt])
  }

  function BatchErrors(batch: seq<TaskResult>): seq<VertexError> {
    if batch == [] then []
    else
      var n := |batch| - 1;
      BatchErrors(batch[..n]) + (if batch[n].error.Some? then [PlainError(batch[n].error.value)] else [])
  }

  function BatchVertices(batch: seq<TaskResult>): set<VertexId> {
    set r | r in batch :: r.vid
  }

  /** What the collection loop of the cache-optimized engine works on. */
  datatype Gathering = Gathering(eng: Engine, done: seq<VertexId>, errs: seq<VertexError>, batch: seq<TaskResult>)

  /** One round of `collectResultsOptimized`: a full or final batch is applied, or fails the superstep. */
  function Gather(g: Gathering, r: TaskResult, expected: nat): Gathering {
    var batch := g.batch + [r];
    var g1 := g.(done := g.done + [r.vid], batch := batch);
    if |batch| < BATCH_SIZE && |g1.done| != expected then g1
    else if BatchErrors(batch) != [] then g1.(errs := BatchErrors(batch))
    else g1.(eng := ApplyBatch(g.eng, batch), batch := [])
  }

  /** With fewer than 32 results, and vertices still to come, a result only waits; otherwise the batch is settled. */
  lemma GatherMeans(g: Gathering, r: TaskResult, expected: nat)
    ensures var g' := Gather(g, r, expected);
            && g'.done == g.done + [r.vid]
            && (|g.batch| + 1 < 32 && |g.done| + 1 != expected ==>
                  g'.eng == g.eng && g'.errs == g.errs && g'.batch == g.batch + [r])
            && (|g.batch| + 1 >= 32 || |g.done| + 1 == expected ==>
                  if BatchErrors(g.batch + [r]) == [] then g'.batch == [] && g'.errs == g.errs
                  else g'.eng == g.eng && g'.errs == BatchErrors(g.batch + [r]) && g'.batch == g.batch + [r])
  {
  }

  function CollectBatched(s: Sys, r: TaskResult): Sys {
    var g := Gather(Gathering(s.eng, s.done, s.errs, s.batch), r, |s.order|);
    s.(eng := g.eng, done := g.done, errs := g.errs, batch := g.batch,
       hist := if g.batch != [] then s.hist else s.hist.(applied := s.hist.applied + BatchVertices(s.batch + [r])))
  }

  function Apply(c: Config, s: Sys, a: Action): Sys
    requires c.workers >= 1 && Enabled(c, s, a)
  {
    match a
    case Next => PlaceTask(c, s, s.coord.rest[0], s.coord.rest[1..])
    case Enqueue =>
      s.(queues := s.queues[s.coord.slot := s.queues[s.coord.slot] + [s.coord.task]],
         coord := Dispatching(s.coord.rest))
    case Take(w, q) =>
      s.(queues := s.queues[q := s.queues[q][1..]], workers := s.workers[w := Running(s.queues[q][0])])
    case Finish(w) => RunTask(c, s, w)
    case Send(w) =>
      s.(results := s.results + [s.workers[w].result], workers := s.workers[w := Idle])
    case Collect =>
      var s1 := s.(results := s.results[1..]);
      if c.mode.Standard? then HandleResult(c, s1, s.results[0]) else CollectBatched(s1, s.results[0])
  }

  // ---------------------------------------------------------------- interleavings

  ghost predicate Admits(c: Config, s: Sys, script: seq<Action>)
    requires c.workers >= 1
    decreases |script|
  {
    script == [] || (Enabled(c, s, script[0]) && Admits(c, Apply(c, s, script[0]), script[1..]))
  }

  ghost function Exec(c: Config, s: Sys, script: seq<Action>): Sys
    requires c.workers >= 1 && Admits(c, s, script)
    decreases |script|
  {
    if script == [] then s else Exec(c, Apply(c, s, script[0]), script[1..])
  }

  /** The results that an interleaving hands to the coordinator, in order of arrival. */
  ghost function Arrivals(c: Config, s: Sys, script: seq<Action>): seq<TaskResult>
    requires c.workers >= 1 && Admits(c, s, script)
    decreases |script|
  {
    if script == [] then []
    else (if script[0].Collect? then [s.results[0]] else []) + Arrivals(c, Apply(c, s, script[0]), script[1..])
  }
}
