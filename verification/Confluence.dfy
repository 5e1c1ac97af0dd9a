/**
 Confluence of a superstep: when nobody writes to a retried vertex that heeds its mail, every order of
 stealing, execution and result arrival ends in the same vertex states, the same active set and the
 same queued messages, namely those of trying each active vertex, as often as retries allow, on the
 inbox it had at the start and on the map its own failed attempts left.
 */
module Confluence {
  import opened Wrappers
  import opened Sequences
  import opened PregelModel
  import Messages
  import opened Superstep
  import opened Conservation
  import opened RetryBounds

  /** The attempt that counts for `v` in a superstep starting in `e0`, on the inbox of the start. */
  ghost function Final(c: Config, e0: Engine, v: VertexId): Attempt {
    LastAttempt(c.compute, v, e0.StateOf(v), e0.MessagesFor(c, v), Remaining(c, e0, v))
  }

  ghost function Expected(c: Config, e0: Engine, v: VertexId): Outcome {
    Final(c, e0, v).outcome
  }

  ghost function ExpectedState(c: Config, e0: Engine, v: VertexId): StateMap {
    FinalState(Final(c, e0, v).state, Expected(c, e0, v))
  }

  /** All attempts of `v` fail. */
  ghost predicate Fails(c: Config, e0: Engine, v: VertexId) {
    Expected(c, e0, v).error.Some?
  }

  /** The first attempt of `v` fails, and another one is allowed. */
  ghost predicate IsRetried(c: Config, e0: Engine, v: VertexId) {
    c.compute(v, e0.StateOf(v), e0.MessagesFor(c, v)).error.Some? && Remaining(c, e0, v) > 0
  }

  /** The result that is applied for `u` holds a message to `v`. */
  ghost predicate Mails(c: Config, e0: Engine, u: VertexId, v: VertexId) {
    !Fails(c, e0, u) && exists m :: m in Expected(c, e0, u).messages && m.target == v
  }

  /** From `state` on, no attempt of `v` tells the inbox that `queue` makes from one with more mail. */
  ghost predicate Ignores(c: Config, v: VertexId, queue: seq<Message>, state: StateMap, retries: nat)
    decreases retries
  {
    var o := c.compute(v, state, Messages.Delivered(c.combiner, queue));
    && (forall more :: queue <= more ==> c.compute(v, state, Messages.Delivered(c.combiner, more)) == o)
    && (o.error.Some? && retries > 0 ==> Ignores(c, v, queue, LeftBehind(state, o), retries - 1))
  }

  /** `v` is retried, and mail that arrives in the meantime can change what an attempt after the first does. */
  ghost predicate Heeds(c: Config, e0: Engine, v: VertexId) {
    var o := c.compute(v, e0.StateOf(v), e0.MessagesFor(c, v));
    && IsRetried(c, e0, v)
    && !Ignores(c, v, Lookup(e0.inbox, v, []), LeftBehind(e0.StateOf(v), o), Remaining(c, e0, v) - 1)
  }

  /** Nobody writes to a retried vertex that heeds its mail. */
  ghost predicate Undisturbed(c: Config, e0: Engine, order: seq<VertexId>) {
    forall u, v :: u in order && v in order && u != v && Heeds(c, e0, v) ==> !Mails(c, e0, u, v)
  }

  /** A program that makes nothing of its messages never heeds them. */
  lemma {:induction false} BlindIgnores(c: Config, v: VertexId, queue: seq<Message>, state: StateMap, retries: nat)
    requires forall s, msgs, more :: c.compute(v, s, msgs) == c.compute(v, s, more)
    ensures Ignores(c, v, queue, state, retries)
    decreases retries
  {
    if retries > 0 {
      var o := c.compute(v, state, Messages.Delivered(c.combiner, queue));
      BlindIgnores(c, v, queue, LeftBehind(state, o), retries - 1);
    }
  }

  /** Whatever mail goes around, retried vertices whose programs make nothing of it are not disturbed. */
  lemma BlindUndisturbed(c: Config, e0: Engine, order: seq<VertexId>)
    requires forall v, s, msgs, more :: v in order && IsRetried(c, e0, v) ==>
               c.compute(v, s, msgs) == c.compute(v, s, more)
    ensures Undisturbed(c, e0, order)
  {
    forall v | v in order && IsRetried(c, e0, v)
      ensures !Heeds(c, e0, v)
    {
      var o := c.compute(v, e0.StateOf(v), e0.MessagesFor(c, v));
      BlindIgnores(c, v, Lookup(e0.inbox, v, []), LeftBehind(e0.StateOf(v), o), Remaining(c, e0, v) - 1);
    }
  }

  // ---------------------------------------------------------------- messages

  /** The messages of one result that go to `t`, stamped for the next superstep. */
  function SentBy(msgs: seq<Message>, step: nat, t: VertexId): seq<Message> {
    if msgs == [] then []
    else (if msgs[0].target == t then [Stamp(msgs[0], step)] else []) + SentBy(msgs[1..], step, t)
  }

  lemma {:induction false} QueueAllAppends(
    inbox: map<VertexId, seq<Message>>, msgs: seq<Message>, step: nat, t: VertexId)
    ensures Lookup(QueueAll(inbox, msgs, step), t, []) == Lookup(inbox, t, []) + SentBy(msgs, step, t)
    decreases |msgs|
  {
    if msgs != [] {
      QueueAllAppends(Messages.Queue(inbox, Stamp(msgs[0], step)), msgs[1..], step, t);
    }
  }

  /** The positions of the messages to `t`. */
  ghost predicate Addressed(msgs: seq<Message>, t: VertexId, at: seq<nat>) {
    && (forall i, j :: 0 <= i < j < |at| ==> at[i] < at[j])
    && (forall k: nat :: k in at <==> k < |msgs| && msgs[k].target == t)
  }

  function Shifted(at: seq<nat>): seq<nat> {
    seq(|at|, i requires 0 <= i < |at| => at[i] + 1)
  }

  lemma AddressedNext(msgs: seq<Message>, t: VertexId, rest: seq<nat>) returns (at: seq<nat>)
    requires msgs != [] && Addressed(msgs[1..], t, rest)
    ensures Addressed(msgs, t, at) && at == (if msgs[0].target == t then [0] else []) + Shifted(rest)
  {
    var shifted := Shifted(rest);
    at := (if msgs[0].target == t then [0] else []) + shifted;
    forall k: nat
      ensures k in at <==> k < |msgs| && msgs[k].target == t
    {
      assert k in at <==> (k == 0 && msgs[0].target == t) || k in shifted;
      if k > 0 && k - 1 in rest {
        var i :| 0 <= i < |rest| && rest[i] == k - 1;
        assert k == shifted[i];
      }
    }
  }

  /** `sent` holds the messages at the positions `at`, each for the step after this one and otherwise as it was. */
  ghost predicate Stamped(msgs: seq<Message>, step: nat, sent: seq<Message>, at: seq<nat>) {
    && |at| == |sent|
    && forall i :: 0 <= i < |at| ==>
         at[i] < |msgs| && var m := msgs[at[i]]; sent[i] == Message(m.sender, m.target, m.value, step + 1)
  }

  lemma StampedNext(msgs: seq<Message>, step: nat, sent: seq<Message>, rest: seq<nat>)
    requires msgs != [] && Stamped(msgs[1..], step, sent, rest)
    ensures Stamped(msgs, step, sent, Shifted(rest))
    ensures Stamped(msgs, step, [Stamp(msgs[0], step)] + sent, [0] + Shifted(rest))
  {
  }

  /** Exactly the messages to `t`, in order. */
  lemma {:induction false} SentByMeans(msgs: seq<Message>, step: nat, t: VertexId) returns (at: seq<nat>)
    ensures Addressed(msgs, t, at) && Stamped(msgs, step, SentBy(msgs, step, t), at)
  {
    if msgs == [] {
      at := [];
    } else {
      var rest := SentByMeans(msgs[1..], step, t);
      at := AddressedNext(msgs, t, rest);
      StampedNext(msgs, step, SentBy(msgs[1..], step, t), rest);
      if msgs[0].target != t {
        assert at == Shifted(rest);
      }
    }
  }

  /** What one vertex adds to the queue of `t`: nothing when it fails. */
  ghost function Contribution(c: Config, e0: Engine, step: nat, v: VertexId, t: VertexId): multiset<Message> {
    if Fails(c, e0, v) then multiset{} else multiset(SentBy(Expected(c, e0, v).messages, step, t))
  }

  ghost function Contributions(c: Config, e0: Engine, step: nat, t: VertexId): VertexId -> multiset<Message> {
    v => Contribution(c, e0, step, v, t)
  }

  ghost function Sum(f: VertexId -> multiset<Message>, vs: seq<VertexId>): multiset<Message> {
    if vs == [] then multiset{} else Sum(f, vs[..|vs| - 1]) + f(vs[|vs| - 1])
  }

  /** What the vertices `vs` add to the queue of `t`. */
  ghost function SentTo(c: Config, e0: Engine, step: nat, vs: seq<VertexId>, t: VertexId): multiset<Message> {
    Sum(Contributions(c, e0, step, t), vs)
  }

  lemma {:induction false} SumSplit(f: VertexId -> multiset<Message>, a: seq<VertexId>, b: seq<VertexId>)
    ensures Sum(f, a + b) == Sum(f, a) + Sum(f, b)
  {
    if b == [] {
      assert a + b == a;
    } else {
      var n := |b| - 1;
      assert (a + b)[..|a + b| - 1] == a + b[..n];
      SumSplit(f, a, b[..n]);
    }
  }

  lemma Cancel(a: multiset<VertexId>, b: multiset<VertexId>, y: VertexId)
    requires a + multiset{y} == b + multiset{y}
    ensures a == b
  {
    forall z
      ensures a[z] == b[z]
    {
      assert (a + multiset{y})[z] == a[z] + multiset{y}[z];
      assert (b + multiset{y})[z] == b[z] + multiset{y}[z];
    }
  }

  lemma SumOne(f: VertexId -> multiset<Message>, v: VertexId)
    ensures Sum(f, [v]) == f(v)
  {
    assert [v][..0] == [];
  }

  lemma InTheMiddle(xs: seq<VertexId>, i: nat)
    requires i < |xs|
    ensures xs == (xs[..i] + [xs[i]]) + xs[i + 1..]
  {
  }

  /** One vertex can be taken out of a sequence wherever it stands. */
  lemma SumWithout(f: VertexId -> multiset<Message>, xs: seq<VertexId>, i: nat)
    requires i < |xs|
    ensures Sum(f, xs) == Sum(f, xs[..i] + xs[i + 1..]) + f(xs[i])
  {
    var a, y, b := xs[..i], [xs[i]], xs[i + 1..];
    InTheMiddle(xs, i);
    SumSplit(f, a + y, b);
    SumSplit(f, a, y);
    SumSplit(f, a, b);
    SumOne(f, xs[i]);
  }

  lemma Without(xs: seq<VertexId>, ys: seq<VertexId>) returns (i: nat)
    requires ys != [] && multiset(xs) == multiset(ys)
    ensures var n := |ys| - 1;
            i < |xs| && xs[i] == ys[n] && multiset(xs[..i] + xs[i + 1..]) == multiset(ys[..n])
  {
    var n := |ys| - 1;
    assert ys[n] in multiset(xs);
    i :| 0 <= i < |xs| && xs[i] == ys[n];
    assert xs == xs[..i] + ([xs[i]] + xs[i + 1..]);
    assert ys == ys[..n] + [ys[n]];
    Cancel(multiset(xs[..i] + xs[i + 1..]), multiset(ys[..n]), ys[n]);
  }

  lemma {:induction false} SumPermutation(f: VertexId -> multiset<Message>, xs: seq<VertexId>, ys: seq<VertexId>)
    requires multiset(xs) == multiset(ys)
    ensures Sum(f, xs) == Sum(f, ys)
    decreases |ys|
  {
    if ys == [] {
      assert |multiset(xs)| == |xs|;
    } else {
      var i := Without(xs, ys);
      SumPermutation(f, xs[..i] + xs[i + 1..], ys[..|ys| - 1]);
      SumWithout(f, xs, i);
    }
  }

  /** The messages queued for a target do not depend on the order of arrival. */
  lemma SentToPermutation(c: Config, e0: Engine, step: nat, xs: seq<VertexId>, ys: seq<VertexId>, t: VertexId)
    requires multiset(xs) == multiset(ys)
    ensures SentTo(c, e0, step, xs, t) == SentTo(c, e0, step, ys, t)
  {
    SumPermutation(Contributions(c, e0, step, t), xs, ys);
  }

  // ---------------------------------------------------------------- the invariant

  /** What `v` is handed when mail may have joined its queue since the start. */
  ghost predicate HasMoreMail(c: Config, e0: Engine, v: VertexId, msgs: seq<Message>) {
    exists more :: Lookup(e0.inbox, v, []) <= more && msgs == Messages.Delivered(c.combiner, more)
  }

  ghost predicate TaskOk(c: Config, e0: Engine, h: History, t: Task) {
    && t.ref == e0.RefOf(t.vid)
    && (|| t.msgs == e0.MessagesFor(c, t.vid)
        || (t.vid in h.produced && !Heeds(c, e0, t.vid) && HasMoreMail(c, e0, t.vid, t.msgs)))
  }

  /** What the latest attempt of `v` did. */
  ghost function RunOf(c: Config, e0: Engine, h: History, v: VertexId): Outcome {
    c.compute(v, Lookup(h.before, v, NilMap), e0.MessagesFor(c, v))
  }

  ghost predicate ResultOk(c: Config, e0: Engine, h: History, r: TaskResult) {
    && r.vid in h.produced && r.ref == h.produced[r.vid]
    && r.msgs == RunOf(c, e0, h, r.vid).messages
    && r.halt == RunOf(c, e0, h, r.vid).halt
    && r.error == RunOf(c, e0, h, r.vid).error
  }

  /** Tasks carry the references of the start of the superstep, and its messages or others that make no difference. */
  ghost predicate TasksOk(c: Config, e0: Engine, s: Sys) {
    && (s.coord.Placing? ==> TaskOk(c, e0, s.hist, s.coord.task))
    && (forall i, j :: 0 <= i < |s.queues| && 0 <= j < |s.queues[i]| ==> TaskOk(c, e0, s.hist, s.queues[i][j]))
    && (forall w :: 0 <= w < |s.workers| && s.workers[w].Running? ==> TaskOk(c, e0, s.hist, s.workers[w].task))
  }

  ghost predicate ResultsOk(c: Config, e0: Engine, s: Sys) {
    && (forall w :: 0 <= w < |s.workers| && s.workers[w].Sending? ==> ResultOk(c, e0, s.hist, s.workers[w].result))
    && (forall i :: 0 <= i < |s.results| ==> ResultOk(c, e0, s.hist, s.results[i]))
    && (forall i :: 0 <= i < |s.batch| ==> ResultOk(c, e0, s.hist, s.batch[i]))
  }

  /** The map of `v` is as it was, or holds what its latest attempt left there. */
  ghost predicate CellOk(c: Config, e0: Engine, cells: map<Ref, Fields>, next: Ref, h: History, v: VertexId) {
    if v in h.produced then
      && v in h.before
      && Read(cells, e0.RefOf(v)) == LeftBehind(h.before[v], RunOf(c, e0, h, v))
      && Read(cells, h.produced[v]) == FinalState(h.before[v], RunOf(c, e0, h, v))
      && (h.produced[v] == e0.RefOf(v) || e0.next <= h.produced[v] < next)
    else
      v !in h.before && Read(cells, e0.RefOf(v)) == e0.StateOf(v)
  }

  /** No map is allocated below the allocation pointer of the start but those that were there. */
  ghost predicate StoreOk(e0: Engine, cells: map<Ref, Fields>, next: Ref) {
    && e0.next <= next
    && (forall r :: r in cells ==> 1 <= r < next)
    && (forall r :: r in cells && r < e0.next ==> r in e0.cells)
  }

  /** Each state map is its owner's; maps allocated since the start have one owner. */
  ghost predicate CellsMatch(c: Config, e0: Engine, cells: map<Ref, Fields>, next: Ref, h: History) {
    && StoreOk(e0, cells, next)
    && (forall v :: CellOk(c, e0, cells, next, h, v))
    && (forall u, v :: u in h.produced && v in h.produced && u != v && e0.next <= h.produced[u] ==>
        h.produced[u] != h.produced[v])
  }

  ghost predicate CellsOk(c: Config, e0: Engine, s: Sys) {
    && WellFormed(s.eng)
    && CellsMatch(c, e0, s.eng.cells, s.eng.next, s.hist)
    && (forall v :: v in s.hist.produced ==> v in s.order)
  }

  /** An attempt after the first, on `state`: unless `v` heeds its mail, the attempts from here on ignore it. */
  ghost predicate GoesOn(c: Config, e0: Engine, v: VertexId, state: StateMap, retries: nat) {
    IsRetried(c, e0, v) && (Heeds(c, e0, v) || Ignores(c, v, Lookup(e0.inbox, v, []), state, retries))
  }

  /** Before its next attempt: going on from here ends like going on from the start. */
  ghost predicate Awaits(c: Config, e0: Engine, e: Engine, h: History, v: VertexId) {
    && LastAttempt(c.compute, v, Read(e.cells, e0.RefOf(v)), e0.MessagesFor(c, v), Remaining(c, e, v))
        == Final(c, e0, v)
    && (|| (v !in h.produced && e.AttemptsOf(v) == e0.AttemptsOf(v))
        || GoesOn(c, e0, v, Read(e.cells, e0.RefOf(v)), Remaining(c, e, v)))
  }

  /** After an attempt whose result has not been collected. */
  ghost predicate Attempted(c: Config, e0: Engine, e: Engine, h: History, v: VertexId) {
    && v in h.before
    && LastAttempt(c.compute, v, h.before[v], e0.MessagesFor(c, v), Remaining(c, e, v)) == Final(c, e0, v)
    && (|| (h.before[v] == e0.StateOf(v) && e.AttemptsOf(v) == e0.AttemptsOf(v))
        || GoesOn(c, e0, v, h.before[v], Remaining(c, e, v)))
  }

  /** The latest attempt was the one that counts. */
  ghost predicate Settled(c: Config, e0: Engine, h: History, v: VertexId) {
    v in h.before && Attempt(h.before[v], RunOf(c, e0, h, v)) == Final(c, e0, v)
  }

  ghost predicate ProgressOk(c: Config, e0: Engine, s: Sys) {
    forall v ::
      && (Waiting(s, v) >= 1 ==> Awaits(c, e0, s.eng, s.hist, v))
      && (Ran(s, v) >= 1 ==> Attempted(c, e0, s.eng, s.hist, v))
      && (v in s.done ==> Settled(c, e0, s.hist, v))
  }

  /** The engine's maps differ from the start exactly at the vertices whose result was applied. */
  ghost predicate EngineMatches(c: Config, e0: Engine, e: Engine, h: History) {
    && (forall v :: v in h.applied ==>
          && v in h.produced && !Fails(c, e0, v)
          && v in e.states && e.states[v] == h.produced[v]
          && v in e.active && e.active[v] == !Expected(c, e0, v).halt)
    && (forall v :: v !in h.applied ==>
          && (v in e.states <==> v in e0.states) && e.RefOf(v) == e0.RefOf(v)
          && (v in e.active <==> v in e0.active) && e.IsActive(v) == e0.IsActive(v))
  }

  ghost predicate EngineOk(c: Config, e0: Engine, s: Sys) {
    EngineMatches(c, e0, s.eng, s.hist) && forall v :: v in s.hist.applied ==> v in s.done
  }

  /** Some vertex has still to be scheduled for the first time. */
  predicate IsScheduling(coord: Coordinator) {
    !coord.Stopped? && coord.rest != []
  }

  /** Collection: which of the collected vertices have been applied, failed, or wait in the batch. */
  ghost predicate DoneOk(c: Config, e0: Engine, s: Sys) {
    && (IsScheduling(s.coord) ==> s.done == [])
    && (c.mode.Standard? ==>
          && s.batch == []
          && (forall v :: v in s.done ==> (v in s.hist.applied <==> !Fails(c, e0, v)))
          && (s.errs == [] <==> forall v :: v in s.done ==> !Fails(c, e0, v)))
    && (c.mode.Cached? ==>
          && (forall v :: v in s.done ==> v in s.hist.applied || v in BatchVertices(s.batch))
          && (s.errs == [] && |s.done| == |s.order| ==> s.batch == [])
          && (s.errs != [] ==> exists v :: v in s.done && Fails(c, e0, v)))
  }

  /** Queued messages: those of the start and those of the collected vertices, each once. */
  ghost predicate InboxOk(c: Config, e0: Engine, inbox: map<VertexId, seq<Message>>, step: nat, done: seq<VertexId>) {
    && (c.mode.Standard? ==>
        forall t :: multiset(Lookup(inbox, t, [])) == multiset(Lookup(e0.inbox, t, [])) + SentTo(c, e0, step, done, t))
    && (c.mode.Cached? ==> inbox == e0.inbox)
    && (done == [] ==> inbox == e0.inbox)
  }

  /** Mail only joins queues, and the queue of a vertex that heeds it is the one of the start until it is done. */
  ghost predicate Unwritten(
    c: Config, e0: Engine, inbox: map<VertexId, seq<Message>>, order: seq<VertexId>, done: seq<VertexId>)
  {
    && (forall t :: Lookup(e0.inbox, t, []) <= Lookup(inbox, t, []))
    && (forall t :: t in order && t !in done && Heeds(c, e0, t) ==> Lookup(inbox, t, []) == Lookup(e0.inbox, t, []))
  }

  ghost predicate MailOk(c: Config, e0: Engine, s: Sys) {
    InboxOk(c, e0, s.eng.inbox, s.step, s.done) && Unwritten(c, e0, s.eng.inbox, s.order, s.done)
  }

  ghost predicate ConfInv(c: Config, e0: Engine, s: Sys) {
    && TasksOk(c, e0, s) && ResultsOk(c, e0, s) && CellsOk(c, e0, s) && ProgressOk(c, e0, s)
    && EngineOk(c, e0, s) && DoneOk(c, e0, s) && MailOk(c, e0, s)
  }

  lemma StartCells(c: Config, e0: Engine, order: seq<VertexId>, step: nat, counter: nat)
    requires WellFormed(e0)
    ensures CellsOk(c, e0, Start(c, e0, order, step, counter))
  {
  }

  lemma StartProgress(c: Config, e0: Engine, order: seq<VertexId>, step: nat, counter: nat)
    requires Distinct(order)
    ensures ProgressOk(c, e0, Start(c, e0, order, step, counter))
  {
    StartInv(c, e0, order, step, counter);
  }

  lemma StartConfInv(c: Config, e0: Engine, order: seq<VertexId>, step: nat, counter: nat)
    requires Distinct(order) && WellFormed(e0)
    ensures ConfInv(c, e0, Start(c, e0, order, step, counter))
  {
    StartCells(c, e0, order, step, counter);
    StartProgress(c, e0, order, step, counter);
  }

  /** Scheduling, taking and sending change neither the engine nor the history. */
  lemma QuietConf(c: Config, e0: Engine, s: Sys, s': Sys)
    requires ConfInv(c, e0, s)
    requires s'.eng == s.eng && s'.hist == s.hist && s'.done == s.done && s'.errs == s.errs && s'.batch == s.batch
    requires s'.order == s.order && s'.step == s.step
    requires IsScheduling(s'.coord) ==> IsScheduling(s.coord)
    requires Stays(s, s')
    requires TasksOk(c, e0, s') && ResultsOk(c, e0, s')
    ensures ConfInv(c, e0, s')
  {
    assert CellsOk(c, e0, s') && EngineOk(c, e0, s') && DoneOk(c, e0, s') && MailOk(c, e0, s');
  }

  lemma NextConf(c: Config, e0: Engine, s: Sys)
    requires Runnable(c) && Shaped(c, s) && ConfInv(c, e0, s) && Enabled(c, s, Next)
    ensures ConfInv(c, e0, Apply(c, s, Next))
  {
    NextMoves(c, s);
    assert s.done == [] && s.coord.rest[0] !in s.hist.applied;
    QuietConf(c, e0, s, Apply(c, s, Next));
  }

  lemma EnqueueTasks(c: Config, e0: Engine, s: Sys)
    requires Runnable(c) && TasksOk(c, e0, s) && Enabled(c, s, Enqueue)
    ensures TasksOk(c, e0, Apply(c, s, Enqueue))
  {
    var s' := Apply(c, s, Enqueue);
    forall i, j | 0 <= i < |s'.queues| && 0 <= j < |s'.queues[i]|
      ensures TaskOk(c, e0, s'.hist, s'.queues[i][j])
    {
      if i != s.coord.slot || j < |s.queues[i]| {
        assert s'.queues[i][j] == s.queues[i][j];
      }
    }
  }

  lemma EnqueueConf(c: Config, e0: Engine, s: Sys)
    requires Runnable(c) && Shaped(c, s) && ConfInv(c, e0, s) && Enabled(c, s, Enqueue)
    ensures ConfInv(c, e0, Apply(c, s, Enqueue))
  {
    EnqueueMoves(c, s);
    EnqueueTasks(c, e0, s);
    QuietConf(c, e0, s, Apply(c, s, Enqueue));
  }

  lemma TakeTasks(c: Config, e0: Engine, s: Sys, w: nat, q: nat)
    requires Runnable(c) && TasksOk(c, e0, s) && ResultsOk(c, e0, s) && Enabled(c, s, Take(w, q))
    ensures TasksOk(c, e0, Apply(c, s, Take(w, q))) && ResultsOk(c, e0, Apply(c, s, Take(w, q)))
  {
    var s' := Apply(c, s, Take(w, q));
    forall i, j | 0 <= i < |s'.queues| && 0 <= j < |s'.queues[i]|
      ensures TaskOk(c, e0, s'.hist, s'.queues[i][j])
    {
      if i == q {
        assert s'.queues[i][j] == s.queues[i][j + 1];
      }
    }
  }

  lemma TakeConf(c: Config, e0: Engine, s: Sys, w: nat, i: nat)
    requires Runnable(c) && Shaped(c, s) && ConfInv(c, e0, s) && Enabled(c, s, Take(w, i))
    ensures ConfInv(c, e0, Apply(c, s, Take(w, i)))
  {
    TakeMoves(c, s, w, i);
    TakeTasks(c, e0, s, w, i);
    QuietConf(c, e0, s, Apply(c, s, Take(w, i)));
  }

  lemma SendResults(c: Config, e0: Engine, s: Sys, w: nat)
    requires Runnable(c) && ResultsOk(c, e0, s) && TasksOk(c, e0, s) && Enabled(c, s, Send(w))
    ensures ResultsOk(c, e0, Apply(c, s, Send(w))) && TasksOk(c, e0, Apply(c, s, Send(w)))
  {
  }

  lemma SendConf(c: Config, e0: Engine, s: Sys, w: nat)
    requires Runnable(c) && Shaped(c, s) && ConfInv(c, e0, s) && Enabled(c, s, Send(w))
    ensures ConfInv(c, e0, Apply(c, s, Send(w)))
  {
    SendMoves(c, s, w);
    SendResults(c, e0, s, w);
    QuietConf(c, e0, s, Apply(c, s, Send(w)));
  }

  // A vertex program returns.

  /** A vertex whose task a worker runs has no result anywhere and has not been collected. */
  lemma RunningIsAlone(c: Config, s: Sys, w: nat)
    requires Runnable(c) && Inv(c, s) && Enabled(c, s, Finish(w))
    ensures var v := s.workers[w].task.vid;
            Waiting(s, v) == 1 && Ran(s, v) == 0 && v !in s.done && v in s.order
  {
    FinishMoves(c, s, w);
    assert Waiting(s, s.workers[w].task.vid) >= 1;
    WaitingIsOutstanding(c, s, s.workers[w].task.vid);
  }

  /** Results stand where they are counted. */
  lemma HeldResult(s: Sys, w: nat)
    requires w < |s.workers| && s.workers[w].Sending?
    ensures Ran(s, s.workers[w].result.vid) >= 1
  {
    WorkerUpdate(s.workers, w, Idle, ResultOf);
  }

  lemma ResultInChannel(s: Sys, i: nat)
    requires i < |s.results|
    ensures Ran(s, s.results[i].vid) >= 1
  {
    assert ResultVids(s.results)[i] == s.results[i].vid;
    assert s.results[i].vid in multiset(ResultVids(s.results));
  }

  /** Writing through the reference of one vertex leaves the state maps of all others alone. */
  lemma ExecuteFrame(cells: map<Ref, Fields>, next: Ref, ref: Ref, o: Outcome, other: Ref)
    requires other < next && (other == ref ==> ref !in cells)
    ensures Read(Execute(cells, next, ref, o).cells, other) == Read(cells, other)
  {
  }

  lemma ExecuteResult(e0: Engine, cells: map<Ref, Fields>, next: Ref, ref: Ref, o: Outcome)
    requires ref < next && StoreOk(e0, cells, next)
    ensures var e := Execute(cells, next, ref, o);
            && Read(e.cells, e.ref) == FinalState(Read(cells, ref), o)
            && Read(e.cells, ref) == LeftBehind(Read(cells, ref), o)
            && (e.ref == ref || e.ref == next) && next <= e.next && e.ref < e.next
            && StoreOk(e0, e.cells, e.next)
  {
  }

  /** The maps of two vertices are different ones, or nil. */
  lemma Apart(c: Config, e0: Engine, cells: map<Ref, Fields>, next: Ref, h: History, u: VertexId, v: VertexId)
    requires WellFormed(e0) && Separated(e0) && StoreOk(e0, cells, next) && CellOk(c, e0, cells, next, h, v) && u != v
    ensures e0.RefOf(v) < next && (e0.RefOf(v) == e0.RefOf(u) ==> e0.RefOf(u) !in cells)
    ensures v in h.produced ==> h.produced[v] < next && (h.produced[v] == e0.RefOf(u) ==> e0.RefOf(u) !in cells)
  {
    assert e0.RefOf(u) < e0.next && e0.RefOf(v) < e0.next;
    if e0.RefOf(v) == e0.RefOf(u) {
      assert e0.RefOf(u) !in e0.cells;
    }
  }

  /** The map of another vertex is not touched by a run. */
  lemma OtherCell(
    c: Config, e0: Engine, cells: map<Ref, Fields>, next: Ref, h: History, h': History, u: VertexId, o: Outcome,
    v: VertexId)
    requires WellFormed(e0) && Separated(e0) && StoreOk(e0, cells, next) && CellOk(c, e0, cells, next, h, v) && u != v
    requires (v in h.produced <==> v in h'.produced) && (v in h.before <==> v in h'.before)
    requires v in h.produced ==> h'.produced[v] == h.produced[v]
    requires v in h.before ==> h'.before[v] == h.before[v]
    ensures var e := Execute(cells, next, e0.RefOf(u), o);
            CellOk(c, e0, e.cells, e.next, h', v) && Read(e.cells, e0.RefOf(v)) == Read(cells, e0.RefOf(v))
  {
    Apart(c, e0, cells, next, h, u, v);
    ExecuteFrame(cells, next, e0.RefOf(u), o, e0.RefOf(v));
    if v in h.produced {
      ExecuteFrame(cells, next, e0.RefOf(u), o, h.produced[v]);
    }
  }

  /** One more attempt of `u`: its map holds what it left there, its result what it returned. */
  lemma ExecuteMatches(c: Config, e0: Engine, cells: map<Ref, Fields>, next: Ref, h: History, h': History, u: VertexId)
    requires WellFormed(e0) && Separated(e0) && CellsMatch(c, e0, cells, next, h)
    requires var given := Read(cells, e0.RefOf(u));
             var o := c.compute(u, given, e0.MessagesFor(c, u));
             && h'.before == h.before[u := given]
             && h'.produced == h.produced[u := Execute(cells, next, e0.RefOf(u), o).ref]
    ensures var e := Execute(cells, next, e0.RefOf(u), RunOf(c, e0, h', u));
            && CellsMatch(c, e0, e.cells, e.next, h')
            && forall v :: v != u ==> Read(e.cells, e0.RefOf(v)) == Read(cells, e0.RefOf(v))
  {
    var o := RunOf(c, e0, h', u);
    var e := Execute(cells, next, e0.RefOf(u), o);
    ExecuteResult(e0, cells, next, e0.RefOf(u), o);
    forall v
      ensures CellOk(c, e0, e.cells, e.next, h', v)
      ensures v != u ==> Read(e.cells, e0.RefOf(v)) == Read(cells, e0.RefOf(v))
    {
      if v != u {
        OtherCell(c, e0, cells, next, h, h', u, o, v);
      }
    }
    FreshApart(c, e0, cells, next, h, u, e.ref);
  }

  lemma FreshApart(c: Config, e0: Engine, cells: map<Ref, Fields>, next: Ref, h: History, u: VertexId, ref: Ref)
    requires WellFormed(e0) && CellsMatch(c, e0, cells, next, h) && (ref == e0.RefOf(u) || ref == next)
    ensures var p := h.produced[u := ref];
            forall x, y :: x in p && y in p && x != y && e0.next <= p[x] ==> p[x] != p[y]
  {
    var p := h.produced[u := ref];
    assert e0.RefOf(u) < e0.next;
    forall x, y | x in p && y in p && x != y && e0.next <= p[x]
      ensures p[x] != p[y]
    {
      assert x != u ==> CellOk(c, e0, cells, next, h, x);
      assert y != u ==> CellOk(c, e0, cells, next, h, y);
      assert e0.RefOf(x) < e0.next && e0.RefOf(y) < e0.next;
    }
  }

  /** The parts of the state that the return of a program changes. */
  ghost predicate Returned(c: Config, e0: Engine, s: Sys, s': Sys, w: nat)
    requires w < |s.workers| && s.workers[w].Running?
  {
    var v := s.workers[w].task.vid;
    var given := Read(s.eng.cells, e0.RefOf(v));
    var o := c.compute(v, given, e0.MessagesFor(c, v));
    var e := Execute(s.eng.cells, s.eng.next, e0.RefOf(v), o);
    && s'.eng == s.eng.(cells := e.cells, next := e.next)
    && s'.workers == s.workers[w := Sending(TaskResult(v, e.ref, o.messages, o.halt, o.error))]
    && s'.hist.before == s.hist.before[v := given] && s'.hist.produced == s.hist.produced[v := e.ref]
    && s'.hist.applied == s.hist.applied
    && s'.queues == s.queues && s'.results == s.results && s'.batch == s.batch && s'.coord == s.coord
    && s'.done == s.done && s'.errs == s.errs && s'.order == s.order && s'.step == s.step
  }

  /** Whatever messages a task carries, the attempt does what it does on those of the start. */
  lemma SameOutcome(c: Config, e0: Engine, e: Engine, h: History, t: Task)
    requires TaskOk(c, e0, h, t) && Awaits(c, e0, e, h, t.vid)
    ensures t.ref == e0.RefOf(t.vid)
    ensures var given := Read(e.cells, t.ref);
            c.compute(t.vid, given, t.msgs) == c.compute(t.vid, given, e0.MessagesFor(c, t.vid))
  {
    if t.msgs != e0.MessagesFor(c, t.vid) {
      var queue := Lookup(e0.inbox, t.vid, []);
      var more :| queue <= more && t.msgs == Messages.Delivered(c.combiner, more);
      assert Ignores(c, t.vid, queue, Read(e.cells, t.ref), Remaining(c, e, t.vid));
    }
  }

  lemma FinishReturns(c: Config, e0: Engine, s: Sys, w: nat)
    requires Runnable(c) && TasksOk(c, e0, s) && Enabled(c, s, Finish(w))
    requires Awaits(c, e0, s.eng, s.hist, s.workers[w].task.vid)
    ensures Returned(c, e0, s, Apply(c, s, Finish(w)), w)
  {
    SameOutcome(c, e0, s.eng, s.hist, s.workers[w].task);
  }

  lemma FinishCells(c: Config, e0: Engine, s: Sys, s': Sys, w: nat)
    requires w < |s.workers| && s.workers[w].Running? && Returned(c, e0, s, s', w)
    requires WellFormed(e0) && Separated(e0) && CellsOk(c, e0, s) && s.workers[w].task.vid in s.order
    ensures CellsOk(c, e0, s')
    ensures forall v :: v != s.workers[w].task.vid ==> Read(s'.eng.cells, e0.RefOf(v)) == Read(s.eng.cells, e0.RefOf(v))
  {
    ExecuteMatches(c, e0, s.eng.cells, s.eng.next, s.hist, s'.hist, s.workers[w].task.vid);
  }

  /** A result of another vertex is still right. */
  lemma ResultStays(c: Config, e0: Engine, h: History, h': History, u: VertexId, r: TaskResult)
    requires ResultOk(c, e0, h, r) && r.vid != u
    requires h'.produced.Keys >= h.produced.Keys && h'.before.Keys >= h.before.Keys && r.vid in h.before
    requires h'.produced[r.vid] == h.produced[r.vid] && h'.before[r.vid] == h.before[r.vid]
    ensures ResultOk(c, e0, h', r)
  {
  }

  lemma FinishResults(c: Config, e0: Engine, s: Sys, s': Sys, w: nat)
    requires w < |s.workers| && s.workers[w].Running? && Returned(c, e0, s, s', w)
    requires ResultsOk(c, e0, s) && TasksOk(c, e0, s) && CellsOk(c, e0, s)
    requires Ran(s, s.workers[w].task.vid) == 0 && forall r :: r in s.batch ==> r.vid != s.workers[w].task.vid
    ensures ResultsOk(c, e0, s') && TasksOk(c, e0, s')
  {
    var v := s.workers[w].task.vid;
    forall i | 0 <= i < |s'.results|
      ensures ResultOk(c, e0, s'.hist, s'.results[i])
    {
      ResultInChannel(s, i);
      assert CellOk(c, e0, s.eng.cells, s.eng.next, s.hist, s.results[i].vid);
      ResultStays(c, e0, s.hist, s'.hist, v, s.results[i]);
    }
    forall i | 0 <= i < |s'.batch|
      ensures ResultOk(c, e0, s'.hist, s'.batch[i])
    {
      assert s.batch[i] in s.batch;
      assert CellOk(c, e0, s.eng.cells, s.eng.next, s.hist, s.batch[i].vid);
      ResultStays(c, e0, s.hist, s'.hist, v, s.batch[i]);
    }
    forall x | 0 <= x < |s'.workers| && s'.workers[x].Sending?
      ensures ResultOk(c, e0, s'.hist, s'.workers[x].result)
    {
      if x != w {
        HeldResult(s, x);
        assert CellOk(c, e0, s.eng.cells, s.eng.next, s.hist, s.workers[x].result.vid);
        ResultStays(c, e0, s.hist, s'.hist, v, s.workers[x].result);
      }
    }
  }

  lemma FinishProgress(c: Config, e0: Engine, s: Sys, s': Sys, u: VertexId)
    requires ProgressOk(c, e0, s) && Waiting(s, u) == 1 && Ran(s, u) == 0 && u !in s.done
    requires CellOk(c, e0, s.eng.cells, s.eng.next, s.hist, u)
    requires s'.eng.attempts == s.eng.attempts && s'.done == s.done
    requires s'.hist.before == s.hist.before[u := Read(s.eng.cells, e0.RefOf(u))]
    requires s'.hist.produced.Keys == s.hist.produced.Keys + {u}
    requires forall v :: v != u ==> Read(s'.eng.cells, e0.RefOf(v)) == Read(s.eng.cells, e0.RefOf(v))
    requires RunsOnce(s, s', u)
    ensures ProgressOk(c, e0, s')
  {
    assert Awaits(c, e0, s.eng, s.hist, u);
    forall v
      ensures Waiting(s', v) >= 1 ==> Awaits(c, e0, s'.eng, s'.hist, v)
      ensures Ran(s', v) >= 1 ==> Attempted(c, e0, s'.eng, s'.hist, v)
      ensures v in s'.done ==> Settled(c, e0, s'.hist, v)
    {
      assert s'.eng.AttemptsOf(v) == s.eng.AttemptsOf(v);
      if v != u {
        assert Waiting(s', v) == Waiting(s, v) && Ran(s', v) == Ran(s, v);
        OthersProgress(c, e0, s.eng, s'.eng, s.hist, s'.hist, v);
      } else {
        FirstProgress(c, e0, s.eng, s'.eng, s.hist, s'.hist, u);
      }
    }
  }

  /** What the run of another vertex leaves as it was. */
  lemma OthersProgress(c: Config, e0: Engine, e: Engine, e': Engine, h: History, h': History, v: VertexId)
    requires Read(e'.cells, e0.RefOf(v)) == Read(e.cells, e0.RefOf(v)) && e'.AttemptsOf(v) == e.AttemptsOf(v)
    requires (v in h'.produced <==> v in h.produced) && (v in h'.before <==> v in h.before)
    requires v in h.before ==> h'.before[v] == h.before[v]
    ensures Awaits(c, e0, e, h, v) ==> Awaits(c, e0, e', h', v)
    ensures Attempted(c, e0, e, h, v) ==> Attempted(c, e0, e', h', v)
    ensures Settled(c, e0, h, v) ==> Settled(c, e0, h', v)
  {
    assert Remaining(c, e', v) == Remaining(c, e, v);
  }

  lemma FirstProgress(c: Config, e0: Engine, e: Engine, e': Engine, h: History, h': History, v: VertexId)
    requires Awaits(c, e0, e, h, v) && CellOk(c, e0, e.cells, e.next, h, v) && e'.AttemptsOf(v) == e.AttemptsOf(v)
    requires v in h'.before && h'.before[v] == Read(e.cells, e0.RefOf(v))
    ensures Attempted(c, e0, e', h', v)
  {
    assert Remaining(c, e', v) == Remaining(c, e, v);
  }

  lemma FinishEngine(c: Config, e0: Engine, e: Engine, e': Engine, h: History, h': History, u: VertexId)
    requires EngineMatches(c, e0, e, h) && (u in h.applied ==> h'.produced == h.produced)
    requires e'.states == e.states && e'.active == e.active && h'.applied == h.applied
    requires forall v :: v != u && v in h.produced ==> v in h'.produced && h'.produced[v] == h.produced[v]
    ensures EngineMatches(c, e0, e', h')
  {
  }

  lemma FinishDone(c: Config, e0: Engine, s: Sys, s': Sys)
    requires DoneOk(c, e0, s) && s'.hist.applied == s.hist.applied && s'.coord == s.coord && s'.batch == s.batch
    requires s'.done == s.done && s'.errs == s.errs && s'.order == s.order
    ensures DoneOk(c, e0, s')
  {
  }

  lemma FinishConf(c: Config, e0: Engine, s: Sys, w: nat)
    requires Runnable(c) && Inv(c, s) && ConfInv(c, e0, s) && BatchOk(s) && Enabled(c, s, Finish(w))
    requires WellFormed(e0) && Separated(e0)
    ensures ConfInv(c, e0, Apply(c, s, Finish(w)))
  {
    var s' := Apply(c, s, Finish(w));
    FinishMoves(c, s, w);
    RunningIsAlone(c, s, w);
    assert Awaits(c, e0, s.eng, s.hist, s.workers[w].task.vid);
    FinishReturns(c, e0, s, w);
    FinishedConf(c, e0, s, s', w);
  }

  lemma FinishedConf(c: Config, e0: Engine, s: Sys, s': Sys, w: nat)
    requires w < |s.workers| && s.workers[w].Running? && Returned(c, e0, s, s', w)
    requires ConfInv(c, e0, s) && BatchOk(s) && WellFormed(e0) && Separated(e0)
    requires var v := s.workers[w].task.vid;
             && Waiting(s, v) == 1 && Ran(s, v) == 0 && v !in s.done && v in s.order
             && RunsOnce(s, s', v)
    ensures ConfInv(c, e0, s')
  {
    FinishCells(c, e0, s, s', w);
    FinishResults(c, e0, s, s', w);
    FinishedProgress(c, e0, s, s', w);
    FinishEngine(c, e0, s.eng, s'.eng, s.hist, s'.hist, s.workers[w].task.vid);
    FinishDone(c, e0, s, s');
  }

  lemma FinishedProgress(c: Config, e0: Engine, s: Sys, s': Sys, w: nat)
    requires w < |s.workers| && s.workers[w].Running? && Returned(c, e0, s, s', w)
    requires ProgressOk(c, e0, s) && CellsOk(c, e0, s)
    requires var v := s.workers[w].task.vid;
             && Waiting(s, v) == 1 && Ran(s, v) == 0 && v !in s.done
             && RunsOnce(s, s', v)
    requires forall v :: v != s.workers[w].task.vid ==>
             Read(s'.eng.cells, e0.RefOf(v)) == Read(s.eng.cells, e0.RefOf(v))
    ensures ProgressOk(c, e0, s')
  {
    assert CellOk(c, e0, s.eng.cells, s.eng.next, s.hist, s.workers[w].task.vid);
    FinishProgress(c, e0, s, s', s.workers[w].task.vid);
  }

  // The coordinator takes a result.

  lemma TakenResult(c: Config, e0: Engine, s: Sys, r: TaskResult)
    requires Runnable(c) && Enabled(c, s, Collect) && r == s.results[0] && Inv(c, s) && ConfInv(c, e0, s)
    ensures ResultOk(c, e0, s.hist, r) && Attempted(c, e0, s.eng, s.hist, r.vid)
    ensures r.vid in s.order && r.vid !in s.done && r.vid !in s.hist.applied
    ensures Waiting(s, r.vid) == 0 && Ran(s, r.vid) == 1
  {
    ResultInChannel(s, 0);
    ResultIsOutstanding(c, s, s.results[0].vid);
  }

  /** The rest of the results stay as they were, whatever is done with the first one. */
  lemma CollectTasks(c: Config, e0: Engine, s: Sys, s': Sys)
    requires TasksOk(c, e0, s) && ResultsOk(c, e0, s) && s.results != []
    requires s'.queues == s.queues && s'.workers == s.workers && s'.results == s.results[1..]
    requires s'.coord.Placing? ==> TaskOk(c, e0, s'.hist, s'.coord.task)
    requires s'.hist.produced == s.hist.produced && s'.hist.before == s.hist.before
    requires s'.batch == [] || s'.batch == s.batch || s'.batch == s.batch + [s.results[0]]
    ensures TasksOk(c, e0, s') && ResultsOk(c, e0, s')
  {
    forall i | 0 <= i < |s'.results|
      ensures ResultOk(c, e0, s'.hist, s'.results[i])
    {
      assert s'.results[i] == s.results[i + 1];
    }
  }

  /** Applying the result of one vertex changes its state and its activity, nobody else's. */
  lemma ApplyMatches(c: Config, e0: Engine, e: Engine, e': Engine, h: History, r: TaskResult)
    requires EngineMatches(c, e0, e, h) && ResultOk(c, e0, h, r) && Settled(c, e0, h, r.vid) && r.error.None?
    requires e'.states == e.states[r.vid := r.ref] && e'.active == e.active[r.vid := !r.halt]
    ensures EngineMatches(c, e0, e', h.(applied := h.applied + {r.vid}))
  {
    assert !Fails(c, e0, r.vid) && r.halt == Expected(c, e0, r.vid).halt;
    forall v | v != r.vid
      ensures (v in e'.states <==> v in e.states) && e'.RefOf(v) == e.RefOf(v)
      ensures (v in e'.active <==> v in e.active) && e'.IsActive(v) == e.IsActive(v)
      ensures v in e'.states ==> e'.states[v] == e.states[v]
      ensures v in e'.active ==> e'.active[v] == e.active[v]
    {
    }
  }

  lemma ApplyKeepsCells(c: Config, e0: Engine, s: Sys, s': Sys, r: TaskResult)
    requires CellsOk(c, e0, s) && ResultOk(c, e0, s.hist, r)
    requires s'.eng.states == s.eng.states || s'.eng.states == s.eng.states[r.vid := r.ref]
    requires s'.eng.cells == s.eng.cells && s'.eng.next == s.eng.next
    requires s'.hist.produced == s.hist.produced && s'.hist.before == s.hist.before
    requires WellFormed(e0) && s'.order == s.order
    ensures CellsOk(c, e0, s')
  {
    assert CellOk(c, e0, s.eng.cells, s.eng.next, s.hist, r.vid);
    assert e0.RefOf(r.vid) < e0.next;
    assert forall v :: CellOk(c, e0, s.eng.cells, s.eng.next, s.hist, v) ==>
           CellOk(c, e0, s'.eng.cells, s'.eng.next, s'.hist, v);
  }

  /** The attempt that is not followed by another one is the one that counts. */
  lemma NoRetrySettles(c: Config, e0: Engine, e: Engine, h: History, v: VertexId)
    requires Attempted(c, e0, e, h, v) && (RunOf(c, e0, h, v).error.None? || Remaining(c, e, v) == 0)
    ensures Settled(c, e0, h, v)
  {
  }

  /** A collected vertex is settled; all others are where they were. */
  lemma CollectedProgress(c: Config, e0: Engine, s: Sys, s': Sys, u: VertexId)
    requires ProgressOk(c, e0, s) && Settled(c, e0, s.hist, u) && Waiting(s, u) == 0 && Ran(s, u) == 1
    requires s'.hist.before == s.hist.before && s'.hist.produced == s.hist.produced && s'.eng.cells == s.eng.cells
    requires s'.done == s.done + [u] && forall v :: v != u ==> s'.eng.AttemptsOf(v) == s.eng.AttemptsOf(v)
    requires IsTaken(s, s', u, false)
    ensures ProgressOk(c, e0, s')
  {
    forall v
      ensures Waiting(s', v) >= 1 ==> Awaits(c, e0, s'.eng, s'.hist, v)
      ensures Ran(s', v) >= 1 ==> Attempted(c, e0, s'.eng, s'.hist, v)
      ensures v in s'.done ==> Settled(c, e0, s'.hist, v)
    {
      if v != u {
        assert Remaining(c, s'.eng, v) == Remaining(c, s.eng, v);
        assert v in s'.done <==> v in s.done;
      } else {
        assert Waiting(s', v) == 0 && Ran(s', v) == 0;
      }
    }
  }

  lemma HandleDone(c: Config, e0: Engine, s: Sys, s': Sys, r: TaskResult)
    requires c.mode.Standard? && DoneOk(c, e0, s) && r.vid !in s.done && s.coord == Dispatching([])
    requires r.vid !in s.hist.applied && r.error == Expected(c, e0, r.vid).error
    requires s'.done == s.done + [r.vid] && s'.coord == s.coord && s'.batch == s.batch
    requires r.error.None? ==> s'.hist.applied == s.hist.applied + {r.vid} && s'.errs == s.errs
    requires r.error.Some? ==> s'.hist.applied == s.hist.applied && s'.errs != []
    ensures DoneOk(c, e0, s')
  {
    assert forall v :: v in s'.done <==> v in s.done || v == r.vid;
    assert r.vid in s'.done;
  }

  /** The queues after the messages of a result have joined them, or not if it is an error. */
  ghost function InboxAfter(inbox: map<VertexId, seq<Message>>, r: TaskResult, step: nat): map<VertexId, seq<Message>> {
    if r.error.None? then QueueAll(inbox, r.msgs, step) else inbox
  }

  lemma HandleMessages(
    c: Config, e0: Engine, inbox: map<VertexId, seq<Message>>, r: TaskResult, step: nat, done: seq<VertexId>,
    t: VertexId)
    requires r.error == Expected(c, e0, r.vid).error && r.msgs == Expected(c, e0, r.vid).messages
    requires multiset(Lookup(inbox, t, [])) == multiset(Lookup(e0.inbox, t, [])) + SentTo(c, e0, step, done, t)
    ensures multiset(Lookup(InboxAfter(inbox, r, step), t, []))
         == multiset(Lookup(e0.inbox, t, [])) + SentTo(c, e0, step, done + [r.vid], t)
  {
    assert (done + [r.vid])[..|done + [r.vid]| - 1] == done;
    QueueAllAppends(inbox, r.msgs, step, t);
  }

  lemma HandleInbox(
    c: Config, e0: Engine, inbox: map<VertexId, seq<Message>>, r: TaskResult, step: nat, done: seq<VertexId>)
    requires c.mode.Standard? && InboxOk(c, e0, inbox, step, done)
    requires r.error == Expected(c, e0, r.vid).error && r.msgs == Expected(c, e0, r.vid).messages
    ensures InboxOk(c, e0, InboxAfter(inbox, r, step), step, done + [r.vid])
  {
    forall t
      ensures multiset(Lookup(InboxAfter(inbox, r, step), t, []))
           == multiset(Lookup(e0.inbox, t, [])) + SentTo(c, e0, step, done + [r.vid], t)
    {
      HandleMessages(c, e0, inbox, r, step, done, t);
    }
  }

  lemma {:induction false} NothingTo(msgs: seq<Message>, step: nat, t: VertexId)
    requires forall m :: m in msgs ==> m.target != t
    ensures SentBy(msgs, step, t) == []
  {
    if msgs != [] {
      assert msgs[0] in msgs;
      NothingTo(msgs[1..], step, t);
    }
  }

  lemma HandleUnwritten(
    c: Config, e0: Engine, inbox: map<VertexId, seq<Message>>, r: TaskResult, step: nat, order: seq<VertexId>,
    done: seq<VertexId>)
    requires Undisturbed(c, e0, order) && Unwritten(c, e0, inbox, order, done) && r.vid in order
    requires r.error == Expected(c, e0, r.vid).error && r.msgs == Expected(c, e0, r.vid).messages
    ensures Unwritten(c, e0, InboxAfter(inbox, r, step), order, done + [r.vid])
  {
    forall t
      ensures Lookup(e0.inbox, t, []) <= Lookup(InboxAfter(inbox, r, step), t, [])
    {
      QueueAllAppends(inbox, r.msgs, step, t);
    }
    forall t | t in order && t !in done + [r.vid] && Heeds(c, e0, t)
      ensures Lookup(InboxAfter(inbox, r, step), t, []) == Lookup(e0.inbox, t, [])
    {
      assert t !in done && t != r.vid;
      QueueAllAppends(inbox, r.msgs, step, t);
      if r.error.None? {
        assert !Mails(c, e0, r.vid, t);
        NothingTo(r.msgs, step, t);
      }
    }
  }

  /** The state after a result that is not retried, in the standard engine. */
  ghost predicate Handled(s: Sys, s': Sys, r: TaskResult)
    requires s.results != []
  {
    && s'.queues == s.queues && s'.workers == s.workers && s'.results == s.results[1..]
    && s'.coord == s.coord && s'.batch == s.batch && s'.done == s.done + [r.vid]
    && s'.order == s.order && s'.step == s.step
    && s'.hist.produced == s.hist.produced && s'.hist.before == s.hist.before
    && s'.eng.cells == s.eng.cells && s'.eng.next == s.eng.next && s'.eng.inbox == InboxAfter(s.eng.inbox, r, s.step)
    && (forall v :: v != r.vid ==> s'.eng.AttemptsOf(v) == s.eng.AttemptsOf(v))
    && (if r.error.None? then
          s'.hist.applied == s.hist.applied + {r.vid} && s'.errs == s.errs && s'.eng == ApplyResult(s.eng, r, s.step)
        else
          s'.hist == s.hist && s'.errs != [] && s'.eng == s.eng)
  }

  lemma HandleIsHandled(c: Config, s: Sys)
    requires Runnable(c) && Enabled(c, s, Collect) && c.mode.Standard? && !Retries(c, s.eng, s.results[0])
    ensures Handled(s, Apply(c, s, Collect), s.results[0])
  {
  }

  lemma HandledConf(c: Config, e0: Engine, s: Sys, s': Sys, r: TaskResult)
    requires ConfInv(c, e0, s) && s.results != [] && r == s.results[0] && Handled(s, s', r)
    requires WellFormed(e0) && c.mode.Standard? && s.coord == Dispatching([]) && Undisturbed(c, e0, s.order)
    requires ResultOk(c, e0, s.hist, r) && Settled(c, e0, s.hist, r.vid)
    requires r.vid in s.order && r.vid !in s.done && r.vid !in s.hist.applied && Waiting(s, r.vid) == 0
             && Ran(s, r.vid) == 1
    requires IsTaken(s, s', r.vid, false)
    ensures ConfInv(c, e0, s')
  {
    CollectTasks(c, e0, s, s');
    ApplyKeepsCells(c, e0, s, s', r);
    CollectedProgress(c, e0, s, s', r.vid);
    HandleDone(c, e0, s, s', r);
    HandleInbox(c, e0, s.eng.inbox, r, s.step, s.done);
    HandleUnwritten(c, e0, s.eng.inbox, r, s.step, s.order, s.done);
    HandledEngine(c, e0, s, s', r);
  }

  lemma HandledEngine(c: Config, e0: Engine, s: Sys, s': Sys, r: TaskResult)
    requires s.results != [] && Handled(s, s', r) && EngineOk(c, e0, s)
    requires ResultOk(c, e0, s.hist, r) && Settled(c, e0, s.hist, r.vid)
    ensures EngineOk(c, e0, s')
  {
    if r.error.None? {
      ApplyMatches(c, e0, s.eng, s'.eng, s.hist, r);
      AppliedOnly(c, e0, s'.eng, s.hist.(applied := s.hist.applied + {r.vid}), s'.hist);
    }
  }

  lemma AppliedOnly(c: Config, e0: Engine, e: Engine, h: History, h': History)
    requires EngineMatches(c, e0, e, h) && h'.applied == h.applied && h'.produced == h.produced
    ensures EngineMatches(c, e0, e, h')
  {
  }

  /** The state after a result that is retried: one more attempt counted, and the task placed again. */
  ghost predicate Again(c: Config, s: Sys, s': Sys, r: TaskResult)
    requires s.results != []
  {
    && s'.queues == s.queues && s'.workers == s.workers && s'.results == s.results[1..]
    && s'.coord.Placing? && s'.coord.rest == []
        && s'.coord.task == Task(r.vid, s.eng.RefOf(r.vid), s.eng.MessagesFor(c, r.vid))
    && s'.batch == s.batch && s'.done == s.done && s'.errs == s.errs && s'.order == s.order && s'.step == s.step
    && s'.eng == s.eng.(attempts := s.eng.attempts[r.vid := s.eng.AttemptsOf(r.vid) + 1])
    && s'.hist.produced == s.hist.produced && s'.hist.before == s.hist.before && s'.hist.applied == s.hist.applied
  }

  lemma HandleIsAgain(c: Config, s: Sys)
    requires Runnable(c) && Enabled(c, s, Collect) && c.mode.Standard? && Retries(c, s.eng, s.results[0])
    ensures Again(c, s, Apply(c, s, Collect), s.results[0])
  {
  }

  /** A vertex whose attempt failed with retries left is one that is retried, and waits for the rest of its attempts. */
  lemma AgainAwaits(c: Config, e0: Engine, e: Engine, e': Engine, h: History, v: VertexId)
    requires Attempted(c, e0, e, h, v) && RunOf(c, e0, h, v).error.Some? && Remaining(c, e, v) > 0
    requires Read(e.cells, e0.RefOf(v)) == LeftBehind(h.before[v], RunOf(c, e0, h, v))
    requires e'.cells == e.cells && e'.AttemptsOf(v) == e.AttemptsOf(v) + 1
    ensures Awaits(c, e0, e', h, v)
  {
    assert Remaining(c, e', v) == Remaining(c, e, v) - 1;
  }

  lemma AgainProgress(c: Config, e0: Engine, s: Sys, s': Sys, u: VertexId)
    requires ProgressOk(c, e0, s) && Awaits(c, e0, s'.eng, s'.hist, u) && Ran(s, u) == 1 && u !in s.done
    requires s'.hist.before == s.hist.before && s'.hist.produced == s.hist.produced && s'.eng.cells == s.eng.cells
    requires s'.done == s.done && forall v :: v != u ==> s'.eng.AttemptsOf(v) == s.eng.AttemptsOf(v)
    requires IsTaken(s, s', u, true)
    ensures ProgressOk(c, e0, s')
  {
    forall v
      ensures Waiting(s', v) >= 1 ==> Awaits(c, e0, s'.eng, s'.hist, v)
      ensures Ran(s', v) >= 1 ==> Attempted(c, e0, s'.eng, s'.hist, v)
      ensures v in s'.done ==> Settled(c, e0, s'.hist, v)
    {
      if v != u {
        assert Remaining(c, s'.eng, v) == Remaining(c, s.eng, v);
      } else {
        assert Ran(s', v) == 0;
      }
    }
  }

  /** The task of the next attempt carries the reference of the first one, and its messages or more. */
  lemma AgainTask(c: Config, e0: Engine, s: Sys, v: VertexId)
    requires EngineMatches(c, e0, s.eng, s.hist) && Unwritten(c, e0, s.eng.inbox, s.order, s.done)
    requires v in s.order && v !in s.done && v !in s.hist.applied && v in s.hist.produced
    ensures TaskOk(c, e0, s.hist, Task(v, s.eng.RefOf(v), s.eng.MessagesFor(c, v)))
  {
    if Heeds(c, e0, v) {
      assert Lookup(s.eng.inbox, v, []) == Lookup(e0.inbox, v, []);
    } else {
      assert Lookup(e0.inbox, v, []) <= Lookup(s.eng.inbox, v, []);
      assert HasMoreMail(c, e0, v, s.eng.MessagesFor(c, v));
    }
  }

  lemma AgainEngine(c: Config, e0: Engine, s: Sys, s': Sys, r: TaskResult)
    requires s.results != [] && Again(c, s, s', r) && EngineOk(c, e0, s)
    ensures EngineOk(c, e0, s')
  {
    FinishEngine(c, e0, s.eng, s'.eng, s.hist, s'.hist, r.vid);
  }

  lemma AgainDone(c: Config, e0: Engine, s: Sys, s': Sys, r: TaskResult)
    requires s.results != [] && Again(c, s, s', r) && DoneOk(c, e0, s) && MailOk(c, e0, s)
    ensures DoneOk(c, e0, s') && MailOk(c, e0, s')
  {
    assert !IsScheduling(s'.coord);
  }

  lemma AgainConf(c: Config, e0: Engine, s: Sys, s': Sys, r: TaskResult)
    requires ConfInv(c, e0, s) && s.results != [] && r == s.results[0] && Again(c, s, s', r)
    requires WellFormed(e0) && c.mode.Standard? && r.error.Some? && Remaining(c, s.eng, r.vid) > 0
    requires ResultOk(c, e0, s.hist, r) && Attempted(c, e0, s.eng, s.hist, r.vid)
    requires r.vid in s.order && r.vid !in s.done && r.vid !in s.hist.applied && Ran(s, r.vid) == 1
    requires IsTaken(s, s', r.vid, true)
    ensures ConfInv(c, e0, s')
  {
    AgainWaits(c, e0, s, s', r);
    AgainTasks(c, e0, s, s', r);
    AgainProgressOk(c, e0, s, s', r);
    AgainEngine(c, e0, s, s', r);
    AgainDone(c, e0, s, s', r);
  }

  lemma AgainTasks(c: Config, e0: Engine, s: Sys, s': Sys, r: TaskResult)
    requires TasksOk(c, e0, s) && ResultsOk(c, e0, s) && CellsOk(c, e0, s) && EngineOk(c, e0, s) && MailOk(c, e0, s)
    requires s.results != [] && Again(c, s, s', r) && r == s.results[0] && WellFormed(e0)
    requires r.vid in s.order && r.vid !in s.done && r.vid !in s.hist.applied && r.vid in s.hist.produced
    ensures TasksOk(c, e0, s') && ResultsOk(c, e0, s') && CellsOk(c, e0, s')
  {
    AgainTask(c, e0, s, r.vid);
    CollectTasks(c, e0, s, s');
    ApplyKeepsCells(c, e0, s, s', r);
  }

  lemma AgainProgressOk(c: Config, e0: Engine, s: Sys, s': Sys, r: TaskResult)
    requires ProgressOk(c, e0, s) && s.results != [] && Again(c, s, s', r)
    requires Awaits(c, e0, s'.eng, s'.hist, r.vid) && Ran(s, r.vid) == 1 && r.vid !in s.done
    requires IsTaken(s, s', r.vid, true)
    ensures ProgressOk(c, e0, s')
  {
    AgainProgress(c, e0, s, s', r.vid);
  }

  lemma AgainWaits(c: Config, e0: Engine, s: Sys, s': Sys, r: TaskResult)
    requires CellsOk(c, e0, s) && s.results != [] && Again(c, s, s', r)
    requires r.error.Some? && Remaining(c, s.eng, r.vid) > 0
    requires ResultOk(c, e0, s.hist, r) && Attempted(c, e0, s.eng, s.hist, r.vid)
    ensures Awaits(c, e0, s'.eng, s'.hist, r.vid)
  {
    assert CellOk(c, e0, s.eng.cells, s.eng.next, s.hist, r.vid);
    AgainAwaits(c, e0, s.eng, s'.eng, s.hist, r.vid);
  }

  lemma HandleConf(c: Config, e0: Engine, s: Sys)
    requires Runnable(c) && Inv(c, s) && ConfInv(c, e0, s) && Enabled(c, s, Collect)
    requires WellFormed(e0) && c.mode.Standard? && Undisturbed(c, e0, s.order)
    ensures ConfInv(c, e0, Apply(c, s, Collect))
  {
    var r := s.results[0];
    TakenResult(c, e0, s, r);
    CollectMoves(c, s);
    if Retries(c, s.eng, r) {
      HandleIsAgain(c, s);
      AgainConf(c, e0, s, Apply(c, s, Collect), r);
    } else {
      NoRetrySettles(c, e0, s.eng, s.hist, r.vid);
      HandleIsHandled(c, s);
      HandledConf(c, e0, s, Apply(c, s, Collect), r);
    }
  }

  // ---------------------------------------------------------------- batches

  ghost predicate DistinctResults(batch: seq<TaskResult>) {
    forall i, j :: 0 <= i < j < |batch| ==> batch[i].vid != batch[j].vid
  }

  /** No two different results for one vertex. */
  ghost predicate Functional(batch: multiset<TaskResult>) {
    forall x, y :: x in batch && y in batch && x.vid == y.vid ==> x == y
  }

  lemma DistinctIsFunctional(batch: seq<TaskResult>)
    requires DistinctResults(batch)
    ensures Functional(multiset(batch))
  {
    assert forall x :: x in multiset(batch) ==> x in batch;
  }

  /** A vertex of a batch ends with its own result, a vertex outside it with what it had. */
  lemma {:induction false} BatchUpdates(e: Engine, batch: seq<TaskResult>, r: TaskResult)
    requires Functional(multiset(batch)) && r in batch
    ensures var e' := ApplyBatch(e, batch);
            && r.vid in e'.states && e'.states[r.vid] == r.ref && r.vid in e'.active && e'.active[r.vid] == !r.halt
    decreases |batch|
  {
    var n := |batch| - 1;
    var last := batch[n];
    assert last in multiset(batch) && r in multiset(batch);
    if r.vid != last.vid {
      assert batch == batch[..n] + [last];
      assert r in batch[..n];
      BatchUpdates(e, batch[..n], r);
    }
  }

  lemma {:induction false} BatchSpares(e: Engine, batch: seq<TaskResult>, v: VertexId)
    requires forall r :: r in batch ==> r.vid != v
    ensures var e' := ApplyBatch(e, batch);
            && (v in e'.states <==> v in e.states) && e'.RefOf(v) == e.RefOf(v)
            && (v in e'.active <==> v in e.active) && e'.IsActive(v) == e.IsActive(v)
    decreases |batch|
  {
    if batch != [] {
      BatchSpares(e, batch[..|batch| - 1], v);
    }
  }

  lemma OneMoreError(batch: seq<TaskResult>, r: TaskResult)
    requires BatchErrors(batch) == [] <==> forall x :: x in batch ==> x.error.None?
    ensures BatchErrors(batch + [r]) == [] <==> forall x :: x in batch + [r] ==> x.error.None?
  {
    assert (batch + [r])[..|batch|] == batch;
    assert forall x :: x in batch + [r] <==> x in batch || x == r;
  }

  lemma {:induction false} NoBatchErrors(batch: seq<TaskResult>)
    ensures BatchErrors(batch) == [] <==> forall r :: r in batch ==> r.error.None?
  {
    if batch != [] {
      var n := |batch| - 1;
      NoBatchErrors(batch[..n]);
      OneMoreError(batch[..n], batch[n]);
      assert batch == batch[..n] + [batch[n]];
    }
  }

  /** The results waiting in the batch are collected, not applied, and of different vertices. */
  ghost predicate BatchOk(s: Sys) {
    && DistinctResults(s.batch)
    && forall r :: r in s.batch ==> r.vid in s.done && r.vid !in s.hist.applied
  }

  /** A result joins the batch; a batch of 32, or the last one, is applied or fails as a whole. */
  ghost predicate Batched(s: Sys, s': Sys, r: TaskResult)
    requires s.results != []
  {
    var batch := s.batch + [r];
    && s'.queues == s.queues && s'.workers == s.workers && s'.results == s.results[1..]
    && s'.coord == s.coord && s'.done == s.done + [r.vid]
    && s'.order == s.order && s'.step == s.step
    && s'.hist.produced == s.hist.produced && s'.hist.before == s.hist.before
    && (if |batch| < BATCH_SIZE && |s'.done| != |s.order| then
          s'.eng == s.eng && s'.hist == s.hist && s'.errs == s.errs && s'.batch == batch
        else if BatchErrors(batch) != [] then
          s'.eng == s.eng && s'.hist == s.hist && s'.errs == BatchErrors(batch) && s'.batch == batch
        else
          s'.eng == ApplyBatch(s.eng, batch) && s'.hist.applied == s.hist.applied + BatchVertices(batch)
          && s'.errs == s.errs && s'.batch == [])
  }

  lemma CollectIsBatched(c: Config, s: Sys)
    requires Runnable(c) && Enabled(c, s, Collect) && c.mode.Cached?
    ensures Batched(s, Apply(c, s, Collect), s.results[0]) && s.errs == []
  {
  }

  lemma BatchGrows(s: Sys, r: TaskResult)
    requires BatchOk(s) && r.vid !in s.done && r.vid !in s.hist.applied
    ensures DistinctResults(s.batch + [r])
    ensures forall x :: x in s.batch + [r] ==> x.vid !in s.hist.applied
    ensures BatchVertices(s.batch + [r]) == BatchVertices(s.batch) + {r.vid}
  {
  }

  lemma BatchedEngine(c: Config, e0: Engine, e: Engine, h: History, batch: seq<TaskResult>)
    requires EngineMatches(c, e0, e, h) && DistinctResults(batch)
    requires forall r :: r in batch ==> ResultOk(c, e0, h, r) && Settled(c, e0, h, r.vid) && r.error.None?
    ensures EngineMatches(c, e0, ApplyBatch(e, batch), h.(applied := h.applied + BatchVertices(batch)))
  {
    var e' := ApplyBatch(e, batch);
    forall v
      ensures v in BatchVertices(batch) ==>
                && v in h.produced && !Fails(c, e0, v) && v in e'.states && e'.states[v] == h.produced[v]
                && v in e'.active && e'.active[v] == !Expected(c, e0, v).halt
      ensures v !in BatchVertices(batch) ==>
                && (v in e'.states <==> v in e.states) && e'.RefOf(v) == e.RefOf(v)
                && (v in e'.active <==> v in e.active) && e'.IsActive(v) == e.IsActive(v)
    {
      if v in BatchVertices(batch) {
        var r :| r in batch && r.vid == v;
        DistinctIsFunctional(batch);
        BatchUpdates(e, batch, r);
      } else {
        BatchSpares(e, batch, v);
      }
    }
  }

  lemma {:induction false} BatchStatesWellFormed(c: Config, e0: Engine, h: History, e: Engine, batch: seq<TaskResult>)
    requires WellFormed(e) && forall r :: r in batch ==> r.ref < e.next
    ensures WellFormed(ApplyBatch(e, batch))
    decreases |batch|
  {
    if batch != [] {
      var n := |batch| - 1;
      BatchKeepsAttempts(e, batch);
      BatchKeepsAttempts(e, batch[..n]);
      BatchStatesWellFormed(c, e0, h, e, batch[..n]);
      assert batch[n] in batch;
    }
  }

  lemma BatchedCells(c: Config, e0: Engine, s: Sys, s': Sys, batch: seq<TaskResult>)
    requires WellFormed(e0) && CellsOk(c, e0, s) && forall r :: r in batch ==> ResultOk(c, e0, s.hist, r)
    requires s'.eng == s.eng || s'.eng == ApplyBatch(s.eng, batch)
    requires s'.hist.produced == s.hist.produced && s'.hist.before == s.hist.before && s'.order == s.order
    ensures CellsOk(c, e0, s')
  {
    forall r | r in batch
      ensures r.ref < s.eng.next
    {
      assert ResultOk(c, e0, s.hist, r);
      assert CellOk(c, e0, s.eng.cells, s.eng.next, s.hist, r.vid);
      assert e0.RefOf(r.vid) < e0.next;
    }
    BatchStatesWellFormed(c, e0, s.hist, s.eng, batch);
    BatchKeepsAttempts(s.eng, batch);
    assert forall v :: CellOk(c, e0, s.eng.cells, s.eng.next, s.hist, v) ==>
           CellOk(c, e0, s'.eng.cells, s'.eng.next, s'.hist, v);
  }

  lemma BatchFailure(c: Config, e0: Engine, batch: seq<TaskResult>, done: seq<VertexId>)
    requires BatchErrors(batch) != []
    requires forall x :: x in batch ==> x.vid in done && x.error == Expected(c, e0, x.vid).error
    ensures exists v :: v in done && Fails(c, e0, v)
  {
    NoBatchErrors(batch);
    var x :| x in batch && x.error.Some?;
    assert x.vid in done && Fails(c, e0, x.vid);
  }

  lemma BatchCovers(batch: seq<TaskResult>, r: TaskResult, done: seq<VertexId>, applied: set<VertexId>)
    requires forall v :: v in done ==> v in applied || v in BatchVertices(batch)
    ensures forall v :: v in done + [r.vid] ==> v in applied || v in BatchVertices(batch + [r])
  {
    assert BatchVertices(batch + [r]) == BatchVertices(batch) + {r.vid};
  }

  lemma BatchedDone(c: Config, e0: Engine, s: Sys, s': Sys, r: TaskResult)
    requires c.mode.Cached? && DoneOk(c, e0, s) && s.coord == Dispatching([]) && s.results != []
    requires Batched(s, s', r) && s.errs == []
    requires BatchOk(s) && forall x :: x in s.batch + [r] ==> x.error == Expected(c, e0, x.vid).error
    ensures DoneOk(c, e0, s')
  {
    BatchCovers(s.batch, r, s.done, s.hist.applied);
    if s'.errs != [] {
      BatchFailure(c, e0, s.batch + [r], s'.done);
    }
  }

  lemma BatchedMail(c: Config, e0: Engine, s: Sys, s': Sys, r: TaskResult)
    requires MailOk(c, e0, s) && c.mode.Cached? && s.results != [] && Batched(s, s', r)
    ensures MailOk(c, e0, s')
  {
    BatchKeepsAttempts(s.eng, s.batch + [r]);
  }

  lemma BatchedConf(c: Config, e0: Engine, s: Sys, s': Sys, r: TaskResult)
    requires ConfInv(c, e0, s) && BatchOk(s) && s.results != [] && r == s.results[0] && Batched(s, s', r)
             && s.errs == []
    requires WellFormed(e0) && c.mode.Cached? && s.coord == Dispatching([])
    requires ResultOk(c, e0, s.hist, r) && Settled(c, e0, s.hist, r.vid)
    requires r.vid !in s.done && r.vid !in s.hist.applied && Waiting(s, r.vid) == 0 && Ran(s, r.vid) == 1
    requires IsTaken(s, s', r.vid, false)
    ensures ConfInv(c, e0, s') && BatchOk(s')
  {
    var batch := s.batch + [r];
    BatchGrows(s, r);
    forall x | x in batch
      ensures ResultOk(c, e0, s.hist, x) && Settled(c, e0, s.hist, x.vid)
    {
      if x in s.batch {
        var i :| 0 <= i < |s.batch| && s.batch[i] == x;
      }
    }
    CollectTasks(c, e0, s, s');
    BatchedCells(c, e0, s, s', batch);
    BatchKeepsAttempts(s.eng, batch);
    CollectedProgress(c, e0, s, s', r.vid);
    BatchedDone(c, e0, s, s', r);
    BatchedMail(c, e0, s, s', r);
    BatchedEngineOk(c, e0, s, s', r);
  }

  lemma BatchedEngineOk(c: Config, e0: Engine, s: Sys, s': Sys, r: TaskResult)
    requires EngineOk(c, e0, s) && BatchOk(s) && s.results != [] && Batched(s, s', r)
    requires DistinctResults(s.batch + [r]) && forall x :: x in s.batch + [r] ==> x.vid !in s.hist.applied
    requires forall x :: x in s.batch + [r] ==> ResultOk(c, e0, s.hist, x) && Settled(c, e0, s.hist, x.vid)
    ensures EngineOk(c, e0, s') && BatchOk(s')
  {
    var batch := s.batch + [r];
    NoBatchErrors(batch);
    assert forall v :: v in s.done ==> v in s'.done;
    if s'.batch == [] {
      BatchedEngine(c, e0, s.eng, s.hist, batch);
      AppliedOnly(c, e0, s'.eng, s.hist.(applied := s.hist.applied + BatchVertices(batch)), s'.hist);
      assert forall v :: v in BatchVertices(batch) ==> v in s'.done;
    }
  }

  // ---------------------------------------------------------------- the theorem

  lemma StepConf(c: Config, e0: Engine, s: Sys, a: Action)
    requires Runnable(c) && Inv(c, s) && ConfInv(c, e0, s) && BatchOk(s) && Enabled(c, s, a)
    requires WellFormed(e0) && Separated(e0) && Undisturbed(c, e0, s.order)
    ensures ConfInv(c, e0, Apply(c, s, a)) && BatchOk(Apply(c, s, a))
  {
    match a
    case Next => NextConf(c, e0, s);
    case Enqueue => EnqueueConf(c, e0, s);
    case Take(w, q) => TakeConf(c, e0, s, w, q);
    case Finish(w) => FinishConf(c, e0, s, w);
    case Send(w) => SendConf(c, e0, s, w);
    case Collect =>
      if c.mode.Standard? {
        HandleConf(c, e0, s);
      } else {
        TakenResult(c, e0, s, s.results[0]);
        NoRetrySettles(c, e0, s.eng, s.hist, s.results[0].vid);
        CollectIsBatched(c, s);
        CollectMoves(c, s);
        BatchedConf(c, e0, s, Apply(c, s, a), s.results[0]);
      }
  }

  lemma StepKeeps(c: Config, e0: Engine, s: Sys, a: Action)
    requires Runnable(c) && Inv(c, s) && ConfInv(c, e0, s) && BatchOk(s) && Enabled(c, s, a)
    requires WellFormed(e0) && Separated(e0) && Undisturbed(c, e0, s.order)
    ensures var s' := Apply(c, s, a); Inv(c, s') && ConfInv(c, e0, s') && BatchOk(s') && s'.order == s.order
  {
    StepConf(c, e0, s, a);
    StepConserves(c, s, a);
    StepKeepsOrder(c, s, a);
  }

  lemma {:induction false} RunConf(c: Config, e0: Engine, s: Sys, script: seq<Action>)
    requires Runnable(c) && Inv(c, s) && ConfInv(c, e0, s) && BatchOk(s) && Admits(c, s, script)
    requires WellFormed(e0) && Separated(e0) && Undisturbed(c, e0, s.order)
    ensures Inv(c, Exec(c, s, script)) && ConfInv(c, e0, Exec(c, s, script))
    decreases |script|
  {
    if script != [] {
      StepKeeps(c, e0, s, script[0]);
      RunConf(c, e0, Apply(c, s, script[0]), script[1..]);
    }
  }

  /** The engine after a superstep that succeeds, as a function of the engine before it. */
  ghost predicate AfterSuperstep(c: Config, e0: Engine, order: seq<VertexId>, step: nat, e: Engine) {
    && (forall v :: v in order ==>
          v in e.states && e.StateOf(v) == ExpectedState(c, e0, v)
          && v in e.active && e.active[v] == !Expected(c, e0, v).halt)
    && (forall v :: v !in order ==>
          && (v in e.states <==> v in e0.states) && e.StateOf(v) == e0.StateOf(v)
          && (v in e.active <==> v in e0.active) && e.IsActive(v) == e0.IsActive(v))
    && (forall t :: multiset(Lookup(e.inbox, t, [])) ==
          multiset(Lookup(e0.inbox, t, [])) + (if c.mode.Standard? then SentTo(c, e0, step, order, t) else multiset{}))
    && WellFormed(e) && Separated(e)
  }

  /** The map of a vertex is the one it had, or one allocated for it since the start. */
  lemma StateRef(c: Config, e0: Engine, s: Sys, v: VertexId)
    requires WellFormed(e0) && CellsOk(c, e0, s) && EngineOk(c, e0, s)
    ensures var r := s.eng.RefOf(v);
            || r == e0.RefOf(v)
            || (v in s.hist.produced && r == s.hist.produced[v] && e0.next <= r)
    ensures e0.RefOf(v) in s.eng.cells ==> e0.RefOf(v) in e0.cells && v in e0.states
  {
    assert CellOk(c, e0, s.eng.cells, s.eng.next, s.hist, v);
    assert e0.RefOf(v) < e0.next;
  }

  lemma FinishedSeparated(c: Config, e0: Engine, s: Sys)
    requires WellFormed(e0) && Separated(e0) && CellsOk(c, e0, s) && EngineOk(c, e0, s)
    ensures Separated(s.eng)
  {
    forall u, v | u in s.eng.states && v in s.eng.states && u != v && s.eng.states[u] in s.eng.cells
      ensures s.eng.states[u] != s.eng.states[v]
    {
      StateRef(c, e0, s, u);
      StateRef(c, e0, s, v);
      assert e0.RefOf(u) < e0.next && e0.RefOf(v) < e0.next;
    }
  }

  lemma AppliedState(c: Config, e0: Engine, s: Sys, v: VertexId)
    requires CellsOk(c, e0, s) && EngineOk(c, e0, s) && ProgressOk(c, e0, s)
    ensures v in s.hist.applied ==>
              && v in s.eng.states && s.eng.StateOf(v) == ExpectedState(c, e0, v)
              && v in s.eng.active && s.eng.active[v] == !Expected(c, e0, v).halt && !Fails(c, e0, v) && v in s.order
    ensures v !in s.hist.produced ==>
              && (v in s.eng.states <==> v in e0.states) && s.eng.StateOf(v) == e0.StateOf(v)
              && (v in s.eng.active <==> v in e0.active) && s.eng.IsActive(v) == e0.IsActive(v)
  {
    assert CellOk(c, e0, s.eng.cells, s.eng.next, s.hist, v);
  }

  lemma FinishedInbox(c: Config, e0: Engine, s: Sys, t: VertexId)
    requires MailOk(c, e0, s) && multiset(s.done) == multiset(s.order)
    ensures multiset(Lookup(s.eng.inbox, t, [])) ==
            multiset(Lookup(e0.inbox, t, []))
            + (if c.mode.Standard? then SentTo(c, e0, s.step, s.order, t) else multiset{})
  {
    SentToPermutation(c, e0, s.step, s.done, s.order, t);
  }

  lemma AllApplied(c: Config, e0: Engine, s: Sys)
    requires DoneOk(c, e0, s) && s.errs == [] && |s.done| == |s.order| && forall v :: v in s.order <==> v in s.done
    ensures forall v :: v in s.order ==> v in s.hist.applied
  {
  }

  lemma FinishedAfter(c: Config, e0: Engine, s: Sys)
    requires Inv(c, s) && ConfInv(c, e0, s) && WellFormed(e0) && Separated(e0) && Finished(c, s) && s.errs == []
    ensures AfterSuperstep(c, e0, s.order, s.step, s.eng)
    ensures forall v :: v in s.order ==> !Fails(c, e0, v)
  {
    AllDone(c, s);
    AllApplied(c, e0, s);
    FinishedSeparated(c, e0, s);
    forall v
      ensures v in s.order ==>
                && v in s.eng.states && s.eng.StateOf(v) == ExpectedState(c, e0, v)
                && v in s.eng.active && s.eng.active[v] == !Expected(c, e0, v).halt && !Fails(c, e0, v)
      ensures v !in s.order ==>
                && (v in s.eng.states <==> v in e0.states) && s.eng.StateOf(v) == e0.StateOf(v)
                && (v in s.eng.active <==> v in e0.active) && s.eng.IsActive(v) == e0.IsActive(v)
    {
      AppliedState(c, e0, s, v);
      assert v !in s.order ==> v !in s.hist.produced;
    }
    forall t
      ensures multiset(Lookup(s.eng.inbox, t, [])) ==
              multiset(Lookup(e0.inbox, t, []))
            + (if c.mode.Standard? then SentTo(c, e0, s.step, s.order, t) else multiset{})
    {
      FinishedInbox(c, e0, s, t);
    }
  }

  /**
   Confluence. Whatever the interleaving, a superstep in which nobody writes to a retried vertex that
   heeds its mail succeeds exactly when no active vertex fails all its attempts, and then leaves the
   engine that `AfterSuperstep` describes.
   */
  lemma SuperstepConfluence(c: Config, e0: Engine, order: seq<VertexId>, step: nat, counter: nat, script: seq<Action>)
    requires Runnable(c) && Distinct(order) && WellFormed(e0) && Separated(e0) && Undisturbed(c, e0, order)
    requires Admits(c, Start(c, e0, order, step, counter), script)
    requires Finished(c, Exec(c, Start(c, e0, order, step, counter), script))
    ensures var s := Exec(c, Start(c, e0, order, step, counter), script);
            && (s.errs == [] <==> forall v :: v in order ==> !Fails(c, e0, v))
            && (s.errs == [] ==> AfterSuperstep(c, e0, order, step, s.eng))
  {
    var s0 := Start(c, e0, order, step, counter);
    StartInv(c, e0, order, step, counter);
    StartConfInv(c, e0, order, step, counter);
    RunConf(c, e0, s0, script);
    KeepsOrder(c, s0, script);
    var s := Exec(c, s0, script);
    if s.errs == [] {
      FinishedAfter(c, e0, s);
    } else {
      ErrorsAreFailures(c, e0, s);
    }
  }

  /** Two interleavings of the same superstep, scheduled in any two orders, cannot be told apart afterwards. */
  lemma EveryInterleavingAgrees(
    c: Config, e0: Engine, step: nat, order: seq<VertexId>, counter: nat, script: seq<Action>,
    order': seq<VertexId>, counter': nat, script': seq<Action>)
    requires Runnable(c) && WellFormed(e0) && Separated(e0) && Undisturbed(c, e0, order)
    requires Distinct(order) && Distinct(order') && multiset(order) == multiset(order')
    requires Admits(c, Start(c, e0, order, step, counter), script)
    requires Admits(c, Start(c, e0, order', step, counter'), script')
    requires Finished(c, Exec(c, Start(c, e0, order, step, counter), script))
    requires Finished(c, Exec(c, Start(c, e0, order', step, counter'), script'))
    ensures var s := Exec(c, Start(c, e0, order, step, counter), script);
            var s' := Exec(c, Start(c, e0, order', step, counter'), script');
            && (s.errs == [] <==> s'.errs == [])
            && (s.errs == [] ==>
                  && (forall v :: s.eng.StateOf(v) == s'.eng.StateOf(v) && s.eng.IsActive(v) == s'.eng.IsActive(v))
                  && (forall t :: multiset(Lookup(s.eng.inbox, t, [])) == multiset(Lookup(s'.eng.inbox, t, []))))
  {
    assert forall v :: v in order <==> v in multiset(order);
    assert forall v :: v in order' <==> v in multiset(order');
    SuperstepConfluence(c, e0, order, step, counter, script);
    SuperstepConfluence(c, e0, order', step, counter', script');
    forall t ensures SentTo(c, e0, step, order, t) == SentTo(c, e0, step, order', t) {
      SentToPermutation(c, e0, step, order, order', t);
    }
    var s := Exec(c, Start(c, e0, order, step, counter), script);
    var s' := Exec(c, Start(c, e0, order', step, counter'), script');
    if s.errs == [] {
      SameAfter(c, e0, step, order, s.eng, order', s'.eng);
    }
  }

  lemma SameAfter(c: Config, e0: Engine, step: nat, order: seq<VertexId>, e: Engine, order': seq<VertexId>, e': Engine)
    requires AfterSuperstep(c, e0, order, step, e) && AfterSuperstep(c, e0, order', step, e')
    requires forall v :: v in order <==> v in order'
    requires forall t :: SentTo(c, e0, step, order, t) == SentTo(c, e0, step, order', t)
    ensures forall v :: e.StateOf(v) == e'.StateOf(v) && e.IsActive(v) == e'.IsActive(v)
    ensures forall t :: multiset(Lookup(e.inbox, t, [])) == multiset(Lookup(e'.inbox, t, []))
  {
    forall v ensures e.StateOf(v) == e'.StateOf(v) && e.IsActive(v) == e'.IsActive(v) {
      if v in order {
        assert v in order';
      }
    }
  }

  lemma ErrorsAreFailures(c: Config, e0: Engine, s: Sys)
    requires Inv(c, s) && DoneOk(c, e0, s) && s.errs != []
    ensures exists v :: v in s.order && Fails(c, e0, v)
  {
    var v :| v in s.done && Fails(c, e0, v);
    assert v in multiset(s.done);
    assert multiset(s.order)[v] == multiset(s.done)[v] + Waiting(s, v) + Ran(s, v);
    assert v in multiset(s.order);
  }
}
