/**
 Mail to a retried vertex that heeds it makes a superstep depend on the order in which results arrive
 (internal/core/pregel/engine.go:204-220): its next attempt is handed the messages that other
 vertices have sent in the meantime. One superstep of two vertices succeeds or fails with the order.
 */
module RetryOrder {
  import opened Wrappers
  import opened PregelModel
  import opened Superstep
  import opened Confluence
  import Messages

  const MAIL := Message("b", "a", IntValue(1), 0)

  /** `a` fails without mail, `b` writes to `a`; both halt and leave their state alone. */
  function NeedsMail(v: VertexId, state: StateMap, msgs: seq<Message>): Outcome {
    Outcome(FieldsOf(state), Argument, if v == "b" then [MAIL] else [], true,
            if v == "a" && msgs == [] then Some("no mail") else None)
  }

  const CONFIG := Config(NeedsMail, Standard, Messages.SumCombiner, 1, 0, 1, 2)

  const ENGINE := Engine(map[], 1, map["a" := 0, "b" := 0], map["a" := true, "b" := true], map[], map[], map[])

  const STAMPED := MAIL.(step := 1)

  const SCHEDULE := [Next, Enqueue, Next, Enqueue]
  const RUN := [Take(0, 0), Finish(0), Send(0)]

  /** Everything in a state but its history; the superstep is number 0 and has one worker. */
  ghost predicate Looks(
    s: Sys, order: seq<VertexId>, e: Engine, counter: nat, queue: seq<Task>, worker: Worker,
    results: seq<TaskResult>, coord: Coordinator, done: seq<VertexId>, errs: seq<VertexError>)
  {
    && s.order == order && s.step == 0 && s.eng == e && s.counter == counter
    && s.queues == [queue] && s.workers == [worker] && s.results == results
    && s.coord == coord && s.done == done && s.errs == errs && s.batch == []
  }

  /** The script is an interleaving from `s` to `t`. */
  ghost predicate Reaches(s: Sys, script: seq<Action>, t: Sys) {
    Admits(CONFIG, s, script) && Exec(CONFIG, s, script) == t
  }

  lemma Chain(s: Sys, a: Action, s1: Sys, rest: seq<Action>, t: Sys)
    requires Enabled(CONFIG, s, a) && s1 == Apply(CONFIG, s, a) && Reaches(s1, rest, t)
    ensures Reaches(s, [a] + rest, t)
  {
    assert ([a] + rest)[1..] == rest;
  }

  lemma FirstStep(s: Sys, x: seq<Action>, t: Sys) returns (s1: Sys)
    requires x != [] && Reaches(s, x, t)
    ensures Enabled(CONFIG, s, x[0]) && s1 == Apply(CONFIG, s, x[0]) && Reaches(s1, x[1..], t)
  {
    s1 := Apply(CONFIG, s, x[0]);
  }

  lemma {:induction false} Joined(s: Sys, x: seq<Action>, t: Sys, y: seq<Action>, u: Sys)
    requires Reaches(s, x, t) && Reaches(t, y, u)
    ensures Reaches(s, x + y, u)
    decreases |x|
  {
    if x == [] {
      assert x + y == y;
    } else {
      var s1 := FirstStep(s, x, t);
      Joined(s1, x[1..], t, y, u);
      Chain(s, x[0], s1, x[1..] + y, u);
      assert x + y == [x[0]] + (x[1..] + y);
    }
  }

  function TaskFor(v: VertexId, msgs: seq<Message>): Task { Task(v, 0, msgs) }

  function ResultFor(v: VertexId, msgs: seq<Message>): TaskResult {
    TaskResult(v, 0, NeedsMail(v, NilMap, msgs).messages, true, NeedsMail(v, NilMap, msgs).error)
  }

  /** The four steps that take a queued task to the result channel and on to the coordinator. */
  lemma RunOne(
    s: Sys, order: seq<VertexId>, e: Engine, counter: nat, v: VertexId, msgs: seq<Message>, queue: seq<Task>,
    done: seq<VertexId>, errs: seq<VertexError>)
    returns (s': Sys)
    requires Looks(s, order, e, counter, [TaskFor(v, msgs)] + queue, Idle, [], Dispatching([]), done, errs)
    requires |done| < |order| && 0 !in e.cells
    ensures Looks(s', order, e, counter, queue, Idle, [ResultFor(v, msgs)], Dispatching([]), done, errs)
    ensures Reaches(s, RUN, s')
  {
    var t := TaskFor(v, msgs);
    assert ([t] + queue)[1..] == queue;
    var s1 := Apply(CONFIG, s, Take(0, 0));
    assert Looks(s1, order, e, counter, queue, Running(t), [], Dispatching([]), done, errs);
    var s2 := Apply(CONFIG, s1, Finish(0));
    assert s2.workers == [Sending(ResultFor(v, msgs))];
    assert Looks(s2, order, e, counter, queue, Sending(ResultFor(v, msgs)), [], Dispatching([]), done, errs);
    s' := Apply(CONFIG, s2, Send(0));
    Chain(s2, Send(0), s', [], s');
    Chain(s1, Finish(0), s2, [Send(0)], s');
    Chain(s, Take(0, 0), s1, [Finish(0), Send(0)], s');
  }

  lemma Schedule(u: VertexId, w: VertexId) returns (s: Sys)
    requires u in ENGINE.states && w in ENGINE.states
    ensures Reaches(Start(CONFIG, ENGINE, [u, w], 0, 0), SCHEDULE, s)
    ensures Looks(s, [u, w], ENGINE, 2, [TaskFor(u, []), TaskFor(w, [])], Idle, [], Dispatching([]), [], [])
  {
    var s0 := Start(CONFIG, ENGINE, [u, w], 0, 0);
    assert [] + [TaskFor(u, [])] == [TaskFor(u, [])];
    assert [TaskFor(u, [])] + [TaskFor(w, [])] == [TaskFor(u, []), TaskFor(w, [])];
    var s1 := Apply(CONFIG, s0, Next);
    assert Looks(s1, [u, w], ENGINE, 1, [], Idle, [], Placing(TaskFor(u, []), 0, [w]), [], []);
    var s2 := Apply(CONFIG, s1, Enqueue);
    assert s2.queues[0] == [] + [TaskFor(u, [])];
    assert Looks(s2, [u, w], ENGINE, 1, [TaskFor(u, [])], Idle, [], Dispatching([w]), [], []);
    var s3 := Apply(CONFIG, s2, Next);
    assert Looks(s3, [u, w], ENGINE, 2, [TaskFor(u, [])], Idle, [], Placing(TaskFor(w, []), 0, []), [], []);
    s := Apply(CONFIG, s3, Enqueue);
    Chain(s3, Enqueue, s, [], s);
    Chain(s2, Next, s3, [Enqueue], s);
    Chain(s1, Enqueue, s2, [Next, Enqueue], s);
    Chain(s0, Next, s1, [Enqueue, Next, Enqueue], s);
  }

  /** The result of `b` is applied and its message queued for `a`. */
  lemma CollectSender(
    s: Sys, order: seq<VertexId>, e: Engine, counter: nat, queue: seq<Task>, done: seq<VertexId>,
    errs: seq<VertexError>)
    returns (s': Sys, e': Engine)
    requires Looks(s, order, e, counter, queue, Idle, [ResultFor("b", [])], Dispatching([]), done, errs)
    requires |done| < |order| && e.inbox == map[] && e.states == ENGINE.states
    ensures Reaches(s, [Collect], s')
    ensures Looks(s', order, e', counter, queue, Idle, [], Dispatching([]), done + ["b"], errs)
    ensures e'.inbox == map["a" := [STAMPED]] && e'.states == e.states && e'.AttemptsOf("a") == e.AttemptsOf("a")
    ensures e'.cells == e.cells
  {
    s' := Apply(CONFIG, s, Collect);
    e' := s'.eng;
    Chain(s, Collect, s', [], s');
    assert ResultFor("b", []).msgs == [MAIL] && [MAIL][1..] == [] && Stamp(MAIL, 0) == STAMPED;
    assert [] + [STAMPED] == [STAMPED];
    assert Messages.Queue(e.inbox, STAMPED) == map["a" := [STAMPED]];
    assert e'.states == e.states["b" := 0] == e.states;
  }

  /** The first failure of `a` puts it back into the queue, with what has been sent to it by then. */
  lemma CollectRetry(
    s: Sys, order: seq<VertexId>, e: Engine, counter: nat, queue: seq<Task>, done: seq<VertexId>, mail: seq<Message>)
    returns (s': Sys, e': Engine)
    requires Looks(s, order, e, counter, queue, Idle, [ResultFor("a", [])], Dispatching([]), done, [])
    requires |done| < |order| && e.AttemptsOf("a") == 0 && |queue| < 2 && e.states == ENGINE.states
    requires Lookup(e.inbox, "a", []) == mail && |mail| <= 1
    ensures Reaches(s, [Collect, Enqueue], s')
    ensures Looks(s', order, e', counter + 1, queue + [TaskFor("a", mail)], Idle, [], Dispatching([]), done, [])
    ensures e'.inbox == e.inbox && e'.states == e.states && e'.AttemptsOf("a") == 1 && e'.cells == e.cells
  {
    var s1 := Apply(CONFIG, s, Collect);
    e' := s1.eng;
    assert e' == e.(attempts := e.attempts["a" := 1]);
    assert Looks(s1, order, e', counter + 1, queue, Idle, [], Placing(TaskFor("a", mail), 0, []), done, []);
    s' := Apply(CONFIG, s1, Enqueue);
    Chain(s1, Enqueue, s', [], s');
    Chain(s, Collect, s1, [Enqueue], s');
  }

  /** The second result of `a` is final. */
  lemma CollectLast(s: Sys, order: seq<VertexId>, e: Engine, counter: nat, mail: seq<Message>, done: seq<VertexId>)
    returns (s': Sys)
    requires Looks(s, order, e, counter, [], Idle, [ResultFor("a", mail)], Dispatching([]), done, [])
    requires |done| < |order| && e.AttemptsOf("a") == 1
    ensures Reaches(s, [Collect], s')
    ensures s'.order == order && s'.coord == Dispatching([]) && s'.done == done + ["a"]
    ensures s'.errs == [] <==> mail != []
  {
    s' := Apply(CONFIG, s, Collect);
    Chain(s, Collect, s', [], s');
  }

  /** `a` first: it fails twice before the mail is there. */
  lemma MailComesLate() returns (script: seq<Action>)
    ensures var s0 := Start(CONFIG, ENGINE, ["a", "b"], 0, 0);
            Admits(CONFIG, s0, script) && Finished(CONFIG, Exec(CONFIG, s0, script))
                && Exec(CONFIG, s0, script).errs != []
  {
    var s0 := Start(CONFIG, ENGINE, ["a", "b"], 0, 0);
    var s1 := Schedule("a", "b");
    assert [TaskFor("a", []), TaskFor("b", [])] == [TaskFor("a", [])] + [TaskFor("b", [])];
    var s2 := RunOne(s1, ["a", "b"], ENGINE, 2, "a", [], [TaskFor("b", [])], [], []);
    var s3, e3 := CollectRetry(s2, ["a", "b"], ENGINE, 2, [TaskFor("b", [])], [], []);
    var s4 := RunOne(s3, ["a", "b"], e3, 3, "b", [], [TaskFor("a", [])], [], []);
    var s5, e5 := CollectSender(s4, ["a", "b"], e3, 3, [TaskFor("a", [])], [], []);
    assert [TaskFor("a", [])] == [TaskFor("a", [])] + [];
    var s6 := RunOne(s5, ["a", "b"], e5, 3, "a", [], [], ["b"], []);
    var s7 := CollectLast(s6, ["a", "b"], e5, 3, [], ["b"]);
    script := SCHEDULE + RUN + [Collect, Enqueue] + RUN + [Collect] + RUN + [Collect];
    Joined(s0, SCHEDULE, s1, RUN, s2);
    Joined(s0, SCHEDULE + RUN, s2, [Collect, Enqueue], s3);
    Joined(s0, SCHEDULE + RUN + [Collect, Enqueue], s3, RUN, s4);
    Joined(s0, SCHEDULE + RUN + [Collect, Enqueue] + RUN, s4, [Collect], s5);
    Joined(s0, SCHEDULE + RUN + [Collect, Enqueue] + RUN + [Collect], s5, RUN, s6);
    Joined(s0, SCHEDULE + RUN + [Collect, Enqueue] + RUN + [Collect] + RUN, s6, [Collect], s7);
  }

  /** `b` first: its message is there when `a` is tried again. */
  lemma MailComesEarly() returns (script: seq<Action>)
    ensures var s0 := Start(CONFIG, ENGINE, ["b", "a"], 0, 0);
            Admits(CONFIG, s0, script) && Finished(CONFIG, Exec(CONFIG, s0, script))
                && Exec(CONFIG, s0, script).errs == []
  {
    var s0 := Start(CONFIG, ENGINE, ["b", "a"], 0, 0);
    var s1 := Schedule("b", "a");
    assert [TaskFor("b", []), TaskFor("a", [])] == [TaskFor("b", [])] + [TaskFor("a", [])];
    var s2 := RunOne(s1, ["b", "a"], ENGINE, 2, "b", [], [TaskFor("a", [])], [], []);
    var s3, e3 := CollectSender(s2, ["b", "a"], ENGINE, 2, [TaskFor("a", [])], [], []);
    assert [TaskFor("a", [])] == [TaskFor("a", [])] + [];
    var s4 := RunOne(s3, ["b", "a"], e3, 2, "a", [], [], ["b"], []);
    var s5, e5 := CollectRetry(s4, ["b", "a"], e3, 2, [], ["b"], [STAMPED]);
    assert [] + [TaskFor("a", [STAMPED])] == [TaskFor("a", [STAMPED])] + [];
    var s6 := RunOne(s5, ["b", "a"], e5, 3, "a", [STAMPED], [], ["b"], []);
    var s7 := CollectLast(s6, ["b", "a"], e5, 3, [STAMPED], ["b"]);
    script := SCHEDULE + RUN + [Collect] + RUN + [Collect, Enqueue] + RUN + [Collect];
    Joined(s0, SCHEDULE, s1, RUN, s2);
    Joined(s0, SCHEDULE + RUN, s2, [Collect], s3);
    Joined(s0, SCHEDULE + RUN + [Collect], s3, RUN, s4);
    Joined(s0, SCHEDULE + RUN + [Collect] + RUN, s4, [Collect, Enqueue], s5);
    Joined(s0, SCHEDULE + RUN + [Collect] + RUN + [Collect, Enqueue], s5, RUN, s6);
    Joined(s0, SCHEDULE + RUN + [Collect] + RUN + [Collect, Enqueue] + RUN, s6, [Collect], s7);
  }

  lemma MailDisturbs()
    ensures !Undisturbed(CONFIG, ENGINE, ["a", "b"])
  {
    assert ENGINE.MessagesFor(CONFIG, "a") == [] && ENGINE.MessagesFor(CONFIG, "b") == [];
    assert IsRetried(CONFIG, ENGINE, "a") && !Fails(CONFIG, ENGINE, "b");
    assert Messages.Delivered(Messages.SumCombiner, [MAIL]) == [MAIL] && [] <= [MAIL];
    assert !Ignores(CONFIG, "a", [], NilMap, 0);
    assert Heeds(CONFIG, ENGINE, "a");
    assert MAIL in Expected(CONFIG, ENGINE, "b").messages;
    assert Mails(CONFIG, ENGINE, "b", "a");
    assert "a" in ["a", "b"] && "b" in ["a", "b"];
  }

  /**
   When somebody writes to a retried vertex that heeds its mail, the same superstep may fail or succeed:
   the condition on mail cannot be dropped from confluence.
   */
  lemma RetriesBreakConfluence() returns (late: seq<Action>, early: seq<Action>)
    ensures Runnable(CONFIG) && WellFormed(ENGINE) && Separated(ENGINE) && multiset(["a", "b"]) == multiset(["b", "a"])
    ensures !Undisturbed(CONFIG, ENGINE, ["a", "b"])
    ensures var s, s' := Start(CONFIG, ENGINE, ["a", "b"], 0, 0), Start(CONFIG, ENGINE, ["b", "a"], 0, 0);
            && Admits(CONFIG, s, late) && Finished(CONFIG, Exec(CONFIG, s, late))
            && Admits(CONFIG, s', early) && Finished(CONFIG, Exec(CONFIG, s', early))
            && Exec(CONFIG, s, late).errs != [] && Exec(CONFIG, s', early).errs == []
  {
    MailDisturbs();
    late := MailComesLate();
    early := MailComesEarly();
  }
}
