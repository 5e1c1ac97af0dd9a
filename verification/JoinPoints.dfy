/**
 Join points of parallel branches (internal/app/usecases/branch_manager.go). A completion passes
 through three separate critical sections: it marks its branch, then adds itself to the join point
 and tests the join condition, then closes the join point; the completion handler runs outside the
 lock. Any number of completions and the timeout interleave at those points.
 */
module JoinPoints {
  import opened Wrappers

  datatype Strategy = WaitAll | WaitAny | WaitFirst | Timeout | Unknown

  datatype Status = Waiting | Completed | TimedOut

  type Results = map<string, string>

  datatype Join = Join(
    strategy: Strategy, expected: seq<string>, handler: bool, timer: bool,
    completed: seq<string>, results: map<string, Results>, status: Status)

  datatype BranchStatus = Pending | Running | Done | Failed | Cancelled

  datatype Branch = Branch(joinID: string, status: BranchStatus, results: Results, error: string)

  datatype Error = BranchNotFound | JoinNotFound | HandlerFailed

  // ---------------------------------------------------------------- critical sections

  function Marked(b: Branch, results: Results, err: Option<string>): Branch {
    match err
    case None => b.(results := results, status := Done)
    case Some(e) => b.(results := results, status := Failed, error := e)
  }

  function Arrived(j: Join, branchID: string, results: Results): Join {
    j.(completed := j.completed + [branchID], results := j.results[branchID := results])
  }

  /** The join condition counts completions, repeated ones included. */
  predicate Reached(j: Join) {
    match j.strategy
    case WaitAny => |j.completed| > 0
    case WaitFirst => |j.completed| > 0
    case _ => |j.completed| >= |j.expected|
  }

  /** Leaving `waiting` happens only from `waiting`. */
  function Leave(j: Join, status: Status): Join {
    if j.status == Waiting then j.(status := status) else j
  }

  // ---------------------------------------------------------------- interleavings

  datatype Call = Call(branchID: string, results: Results, err: Option<string>)

  /** Where a completion stands: before each critical section, before its handler runs, or back. */
  datatype Phase =
    | Marking
    | Joining(join: string)
    | Closing(join: string)
    | Handling(join: string)
    | Returned(error: Option<Error>)

  /** `left` lists the joins that left `waiting`, `handled` what each handler run was given. */
  datatype Sys = Sys(
    branches: map<string, Branch>, joins: map<string, Join>,
    calls: seq<Call>, phases: seq<Phase>,
    left: seq<string>, handled: seq<string>, given: seq<Join>)

  datatype Action =
    | NewJoin(id: string, join: Join)
    | ChangeBranches(branches: map<string, Branch>)
    | NewCall(call: Call)
    | Mark(caller: nat)
    | Arrive(caller: nat)
    | Close(caller: nat)
    | Handle(caller: nat, ok: bool)
    | Expire(id: string)

  const EMPTY: Sys := Sys(map[], map[], [], [], [], [], [])

  ghost predicate Enabled(s: Sys, a: Action) {
    |s.calls| == |s.phases| &&
    match a
    case NewJoin(id, j) => id !in s.joins && j.completed == [] && j.results == map[] && j.status == Waiting
    case ChangeBranches(_) => true
    case NewCall(_) => true
    case Mark(i) => i < |s.phases| && s.phases[i] == Marking
    case Arrive(i) => i < |s.phases| && s.phases[i].Joining?
    case Close(i) => i < |s.phases| && s.phases[i].Closing? && s.phases[i].join in s.joins
    case Handle(i, _) => i < |s.phases| && s.phases[i].Handling? && s.phases[i].join in s.joins
    case Expire(id) => id in s.joins && s.joins[id].timer
  }

  ghost function Apply(s: Sys, a: Action): Sys
    requires Enabled(s, a)
  {
    match a
    case NewJoin(id, j) => s.(joins := s.joins[id := j])
    case ChangeBranches(b) => s.(branches := b)
    case NewCall(c) => s.(calls := s.calls + [c], phases := s.phases + [Marking])
    case Mark(i) =>
      var c := s.calls[i];
      if c.branchID !in s.branches then s.(phases := s.phases[i := Returned(Some(BranchNotFound))])
      else
        var b := s.branches[c.branchID];
        s.(branches := s.branches[c.branchID := Marked(b, c.results, c.err)],
           phases := s.phases[i := if b.joinID == "" then Returned(None) else Joining(b.joinID)])
    case Arrive(i) =>
      var c, id := s.calls[i], s.phases[i].join;
      if id !in s.joins then s.(phases := s.phases[i := Returned(Some(JoinNotFound))])
      else
        var j := Arrived(s.joins[id], c.branchID, c.results);
        s.(joins := s.joins[id := j], phases := s.phases[i := if Reached(j) then Closing(id) else Returned(None)])
    case Close(i) =>
      var id := s.phases[i].join;
      var j := s.joins[id];
      if j.status != Waiting then s.(phases := s.phases[i := Returned(None)])
      else
        s.(joins := s.joins[id := Leave(j, Completed)], left := s.left + [id],
           phases := s.phases[i := if j.handler then Handling(id) else Returned(None)])
    case Handle(i, ok) =>
      var id := s.phases[i].join;
      s.(handled := s.handled + [id], given := s.given + [s.joins[id]],
         phases := s.phases[i := Returned(if ok then None else Some(HandlerFailed))])
    case Expire(id) =>
      var j := s.joins[id];
      s.(joins := s.joins[id := Leave(j, TimedOut).(timer := false)],
         left := if j.status == Waiting then s.left + [id] else s.left)
  }

  ghost predicate Exec(s: Sys, script: seq<Action>, s': Sys)
    decreases |script|
  {
    if script == [] then s' == s
    else Enabled(s, script[0]) && Exec(Apply(s, script[0]), script[1..], s')
  }

  /**
   The five steps of callers and timeouts, in full: where the caller goes, and what changes. A branch
   without a join ends its completion; the handler's error is the caller's; a timeout runs once.
   */
  lemma MarkMeans(s: Sys, i: nat)
    requires Enabled(s, Mark(i))
    ensures var c, s' := s.calls[i], Apply(s, Mark(i));
            && s' == s.(branches := s'.branches, phases := s.phases[i := s'.phases[i]])
            && (c.branchID !in s.branches ==>
                  s'.branches == s.branches && s'.phases[i] == Returned(Some(BranchNotFound)))
            && (c.branchID in s.branches ==>
                  var was := s.branches[c.branchID];
                  && s'.branches.Keys == s.branches.Keys
                  && (forall b :: b in s.branches && b != c.branchID ==> s'.branches[b] == s.branches[b])
                  && s'.branches[c.branchID].results == c.results && s'.branches[c.branchID].joinID == was.joinID
                  && s'.branches[c.branchID].status == (if c.err.Some? then Failed else Done)
                  && s'.branches[c.branchID].error == (if c.err.Some? then c.err.value else was.error)
                  && (|was.joinID| == 0 ==> s'.phases[i] == Returned(None))
                  && (|was.joinID| > 0 ==> s'.phases[i] == Joining(was.joinID)))
  {
  }

  lemma ArriveMeans(s: Sys, i: nat)
    requires Enabled(s, Arrive(i))
    ensures var c, id, s' := s.calls[i], s.phases[i].join, Apply(s, Arrive(i));
            && s' == s.(joins := s'.joins, phases := s.phases[i := s'.phases[i]])
            && (id !in s.joins ==> s'.joins == s.joins && s'.phases[i] == Returned(Some(JoinNotFound)))
            && (id in s.joins ==>
                  var was, now := s.joins[id], s'.joins[id];
                  && s'.joins == s.joins[id := now]
                  && now == was.(
                       completed := was.completed + [c.branchID], results := was.results[c.branchID := c.results])
                  && s'.phases[i] in {Closing(id), Returned(None)}
                  && (s'.phases[i] == Closing(id) <==>
                        was.strategy.WaitAny? || was.strategy.WaitFirst? || |was.completed| + 1 >= |was.expected|))
  {
  }

  lemma CloseMeans(s: Sys, i: nat)
    requires Enabled(s, Close(i))
    ensures var id, s' := s.phases[i].join, Apply(s, Close(i));
            && s' == s.(joins := s'.joins, left := s'.left, phases := s.phases[i := s'.phases[i]])
            && (s.joins[id].status != Waiting ==>
                  s'.joins == s.joins && s'.left == s.left && s'.phases[i] == Returned(None))
            && (s.joins[id].status == Waiting ==>
                  && s'.joins == s.joins[id := s.joins[id].(status := Completed)] && s'.left == s.left + [id]
                  && s'.phases[i] == if s.joins[id].handler then Handling(id) else Returned(None))
  {
  }

  lemma HandleMeans(s: Sys, i: nat, ok: bool)
    requires Enabled(s, Handle(i, ok))
    ensures var id, s' := s.phases[i].join, Apply(s, Handle(i, ok));
            && s' == s.(handled := s.handled + [id], given := s.given + [s.joins[id]], phases := s'.phases)
            && (ok ==> s'.phases == s.phases[i := Returned(None)])
            && (!ok ==> s'.phases == s.phases[i := Returned(Some(HandlerFailed))])
  {
  }

  lemma ExpireMeans(s: Sys, id: string)
    requires Enabled(s, Expire(id))
    ensures var s' := Apply(s, Expire(id));
            && s' == s.(joins := s.joins[id := s'.joins[id]], left := s'.left)
            && (s.joins[id].status == Waiting ==>
                  s'.joins[id] == s.joins[id].(status := TimedOut, timer := false) && s'.left == s.left + [id])
            && (s.joins[id].status != Waiting ==> s'.joins[id] == s.joins[id].(timer := false) && s'.left == s.left)
  {
  }

  // ---------------------------------------------------------------- the invariant

  function Times(ids: seq<string>, id: string): nat {
    multiset(ids)[id]
  }

  function Callers(phases: seq<Phase>, p: Phase): nat {
    multiset(phases)[p]
  }

  /** What holds of one join point, whoever is on the way to it. */
  ghost predicate JoinInv(j: Join, id: string, phases: seq<Phase>, left: seq<string>, handled: seq<string>) {
    && (forall b :: b in j.results <==> b in j.completed)
    && Times(left, id) == (if j.status == Waiting then 0 else 1)
    && Callers(phases, Handling(id)) + Times(handled, id) == (if j.status == Completed && j.handler then 1 else 0)
    && (j.status == Completed ==> Reached(j) && j.completed != [])
    && (Callers(phases, Closing(id)) > 0 ==> Reached(j) && j.completed != [])
    && (j.completed != [] && Reached(j) && j.status == Waiting ==> Callers(phases, Closing(id)) > 0)
  }

  /** A join that does not exist yet has seen nobody. */
  ghost predicate Untouched(s: Sys, id: string) {
    && Callers(s.phases, Handling(id)) == 0 && Callers(s.phases, Closing(id)) == 0
    && Times(s.left, id) == 0 && Times(s.handled, id) == 0
  }

  /** What a handler was given: a decided join with its threshold reached, and the results of all who had arrived. */
  ghost predicate GivenRight(j: Join, now: Join) {
    && j.status == Completed && Reached(j) && j.handler && j.completed <= now.completed
    && (forall b :: b in j.results <==> b in j.completed)
  }

  ghost predicate Inv(s: Sys) {
    && |s.calls| == |s.phases| && |s.given| == |s.handled|
    && (forall id :: id in s.joins ==> JoinInv(s.joins[id], id, s.phases, s.left, s.handled))
    && (forall id :: id !in s.joins ==> Untouched(s, id))
    && (forall k :: 0 <= k < |s.handled| ==> s.handled[k] in s.joins && GivenRight(s.given[k], s.joins[s.handled[k]]))
  }

  lemma Moved(phases: seq<Phase>, i: nat, p: Phase)
    requires i < |phases|
    ensures forall q ::
      Callers(phases[i := p], q) == Callers(phases, q) - (if phases[i] == q then 1 else 0) + (if p == q then 1 else 0)
  {
    assert phases == phases[..i] + [phases[i]] + phases[i + 1..];
    assert phases[i := p] == phases[..i] + [p] + phases[i + 1..];
  }

  lemma Joined(phases: seq<Phase>)
    ensures forall q :: q != Marking ==> Callers(phases + [Marking], q) == Callers(phases, q)
  {
  }

  lemma Added(ids: seq<string>, id: string)
    ensures forall k :: Times(ids + [id], k) == Times(ids, k) + if k == id then 1 else 0
  {
  }

  /** A caller standing at a join is counted there, so the join exists. */
  lemma StandsAt(s: Sys, i: nat)
    requires Inv(s) && i < |s.phases| && (s.phases[i].Closing? || s.phases[i].Handling?)
    ensures Callers(s.phases, s.phases[i]) > 0 && s.phases[i].join in s.joins
  {
    assert s.phases[i] in multiset(s.phases);
    if s.phases[i].join !in s.joins {
      assert Untouched(s, s.phases[i].join);
    }
  }

  /** A caller that is not at a join, before or after, changes no count there. */
  lemma MovedElsewhere(phases: seq<Phase>, i: nat, p: Phase)
    requires i < |phases| && (phases[i].Marking? || phases[i].Joining?) && (p.Joining? || p.Returned?)
    ensures forall id :: Callers(phases[i := p], Handling(id)) == Callers(phases, Handling(id))
    ensures forall id :: Callers(phases[i := p], Closing(id)) == Callers(phases, Closing(id))
  {
    Moved(phases, i, p);
  }

  lemma MarkShape(s: Sys, i: nat, p: Phase, branches: map<string, Branch>)
    requires Inv(s) && i < |s.phases| && s.phases[i] == Marking && (p.Joining? || p.Returned?)
    ensures Inv(s.(branches := branches, phases := s.phases[i := p]))
  {
    MovedElsewhere(s.phases, i, p);
    KeepsJoins(s, s.(branches := branches, phases := s.phases[i := p]));
  }

  lemma MarkInv(s: Sys, i: nat)
    requires Inv(s) && Enabled(s, Mark(i))
    ensures Inv(Apply(s, Mark(i)))
  {
    var s' := Apply(s, Mark(i));
    MarkShape(s, i, s'.phases[i], s'.branches);
  }

  /** A step that leaves joins, logs and the counts of callers at joins alone. */
  lemma KeepsJoins(s: Sys, s': Sys)
    requires Inv(s) && s'.joins == s.joins && s'.left == s.left && s'.handled == s.handled && s'.given == s.given
    requires |s'.calls| == |s'.phases|
    requires forall id :: Callers(s'.phases, Handling(id)) == Callers(s.phases, Handling(id))
    requires forall id :: Callers(s'.phases, Closing(id)) == Callers(s.phases, Closing(id))
    ensures Inv(s')
  {
    forall id | id in s'.joins ensures JoinInv(s'.joins[id], id, s'.phases, s'.left, s'.handled) {
      assert JoinInv(s.joins[id], id, s.phases, s.left, s.handled);
    }
    forall id | id !in s'.joins ensures Untouched(s', id) {
      assert Untouched(s, id);
    }
  }

  /** A step at one join: the others, and what earlier handlers were given, stay as they were. */
  lemma ChangesOneJoin(s: Sys, s': Sys, id: string)
    requires Inv(s) && id in s.joins && id in s'.joins && s'.joins == s.joins[id := s'.joins[id]]
    requires |s'.calls| == |s'.phases|
    requires s.joins[id].completed <= s'.joins[id].completed
    requires s'.handled == s.handled && s'.given == s.given
    requires forall k :: k != id ==> Times(s'.left, k) == Times(s.left, k)
    requires forall k :: k != id ==> Callers(s'.phases, Handling(k)) == Callers(s.phases, Handling(k))
    requires forall k :: k != id ==> Callers(s'.phases, Closing(k)) == Callers(s.phases, Closing(k))
    requires JoinInv(s'.joins[id], id, s'.phases, s'.left, s'.handled)
    ensures Inv(s')
  {
    forall k | k in s'.joins ensures JoinInv(s'.joins[k], k, s'.phases, s'.left, s'.handled) {
      assert JoinInv(s.joins[k], k, s.phases, s.left, s.handled);
    }
    forall k | k !in s'.joins ensures Untouched(s', k) {
      assert Untouched(s, k);
    }
    forall k | 0 <= k < |s'.handled|
      ensures s'.handled[k] in s'.joins && GivenRight(s'.given[k], s'.joins[s'.handled[k]])
    {
      assert GivenRight(s.given[k], s.joins[s.handled[k]]);
    }
  }

  lemma ArrivedKeeps(
    j: Join, id: string, b: string, r: Results, phases: seq<Phase>, i: nat, p: Phase,
    left: seq<string>, handled: seq<string>)
    requires JoinInv(j, id, phases, left, handled) && i < |phases| && phases[i] == Joining(id)
    requires p == if Reached(Arrived(j, b, r)) then Closing(id) else Returned(None)
    ensures JoinInv(Arrived(j, b, r), id, phases[i := p], left, handled)
  {
    Moved(phases, i, p);
    assert Reached(j) ==> Reached(Arrived(j, b, r));
  }

  lemma ArriveFound(s: Sys, i: nat, id: string, j: Join, c: Call, p: Phase)
    requires Inv(s) && i < |s.phases| && s.phases[i] == Joining(id) && id in s.joins && j == s.joins[id]
    requires p == if Reached(Arrived(j, c.branchID, c.results)) then Closing(id) else Returned(None)
    ensures Inv(s.(joins := s.joins[id := Arrived(j, c.branchID, c.results)], phases := s.phases[i := p]))
  {
    var s' := s.(joins := s.joins[id := Arrived(j, c.branchID, c.results)], phases := s.phases[i := p]);
    Moved(s.phases, i, p);
    assert JoinInv(j, id, s.phases, s.left, s.handled);
    ArrivedKeeps(j, id, c.branchID, c.results, s.phases, i, p, s.left, s.handled);
    ChangesOneJoin(s, s', id);
  }

  lemma ArriveLost(s: Sys, i: nat)
    requires Inv(s) && i < |s.phases| && s.phases[i].Joining?
    ensures Inv(s.(phases := s.phases[i := Returned(Some(JoinNotFound))]))
  {
    var s' := s.(phases := s.phases[i := Returned(Some(JoinNotFound))]);
    MovedElsewhere(s.phases, i, Returned(Some(JoinNotFound)));
    KeepsJoins(s, s');
  }

  lemma ArriveInv(s: Sys, i: nat)
    requires Inv(s) && Enabled(s, Arrive(i))
    ensures Inv(Apply(s, Arrive(i)))
  {
    var id := s.phases[i].join;
    if id in s.joins {
      var j, c := s.joins[id], s.calls[i];
      ArriveFound(s, i, id, j, c, if Reached(Arrived(j, c.branchID, c.results)) then Closing(id) else Returned(None));
    } else {
      ArriveLost(s, i);
    }
  }

  lemma ClosedKeeps(j: Join, id: string, phases: seq<Phase>, i: nat, p: Phase, left: seq<string>, handled: seq<string>)
    requires JoinInv(j, id, phases, left, handled) && i < |phases| && phases[i] == Closing(id) && j.status == Waiting
    requires p == if j.handler then Handling(id) else Returned(None)
    ensures JoinInv(Leave(j, Completed), id, phases[i := p], left + [id], handled)
  {
    assert phases[i] in multiset(phases);
    Moved(phases, i, p);
    Added(left, id);
  }

  /** A caller that closes a join changes no count at another one. */
  lemma CloseCounts(phases: seq<Phase>, i: nat, id: string, p: Phase, left: seq<string>)
    requires i < |phases| && phases[i] == Closing(id) && (p == Handling(id) || p == Returned(None))
    ensures forall k :: k != id ==> Times(left + [id], k) == Times(left, k)
    ensures forall k :: k != id ==> Callers(phases[i := p], Handling(k)) == Callers(phases, Handling(k))
    ensures forall k :: k != id ==> Callers(phases[i := p], Closing(k)) == Callers(phases, Closing(k))
  {
    Moved(phases, i, p);
    Added(left, id);
  }

  lemma CloseFirst(s: Sys, i: nat, id: string, j: Join, p: Phase)
    requires Inv(s) && i < |s.phases| && s.phases[i] == Closing(id) && id in s.joins && j == s.joins[id]
    requires j.status == Waiting && p == if j.handler then Handling(id) else Returned(None)
    ensures Inv(s.(joins := s.joins[id := Leave(j, Completed)], left := s.left + [id], phases := s.phases[i := p]))
  {
    var s' := s.(joins := s.joins[id := Leave(j, Completed)], left := s.left + [id], phases := s.phases[i := p]);
    CloseCounts(s.phases, i, id, p, s.left);
    ClosedKeeps(j, id, s.phases, i, p, s.left, s.handled);
    ChangesOneJoin(s, s', id);
  }

  lemma CloseLate(s: Sys, i: nat, id: string)
    requires Inv(s) && i < |s.phases| && s.phases[i] == Closing(id) && id in s.joins && s.joins[id].status != Waiting
    ensures Inv(s.(phases := s.phases[i := Returned(None)]))
  {
    var s' := s.(phases := s.phases[i := Returned(None)]);
    Moved(s.phases, i, Returned(None));
    assert JoinInv(s.joins[id], id, s.phases, s.left, s.handled);
    assert s'.joins == s.joins[id := s'.joins[id]];
    assert JoinInv(s.joins[id], id, s'.phases, s'.left, s'.handled);
    ChangesOneJoin(s, s', id);
  }

  lemma CloseInv(s: Sys, i: nat)
    requires Inv(s) && Enabled(s, Close(i))
    ensures Inv(Apply(s, Close(i)))
  {
    var id := s.phases[i].join;
    var j := s.joins[id];
    if j.status == Waiting {
      CloseFirst(s, i, id, j, if j.handler then Handling(id) else Returned(None));
    } else {
      CloseLate(s, i, id);
    }
  }

  lemma ExpireInv(s: Sys, id: string)
    requires Inv(s) && Enabled(s, Expire(id))
    ensures Inv(Apply(s, Expire(id)))
  {
    var s' := Apply(s, Expire(id));
    Added(s.left, id);
    assert JoinInv(s.joins[id], id, s.phases, s.left, s.handled);
    ChangesOneJoin(s, s', id);
  }

  lemma HandleInv(s: Sys, i: nat, ok: bool)
    requires Inv(s) && Enabled(s, Handle(i, ok))
    ensures Inv(Apply(s, Handle(i, ok)))
  {
    HandleShape(s, i, s.phases[i].join, if ok then None else Some(HandlerFailed));
  }

  /** A caller whose handler has run moves from one count to the other. */
  lemma HandleCounts(phases: seq<Phase>, i: nat, id: string, e: Option<Error>, handled: seq<string>)
    requires i < |phases| && phases[i] == Handling(id)
    ensures var after, done := phases[i := Returned(e)], handled + [id];
            && (forall k ::
                  Callers(after, Handling(k)) + Times(done, k) ==
                  Callers(phases, Handling(k)) + Times(handled, k))
            && (forall k :: Callers(after, Handling(k)) <= Callers(phases, Handling(k)))
            && (forall k :: k != id ==> Times(done, k) == Times(handled, k))
            && (forall k :: Callers(after, Closing(k)) == Callers(phases, Closing(k)))
  {
    Moved(phases, i, Returned(e));
    Added(handled, id);
  }

  /** A join with a caller at its handler is decided, with its threshold reached. */
  lemma HandlingIsRight(s: Sys, i: nat)
    requires Inv(s) && i < |s.phases| && s.phases[i].Handling? && s.phases[i].join in s.joins
    ensures var j := s.joins[s.phases[i].join]; GivenRight(j, j)
  {
    StandsAt(s, i);
    assert JoinInv(s.joins[s.phases[i].join], s.phases[i].join, s.phases, s.left, s.handled);
  }

  lemma HandleShape(s: Sys, i: nat, id: string, e: Option<Error>)
    requires Inv(s) && i < |s.phases| && s.phases[i] == Handling(id) && id in s.joins
    ensures Inv(s.(
      handled := s.handled + [id], given := s.given + [s.joins[id]], phases := s.phases[i := Returned(e)]))
  {
    var s' := s.(
      handled := s.handled + [id], given := s.given + [s.joins[id]], phases := s.phases[i := Returned(e)]);
    HandlingIsRight(s, i);
    HandleCounts(s.phases, i, id, e, s.handled);
    HandledKeeps(s, s', id);
  }

  lemma HandledKeeps(s: Sys, s': Sys, id: string)
    requires Inv(s) && s'.joins == s.joins && s'.left == s.left && |s'.calls| == |s'.phases|
    requires id in s.joins && s'.handled == s.handled + [id] && s'.given == s.given + [s.joins[id]]
    requires GivenRight(s.joins[id], s.joins[id])
    requires forall k ::
               Callers(s'.phases, Handling(k)) + Times(s'.handled, k) ==
               Callers(s.phases, Handling(k)) + Times(s.handled, k)
    requires forall k :: Callers(s'.phases, Handling(k)) <= Callers(s.phases, Handling(k))
    requires forall k :: k != id ==> Times(s'.handled, k) == Times(s.handled, k)
    requires forall k :: Callers(s'.phases, Closing(k)) == Callers(s.phases, Closing(k))
    ensures Inv(s')
  {
    forall k | k in s'.joins ensures JoinInv(s'.joins[k], k, s'.phases, s'.left, s'.handled) {
      assert JoinInv(s.joins[k], k, s.phases, s.left, s.handled);
    }
    forall k | k !in s'.joins ensures Untouched(s', k) {
      assert Untouched(s, k);
    }
    forall k | 0 <= k < |s'.handled|
      ensures s'.handled[k] in s'.joins && GivenRight(s'.given[k], s'.joins[s'.handled[k]])
    {
      if k < |s.handled| {
        assert GivenRight(s.given[k], s.joins[s.handled[k]]);
      }
    }
  }

  lemma NewJoinInv(s: Sys, id: string, j: Join)
    requires Inv(s) && Enabled(s, NewJoin(id, j))
    ensures Inv(Apply(s, NewJoin(id, j)))
  {
    var s' := Apply(s, NewJoin(id, j));
    assert Untouched(s, id);
    forall k | k in s'.joins ensures JoinInv(s'.joins[k], k, s'.phases, s'.left, s'.handled) {
      if k in s.joins { assert JoinInv(s.joins[k], k, s.phases, s.left, s.handled); }
    }
    forall k | k !in s'.joins ensures Untouched(s', k) {
      assert Untouched(s, k);
    }
    forall k | 0 <= k < |s'.handled|
      ensures s'.handled[k] in s'.joins && GivenRight(s'.given[k], s'.joins[s'.handled[k]])
    {
      assert s.handled[k] in s.joins;
    }
  }

  lemma StepInv(s: Sys, a: Action)
    requires Inv(s) && Enabled(s, a)
    ensures Inv(Apply(s, a))
  {
    match a
    case NewJoin(id, j) => NewJoinInv(s, id, j);
    case ChangeBranches(_) => KeepsJoins(s, Apply(s, a));
    case NewCall(_) => Joined(s.phases); KeepsJoins(s, Apply(s, a));
    case Mark(i) => MarkInv(s, i);
    case Arrive(i) => ArriveInv(s, i);
    case Close(i) => CloseInv(s, i);
    case Handle(i, ok) => HandleInv(s, i, ok);
    case Expire(id) => ExpireInv(s, id);
  }

  lemma {:induction false} RunInv(s: Sys, script: seq<Action>, s': Sys)
    requires Inv(s) && Exec(s, script, s')
    ensures Inv(s')
    decreases |script|
  {
    if script != [] {
      StepInv(s, script[0]);
      RunInv(Apply(s, script[0]), script[1..], s');
    }
  }

  /** At any time a branch may complete, the branch table change, a join be created, and a pending timeout expire. */
  lemma AnyTime(script: seq<Action>, s: Sys, c: Call, branches: map<string, Branch>, id: string, j: Join)
    requires Exec(EMPTY, script, s)
    ensures Enabled(s, NewCall(c)) && Apply(s, NewCall(c)) == s.(calls := s.calls + [c], phases := s.phases + [Marking])
    ensures Enabled(s, ChangeBranches(branches)) && Apply(s, ChangeBranches(branches)) == s.(branches := branches)
    ensures id !in s.joins && j.completed == [] && j.results == map[] && j.status == Waiting ==>
              Enabled(s, NewJoin(id, j)) && Apply(s, NewJoin(id, j)) == s.(joins := s.joins[id := j])
    ensures id in s.joins && s.joins[id].timer ==> Enabled(s, Expire(id))
  {
    EmptyInv();
    RunInv(EMPTY, script, s);
  }

  /** How many steps of its own a completion still has before it at most. */
  function StepsLeft(p: Phase): nat {
    match p
    case Marking => 4
    case Joining(_) => 3
    case Closing(_) => 2
    case Handling(_) => 1
    case Returned(_) => 0
  }

  lemma CallerEnabled(s: Sys, i: nat, ok: bool) returns (a: Action)
    requires Inv(s) && i < |s.phases| && !s.phases[i].Returned?
    ensures a in {Mark(i), Arrive(i), Close(i), Handle(i, ok)} && Enabled(s, a)
  {
    match s.phases[i] {
      case Marking => a := Mark(i);
      case Joining(_) => a := Arrive(i);
      case Closing(_) => StandsAt(s, i); a := Close(i);
      case Handling(_) => StandsAt(s, i); a := Handle(i, ok);
    }
  }

  lemma CallerAdvances(s: Sys, i: nat, ok: bool, a: Action)
    requires a in {Mark(i), Arrive(i), Close(i), Handle(i, ok)} && Enabled(s, a)
    ensures i < |Apply(s, a).phases| && StepsLeft(Apply(s, a).phases[i]) < StepsLeft(s.phases[i]) <= 4
  {
    match a {
      case Mark(_) => MarkMeans(s, i);
      case Arrive(_) => ArriveMeans(s, i);
      case Close(_) => CloseMeans(s, i);
      case Handle(_, _) => HandleMeans(s, i, ok);
    }
  }

  /** A completion that has not returned can always move, and returns after at most four steps of its own. */
  lemma CallerMoves(script: seq<Action>, s: Sys, i: nat, ok: bool) returns (a: Action)
    requires Exec(EMPTY, script, s) && i < |s.phases| && !s.phases[i].Returned?
    ensures a in {Mark(i), Arrive(i), Close(i), Handle(i, ok)} && Enabled(s, a)
    ensures i < |Apply(s, a).phases| && StepsLeft(Apply(s, a).phases[i]) < StepsLeft(s.phases[i]) <= 4
  {
    EmptyInv();
    RunInv(EMPTY, script, s);
    a := CallerEnabled(s, i, ok);
    CallerAdvances(s, i, ok, a);
  }

  // ---------------------------------------------------------------- the results

  /** In every reachable state a join has left `waiting` at most once, and at most one handler has run for it. */
  lemma DecidedOnce(script: seq<Action>, s: Sys, id: string)
    requires Exec(EMPTY, script, s) && id in s.joins
    ensures Times(s.left, id) == (if s.joins[id].status == Waiting then 0 else 1)
    ensures Times(s.handled, id) <= 1
    ensures var j := s.joins[id];
            Times(s.handled, id) == 1 || j.status == Completed ==>
              && j.status == Completed
              && (j.strategy.WaitAny? || j.strategy.WaitFirst? ==> |j.completed| > 0)
              && (j.strategy.WaitAll? || j.strategy.Timeout? || j.strategy.Unknown? ==> |j.completed| >= |j.expected|)
  {
    EmptyInv();
    RunInv(EMPTY, script, s);
    assert JoinInv(s.joins[id], id, s.phases, s.left, s.handled);
  }

  lemma EmptyInv()
    ensures Inv(EMPTY)
  {
  }

  /**
   Every handler run starts on a completed join whose threshold was reached, with the results of all who
   had arrived. The results are the live map of the join: later completions go on adding to it.
   */
  lemma HandlersSeeTheirJoin(script: seq<Action>, s: Sys, k: nat)
    requires Exec(EMPTY, script, s) && k < |s.handled|
    ensures |s.given| == |s.handled| && s.handled[k] in s.joins
    ensures var j := s.given[k];
            && j.status == Completed
            && (j.strategy.WaitAny? || j.strategy.WaitFirst? ==> |j.completed| > 0)
            && (j.strategy.WaitAll? || j.strategy.Timeout? || j.strategy.Unknown? ==> |j.completed| >= |j.expected|)
    ensures forall b :: b in s.given[k].results <==> b in s.given[k].completed
    ensures s.given[k].completed <= s.joins[s.handled[k]].completed
    ensures forall b :: b in s.given[k].results ==> b in s.joins[s.handled[k]].results
  {
    EmptyInv();
    RunInv(EMPTY, script, s);
    assert JoinInv(s.joins[s.handled[k]], s.handled[k], s.phases, s.left, s.handled);
    assert GivenRight(s.given[k], s.joins[s.handled[k]]);
  }

  /** Every completion that was called has returned. */
  ghost predicate Quiescent(s: Sys) {
    forall p :: p in s.phases ==> p.Returned?
  }

  /**
     With nobody on the way: a join that waits has not had a completion that reached its threshold,
     a completed one has reached it and has run its handler, a timed-out one never runs it.
   */
  lemma NobodyIsForgotten(script: seq<Action>, s: Sys, id: string)
    requires Exec(EMPTY, script, s) && Quiescent(s) && id in s.joins
    ensures var j := s.joins[id];
            && (j.status == Waiting && j.completed != [] ==>
                  !j.strategy.WaitAny? && !j.strategy.WaitFirst? && |j.completed| < |j.expected|)
            && (j.status == Completed && (j.strategy.WaitAny? || j.strategy.WaitFirst?) ==> |j.completed| > 0)
            && (j.status == Completed && !j.strategy.WaitAny? && !j.strategy.WaitFirst? ==>
                  |j.completed| >= |j.expected|)
    ensures Times(s.handled, id) == (if s.joins[id].status == Completed && s.joins[id].handler then 1 else 0)
  {
    EmptyInv();
    RunInv(EMPTY, script, s);
    assert JoinInv(s.joins[id], id, s.phases, s.left, s.handled);
    assert Closing(id) !in s.phases && Handling(id) !in s.phases;
  }

  /** A decision is final, and completions only add up. */
  ghost predicate Later(j: Join, j': Join) {
    && j'.strategy == j.strategy && j'.expected == j.expected && j'.handler == j.handler
    && j.completed <= j'.completed && (j.status != Waiting ==> j'.status == j.status)
  }

  lemma {:induction false} DecisionIsFinal(s: Sys, script: seq<Action>, s': Sys, id: string)
    requires Exec(s, script, s') && id in s.joins
    ensures id in s'.joins && Later(s.joins[id], s'.joins[id])
    decreases |script|
  {
    if script != [] {
      DecisionIsFinal(Apply(s, script[0]), script[1..], s', id);
    }
  }

  // ---------------------------------------------------------------- the manager

  class JoinPoint {
    const strategy: Strategy
    const expected: seq<string>
    const handler: bool
    var timer: bool
    var completed: seq<string>
    var results: map<string, Results>
    var status: Status

    ghost function View(): Join
      reads this
    {
      Join(strategy, expected, handler, timer, completed, results, status)
    }

    constructor (strategy: Strategy, expected: seq<string>, timed: bool, handler: bool)
      ensures View() == Join(strategy, expected, handler, timed, [], map[], Waiting)
    {
      this.strategy, this.expected, this.handler := strategy, expected, handler;
      timer, completed, results, status := timed, [], map[], Waiting;
    }
  }

  class BranchManager {
    var branches: map<string, Branch>
    var joinPoints: map<string, JoinPoint>

    /** No two ids share a join point object. */
    ghost predicate Valid()
      reads this
    {
      forall k, l :: k in joinPoints && l in joinPoints && k != l ==> joinPoints[k] != joinPoints[l]
    }

    ghost function Joins(): map<string, Join>
      reads this, joinPoints.Values
    {
      map k | k in joinPoints :: joinPoints[k].View()
    }

    /** The protocol state has these branches and joins. */
    ghost predicate Shows(s: Sys)
      reads this, joinPoints.Values
    {
      branches == s.branches && Joins() == s.joins
    }

    constructor ()
      ensures Valid() && branches == map[] && joinPoints == map[] && Shows(EMPTY)
    {
      branches, joinPoints := map[], map[];
    }

    method CreateJoinPoint(
      id: string, strategy: Strategy, expected: seq<string>, timed: bool, handler: bool, ghost s: Sys)
      requires Valid() && id !in joinPoints && Shows(s) && |s.calls| == |s.phases|
      modifies `joinPoints
      ensures Shows(Apply(s, NewJoin(id, Join(strategy, expected, handler, timed, [], map[], Waiting))))
      ensures Valid() && Joins() == old(Joins())[id := Join(strategy, expected, handler, timed, [], map[], Waiting)]
    {
      var joinPoint := new JoinPoint(strategy, expected, timed, handler);
      joinPoints := joinPoints[id := joinPoint];
    }

    /** First critical section of `CompleteBranch`. */
    method MarkBranch(c: Call, ghost s: Sys, ghost i: nat) returns (next: Phase)
      requires Valid() && Shows(s) && Enabled(s, Mark(i)) && c == s.calls[i]
      modifies `branches
      ensures Shows(Apply(s, Mark(i))) && next == Apply(s, Mark(i)).phases[i]
      ensures next == (
          if c.branchID !in old(branches) then Returned(Some(BranchNotFound))
          else if old(branches)[c.branchID].joinID == "" then Returned(None)
          else Joining(old(branches)[c.branchID].joinID))
      ensures branches == if c.branchID !in old(branches) then old(branches)
                          else old(branches)[c.branchID := Marked(old(branches)[c.branchID], c.results, c.err)]
      ensures c.branchID in old(branches) ==>
                var was, now := old(branches)[c.branchID], branches[c.branchID];
                && now.results == c.results && now.joinID == was.joinID
                && now.status == (if c.err.None? then Done else Failed)
                && now.error == (if c.err.None? then was.error else c.err.value)
    {
      if c.branchID !in branches {
        return Returned(Some(BranchNotFound));
      }
      var exec := branches[c.branchID].(results := c.results);
      if c.err.Some? {
        exec := exec.(status := Failed, error := c.err.value);
      } else {
        exec := exec.(status := Done);
      }
      branches := branches[c.branchID := exec];
      if exec.joinID != "" {
        return Joining(exec.joinID);
      }
      return Returned(None);
    }

    method EvaluateJoinCondition(joinPoint: JoinPoint) returns (met: bool)
      ensures met == Reached(joinPoint.View())
      ensures joinPoint.strategy.WaitAll? || joinPoint.strategy.Timeout? || joinPoint.strategy.Unknown? ==>
                (met <==> |joinPoint.completed| >= |joinPoint.expected|)
      ensures joinPoint.strategy.WaitAny? || joinPoint.strategy.WaitFirst? ==> (met <==> |joinPoint.completed| > 0)
    {
      var completed, expected := |joinPoint.completed|, |joinPoint.expected|;
      match joinPoint.strategy
      case WaitAll => return completed >= expected;
      case WaitAny => return completed > 0;
      case WaitFirst => return completed > 0;
      case Timeout => return completed >= expected;
      case Unknown => return completed >= expected;
    }

    /** Second critical section: the branch joins the completed list and the condition is tested. */
    method ProcessBranchCompletion(id: string, c: Call, ghost s: Sys, ghost i: nat) returns (next: Phase)
      requires Valid() && Shows(s) && Enabled(s, Arrive(i)) && c == s.calls[i] && s.phases[i] == Joining(id)
      modifies joinPoints.Values
      ensures Shows(Apply(s, Arrive(i))) && next == Apply(s, Arrive(i)).phases[i]
      ensures id !in joinPoints ==> next == Returned(Some(JoinNotFound)) && Joins() == old(Joins())
      ensures id in joinPoints ==>
          Joins() == old(Joins())[id := Arrived(old(Joins())[id], c.branchID, c.results)]
      ensures id in joinPoints ==>
                var was, now := old(Joins())[id], Joins()[id];
                && now.completed == was.completed + [c.branchID] && now.results == was.results[c.branchID := c.results]
                && now.status == was.status && now.timer == was.timer
                && (next == Closing(id) <==>
                      was.strategy.WaitAny? || was.strategy.WaitFirst? || |was.completed| + 1 >= |was.expected|)
                && (next != Closing(id) ==> next == Returned(None))
      ensures id in joinPoints ==>
          next == if Reached(Arrived(old(Joins())[id], c.branchID, c.results)) then Closing(id) else Returned(None)
    {
      if id !in joinPoints {
        return Returned(Some(JoinNotFound));
      }
      var joinPoint := joinPoints[id];
      joinPoint.completed := joinPoint.completed + [c.branchID];
      joinPoint.results := joinPoint.results[c.branchID := c.results];
      var met := EvaluateJoinCondition(joinPoint);
      return if met then Closing(id) else Returned(None);
    }

    /** Third critical section: only the first to get here closes the join point and goes on to its handler. */
    method CompleteJoinPoint(id: string, ghost s: Sys, ghost i: nat) returns (next: Phase)
      requires Valid() && Shows(s) && Enabled(s, Close(i)) && s.phases[i] == Closing(id)
      modifies joinPoints.Values
      ensures Shows(Apply(s, Close(i))) && next == Apply(s, Close(i)).phases[i]
      ensures Joins() == old(Joins())[id := Leave(old(Joins())[id], Completed)]
      ensures Joins()[id].status == if old(Joins())[id].status == Waiting then Completed else old(Joins())[id].status
      ensures next ==
              if old(Joins())[id].status == Waiting && joinPoints[id].handler then Handling(id) else Returned(None)
    {
      var joinPoint := joinPoints[id];
      if joinPoint.status != Waiting {
        assert Joins() == old(Joins())[id := old(Joins())[id]];
        return Returned(None);
      }
      joinPoint.status := Completed;
      if joinPoint.handler {
        return Handling(id);
      }
      return Returned(None);
    }

    /** What the timeout does when its sleep ends. */
    method HandleJoinTimeout(id: string, ghost s: Sys)
      requires Valid() && Shows(s) && Enabled(s, Expire(id))
      modifies joinPoints.Values
      ensures Shows(Apply(s, Expire(id))) && !joinPoints[id].timer
      ensures Joins() == old(Joins())[id := Leave(old(Joins())[id], TimedOut).(timer := false)]
      ensures Joins()[id].status == if old(Joins())[id].status == Waiting then TimedOut else old(Joins())[id].status
    {
      var joinPoint := joinPoints[id];
      joinPoint.timer := false;
      if joinPoint.status == Waiting {
        joinPoint.status := TimedOut;
      }
    }
  }
}
