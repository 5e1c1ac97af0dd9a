/**
 The checkpoint manager (internal/core/pregel/recovery.go) on objects: a `StateCell` is a Go state
 map, shared by everything that holds a reference to it. Saving and loading copy one level, into
 cells that nothing else refers to, so in-place writes by vertex programs reach neither the
 checkpoint nor what is restored from it.
 */
module Recovery {
  import opened Wrappers
  import opened PregelModel

  class StateCell {
    var fields: Fields

    constructor (fields: Fields)
      ensures this.fields == fields
    {
      this.fields := fields;
    }

    /** `m[key] = value`, as a running program may do at any time. */
    method Put(key: string, value: Value)
      modifies this
      ensures fields == old(fields)[key := value]
    {
      fields := fields[key := value];
    }
  }

  /** The contents of a state that may be the nil map. */
  ghost function Contents(cell: StateCell?): Fields
    reads cell
  {
    if cell == null then map[] else cell.fields
  }

  /** The copy loop: a new map with the same entries. */
  method CopyOf(source: StateCell?) returns (copy: StateCell)
    ensures fresh(copy) && copy.fields == Contents(source)
  {
    copy := new StateCell(map[]);
    if source != null {
      var todo := source.fields.Keys;
      while todo != {}
        invariant todo <= source.fields.Keys
        invariant copy.fields == map k | k in source.fields && k !in todo :: source.fields[k]
        decreases |todo|
      {
        var k :| k in todo;
        copy.Put(k, source.fields[k]);
        todo := todo - {k};
      }
    }
  }

  /** Both copy loops over the vertices. */
  method CopyStates(states: map<VertexId, StateCell?>) returns (copies: map<VertexId, StateCell>)
    ensures copies.Keys == states.Keys
    ensures forall v :: v in states ==> fresh(copies[v]) && copies[v].fields == Contents(states[v])
    ensures forall v :: v in states ==> copies[v].fields == if states[v] == null then map[] else states[v].fields
  {
    copies := map[];
    var todo := states.Keys;
    while todo != {}
      invariant todo <= states.Keys && copies.Keys == states.Keys - todo
      invariant forall v :: v in copies ==> fresh(copies[v]) && copies[v].fields == Contents(states[v])
      decreases |todo|
    {
      var v :| v in todo;
      var copy := CopyOf(states[v]);
      copies := copies[v := copy];
      todo := todo - {v};
    }
  }

  const MAX_CHECKPOINTS: nat := 10

  function Within(steps: set<nat>, current: nat): set<nat> {
    set k | k in steps && current - k <= MAX_CHECKPOINTS
  }

  /** `cleanupOldCheckpoints` runs only when there are too many steps, and drops those more than ten behind. */
  function Retained(steps: set<nat>, current: nat): set<nat> {
    if |steps| > MAX_CHECKPOINTS then Within(steps, current) else steps
  }

  /** The steps kept after supersteps 0 to `s`. */
  function SavedSteps(s: nat): set<nat> {
    if s == 0 then Retained({0}, 0) else Retained(SavedSteps(s - 1) + {s}, s)
  }

  function Below(n: nat): (b: set<nat>)
    ensures forall k: nat :: k in b <==> k < n
    ensures |b| == n
  {
    if n == 0 then {} else Below(n - 1) + {n - 1}
  }

  /** The steps max(0, s - 10) to s. */
  function Window(s: nat): set<nat> {
    Within(Below(s + 1), s)
  }

  lemma WindowSize(s: nat)
    requires s >= MAX_CHECKPOINTS
    ensures |Window(s)| == MAX_CHECKPOINTS + 1
  {
    assert Below(s + 1) == Window(s) + Below(s - MAX_CHECKPOINTS);
    assert Window(s) !! Below(s - MAX_CHECKPOINTS);
  }

  /** One more save turns one window into the next, whether or not there is anything to drop. */
  lemma WindowStep(s: nat)
    ensures Retained(Window(s) + {s + 1}, s + 1) == Window(s + 1)
  {
    var steps := Window(s) + {s + 1};
    assert Within(steps, s + 1) == Window(s + 1);
    if s + 1 <= MAX_CHECKPOINTS {
      assert steps == Below(s + 2);
      assert Window(s + 1) == Below(s + 2);
    } else {
      WindowSize(s);
      assert |steps| == |Window(s)| + 1;
    }
  }

  /** The steps kept when superstep `s` begins: none at first, then the window of the superstep before. */
  function WindowBefore(s: nat): set<nat> {
    if s == 0 then {} else Window(s - 1)
  }

  lemma WindowBeforeMeans(s: nat)
    ensures forall k: nat :: k in WindowBefore(s) <==> k < s <= k + 11
  {
  }

  lemma WindowStart()
    ensures Window(0) == {0} && WindowBefore(0) + {0} == {0} && Retained({0}, 0) == {0}
  {
    assert Below(1) == {0};
    assert |{0}| == 1;
  }

  lemma WindowNext(s: nat)
    ensures Retained(WindowBefore(s) + {s}, s) == Window(s)
  {
    if s == 0 {
      WindowStart();
    } else {
      WindowStep(s - 1);
    }
  }

  /** The retained steps are exactly max(0, s - 10) to s: eleven of them, not ten, once s reaches 10. */
  lemma {:induction false} RetainedWindow(s: nat)
    ensures SavedSteps(s) == Window(s)
    ensures forall k: nat :: k in SavedSteps(s) <==> k <= s <= k + 10
  {
    if s == 0 {
      WindowStart();
    } else {
      RetainedWindow(s - 1);
      WindowStep(s - 1);
    }
  }

  class CheckpointManager {
    var checkpoints: map<nat, map<VertexId, StateCell>>

    constructor ()
      ensures checkpoints == map[] && fresh(this)
    {
      checkpoints := map[];
    }

    /** Saves a one-level copy of every state, in cells that did not exist before. */
    method SaveCheckpoint(step: nat, states: map<VertexId, StateCell?>)
      modifies this
      ensures checkpoints.Keys == Retained(old(checkpoints.Keys) + {step}, step)
      ensures |old(checkpoints.Keys) + {step}| <= 10 ==> checkpoints.Keys == old(checkpoints.Keys) + {step}
      ensures |old(checkpoints.Keys) + {step}| > 10 ==>
                forall k: nat :: k in checkpoints <==> k in old(checkpoints.Keys) + {step} && step <= k + 10
      ensures step in checkpoints && checkpoints[step].Keys == states.Keys
      ensures forall v :: v in states ==>
              fresh(checkpoints[step][v]) && checkpoints[step][v].fields == Contents(states[v])
      ensures forall k :: k in checkpoints && k != step ==>
              k in old(checkpoints) && checkpoints[k] == old(checkpoints)[k]
    {
      var saved := CopyStates(states);
      checkpoints := checkpoints[step := saved];
      assert checkpoints.Keys == old(checkpoints.Keys) + {step};
      if |checkpoints| > MAX_CHECKPOINTS {
        CleanupOldCheckpoints(step);
      }
    }

    method CleanupOldCheckpoints(current: nat)
      modifies this
      ensures checkpoints == map k | k in old(checkpoints) && current - k <= MAX_CHECKPOINTS :: old(checkpoints)[k]
      ensures forall k: nat :: k in checkpoints <==> k in old(checkpoints) && current <= k + 10
    {
      var todo := checkpoints.Keys;
      while todo != {}
        invariant todo <= old(checkpoints).Keys
        invariant checkpoints == map k | k in old(checkpoints)
                  && (k in todo || current - k <= MAX_CHECKPOINTS) :: old(checkpoints)[k]
        decreases |todo|
      {
        var k :| k in todo;
        todo := todo - {k};
        if current - k > MAX_CHECKPOINTS {
          checkpoints := checkpoints - {k};
        }
      }
    }

    /** A second copy: what is restored shares no cell with the checkpoint or with anything older. */
    method LoadCheckpoint(step: nat) returns (states: Option<map<VertexId, StateCell>>)
      ensures states.Some? <==> step in checkpoints
      ensures states.Some? ==> states.value.Keys == checkpoints[step].Keys
      ensures states.Some? ==> forall v :: v in states.value ==>
                fresh(states.value[v]) && states.value[v].fields == checkpoints[step][v].fields
    {
      if step !in checkpoints {
        return None;
      }
      var copies := CopyStates(checkpoints[step]);
      states := Some(copies);
    }
  }

  /** One in-place write by a vertex program that holds the cell. */
  datatype InPlaceWrite = InPlaceWrite(cell: StateCell, key: string, value: Value)

  /** Vertex programs writing, in any order, into the maps they were given. */
  method RunWrites(held: set<StateCell>, writes: seq<InPlaceWrite>)
    requires forall i :: 0 <= i < |writes| ==> writes[i].cell in held
    modifies held
  {
    for i := 0 to |writes| {
      writes[i].cell.Put(writes[i].key, writes[i].value);
    }
  }

  /**
   A superstep that fails, as `runStep` handles it: whatever the tasks write into the maps they
   hold before the failure, and whatever stragglers write afterwards, the restored states have the
   contents of the start of the superstep, in cells no task holds.
   */
  method FailingStep(cm: CheckpointManager, step: nat, states: map<VertexId, StateCell?>, held: set<StateCell>,
                     before: seq<InPlaceWrite>, after: seq<InPlaceWrite>)
    returns (restored: map<VertexId, StateCell>)
    requires forall i :: 0 <= i < |before| ==> before[i].cell in held
    requires forall i :: 0 <= i < |after| ==> after[i].cell in held
    modifies cm, held
    ensures restored.Keys == states.Keys
    ensures forall v :: v in states ==> restored[v].fields == old(Contents(states[v]))
    ensures forall v :: v in states ==> fresh(restored[v]) && restored[v] !in held
    ensures cm.checkpoints.Keys == Retained(old(cm.checkpoints.Keys) + {step}, step)
  {
    cm.SaveCheckpoint(step, states);
    ghost var saved := cm.checkpoints[step];
    assert forall v :: v in saved ==> saved[v] !in held;
    RunWrites(held, before);
    assert forall v :: v in saved ==> saved[v].fields == old(Contents(states[v]));
    var loaded := cm.LoadCheckpoint(step);
    restored := loaded.value;
    assert forall v :: v in restored ==> restored[v].fields == old(Contents(states[v])) && restored[v] !in held;
    RunWrites(held, after);
  }
}
