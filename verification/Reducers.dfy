/** The deep-merge state reducer (internal/core/channel/reducers.go) over arbitrarily nested maps. */
module Reducers {
  import opened Wrappers

  /** A state value: a nested map, or anything that is not a map. */
  datatype Value = Leaf(datum: string) | Map(entries: map<string, Value>)

  function Merge(current: Value, update: Value): Value
    decreases current
  {
    match (current, update)
    case (Map(m), Map(n)) =>
      Map(map k | k in m.Keys + n.Keys ::
        if k !in n then m[k] else if k !in m then n[k] else Merge(m[k], n[k]))
    case _ => update
  }

  // ---------------------------------------------------------------- the loops

  /** The second loop half way: updates still to do have left the copy of the current map as it was. */
  ghost predicate Merged(m: map<string, Value>, n: map<string, Value>, todo: set<string>, merged: map<string, Value>) {
    && merged.Keys == m.Keys + (n.Keys - todo)
    && (forall k :: k in m && (k in todo || k !in n) ==> merged[k] == m[k])
    && (forall k :: k in n && k !in todo ==> merged[k] == if k in m then Merge(m[k], n[k]) else n[k])
  }

  lemma MergedAll(m: map<string, Value>, n: map<string, Value>, merged: map<string, Value>)
    requires Merged(m, n, {}, merged)
    ensures Map(merged) == Merge(Map(m), Map(n))
  {
    assert merged == Merge(Map(m), Map(n)).entries;
  }

  /** The first loop of a merge. */
  method CopyOf(m: map<string, Value>) returns (copy: map<string, Value>)
    ensures copy == m
  {
    copy := map[];
    var todo := m.Keys;
    while todo != {}
      invariant todo <= m.Keys
      invariant copy == map k | k in m && k !in todo :: m[k]
      decreases |todo|
    {
      var k :| k in todo;
      copy := copy[k := m[k]];
      todo := todo - {k};
    }
  }

  method MergeValues(current: Value, update: Value) returns (r: Value)
    ensures r == Merge(current, update)
    decreases current
  {
    if current.Map? && update.Map? {
      var m, n := current.entries, update.entries;
      var merged := CopyOf(m);
      var todo := n.Keys;
      while todo != {}
        invariant todo <= n.Keys && Merged(m, n, todo, merged)
        decreases |todo|
      {
        var k :| k in todo;
        if k in merged {
          var v := MergeValues(merged[k], n[k]);
          merged := merged[k := v];
        } else {
          merged := merged[k := n[k]];
        }
        todo := todo - {k};
      }
      MergedAll(m, n, merged);
      return Map(merged);
    }
    return update;
  }

  method Reduce(current: map<string, Value>, update: map<string, Value>) returns (result: map<string, Value>)
    ensures Map(result) == Merge(Map(current), Map(update))
  {
    result := CopyOf(current);
    var todo := update.Keys;
    while todo != {}
      invariant todo <= update.Keys && Merged(current, update, todo, result)
      decreases |todo|
    {
      var k :| k in todo;
      if k in result {
        var v := MergeValues(result[k], update[k]);
        result := result[k := v];
      } else {
        result := result[k := update[k]];
      }
      todo := todo - {k};
    }
    MergedAll(current, update, result);
  }

  // ---------------------------------------------------------------- laws

  lemma {:induction false} Idempotent(a: Value)
    ensures Merge(a, a) == a
    decreases a
  {
    if a.Map? {
      forall k | k in a.entries ensures Merge(a.entries[k], a.entries[k]) == a.entries[k] {
        Idempotent(a.entries[k]);
      }
      assert Merge(a, a).entries == a.entries;
    }
  }

  lemma {:induction false} Absorbing(a: Value, b: Value)
    ensures Merge(Merge(a, b), b) == Merge(a, b)
    decreases b
  {
    if a.Map? && b.Map? {
      var ab := Merge(a, b).entries;
      forall k | k in b.entries ensures Merge(ab[k], b.entries[k]) == ab[k] {
        if k in a.entries {
          Absorbing(a.entries[k], b.entries[k]);
        } else {
          Idempotent(b.entries[k]);
        }
      }
      assert Merge(Merge(a, b), b).entries == ab;
    } else {
      Idempotent(b);
    }
  }

  type Path = seq<string>

  /** The value at a path, if the path leads anywhere. */
  function At(v: Value, path: Path): Option<Value>
    decreases |path|
  {
    if path == [] then Some(v)
    else if v.Map? && path[0] in v.entries then At(v.entries[path[0]], path[1..])
    else None
  }

  /** The path runs into something that is not a map. */
  predicate Blocked(v: Value, path: Path)
    decreases |path|
  {
    path != [] && (v.Leaf? || (path[0] in v.entries && Blocked(v.entries[path[0]], path[1..])))
  }

  /**
     Path by path: where the update has a value it wins, merged into what was there; where it has none
     the current value survives, unless the update put something that is not a map in the way.
   */
  lemma {:induction false} MergeAt(a: Value, b: Value, path: Path)
    ensures At(b, path).Some? ==>
        At(Merge(a, b), path) == Some(
            if At(a, path).Some? then Merge(At(a, path).value, At(b, path).value) else At(b, path).value)
    ensures At(b, path).None? ==> At(Merge(a, b), path) == if Blocked(b, path) then None else At(a, path)
    decreases |path|
  {
    if path != [] && a.Map? && b.Map? && path[0] in a.entries && path[0] in b.entries {
      MergeAt(a.entries[path[0]], b.entries[path[0]], path[1..]);
    } else if path != [] && a.Leaf? && b.Map? {
      BlockedLeadsNowhere(b, path);
    } else if path != [] && b.Map? && path[0] in b.entries {
      BlockedLeadsNowhere(b, path);
    }
  }

  lemma {:induction false} BlockedLeadsNowhere(v: Value, path: Path)
    ensures Blocked(v, path) ==> At(v, path).None?
    decreases |path|
  {
    if path != [] && v.Map? && path[0] in v.entries {
      BlockedLeadsNowhere(v.entries[path[0]], path[1..]);
    }
  }

  // ---------------------------------------------------------------- associativity

  /** Every map inside `a` that meets a map of `c` has only keys that the map of `c` has too. */
  predicate Covers(c: Value, a: Value)
    decreases a
  {
    a.Map? && c.Map? ==> forall k :: k in a.entries ==> k in c.entries && Covers(c.entries[k], a.entries[k])
  }

  /** Merging over a value that covers the current one is replacing it. */
  lemma {:induction false} CoversMeansReplaces(a: Value, c: Value)
    ensures Merge(a, c) == c <==> Covers(c, a)
    decreases a
  {
    if a.Map? && c.Map? {
      var ac := Merge(a, c).entries;
      forall k | k in a.entries && k in c.entries
        ensures ac[k] == c.entries[k] <==> Covers(c.entries[k], a.entries[k])
      {
        CoversMeansReplaces(a.entries[k], c.entries[k]);
      }
      if Covers(c, a) {
        assert ac == c.entries;
      }
    }
  }

  /** A map of `a`, then something else of `b`, then a map of `c` meet at the path. */
  predicate ClashAt(a: Value, b: Value, c: Value, path: Path) {
    && At(a, path).Some? && At(a, path).value.Map?
    && At(b, path).Some? && At(b, path).value.Leaf?
    && At(c, path).Some? && At(c, path).value.Map?
  }

  ghost predicate ClashesCovered(a: Value, b: Value, c: Value) {
    forall path :: ClashAt(a, b, c, path) ==> Covers(At(c, path).value, At(a, path).value)
  }

  lemma ClashBelow(a: Value, b: Value, c: Value, k: string)
    requires a.Map? && b.Map? && c.Map? && k in a.entries && k in b.entries && k in c.entries
    requires ClashesCovered(a, b, c)
    ensures ClashesCovered(a.entries[k], b.entries[k], c.entries[k])
  {
    forall path | ClashAt(a.entries[k], b.entries[k], c.entries[k], path)
      ensures Covers(At(c.entries[k], path).value, At(a.entries[k], path).value)
    {
      assert ([k] + path)[1..] == path;
      assert ClashAt(a, b, c, [k] + path);
    }
  }

  /** Merging is associative exactly when, wherever a leaf separates two maps, the later map covers the earlier one. */
  lemma {:induction false} AssociativeExactlyWhen(a: Value, b: Value, c: Value)
    ensures Merge(Merge(a, b), c) == Merge(a, Merge(b, c)) <==> ClashesCovered(a, b, c)
    decreases a
  {
    if ClashesCovered(a, b, c) {
      AssociativeIf(a, b, c);
    }
    if Merge(Merge(a, b), c) == Merge(a, Merge(b, c)) {
      forall path | ClashAt(a, b, c, path) ensures Covers(At(c, path).value, At(a, path).value) {
        AssociativeOnlyIf(a, b, c, path);
      }
    }
  }

  lemma {:induction false} AssociativeIf(a: Value, b: Value, c: Value)
    requires ClashesCovered(a, b, c)
    ensures Merge(Merge(a, b), c) == Merge(a, Merge(b, c))
    decreases a
  {
    if a.Map? && b.Leaf? && c.Map? {
      assert ClashAt(a, b, c, []);
      CoversMeansReplaces(a, c);
    } else if a.Map? && b.Map? && c.Map? {
      var left, right := Merge(Merge(a, b), c).entries, Merge(a, Merge(b, c)).entries;
      forall k | k in left ensures k in right && left[k] == right[k] {
        if k in a.entries && k in b.entries && k in c.entries {
          ClashBelow(a, b, c, k);
          AssociativeIf(a.entries[k], b.entries[k], c.entries[k]);
        }
      }
      assert left == right;
    }
  }

  lemma {:induction false} AssociativeOnlyIf(a: Value, b: Value, c: Value, path: Path)
    requires Merge(Merge(a, b), c) == Merge(a, Merge(b, c)) && ClashAt(a, b, c, path)
    ensures Covers(At(c, path).value, At(a, path).value)
    decreases |path|
  {
    if path == [] {
      CoversMeansReplaces(a, c);
    } else {
      var k := path[0];
      var left, right := Merge(Merge(a, b), c).entries, Merge(a, Merge(b, c)).entries;
      assert left[k] == right[k];
      AssociativeOnlyIf(a.entries[k], b.entries[k], c.entries[k], path[1..]);
    }
  }
}
