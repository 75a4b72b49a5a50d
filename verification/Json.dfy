/** JSON values and the recursive merge of parameter objects. */
module Json {
  import opened Common

  /** A number is kept as its canonical text. */
  datatype Value =
    | Null
    | Bool(flag: bool)
    | Number(digits: string)
    | Str(text: string)
    | Arr(items: seq<Value>)
    | Obj(fields: map<string, Value>)

  /** What merging `patch` into `target` leaves there. */
  function Merge(target: Value, patch: Value): Value
    decreases patch
  {
    if target.Obj? && patch.Obj? then
      Obj(map k | k in target.fields.Keys + patch.fields.Keys ::
            if k !in patch.fields then target.fields[k]
            else if k in target.fields then Merge(target.fields[k], patch.fields[k])
            else patch.fields[k])
    else patch
  }

  /** `fields` is `target` with the keys outside `todo` merged in. */
  ghost predicate MergedSoFar(fields: map<string, Value>, target: map<string, Value>, patch: map<string, Value>, todo: set<string>) {
    && fields.Keys == target.Keys + (patch.Keys - todo)
    && (forall k :: k in target && (k !in patch || k in todo) ==> fields[k] == target[k])
    && (forall k :: k in patch && k !in todo && k in target ==> fields[k] == Merge(target[k], patch[k]))
    && (forall k :: k in patch && k !in todo && k !in target ==> fields[k] == patch[k])
  }

  lemma MergeOneMore(fields: map<string, Value>, target: map<string, Value>, patch: map<string, Value>, todo: set<string>,
                     key: string, v: Value)
    requires MergedSoFar(fields, target, patch, todo) && key in todo && todo <= patch.Keys
    requires v == if key in target then Merge(target[key], patch[key]) else patch[key]
    ensures MergedSoFar(fields[key := v], target, patch, todo - {key})
  {
  }

  lemma AllMerged(fields: map<string, Value>, target: Value, patch: Value)
    requires target.Obj? && patch.Obj? && MergedSoFar(fields, target.fields, patch.fields, {})
    ensures Obj(fields) == Merge(target, patch)
  {
    var merged := Merge(target, patch).fields;
    assert fields.Keys == merged.Keys;
    forall k | k in fields ensures fields[k] == merged[k] {
    }
    assert fields == merged;
  }

  /** The patch's keys come in any order. */
  method DeepMerge(target: Value, patch: Value) returns (r: Value)
    ensures r == Merge(target, patch)
    decreases patch
  {
    if !target.Obj? || !patch.Obj? {
      return patch;
    }
    var fields := target.fields;
    var todo := patch.fields.Keys;
    while todo != {}
      invariant todo <= patch.fields.Keys && MergedSoFar(fields, target.fields, patch.fields, todo)
      decreases |todo|
    {
      var key :| key in todo;
      var v := patch.fields[key];
      if key in fields {
        v := DeepMerge(fields[key], patch.fields[key]);
      }
      MergeOneMore(fields, target.fields, patch.fields, todo, key, v);
      fields := fields[key := v];
      todo := todo - {key};
    }
    AllMerged(fields, target, patch);
    r := Obj(fields);
  }

  datatype MergeError = NotObjects

  method MergeParameters(base: Value, overrides: Value) returns (r: Result<Value, MergeError>)
    ensures r == if base.Obj? && overrides.Obj? then Ok(Merge(base, overrides)) else Err(NotObjects)
  {
    if !base.Obj? || !overrides.Obj? {
      return Err(NotObjects);
    }
    var merged := DeepMerge(base, overrides);
    return Ok(merged);
  }

  // ----- what ends up at a path -----

  function At(v: Value, path: seq<string>): Option<Value>
    decreases path
  {
    if path == [] then Some(v)
    else if v.Obj? && path[0] in v.fields then At(v.fields[path[0]], path[1..])
    else None
  }

  predicate LeafAt(v: Value, path: seq<string>, leaf: Value) {
    At(v, path) == Some(leaf) && !leaf.Obj?
  }

  predicate ObjectAt(v: Value, path: seq<string>) {
    At(v, path).Some? && At(v, path).value.Obj?
  }

  /** Something of `patch` lies at the path, or a non-object of it lies above. */
  predicate Covers(patch: Value, path: seq<string>)
    decreases path
  {
    !patch.Obj? || path == [] || (path[0] in patch.fields && Covers(patch.fields[path[0]], path[1..]))
  }

  /** A non-object of `patch` lies at the path or above it. */
  predicate Blocks(patch: Value, path: seq<string>)
    decreases path
  {
    !patch.Obj? || (path != [] && path[0] in patch.fields && Blocks(patch.fields[path[0]], path[1..]))
  }

  lemma {:induction false} MergedLeaf(target: Value, patch: Value, path: seq<string>, leaf: Value)
    ensures LeafAt(Merge(target, patch), path, leaf) <==>
              LeafAt(patch, path, leaf) || (LeafAt(target, path, leaf) && !Covers(patch, path))
    decreases path
  {
    if path != [] && target.Obj? && patch.Obj? && path[0] in target.fields && path[0] in patch.fields {
      MergedLeaf(target.fields[path[0]], patch.fields[path[0]], path[1..], leaf);
    }
  }

  lemma {:induction false} MergedObject(target: Value, patch: Value, path: seq<string>)
    ensures ObjectAt(Merge(target, patch), path) <==>
              ObjectAt(patch, path) || (ObjectAt(target, path) && !Blocks(patch, path))
    decreases path
  {
    if path != [] && target.Obj? && patch.Obj? && path[0] in target.fields && path[0] in patch.fields {
      MergedObject(target.fields[path[0]], patch.fields[path[0]], path[1..]);
    }
  }

  /**
  The three layers of a batch item: a path holds the override's leaf, or else the
  item's where the override does not cover it, or else the base's where neither
  does; and it holds nothing else.
   */
  lemma LayeredLeaf(base: Value, item: Value, override: Value, path: seq<string>, leaf: Value)
    ensures LeafAt(Merge(Merge(base, item), override), path, leaf) <==>
              || LeafAt(override, path, leaf)
              || (LeafAt(item, path, leaf) && !Covers(override, path))
              || (LeafAt(base, path, leaf) && !Covers(item, path) && !Covers(override, path))
  {
    MergedLeaf(Merge(base, item), override, path, leaf);
    MergedLeaf(base, item, path, leaf);
  }

  lemma {:induction false} MergeWithSelf(v: Value)
    ensures Merge(v, v) == v
    decreases v
  {
    if v.Obj? {
      forall k | k in v.fields ensures Merge(v, v).fields[k] == v.fields[k] {
        MergeWithSelf(v.fields[k]);
      }
      assert Merge(v, v).fields == v.fields;
    }
  }

  /** Applying the same patch again changes nothing. */
  lemma {:induction false} MergeIsIdempotent(target: Value, patch: Value)
    ensures Merge(Merge(target, patch), patch) == Merge(target, patch)
    decreases patch
  {
    var once := Merge(target, patch);
    if target.Obj? && patch.Obj? {
      forall k | k in once.fields ensures Merge(once, patch).fields[k] == once.fields[k] {
        if k in patch.fields {
          if k in target.fields {
            MergeIsIdempotent(target.fields[k], patch.fields[k]);
          } else {
            MergeWithSelf(patch.fields[k]);
          }
        }
      }
      assert Merge(once, patch).fields == once.fields;
    } else {
      MergeWithSelf(patch);
    }
  }

  /** Nowhere does `upper` put an object over a non-object of `lower`. */
  predicate Compatible(lower: Value, upper: Value)
    decreases upper
  {
    upper.Obj? ==>
      && lower.Obj?
      && forall k :: k in upper.fields && k in lower.fields ==> Compatible(lower.fields[k], upper.fields[k])
  }

  /** Merging the two patches first gives the same, provided the later one hides no scalar under an object. */
  lemma {:induction false} MergeIsAssociativeWhenCompatible(base: Value, lower: Value, upper: Value)
    requires Compatible(lower, upper)
    ensures Merge(Merge(base, lower), upper) == Merge(base, Merge(lower, upper))
    decreases upper
  {
    if base.Obj? && lower.Obj? && upper.Obj? {
      var left, right := Merge(Merge(base, lower), upper).fields, Merge(base, Merge(lower, upper)).fields;
      assert left.Keys == right.Keys;
      forall k | k in left ensures left[k] == right[k] {
        if k in base.fields && k in lower.fields && k in upper.fields {
          MergeIsAssociativeWhenCompatible(base.fields[k], lower.fields[k], upper.fields[k]);
        }
      }
      assert left == right;
    }
  }

  /** Otherwise some base tells the two orders apart: the layers must be merged from the base up. */
  lemma {:induction false} MergeIsAssociativeOnlyThen(lower: Value, upper: Value) returns (base: Value)
    requires !Compatible(lower, upper)
    ensures Merge(Merge(base, lower), upper) != Merge(base, Merge(lower, upper))
    decreases upper
  {
    if lower.Obj? {
      var k :| k in upper.fields && k in lower.fields && !Compatible(lower.fields[k], upper.fields[k]);
      var inner := MergeIsAssociativeOnlyThen(lower.fields[k], upper.fields[k]);
      base := Obj(map[k := inner]);
      assert Merge(Merge(base, lower), upper).fields[k] != Merge(base, Merge(lower, upper)).fields[k];
    } else {
      var k := LongerKey(upper.fields.Keys);
      base := Obj(map[k := Null]);
      assert k in Merge(base, Merge(lower, upper)).fields;
    }
  }

  lemma {:induction false} LongerKey(keys: set<string>) returns (k: string)
    ensures forall x :: x in keys ==> |x| < |k|
  {
    k := "a";
    if x :| x in keys {
      var longer := LongerKey(keys - {x});
      k := longer + x + "a";
    }
  }
}
