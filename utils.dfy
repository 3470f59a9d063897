/**
 * Configuration values and their deep merge (edxpipelines/utils.py).
 *
 * A configuration value is a leaf or a dictionary from string keys to
 * values. A leaf stands for any YAML value that is not a mapping (a string,
 * number, list, ...); leaves are only ever compared for equality.
 *
 * The merge of two dictionaries never lets one side override the other: a
 * key present on both sides must hold two mergeable dictionaries or two
 * equal leaves, and anything else is a conflict. Below, `Contains(x, y)`
 * says that `y` holds everything `x` holds; the merge is shown to be the
 * least value that contains both sides, and to fail exactly when no such
 * value exists.
 */
module Utils {
  import opened Wrappers
  import opened GoCD

  datatype Value = Leaf(s: string) | Dict(m: map<string, Value>)

  datatype MergeError = TypeError | MergeConflict | ValueError

  /** `y` holds everything `x` holds: the same leaf, or a dictionary with at least `x`'s keys, each containing `x`'s value. */
  predicate Contains(x: Value, y: Value)
  {
    match x
    case Leaf(_) => y == x
    case Dict(mx) => y.Dict? && forall k | k in mx :: k in y.m && Contains(mx[k], y.m[k])
  }

  /** Two values can be merged: both dictionaries whose shared keys are mergeable, or the same leaf. */
  predicate Compatible(x: Value, y: Value)
  {
    match (x, y)
    case (Dict(mx), Dict(my)) => forall k | k in mx && k in my :: Compatible(mx[k], my[k])
    case _ => x == y
  }

  /** The merge of two compatible values. */
  function Join(x: Value, y: Value): Value
    requires Compatible(x, y)
    decreases x, 1
  {
    match (x, y)
    case (Dict(mx), Dict(my)) => Dict(JoinMaps(mx, my))
    case _ => x
  }

  function JoinMaps(mx: map<string, Value>, my: map<string, Value>): map<string, Value>
    requires forall k | k in mx && k in my :: Compatible(mx[k], my[k])
    decreases Dict(mx), 0
  {
    map k | k in mx.Keys + my.Keys ::
      if k in mx && k in my then Join(mx[k], my[k])
      else if k in mx then mx[k] else my[k]
  }

  /** What `_deep_dict_merge(a, b)` returns or raises. */
  function DeepMergeSpec(a: Value, b: Value): Result<Value, MergeError>
  {
    if !a.Dict? || !b.Dict? then Err(TypeError)
    else if Compatible(a, b) then Ok(Join(a, b))
    else Err(MergeConflict)
  }

  /**
   * `_deep_dict_merge`: work on a copy of `a`, visiting the keys of `b` (in
   * whatever order the dictionary yields them).
   */
  method DeepDictMerge(a: Value, b: Value) returns (r: Result<Value, MergeError>)
    ensures r == DeepMergeSpec(a, b)
    decreases b
  {
    if !a.Dict? || !b.Dict? {
      return Err(TypeError);
    }
    var ret := a.m;
    var todo := b.m.Keys;
    while todo != {}
      invariant todo <= b.m.Keys
      invariant ret.Keys == a.m.Keys + (b.m.Keys - todo)
      invariant forall k | k in b.m.Keys - todo && k in a.m :: Compatible(a.m[k], b.m[k])
      invariant forall k | k in ret ::
        ret[k] == (if k !in b.m.Keys - todo then a.m[k]
                   else if k in a.m then Join(a.m[k], b.m[k])
                   else b.m[k])
    {
      var key :| key in todo;
      if key in ret {
        if ret[key].Dict? && b.m[key].Dict? {
          var sub := DeepDictMerge(ret[key], b.m[key]);
          if sub.Err? {
            assert !Compatible(a.m[key], b.m[key]);
            return sub;
          }
          ret := ret[key := sub.value];
        } else if ret[key] == b.m[key] {
        } else {
          assert !Compatible(a.m[key], b.m[key]);
          return Err(MergeConflict);
        }
      } else {
        ret := ret[key := b.m[key]];
      }
      todo := todo - {key};
    }
    assert ret == JoinMaps(a.m, b.m);
    return Ok(Dict(ret));
  }

  /** Every value contains itself. */
  lemma {:induction false} ContainsReflexive(x: Value)
    ensures Contains(x, x)
    decreases x
  {
    match x
    case Leaf(_) =>
    case Dict(m) =>
      forall k | k in m ensures Contains(m[k], m[k]) {
        ContainsReflexive(m[k]);
      }
  }

  lemma {:induction false} ContainsTransitive(x: Value, y: Value, z: Value)
    requires Contains(x, y) && Contains(y, z)
    ensures Contains(x, z)
    decreases x
  {
    match x
    case Leaf(_) =>
    case Dict(mx) =>
      forall k | k in mx ensures k in z.m && Contains(mx[k], z.m[k]) {
        ContainsTransitive(mx[k], y.m[k], z.m[k]);
      }
  }

  /** Two values that contain each other are equal. */
  lemma {:induction false} ContainsAntisymmetric(x: Value, y: Value)
    requires Contains(x, y) && Contains(y, x)
    ensures x == y
    decreases x
  {
    match x
    case Leaf(_) =>
    case Dict(mx) =>
      forall k | k in mx ensures mx[k] == y.m[k] {
        ContainsAntisymmetric(mx[k], y.m[k]);
      }
      assert mx == y.m;
  }

  /** The merge contains both of its inputs: neither side's entries are lost or overridden. */
  lemma {:induction false} JoinContainsBoth(x: Value, y: Value)
    requires Compatible(x, y)
    ensures Contains(x, Join(x, y)) && Contains(y, Join(x, y))
    decreases x
  {
    match (x, y)
    case (Dict(mx), Dict(my)) =>
      var j := JoinMaps(mx, my);
      forall k | k in mx ensures Contains(mx[k], j[k]) {
        if k in my { JoinContainsBoth(mx[k], my[k]); } else { ContainsReflexive(mx[k]); }
      }
      forall k | k in my ensures Contains(my[k], j[k]) {
        if k in mx { JoinContainsBoth(mx[k], my[k]); } else { ContainsReflexive(my[k]); }
      }
    case _ =>
      ContainsReflexive(x);
  }

  /**
   * Any value containing both inputs shows they are compatible, and contains
   * their merge: the merge is the least value that holds both sides.
   */
  lemma {:induction false} JoinIsLeast(x: Value, y: Value, c: Value)
    requires Contains(x, c) && Contains(y, c)
    ensures Compatible(x, y) && Contains(Join(x, y), c)
    decreases x
  {
    match (x, y)
    case (Dict(mx), Dict(my)) =>
      forall k | k in mx && k in my ensures Compatible(mx[k], my[k]) && Contains(Join(mx[k], my[k]), c.m[k]) {
        JoinIsLeast(mx[k], my[k], c.m[k]);
      }
    case (Leaf(_), _) =>
    case (Dict(_), Leaf(_)) =>
  }

  /**
   * `_deep_dict_merge` of two dictionaries succeeds exactly when some value
   * contains both, and then its result is the least such value. A failure is
   * always a conflict, never a silent override.
   */
  lemma DeepMergeIsLeastUpperBound(a: Value, b: Value)
    requires a.Dict? && b.Dict?
    ensures DeepMergeSpec(a, b).Ok? <==> exists c :: Contains(a, c) && Contains(b, c)
    ensures DeepMergeSpec(a, b).Ok? ==>
      var r := DeepMergeSpec(a, b).value;
      Contains(a, r) && Contains(b, r) && forall c :: Contains(a, c) && Contains(b, c) ==> Contains(r, c)
    ensures DeepMergeSpec(a, b).Err? ==> DeepMergeSpec(a, b).error == MergeConflict
  {
    if Compatible(a, b) {
      JoinContainsBoth(a, b);
      assert Contains(a, Join(a, b)) && Contains(b, Join(a, b));
      forall c | Contains(a, c) && Contains(b, c) ensures Contains(Join(a, b), c) {
        JoinIsLeast(a, b, c);
      }
    } else {
      forall c | Contains(a, c) && Contains(b, c) ensures false {
        JoinIsLeast(a, b, c);
      }
    }
  }

  /**
   * The merge's keys are exactly the union of the two key sets. A key of only
   * one side keeps that side's value; a key of both sides holds the merge of
   * two dictionaries, or the common leaf.
   */
  lemma DeepMergeKeys(a: Value, b: Value)
    requires DeepMergeSpec(a, b).Ok?
    ensures var r := DeepMergeSpec(a, b).value;
      r.Dict? && a.Dict? && b.Dict? && r.m.Keys == a.m.Keys + b.m.Keys &&
      (forall k | k in b.m && k !in a.m :: r.m[k] == b.m[k]) &&
      (forall k | k in a.m && k !in b.m :: r.m[k] == a.m[k]) &&
      (forall k | k in a.m && k in b.m && a.m[k].Dict? && b.m[k].Dict? :: DeepMergeSpec(a.m[k], b.m[k]) == Ok(r.m[k])) &&
      (forall k | k in a.m && k in b.m && !(a.m[k].Dict? && b.m[k].Dict?) :: a.m[k] == b.m[k] == r.m[k])
  {
    var r := DeepMergeSpec(a, b).value;
    assert r == Dict(JoinMaps(a.m, b.m));
    forall k | k in a.m && k in b.m ensures Compatible(a.m[k], b.m[k]) && r.m[k] == Join(a.m[k], b.m[k]) {
    }
  }

  /** A dictionary merged with itself is itself; the merge is symmetric. */
  lemma DeepMergeIdempotentSymmetric(a: Value, b: Value)
    requires a.Dict? && b.Dict?
    ensures DeepMergeSpec(a, a) == Ok(a)
    ensures DeepMergeSpec(a, b) == DeepMergeSpec(b, a)
  {
    ContainsReflexive(a);
    DeepMergeIsLeastUpperBound(a, a);
    assert Contains(a, a);
    var r := DeepMergeSpec(a, a).value;
    ContainsAntisymmetric(a, r);
    DeepMergeIsLeastUpperBound(a, b);
    DeepMergeIsLeastUpperBound(b, a);
    if DeepMergeSpec(a, b).Ok? {
      var x, y := DeepMergeSpec(a, b).value, DeepMergeSpec(b, a).value;
      ContainsAntisymmetric(x, y);
    }
  }

  /** `reduce(_deep_dict_merge, rest, acc)`: stops at the first failure. */
  function FoldMerge(acc: Value, rest: seq<Value>): Result<Value, MergeError>
    decreases |rest|
  {
    if |rest| == 0 then Ok(acc)
    else match DeepMergeSpec(acc, rest[0])
      case Err(e) => Err(e)
      case Ok(v) => FoldMerge(v, rest[1..])
  }

  /** `dict_merge(*args)`. With no argument it is `{}`; with one, that argument itself (even a non-dictionary). */
  function DictMerge(args: seq<Value>): (r: Result<Value, MergeError>)
    ensures |args| == 0 ==> r == Ok(Dict(map[]))
    ensures |args| == 1 ==> r == Ok(args[0])
  {
    if |args| == 0 then Ok(Dict(map[]))
    else if |args| == 1 then Ok(args[0])
    else FoldMerge(args[0], args[1..])
  }

  predicate UpperBound(args: seq<Value>, c: Value)
  {
    forall i :: 0 <= i < |args| ==> Contains(args[i], c)
  }

  lemma {:induction false} FoldMergeIsLeast(acc: Value, rest: seq<Value>)
    requires acc.Dict?
    ensures FoldMerge(acc, rest).Ok? <==> exists c :: UpperBound([acc] + rest, c)
    ensures FoldMerge(acc, rest).Ok? ==>
      UpperBound([acc] + rest, FoldMerge(acc, rest).value) &&
      forall c :: UpperBound([acc] + rest, c) ==> Contains(FoldMerge(acc, rest).value, c)
    decreases |rest|
  {
    var all := [acc] + rest;
    if |rest| == 0 {
      ContainsReflexive(acc);
      assert UpperBound(all, acc);
      forall c | UpperBound(all, c) ensures Contains(acc, c) {
        assert Contains(all[0], c);
      }
    } else {
      var b := rest[0];
      if !b.Dict? {
        forall c ensures !UpperBound(all, c) {
          assert !(Contains(all[0], c) && Contains(all[1], c));
        }
      } else {
        DeepMergeIsLeastUpperBound(acc, b);
        if DeepMergeSpec(acc, b).Err? {
          forall c ensures !UpperBound(all, c) {
            assert !(Contains(all[0], c) && Contains(all[1], c));
          }
        } else {
          var v := DeepMergeSpec(acc, b).value;
          var tail := [v] + rest[1..];
          FoldMergeIsLeast(v, rest[1..]);
          // An upper bound of all inputs contains v, so it bounds the tail, and back.
          forall c | UpperBound(all, c) ensures UpperBound(tail, c) {
            assert Contains(all[0], c) && Contains(all[1], c);
            forall i | 1 <= i < |tail| ensures Contains(tail[i], c) { assert tail[i] == all[i + 1]; }
          }
          forall c | UpperBound(tail, c) ensures UpperBound(all, c) {
            assert Contains(tail[0], c);
            ContainsTransitive(acc, v, c);
            ContainsTransitive(b, v, c);
            forall i | 2 <= i < |all| ensures Contains(all[i], c) { assert all[i] == tail[i - 1]; }
          }
          if FoldMerge(v, rest[1..]).Ok? {
            var r := FoldMerge(v, rest[1..]).value;
            assert UpperBound(tail, r);
          }
        }
      }
    }
  }

  /**
   * `dict_merge` of two or more arguments, the first a dictionary, succeeds
   * exactly when some value contains every argument, and then returns the
   * least such value: later sources never override earlier ones.
   */
  lemma DictMergeIsLeastUpperBound(args: seq<Value>)
    requires |args| >= 2 && args[0].Dict?
    ensures DictMerge(args).Ok? <==> exists c :: UpperBound(args, c)
    ensures DictMerge(args).Ok? ==>
      UpperBound(args, DictMerge(args).value) &&
      forall c :: UpperBound(args, c) ==> Contains(DictMerge(args).value, c)
  {
    assert args == [args[0]] + args[1..];
    FoldMergeIsLeast(args[0], args[1..]);
  }

  /** An entry of the `dicts` argument of `merge_files_and_dicts`. */
  datatype DictArg =
    | PairList(pairs: seq<(string, Value)>)
    | Mapping(m: map<string, Value>)
    | Other

  /** `{k: v for k, v in pairs}`. */
  function PairsToMap(pairs: seq<(string, Value)>): map<string, Value>
  {
    if |pairs| == 0 then map[]
    else PairsToMap(pairs[..|pairs| - 1])[pairs[|pairs| - 1].0 := pairs[|pairs| - 1].1]
  }

  /** The dictionary built from a list of pairs has exactly the pairs' keys. */
  lemma {:induction false} PairsToMapKeys(pairs: seq<(string, Value)>)
    ensures forall k :: k in PairsToMap(pairs) <==> exists i :: 0 <= i < |pairs| && pairs[i].0 == k
  {
    if |pairs| > 0 {
      var init := pairs[..|pairs| - 1];
      PairsToMapKeys(init);
      forall k | k in PairsToMap(pairs) ensures exists i :: 0 <= i < |pairs| && pairs[i].0 == k {
        if k != pairs[|pairs| - 1].0 {
          assert k in PairsToMap(init);
          var i :| 0 <= i < |init| && init[i].0 == k;
          assert pairs[i].0 == k;
        }
      }
      forall k | exists i :: 0 <= i < |pairs| && pairs[i].0 == k ensures k in PairsToMap(pairs) {
        var i :| 0 <= i < |pairs| && pairs[i].0 == k;
        if i < |init| { assert init[i].0 == k; }
      }
    }
  }

  /** Within a list of pairs, the last pair with a given key decides its value. */
  lemma {:induction false} PairsToMapLastWins(pairs: seq<(string, Value)>, i: nat)
    requires i < |pairs|
    requires forall j | i < j < |pairs| :: pairs[j].0 != pairs[i].0
    ensures pairs[i].0 in PairsToMap(pairs) && PairsToMap(pairs)[pairs[i].0] == pairs[i].1
  {
    if i < |pairs| - 1 {
      var init := pairs[..|pairs| - 1];
      assert init[i] == pairs[i];
      PairsToMapLastWins(init, i);
    }
  }

  predicate IsDictArg(d: DictArg)
  {
    !d.Other?
  }

  function ConvertArg(d: DictArg): Value
    requires IsDictArg(d)
  {
    match d
    case PairList(ps) => Dict(PairsToMap(ps))
    case Mapping(m) => Dict(m)
  }

  function ConvertArgs(dicts: seq<DictArg>): (r: seq<Value>)
    requires forall i :: 0 <= i < |dicts| ==> IsDictArg(dicts[i])
    ensures |r| == |dicts|
  {
    seq(|dicts|, i requires 0 <= i < |dicts| && IsDictArg(dicts[i]) => ConvertArg(dicts[i]))
  }

  /**
   * `merge_files_and_dicts` after its YAML files are loaded: convert each
   * entry of `dicts` (a list of pairs becomes a dictionary; a dictionary is
   * kept), raise `ValueError` on any other entry, and merge the file values
   * followed by the converted entries.
   */
  method MergeFilesAndDicts(fileValues: seq<Value>, dicts: seq<DictArg>) returns (r: Result<Value, MergeError>)
    ensures (exists i :: 0 <= i < |dicts| && !IsDictArg(dicts[i])) <==> r == Err(ValueError)
    ensures (forall i :: 0 <= i < |dicts| ==> IsDictArg(dicts[i])) ==> r == DictMerge(fileValues + ConvertArgs(dicts))
  {
    var dictVars: seq<Value> := [];
    var i := 0;
    while i < |dicts|
      invariant 0 <= i <= |dicts|
      invariant forall j :: 0 <= j < i ==> IsDictArg(dicts[j])
      invariant |dictVars| == i && forall j :: 0 <= j < i ==> dictVars[j] == ConvertArg(dicts[j])
    {
      match dicts[i] {
        case PairList(ps) =>
          dictVars := dictVars + [Dict(PairsToMap(ps))];
        case Mapping(m) =>
          dictVars := dictVars + [Dict(m)];
        case Other =>
          return Err(ValueError);
      }
      i := i + 1;
    }
    assert dictVars == ConvertArgs(dicts);
    r := DictMerge(fileValues + dictVars);
    // Merging never raises ValueError.
    FoldMergeErrors(fileValues + dictVars);
  }

  lemma {:induction false} FoldMergeNeverValueError(acc: Value, rest: seq<Value>)
    ensures FoldMerge(acc, rest) != Err(ValueError)
    decreases |rest|
  {
    if |rest| > 0 && DeepMergeSpec(acc, rest[0]).Ok? {
      FoldMergeNeverValueError(DeepMergeSpec(acc, rest[0]).value, rest[1..]);
    }
  }

  lemma FoldMergeErrors(args: seq<Value>)
    ensures DictMerge(args) != Err(ValueError)
  {
    if |args| >= 2 {
      FoldMergeNeverValueError(args[0], args[1..]);
    }
  }

  /** `ArtifactLocation`: `is_dir` defaults to false. */
  datatype ArtifactLocation = ArtifactLocation(pipeline: string, stage: string, job: string, fileName: string, isDir: bool := false)

  /** `ArtifactLocation.as_fetch_task`. */
  function AsFetchTask(loc: ArtifactLocation, dest: string): (t: Task)
    ensures t.FetchTask? && t.dest == dest && t.runif == Passed
    ensures t.src.FetchDir? <==> loc.isDir
  {
    var src := if loc.isDir then FetchDir(loc.fileName) else FetchFile(loc.fileName);
    FetchTask(loc.pipeline, loc.stage, loc.job, src, dest, Passed)
  }

  /** The artifact a fetch task retrieves. */
  function FetchedLocation(t: Task): ArtifactLocation
    requires t.FetchTask?
  {
    match t.src
    case FetchFile(f) => ArtifactLocation(t.pipeline, t.stage, t.job, f, false)
    case FetchDir(d) => ArtifactLocation(t.pipeline, t.stage, t.job, d, true)
  }

  /** The fetch task retrieves exactly the location it was built from; a location built without `is_dir` is a file. */
  lemma AsFetchTaskRoundTrip(loc: ArtifactLocation, dest: string)
    ensures FetchedLocation(AsFetchTask(loc, dest)) == loc
    ensures AsFetchTask(ArtifactLocation(loc.pipeline, loc.stage, loc.job, loc.fileName), dest).src.FetchFile?
  {
  }
}
