/** The configuration store of threedify/core/config.py: nested dictionaries
    with a recursive merge, path lookup with a default, path assignment that
    creates intermediate dictionaries, and top-level item access. */
module Configuration {
  import opened Wrappers
  import opened Json

  /** DEFAULT_CONFIG. Every section is a dictionary. */
  function DefaultConfig(): (d: Dict)
    ensures d.Keys == {"general", "loader", "processor", "model", "export", "visualization"}
    ensures forall k :: k in d ==> d[k].Obj?
  {
    map[
      "general" := Obj(map["verbose" := Bool(true), "temp_dir" := Null]),
      "loader" := Obj(map["cache_enabled" := Bool(true), "cache_dir" := Str(".3dify_cache")]),
      "processor" := Obj(map["num_workers" := Int(4), "batch_size" := Int(1)]),
      "model" := Obj(map[
        "bolt3d" := Obj(map["use_gpu" := Bool(true), "device" := Str("cuda:0")]),
        "trellis" := Obj(map["use_gpu" := Bool(true), "device" := Str("cuda:0")])]),
      "export" := Obj(map["optimize_mesh" := Bool(true), "texture_resolution" := Int(2048)]),
      "visualization" := Obj(map["jupyter" := Obj(map["width" := Int(800), "height" := Int(600)])])
    ]
  }

  /** What _update_recursive leaves in `target`: for each source key, a
      dictionary merged into a dictionary recursively, anything else stored
      over whatever was there; target keys the source lacks stay as they were. */
  function Merge(target: Dict, source: Dict): (r: Dict)
    ensures r.Keys == target.Keys + source.Keys
    decreases Obj(source), 0
  {
    map k | k in target.Keys + source.Keys ::
      if k in source then MergeEntry(target, k, source[k]) else target[k]
  }

  /** The entry a merge stores under key for the source's value. */
  function MergeEntry(target: Dict, key: string, value: Value): Value
    decreases value, 1
  {
    if value.Obj? && key in target && target[key].Obj? then
      Obj(Merge(target[key].fields, value.fields))
    else value
  }

  /** The walk of Config.get: follow the keys through nested dictionaries,
      None at the first key missing or at a value that is not a dictionary. */
  function Lookup(v: Value, keys: seq<string>): Option<Value>
    decreases |keys|
  {
    if |keys| == 0 then Some(v)
    else if v.Obj? && keys[0] in v.fields then Lookup(v.fields[keys[0]], keys[1..])
    else None
  }

  /** The dictionary of the next level that Config.set walks into: the value
      stored under key when it is a dictionary, a new empty one when the key is
      missing, None (a TypeError ahead) when the value is not a dictionary. */
  function Child(m: Dict, key: string): Option<Dict>
  {
    if key !in m then Some(map[])
    else if m[key].Obj? then Some(m[key].fields)
    else None
  }

  /** What Config.set(value, *keys) leaves in the dictionary, for one key or more. */
  function Assign(m: Dict, keys: seq<string>, v: Value): (r: Result<Dict>)
    requires |keys| >= 1
    ensures r.Err? ==> r.error == TypeError
    ensures r.Ok? ==> r.value.Keys == m.Keys + {keys[0]}
    ensures r.Ok? ==> forall k :: k in m && k != keys[0] ==> r.value[k] == m[k]
    ensures r.Ok? && |keys| >= 2 ==> r.value[keys[0]].Obj?
    decreases |keys|
  {
    if |keys| == 1 then Ok(m[keys[0] := v])
    else
      match Child(m, keys[0])
      case None => Err(TypeError)
      case Some(c) =>
        match Assign(c, keys[1..], v)
        case Ok(c') => Ok(m[keys[0] := Obj(c')])
        case Err(e) => Err(e)
  }

  // ---------------------------------------------------------------------
  // Properties of the merge

  /** After a merge every non-dictionary value of the source can be read at
      its path; in particular it replaces a dictionary that was there. */
  lemma {:induction false} MergeLeaf(target: Dict, source: Dict, path: seq<string>, v: Value)
    requires |path| >= 1
    requires Lookup(Obj(source), path) == Some(v) && !v.Obj?
    ensures Lookup(Obj(Merge(target, source)), path) == Some(v)
    decreases |path|
  {
    var k := path[0];
    var m := Merge(target, source);
    assert k in source;
    if |path| > 1 {
      assert Lookup(source[k], path[1..]) == Some(v);
      assert source[k].Obj?;
      if k in target && target[k].Obj? {
        MergeLeaf(target[k].fields, source[k].fields, path[1..], v);
      }
    }
  }

  /** The paths a merge leaves alone: they go through dictionaries that both
      sides hold until a key that the source does not have. */
  predicate Untouched(target: Dict, source: Dict, path: seq<string>)
    decreases |path|
  {
    |path| >= 1 && path[0] in target &&
    (path[0] !in source ||
      (|path| >= 2 && source[path[0]].Obj? && target[path[0]].Obj? &&
       Untouched(target[path[0]].fields, source[path[0]].fields, path[1..])))
  }

  /** What the source does not mention keeps the target's value. */
  lemma {:induction false} MergeUntouched(target: Dict, source: Dict, path: seq<string>)
    requires Untouched(target, source, path)
    ensures Lookup(Obj(Merge(target, source)), path) == Lookup(Obj(target), path)
    decreases |path|
  {
    var k := path[0];
    if k in source {
      MergeUntouched(target[k].fields, source[k].fields, path[1..]);
    }
  }

  /** Merging a dictionary into itself changes nothing. */
  lemma {:induction false} MergeSelf(d: Dict)
    ensures Merge(d, d) == d
    decreases Obj(d)
  {
    forall k | k in d && d[k].Obj?
      ensures Merge(d[k].fields, d[k].fields) == d[k].fields
    {
      MergeSelf(d[k].fields);
    }
  }

  /** Applying the same layer twice is the same as applying it once. */
  lemma {:induction false} MergeIdempotent(target: Dict, source: Dict)
    ensures Merge(Merge(target, source), source) == Merge(target, source)
    decreases Obj(source)
  {
    var m := Merge(target, source);
    forall k | k in source && source[k].Obj?
      ensures k in m && m[k].Obj?
      ensures Merge(m[k].fields, source[k].fields) == m[k].fields
    {
      if k in target && target[k].Obj? {
        MergeIdempotent(target[k].fields, source[k].fields);
      } else {
        MergeSelf(source[k].fields);
      }
    }
  }

  /** Layers: with defaults, then the file, then the dictionary, a value the
      dictionary gives wins over the file's at the same path. */
  lemma DictionaryLayerWins(defaults: Dict, file: Dict, dict: Dict, path: seq<string>, v: Value)
    requires |path| >= 1
    requires Lookup(Obj(dict), path) == Some(v) && !v.Obj?
    ensures Lookup(Obj(Merge(Merge(defaults, file), dict)), path) == Some(v)
  {
    MergeLeaf(Merge(defaults, file), dict, path, v);
  }

  // ---------------------------------------------------------------------
  // Properties of path assignment

  /** After a successful set, get along the same keys returns the value. */
  lemma {:induction false} AssignThenLookup(m: Dict, keys: seq<string>, v: Value)
    requires |keys| >= 1 && Assign(m, keys, v).Ok?
    ensures Lookup(Obj(Assign(m, keys, v).value), keys) == Some(v)
    decreases |keys|
  {
    if |keys| > 1 {
      AssignThenLookup(Child(m, keys[0]).value, keys[1..], v);
    }
  }

  /** Two key paths that part ways somewhere. */
  predicate Diverge(p: seq<string>, q: seq<string>)
    decreases |p|
  {
    |p| >= 1 && |q| >= 1 && (p[0] != q[0] || Diverge(p[1..], q[1..]))
  }

  /** A set leaves every path that parts from its own unchanged. */
  lemma {:induction false} AssignOtherPaths(m: Dict, keys: seq<string>, v: Value, q: seq<string>)
    requires |keys| >= 1 && Assign(m, keys, v).Ok?
    requires Diverge(keys, q)
    ensures Lookup(Obj(Assign(m, keys, v).value), q) == Lookup(Obj(m), q)
    decreases |keys|
  {
    var r := Assign(m, keys, v).value;
    if keys[0] == q[0] {
      var c := Child(m, keys[0]).value;
      AssignOtherPaths(c, keys[1..], v, q[1..]);
      if keys[0] !in m {
        LookupEmpty(q[1..]);
      }
    }
  }

  lemma LookupEmpty(q: seq<string>)
    requires |q| >= 1
    ensures Lookup(Obj(map[]), q) == None
  {
  }

  /** A value that get can reach at a proper prefix of the keys and that is
      not a dictionary. */
  predicate BlockedPrefix(m: Dict, keys: seq<string>)
  {
    exists i :: 1 <= i < |keys| && Lookup(Obj(m), keys[..i]).Some? && !Lookup(Obj(m), keys[..i]).value.Obj?
  }

  /** Config.set raises exactly when an existing intermediate value is not a
      dictionary; otherwise it succeeds. */
  lemma {:induction false} AssignFailsIff(m: Dict, keys: seq<string>, v: Value)
    requires |keys| >= 1
    ensures Assign(m, keys, v).Err? <==> BlockedPrefix(m, keys)
    decreases |keys|
  {
    if |keys| >= 2 {
      var k := keys[0];
      assert keys[..1] == [k];
      if k !in m {
        AssignFailsIff(map[], keys[1..], v);
      } else if !m[k].Obj? {
        assert Lookup(Obj(m), keys[..1]) == Some(m[k]);
      } else {
        var c := m[k].fields;
        AssignFailsIff(c, keys[1..], v);
        if BlockedPrefix(c, keys[1..]) {
          var i :| 1 <= i < |keys[1..]| && Lookup(Obj(c), keys[1..][..i]).Some? && !Lookup(Obj(c), keys[1..][..i]).value.Obj?;
          assert keys[..i + 1][1..] == keys[1..][..i];
          assert Lookup(Obj(m), keys[..i + 1]) == Lookup(Obj(c), keys[1..][..i]);
        }
        assert Lookup(Obj(m), keys[..1]) == Some(m[k]);
        if BlockedPrefix(m, keys) {
          var i :| 1 <= i < |keys| && Lookup(Obj(m), keys[..i]).Some? && !Lookup(Obj(m), keys[..i]).value.Obj?;
          assert keys[..i][1..] == keys[1..][..i - 1];
          assert Lookup(Obj(m), keys[..i]) == Lookup(Obj(c), keys[1..][..i - 1]);
        }
      }
    }
  }

  // ---------------------------------------------------------------------
  // The loops of the source, on values

  /** _update_recursive: the loop over the source's items, recursing where a
      dictionary meets a dictionary. The source's iteration order does not
      matter because each key writes only its own entry. */
  method UpdateRecursive(target: Dict, source: Dict) returns (updated: Dict)
    ensures updated == Merge(target, source)
    decreases Obj(source)
  {
    updated := target;
    var pending := source.Keys;
    while pending != {}
      invariant pending <= source.Keys
      invariant updated == Merge(target, source - pending)
      decreases pending
    {
      var key :| key in pending;
      var value := source[key];
      MergeExtend(target, source - pending, key, value);
      if value.Obj? && key in updated && updated[key].Obj? {
        var inner := UpdateRecursive(updated[key].fields, value.fields);
        updated := updated[key := Obj(inner)];
      } else {
        updated := updated[key := value];
      }
      assert source - (pending - {key}) == (source - pending)[key := value];
      pending := pending - {key};
    }
    assert source - pending == source;
  }

  lemma MergeExtend(target: Dict, done: Dict, key: string, value: Value)
    requires key !in done
    ensures key in target ==> key in Merge(target, done) && Merge(target, done)[key] == target[key]
    ensures key !in target ==> key !in Merge(target, done)
    ensures MergeEntry(Merge(target, done), key, value) == MergeEntry(target, key, value)
    ensures Merge(target, done[key := value]) == Merge(target, done)[key := MergeEntry(target, key, value)]
  {
  }

  /** The dictionaries the walk passes: trail[0] is the root dictionary and
      trail[j + 1] the child of trail[j] under keys[j]. */
  ghost predicate Descends(m: Dict, keys: seq<string>, trail: seq<Dict>)
  {
    1 <= |trail| <= |keys| && trail[0] == m &&
    forall j :: 0 <= j < |trail| - 1 ==> Child(trail[j], keys[j]) == Some(trail[j + 1])
  }

  /** Config.set's descent: the cursor moves through keys[..|keys|-1],
      inserting empty dictionaries where a key is missing; a value on the
      way that is not a dictionary stops it. */
  method Descend(m: Dict, keys: seq<string>, v: Value) returns (trail: Option<seq<Dict>>)
    requires |keys| >= 1
    ensures trail.None? ==> Assign(m, keys, v).Err?
    ensures trail.Some? ==> |trail.value| == |keys| && Descends(m, keys, trail.value)
  {
    var n := |keys|;
    var t: seq<Dict> := [m];
    var i := 0;
    while i < n - 1
      invariant 0 <= i <= n - 1
      invariant |t| == i + 1 && Descends(m, keys, t)
      invariant Assign(t[i], keys[i..], v).Err? ==> Assign(m, keys, v).Err?
    {
      var next := Child(t[i], keys[i]);
      if next.None? {
        assert Assign(t[i], keys[i..], v).Err?;
        return None;
      }
      assert keys[i..][1..] == keys[i + 1..];
      t := t + [next.value];
      i := i + 1;
    }
    trail := Some(t);
  }

  /** Config.set's write-back: the value goes into the last dictionary, and
      each dictionary is stored into its parent from the bottom up. */
  method WriteBack(trail: seq<Dict>, keys: seq<string>, v: Value) returns (acc: Dict)
    requires |keys| >= 1 && |trail| == |keys| && Descends(trail[0], keys, trail)
    ensures Assign(trail[0], keys, v) == Ok(acc)
  {
    var n := |keys|;
    acc := trail[n - 1][keys[n - 1] := v];
    var j := n - 1;
    assert keys[n - 1..] == [keys[n - 1]];
    while j > 0
      invariant 0 <= j <= n - 1
      invariant Assign(trail[j], keys[j..], v) == Ok(acc)
    {
      assert keys[j - 1..][1..] == keys[j..];
      assert Child(trail[j - 1], keys[j - 1]) == Some(trail[j]);
      acc := trail[j - 1][keys[j - 1] := Obj(acc)];
      j := j - 1;
    }
    assert keys[0..] == keys;
  }

  /** Config.set's walk, on values: the descent, then the write-back. */
  method AssignByWalk(m: Dict, keys: seq<string>, v: Value) returns (r: Result<Dict>)
    requires |keys| >= 1
    ensures r == Assign(m, keys, v)
  {
    var trail := Descend(m, keys, v);
    if trail.None? {
      return Err(TypeError);
    }
    var acc := WriteBack(trail.value, keys, v);
    r := Ok(acc);
  }

  // ---------------------------------------------------------------------
  // The state

  /** The module-level DEFAULT_CONFIG dictionary. Config.__init__ takes only a
      shallow copy of it, so its section dictionaries are shared with every
      configuration built from it and change when those are updated in place. */
  class Defaults {
    var table: Dict

    ghost predicate Valid()
      reads this
    {
      forall k :: k in table ==> table[k].Obj?
    }

    constructor ()
      ensures Valid() && table == DefaultConfig()
    {
      table := DefaultConfig();
    }
  }

  /** Config: `_config` is the view `Contents()`. Its top-level entries are
      either its own (`own`) or still the very section dictionaries of
      DEFAULT_CONFIG (`shared`), which every in-place update writes through to. */
  class Config {
    const defaults: Defaults
    var own: Dict
    var shared: set<string>

    ghost predicate Valid()
      reads this, defaults
    {
      defaults.Valid() && shared <= defaults.table.Keys && shared !! own.Keys
    }

    /** The dictionary `_config`. */
    function Contents(): (c: Dict)
      reads this, defaults
      requires Valid()
      ensures c.Keys == own.Keys + shared
    {
      map k | k in own.Keys + shared :: if k in shared then defaults.table[k] else own[k]
    }

    /** __init__: a shallow copy of the defaults, then the file's dictionary,
        then config_dict, each merged with _update_recursive. A missing file,
        malformed JSON and a non-dictionary at the top of the file are I/O
        errors outside this model: `file` is the parsed dictionary. */
    constructor (d: Defaults, file: Option<Dict>, configDict: Option<Dict>)
      requires d.Valid()
      modifies d
      ensures Valid() && defaults == d
      ensures Contents() ==
        Merge(Merge(old(d.table), if file.Some? then file.value else map[]),
              if configDict.Some? then configDict.value else map[])
      ensures d.table.Keys == old(d.table).Keys
      ensures forall k :: k in shared ==> d.table[k] == Contents()[k]
      ensures forall k ::
        k in d.table && (file.None? || k !in file.value) && (configDict.None? || k !in configDict.value) ==>
          d.table[k] == old(d.table)[k]
    {
      defaults := d;
      own := map[];
      shared := d.table.Keys;
      new;
      assert Contents() == d.table;
      if file.Some? {
        ApplyLayer(file.value);
      } else {
        MergeEmptySource(Contents());
      }
      if configDict.Some? && |configDict.value| > 0 {
        ApplyLayer(configDict.value);
      } else {
        MergeEmptySource(Contents());
      }
    }

    /** One item of the loop of _update_recursive(self._config, source): a
        key whose entry is a shared section and whose new value is a
        dictionary is merged into that section in place; any other new value
        becomes an entry of this configuration's own. */
    method ApplyEntry(key: string, value: Value)
      requires Valid()
      modifies this, defaults
      ensures Valid()
      ensures Contents() == old(Contents())[key := MergeEntry(old(Contents()), key, value)]
      ensures shared == if value.Obj? then old(shared) else old(shared) - {key}
      ensures defaults.table.Keys == old(defaults.table).Keys
      ensures forall k :: k in defaults.table && (k != key || k !in shared) ==> defaults.table[k] == old(defaults.table)[k]
    {
      var current := Contents();
      if value.Obj? && key in current && current[key].Obj? {
        var inner := UpdateRecursive(current[key].fields, value.fields);
        if key in shared {
          defaults.table := defaults.table[key := Obj(inner)];
        } else {
          own := own[key := Obj(inner)];
        }
      } else {
        own := own[key := value];
        shared := shared - {key};
      }
    }

    /** _update_recursive(self._config, source). The sections of the defaults
        that this configuration no longer shares are left as they were. */
    method ApplyLayer(source: Dict)
      requires Valid()
      modifies this, defaults
      ensures Valid()
      ensures Contents() == Merge(old(Contents()), source)
      ensures shared <= old(shared)
      ensures defaults.table.Keys == old(defaults.table).Keys
      ensures forall k :: k in defaults.table && k !in shared ==> defaults.table[k] == old(defaults.table)[k]
      ensures forall k :: k in defaults.table && k !in source ==> defaults.table[k] == old(defaults.table)[k]
    {
      ghost var start := Contents();
      ghost var table0 := defaults.table;
      ghost var shared0 := shared;
      var pending := source.Keys;
      while pending != {}
        invariant Valid()
        invariant pending <= source.Keys
        invariant Contents() == Merge(start, source - pending)
        invariant shared <= shared0
        invariant defaults.table.Keys == table0.Keys
        invariant forall k :: k in table0 && (k !in shared || k in pending) ==> defaults.table[k] == table0[k]
        invariant forall k :: k in table0 && k !in source ==> defaults.table[k] == table0[k]
        decreases pending
      {
        var key :| key in pending;
        var value := source[key];
        ghost var contents1, table1, shared1 := Contents(), defaults.table, shared;
        ApplyEntry(key, value);
        KeepStep(table0, table1, defaults.table, shared1, shared, pending, key);
        LayerStep(start, source, pending, key, contents1, Contents());
        pending := pending - {key};
      }
      assert source - pending == source;
    }

    /** get(*keys, default=...). */
    method Get(keys: seq<string>, default: Value) returns (r: Value)
      requires Valid()
      ensures r == match Lookup(Obj(Contents()), keys) case Some(v) => v case None => default
    {
      var value := Obj(Contents());
      var i := 0;
      while i < |keys|
        invariant 0 <= i <= |keys|
        invariant Lookup(Obj(Contents()), keys) == Lookup(value, keys[i..])
      {
        assert keys[i..][1..] == keys[i + 1..];
        if value.Obj? && keys[i] in value.fields {
          value := value.fields[keys[i]];
        } else {
          return default;
        }
        i := i + 1;
      }
      r := value;
    }

    /** set(value, *keys): ValueError without keys; TypeError when an existing
        intermediate value is not a dictionary; otherwise the assignment, made
        in place in a shared section when the first key names one. */
    method Set(value: Value, keys: seq<string>) returns (o: Outcome)
      requires Valid()
      modifies this, defaults
      ensures Valid()
      ensures |keys| == 0 ==> o == Fail(ValueError) && Contents() == old(Contents())
      ensures |keys| >= 1 ==>
        match Assign(old(Contents()), keys, value)
        case Ok(m) => o == Pass && Contents() == m
        case Err(e) => o == Fail(e) && Contents() == old(Contents())
      ensures |keys| >= 2 && keys[0] in old(shared) && o.Pass? ==>
        shared == old(shared) && defaults.table == old(defaults.table)[keys[0] := Contents()[keys[0]]]
      ensures |keys| == 1 ==> shared == old(shared) - {keys[0]}
      ensures !(|keys| >= 2 && keys[0] in old(shared) && o.Pass?) ==> defaults.table == old(defaults.table)
      ensures o.Fail? ==> shared == old(shared) && own == old(own)
      ensures |keys| >= 2 && keys[0] !in old(shared) ==> shared == old(shared)
    {
      if |keys| == 0 {
        return Fail(ValueError);
      }
      var current := Contents();
      var r := AssignByWalk(current, keys, value);
      if r.Err? {
        return Fail(r.error);
      }
      var m := r.value;
      var k := keys[0];
      if |keys| >= 2 && k in shared {
        defaults.table := defaults.table[k := m[k]];
      } else {
        own := own[k := m[k]];
        shared := shared - {k};
      }
      assert m == current[k := m[k]];
      o := Pass;
    }

    /** self[key]: KeyError when the key is absent. */
    method GetItem(key: string) returns (r: Result<Value>)
      requires Valid()
      ensures key in Contents() ==> r == Ok(Contents()[key])
      ensures key !in Contents() ==> r == Err(KeyError)
    {
      if key in own {
        r := Ok(own[key]);
      } else if key in shared {
        r := Ok(defaults.table[key]);
      } else {
        r := Err(KeyError);
      }
    }

    /** self[key] = value: a new top-level entry of this configuration's own. */
    method SetItem(key: string, value: Value)
      requires Valid()
      modifies this
      ensures Valid()
      ensures Contents() == old(Contents())[key := value]
      ensures shared == old(shared) - {key}
    {
      own := own[key := value];
      shared := shared - {key};
    }
  }

  /** One more key of a layer merged. */
  lemma LayerStep(start: Dict, source: Dict, pending: set<string>, key: string, c1: Dict, c2: Dict)
    requires key in pending && pending <= source.Keys
    requires c1 == Merge(start, source - pending)
    requires c2 == c1[key := MergeEntry(c1, key, source[key])]
    ensures c2 == Merge(start, source - (pending - {key}))
  {
    MergeExtend(start, source - pending, key, source[key]);
    assert source - (pending - {key}) == (source - pending)[key := source[key]];
  }

  /** The sections of the defaults a layer has not replaced so far are the
      ones it started with, one key at a time. */
  lemma KeepStep(t0: Dict, t1: Dict, t2: Dict, s1: set<string>, s2: set<string>, p1: set<string>, key: string)
    requires t1.Keys == t0.Keys && forall k :: k in t0 && (k !in s1 || k in p1) ==> t1[k] == t0[k]
    requires t2.Keys == t1.Keys && forall k :: k in t2 && (k != key || k !in s2) ==> t2[k] == t1[k]
    requires s1 - {key} <= s2 <= s1 && key in p1
    ensures t2.Keys == t0.Keys
    ensures forall k :: k in t0 && (k !in s2 || k in p1 - {key}) ==> t2[k] == t0[k]
  {
  }

  lemma MergeEmptySource(d: Dict)
    ensures Merge(d, map[]) == d
  {
  }
}
