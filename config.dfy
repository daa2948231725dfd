/** `ConfigRepository.ts`: configuration trees, one per config file, read and written with
    dotted keys (`file.key.subkey`). The repository keeps `configs`, everything loaded or set,
    and `cache`, what `get` reads.

    The trees are values here. In the source, `cache[file]` and `configs[file]` are the same
    object once either `load` or `set` has stored it in both, so a write through one is seen
    through the other; `Coherent` states that sharing and every operation keeps it. */
module Config {
  import opened Wrappers
  import opened Js
  import Str
  import Text

  /** The file name: the text before the first `.` of the key. */
  function FileOf(key: string): string {
    Str.Split(key, '.')[0]
  }

  /** The segments after the file name. */
  function PathOf(key: string): seq<string> {
    Str.Split(key, '.')[1..]
  }

  /** `parts.reduce((o, i) => o !== undefined ? o[i] : undefined, config)`: once a step gives
      `undefined` the rest of the walk stays `undefined`; a step from `null` throws. */
  function Walk(o: Value, path: seq<string>): (r: Result<Value>)
    ensures o.Undefined? ==> r == Ok(Undefined)
    ensures path == [] ==> r == Ok(o)
    ensures o.Null? && path != [] ==> r.Err?
    decreases |path|
  {
    if path == [] then Ok(o)
    else if o.Undefined? then Walk(Undefined, path[1..])
    else
      match GetProp(o, path[0])
      case Err(e) => Err(e)
      case Ok(c) => Walk(c, path[1..])
  }

  /** Walking a path in two pieces is walking it whole. */
  lemma {:induction false} WalkAppend(o: Value, p: seq<string>, q: seq<string>)
    ensures Walk(o, p + q) == match Walk(o, p) case Err(e) => Err(e) case Ok(m) => Walk(m, q)
    decreases |p|
  {
    if p == [] {
      assert p + q == q;
    } else {
      assert (p + q)[1..] == p[1..] + q;
      if o.Undefined? {
        WalkAppend(Undefined, p[1..], q);
      } else if GetProp(o, p[0]).Ok? {
        WalkAppend(GetProp(o, p[0]).value, p[1..], q);
      }
    }
  }

  /** The file's tree in the cache, `undefined` when there is none. */
  function FileConfig(cache: Props, key: string): Value {
    Lookup(cache, FileOf(key)).GetOr(Undefined)
  }

  /** `get(key, defaultValue)`. */
  function Get(cache: Props, key: string, d: Value): (r: Result<Value>)
    ensures !Truthy(FileConfig(cache, key)) ==> r == Ok(d)
    ensures Truthy(FileConfig(cache, key)) && PathOf(key) == [] ==> r == Ok(FileConfig(cache, key))
    ensures r.Ok? ==> (r.value == d ||
      (Walk(FileConfig(cache, key), PathOf(key)) == Ok(r.value) && !r.value.Undefined?))
    ensures r.Err? ==> Walk(FileConfig(cache, key), PathOf(key)).Err?
    ensures Truthy(FileConfig(cache, key)) && Walk(FileConfig(cache, key), PathOf(key)).Err? ==> r.Err?
    ensures Truthy(FileConfig(cache, key)) && Walk(FileConfig(cache, key), PathOf(key)).Ok? ==>
      r == Ok(if Walk(FileConfig(cache, key), PathOf(key)).value.Undefined? then d
              else Walk(FileConfig(cache, key), PathOf(key)).value)
  {
    var config := FileConfig(cache, key);
    if !Truthy(config) then Ok(d)
    else
      match Walk(config, PathOf(key))
      case Err(e) => Err(e)
      case Ok(v) => Ok(if v.Undefined? then d else v)
  }

  /** Once any step of the walk gives `undefined`, `get` answers the default. */
  lemma GetMissingStep(cache: Props, key: string, d: Value, j: nat)
    requires j <= |PathOf(key)| && Walk(FileConfig(cache, key), PathOf(key)[..j]) == Ok(Undefined)
    ensures Get(cache, key, d) == Ok(d)
  {
    var path := PathOf(key);
    assert path == path[..j] + path[j..];
    WalkAppend(FileConfig(cache, key), path[..j], path[j..]);
  }

  /** After `clearCache`, every `get` answers its default. */
  lemma GetCleared(key: string, d: Value)
    ensures Get([], key, d) == Ok(d)
  {
  }

  /** `has(key)`: `get(key)` with the default `null` is not `null`. */
  function Has(cache: Props, key: string): (r: Result<bool>)
    ensures r.Err? <==> Get(cache, key, Null).Err?
    ensures r == Ok(true) <==> (Truthy(FileConfig(cache, key)) &&
      exists v :: Walk(FileConfig(cache, key), PathOf(key)) == Ok(v) && !v.Undefined? && !v.Null?)
  {
    match Get(cache, key, Null)
    case Err(e) => Err(e)
    case Ok(v) => Ok(!v.Null?)
  }

  /** `object(key, defaultValue)`: the value when it is an object or an array, otherwise the
      default. */
  function ObjectAt(cache: Props, key: string, d: Value): (r: Result<Value>)
    ensures r.Err? <==> Get(cache, key, d).Err?
    ensures r.Ok? ==> r.value == d || (IsObject(r.value) && Get(cache, key, d) == Ok(r.value))
    ensures Get(cache, key, d).Ok? && IsObject(Get(cache, key, d).value) ==> r == Get(cache, key, d)
    ensures r.Ok? && IsObject(d) ==> IsObject(r.value)
  {
    match Get(cache, key, d)
    case Err(e) => Err(e)
    case Ok(v) => Ok(if IsObject(v) then v else d)
  }

  /** `array(key, defaultValue)`: the value when it is an array, otherwise the default. */
  function ArrayAt(cache: Props, key: string, d: Value): (r: Result<Value>)
    ensures r.Err? <==> Get(cache, key, d).Err?
    ensures r.Ok? ==> r.value == d || (r.value.Arr? && Get(cache, key, d) == Ok(r.value))
    ensures Get(cache, key, d).Ok? && Get(cache, key, d).value.Arr? ==> r == Get(cache, key, d)
    ensures r.Ok? && d.Arr? ==> r.value.Arr?
  {
    match Get(cache, key, d)
    case Err(e) => Err(e)
    case Ok(v) => Ok(if v.Arr? then v else d)
  }

  /** `string(key, defaultValue)`: `value.toString()`, which throws on `null` and `undefined`. */
  function StringAt(cache: Props, key: string, d: Value): (r: Result<string>)
    ensures r.Ok? <==> Get(cache, key, d).Ok? && !Get(cache, key, d).value.Null? && !Get(cache, key, d).value.Undefined?
    ensures r.Ok? ==> r.value == ToText(Get(cache, key, d).value)
  {
    match Get(cache, key, d)
    case Err(e) => Err(e)
    case Ok(v) =>
      if v.Null? || v.Undefined? then Err("Cannot read properties of " + ToText(v)) else Ok(ToText(v))
  }

  /** `boolean(key, defaultValue)`: `Boolean(value)`. */
  function BooleanAt(cache: Props, key: string, d: Value): (r: Result<bool>)
    ensures r.Err? <==> Get(cache, key, d).Err?
    ensures r.Ok? ==> (r.value <==> Truthy(Get(cache, key, d).value))
    ensures !Truthy(FileConfig(cache, key)) ==> r == Ok(Truthy(d))
  {
    match Get(cache, key, d)
    case Err(e) => Err(e)
    case Ok(v) => Ok(Truthy(v))
  }

  /** `map(key, defaultValue)`: the entries of an object or an array, otherwise the default's.
      No configuration value is a `Map` here, so the `instanceof Map` branch never applies. */
  function MapAt(cache: Props, key: string, d: Props): (r: Result<Props>)
    ensures r.Err? <==> Get(cache, key, Obj(d)).Err?
    ensures r.Ok? && Get(cache, key, Obj(d)).value.Obj? ==> r.value == Get(cache, key, Obj(d)).value.props
    ensures r.Ok? && Get(cache, key, Obj(d)).value.Arr? ==>
      var items := Get(cache, key, Obj(d)).value.items;
      |r.value| == |items| && forall i :: 0 <= i < |items| ==> r.value[i] == (Text.NatToString(i), items[i])
    ensures r.Ok? && !IsObject(Get(cache, key, Obj(d)).value) ==> r.value == d
  {
    match Get(cache, key, Obj(d))
    case Err(e) => Err(e)
    case Ok(v) =>
      match v
      case Obj(props) => Ok(props)
      case Arr(items) => Ok(IndexEntries(items, 0))
      case _ => Ok(d)
  }

  // ---- set ----

  /** `if (!current[p]) current[p] = {}`: a falsy node is replaced by a fresh object. */
  function Start(v: Value): (r: Value)
    ensures Truthy(r)
    ensures Truthy(v) ==> r == v
  {
    if Truthy(v) then v else Obj([])
  }

  /** Writing `v` at `path` below `node`, as the loop of `set` does it through references:
      the new tree and whether the write took place. Module code runs in strict mode, so
      assigning a property of a string, number or boolean throws; that leaves the tree as it
      was. An array node is written only at an index it already holds. */
  function Assign(node: Value, path: seq<string>, v: Value): (r: (Value, bool))
    requires path != []
    ensures r.1 ==> IsObject(r.0)
    ensures !IsObject(node) ==> r == (node, false)
    decreases |path|
  {
    match node
    case Obj(p) =>
      if |path| == 1 then (Obj(Put(p, path[0], v)), true)
      else
        var sub := Assign(Start(Lookup(p, path[0]).GetOr(Undefined)), path[1..], v);
        (Obj(Put(p, path[0], sub.0)), sub.1)
    case Arr(items) =>
      if ArrayIndex(path[0]).Some? && ArrayIndex(path[0]).value < |items| then
        var i := ArrayIndex(path[0]).value;
        if |path| == 1 then (Arr(items[i := v]), true)
        else
          var sub := Assign(Start(items[i]), path[1..], v);
          (Arr(items[i := sub.0]), sub.1)
      else (node, false)
    case _ => (node, false)
  }

  /** One level the loop of `set` has descended through: the node and the key taken. */
  datatype Frame = ObjFrame(props: Props, key: string) | ArrFrame(items: seq<Value>, index: nat)

  /** The node of frame `f` with the child it descended into replaced by `x`. */
  function Fill(f: Frame, x: Value): Value {
    match f
    case ObjFrame(p, k) => Obj(Put(p, k, x))
    case ArrFrame(items, i) => if i < |items| then Arr(items[i := x]) else Arr(items)
  }

  /** Puts a rewritten innermost node back into the frames above it, innermost last. */
  function Plug(stack: seq<Frame>, r: (Value, bool)): (Value, bool)
    decreases |stack|
  {
    if stack == [] then r
    else Plug(stack[..|stack| - 1], (Fill(stack[|stack| - 1], r.0), r.1))
  }

  lemma PlugPush(stack: seq<Frame>, f: Frame, r: (Value, bool))
    ensures Plug(stack + [f], r) == Plug(stack, (Fill(f, r.0), r.1))
  {
    assert (stack + [f])[..|stack|] == stack;
  }

  /** Descending into an object's property pushes one frame. */
  lemma ObjStep(stack: seq<Frame>, p: Props, path: seq<string>, v: Value)
    requires |path| > 1
    ensures Plug(stack, Assign(Obj(p), path, v))
      == Plug(stack + [ObjFrame(p, path[0])], Assign(Start(Lookup(p, path[0]).GetOr(Undefined)), path[1..], v))
  {
    PlugPush(stack, ObjFrame(p, path[0]), Assign(Start(Lookup(p, path[0]).GetOr(Undefined)), path[1..], v));
  }

  /** Descending into an array element it holds pushes one frame. */
  lemma ArrStep(stack: seq<Frame>, items: seq<Value>, k: nat, path: seq<string>, v: Value)
    requires |path| > 1 && ArrayIndex(path[0]) == Some(k) && k < |items|
    ensures Plug(stack, Assign(Arr(items), path, v))
      == Plug(stack + [ArrFrame(items, k)], Assign(Start(items[k]), path[1..], v))
  {
    var sub := Assign(Start(items[k]), path[1..], v);
    assert Assign(Arr(items), path, v) == (Arr(items[k := sub.0]), sub.1);
    PlugPush(stack, ArrFrame(items, k), sub);
  }

  /** An array node written at an index it does not hold stays as it was. */
  lemma ArrStuck(items: seq<Value>, path: seq<string>, v: Value)
    requires path != [] && !(ArrayIndex(path[0]).Some? && ArrayIndex(path[0]).value < |items|)
    ensures Assign(Arr(items), path, v) == (Arr(items), false)
  {
  }

  /** The last segment, written into an object. */
  lemma LastObj(p: Props, path: seq<string>, v: Value)
    requires |path| == 1
    ensures Assign(Obj(p), path, v) == (Obj(Put(p, path[0], v)), true)
  {
  }

  /** The last segment, written into an array at an index it holds. */
  lemma LastArr(items: seq<Value>, k: nat, path: seq<string>, v: Value)
    requires |path| == 1 && ArrayIndex(path[0]) == Some(k) && k < |items|
    ensures Assign(Arr(items), path, v) == (Arr(items[k := v]), true)
  {
  }

  /** The loop of `set`: walks `current` down the segments but the last, creating missing or
      falsy nodes, then assigns the last segment. */
  method AssignPath(root: Value, path: seq<string>, v: Value) returns (r: Value, ok: bool)
    requires path != []
    ensures (r, ok) == Assign(root, path, v)
  {
    var stack: seq<Frame> := [];
    var current := root;
    var i := 0;
    while i < |path| - 1
      invariant 0 <= i <= |path| - 1
      invariant Assign(root, path, v) == Plug(stack, Assign(current, path[i..], v))
    {
      ghost var rest := path[i..];
      assert rest[0] == path[i] && rest[1..] == path[i + 1..];
      match current {
        case Obj(p) =>
          ObjStep(stack, p, rest, v);
          stack := stack + [ObjFrame(p, path[i])];
          current := Start(Lookup(p, path[i]).GetOr(Undefined));
        case Arr(items) =>
          if ArrayIndex(path[i]).Some? && ArrayIndex(path[i]).value < |items| {
            var k := ArrayIndex(path[i]).value;
            ArrStep(stack, items, k, rest, v);
            stack := stack + [ArrFrame(items, k)];
            current := Start(items[k]);
          } else {
            ArrStuck(items, rest, v);
            r, ok := Plug(stack, (current, false)).0, Plug(stack, (current, false)).1;
            return;
          }
        case _ =>
          r, ok := Plug(stack, (current, false)).0, Plug(stack, (current, false)).1;
          return;
      }
      i := i + 1;
    }
    var last := path[|path| - 1];
    ghost var rest := path[i..];
    assert rest == [last];
    var fin: (Value, bool);
    match current {
      case Obj(p) =>
        LastObj(p, rest, v);
        fin := (Obj(Put(p, last, v)), true);
      case Arr(items) =>
        if ArrayIndex(last).Some? && ArrayIndex(last).value < |items| {
          var k := ArrayIndex(last).value;
          LastArr(items, k, rest, v);
          fin := (Arr(items[k := v]), true);
        } else {
          ArrStuck(items, rest, v);
          fin := (current, false);
        }
      case _ =>
        fin := (current, false);
    }
    r, ok := Plug(stack, fin).0, Plug(stack, fin).1;
  }

  /** The path `set` writes: a key without a dot writes the property `"undefined"`, because
      `parts[parts.length - 1]` of an empty `parts` is `undefined`. */
  function SetPath(key: string): (r: seq<string>)
    ensures r != []
    ensures PathOf(key) != [] ==> r == PathOf(key)
  {
    if PathOf(key) == [] then ["undefined"] else PathOf(key)
  }

  /** Every entry of the cache is the entry of `configs` for that file: the same object. */
  ghost predicate Coherent(configs: Props, cache: Props) {
    forall k :: HasKey(cache, k) ==> Lookup(cache, k) == Lookup(configs, k)
  }

  /** The whole effect of `set(key, value)`: the new `configs`, the new `cache`, and whether it
      returned normally. A throw leaves the cache entry alone unless it is the very tree that
      was written to. */
  function SetState(configs: Props, cache: Props, key: string, v: Value): (r: (Props, Props, bool))
  {
    var file := FileOf(key);
    var root := Lookup(configs, file).GetOr(Undefined);
    var a := Assign(Start(root), SetPath(key), v);
    (Put(configs, file, a.0), if a.1 || HasKey(cache, file) then Put(cache, file, a.0) else cache, a.1)
  }

  /** `set` keeps the cache sharing its trees with `configs`. */
  lemma SetCoherent(configs: Props, cache: Props, key: string, v: Value)
    requires Coherent(configs, cache)
    ensures var s := SetState(configs, cache, key, v); Coherent(s.0, s.1)
  {
    var s := SetState(configs, cache, key, v);
    forall k | HasKey(s.1, k) ensures Lookup(s.1, k) == Lookup(s.0, k) {
      LookupPut(configs, FileOf(key), Assign(Start(Lookup(configs, FileOf(key)).GetOr(Undefined)), SetPath(key), v).0, k);
      LookupPut(cache, FileOf(key), Assign(Start(Lookup(configs, FileOf(key)).GetOr(Undefined)), SetPath(key), v).0, k);
    }
  }

  /** A write that took place can be read back along the same path. */
  lemma {:induction false} AssignThenWalk(node: Value, path: seq<string>, v: Value)
    requires path != [] && Assign(node, path, v).1
    ensures Walk(Assign(node, path, v).0, path) == Ok(v)
    decreases |path|
  {
    var r := Assign(node, path, v).0;
    match node {
      case Obj(p) =>
        LookupPut(p, path[0], if |path| == 1 then v else Assign(Start(Lookup(p, path[0]).GetOr(Undefined)), path[1..], v).0, path[0]);
        if |path| > 1 {
          AssignThenWalk(Start(Lookup(p, path[0]).GetOr(Undefined)), path[1..], v);
        }
      case Arr(items) =>
        if |path| > 1 {
          AssignThenWalk(Start(items[ArrayIndex(path[0]).value]), path[1..], v);
        }
    }
  }

  /** Below a file with no (or a falsy) tree, `set` builds the path from fresh objects, so it
      always succeeds. */
  lemma {:induction false} AssignFresh(path: seq<string>, v: Value)
    requires path != []
    ensures Assign(Obj([]), path, v).1
    decreases |path|
  {
    if |path| > 1 {
      AssignFresh(path[1..], v);
    }
  }

  /** `set(key, value)` followed by `get(key)` answers `value`, for a key with at least two
      segments and a value other than `undefined`, whenever the `set` returned normally. */
  lemma SetThenGet(configs: Props, cache: Props, key: string, v: Value, d: Value)
    requires PathOf(key) != [] && !v.Undefined? && SetState(configs, cache, key, v).2
    ensures Get(SetState(configs, cache, key, v).1, key, d) == Ok(v)
  {
    var file := FileOf(key);
    var a := Assign(Start(Lookup(configs, file).GetOr(Undefined)), PathOf(key), v);
    assert SetState(configs, cache, key, v).1 == Put(cache, file, a.0);
    LookupPut(cache, file, a.0, file);
    AssignThenWalk(Start(Lookup(configs, file).GetOr(Undefined)), PathOf(key), v);
    ReadBack(Put(cache, file, a.0), key, a.0, v, d);
  }

  lemma ReadBack(cache: Props, key: string, root: Value, v: Value, d: Value)
    requires Lookup(cache, FileOf(key)) == Some(root) && IsObject(root) && !v.Undefined?
    requires Walk(root, PathOf(key)) == Ok(v)
    ensures Get(cache, key, d) == Ok(v)
  {
  }

  /** `set` on a file with no tree, or a falsy one, returns normally. */
  lemma SetFreshFile(configs: Props, cache: Props, key: string, v: Value)
    requires !Truthy(Lookup(configs, FileOf(key)).GetOr(Undefined))
    ensures SetState(configs, cache, key, v).2
  {
    AssignFresh(SetPath(key), v);
  }

  /** A key without a dot writes the property `"undefined"` of the file's tree. */
  lemma SetSingleSegment(configs: Props, cache: Props, file: string, v: Value, d: Value)
    requires '.' !in file && !v.Undefined? && SetState(configs, cache, file, v).2
    ensures Get(SetState(configs, cache, file, v).1, file + ".undefined", d) == Ok(v)
  {
    SplitSingle(file);
    SplitDotUndefined(file);
    var key := file + ".undefined";
    assert FileOf(file) == file && SetPath(file) == ["undefined"];
    assert FileOf(key) == file && PathOf(key) == ["undefined"];
    var root := Start(Lookup(configs, file).GetOr(Undefined));
    var a := Assign(root, ["undefined"], v);
    var after := SetState(configs, cache, file, v).1;
    assert a.1 && after == Put(cache, file, a.0);
    LookupPut(cache, file, a.0, file);
    assert FileConfig(after, key) == a.0;
    AssignThenWalk(root, ["undefined"], v);
    GetFound(after, key, d, v);
  }

  /** A found value other than `undefined` in an object tree is what `get` answers. */
  lemma GetFound(cache: Props, key: string, d: Value, v: Value)
    requires IsObject(FileConfig(cache, key)) && Walk(FileConfig(cache, key), PathOf(key)) == Ok(v) && !v.Undefined?
    ensures Get(cache, key, d) == Ok(v)
  {
  }

  lemma {:induction false} SplitSingle(s: string)
    requires '.' !in s
    ensures Str.Split(s, '.') == [s]
  {
    if s != [] {
      SplitSingle(s[1..]);
      assert [s[0]] + s[1..] == s;
    }
  }

  lemma {:induction false} SplitDotUndefined(s: string)
    requires '.' !in s
    ensures Str.Split(s + ".undefined", '.') == [s, "undefined"]
  {
    if s == [] {
      assert s + ".undefined" == ".undefined";
      SplitSingle("undefined");
      assert ".undefined"[1..] == "undefined";
    } else {
      SplitDotUndefined(s[1..]);
      assert (s + ".undefined")[1..] == s[1..] + ".undefined";
      assert [s[0]] + s[1..] == s;
    }
  }

  /** The nodes on a path, all but the last segment's, are objects: the path exists. */
  predicate ObjectsAlong(node: Value, path: seq<string>)
    decreases |path|
  {
    node.Obj? && (|path| <= 1 || ObjectsAlong(Lookup(node.props, path[0]).GetOr(Undefined), path[1..]))
  }

  /** Where the path exists, a walk that leaves the written path at segment `j` reads the
      same before and after the write. */
  lemma {:induction false} AssignKeepsOthers(node: Value, path: seq<string>, v: Value, q: seq<string>, j: nat)
    requires ObjectsAlong(node, path) && j < |path| && j < |q| && q[..j] == path[..j] && q[j] != path[j]
    ensures Walk(Assign(node, path, v).0, q) == Walk(node, q)
    decreases |path|
  {
    var p := node.props;
    if j == 0 {
      KeepsAtTop(p, path, v, q);
    } else {
      var child := Lookup(p, path[0]).GetOr(Undefined);
      assert q[0] == path[0] by { assert q[..j][0] == path[..j][0]; }
      assert q[1..][..j - 1] == path[1..][..j - 1];
      AssignKeepsOthers(child, path[1..], v, q[1..], j - 1);
      KeepsBelow(p, path, v, q);
    }
  }

  lemma KeepsAtTop(p: Props, path: seq<string>, v: Value, q: seq<string>)
    requires path != [] && q != [] && q[0] != path[0]
    ensures Walk(Assign(Obj(p), path, v).0, q) == Walk(Obj(p), q)
  {
    var x := Assign(Obj(p), path, v).0;
    assert x.Obj? && x.props == Put(p, path[0], if |path| == 1 then v else Assign(Start(Lookup(p, path[0]).GetOr(Undefined)), path[1..], v).0);
    LookupPut(p, path[0], if |path| == 1 then v else Assign(Start(Lookup(p, path[0]).GetOr(Undefined)), path[1..], v).0, q[0]);
    WalkObj(x.props, q);
    WalkObj(p, q);
  }

  lemma KeepsBelow(p: Props, path: seq<string>, v: Value, q: seq<string>)
    requires |path| > 1 && q != [] && q[0] == path[0]
    requires Lookup(p, path[0]).GetOr(Undefined).Obj?
    requires Walk(Assign(Lookup(p, path[0]).GetOr(Undefined), path[1..], v).0, q[1..]) == Walk(Lookup(p, path[0]).GetOr(Undefined), q[1..])
    ensures Walk(Assign(Obj(p), path, v).0, q) == Walk(Obj(p), q)
  {
    var child := Lookup(p, path[0]).GetOr(Undefined);
    var x := Assign(child, path[1..], v).0;
    AssignObj(p, path, v);
    LookupPut(p, path[0], x, q[0]);
    WalkObj(Put(p, path[0], x), q);
    WalkObj(p, q);
  }

  lemma AssignObj(p: Props, path: seq<string>, v: Value)
    requires |path| > 1
    ensures Assign(Obj(p), path, v) ==
      var sub := Assign(Start(Lookup(p, path[0]).GetOr(Undefined)), path[1..], v); (Obj(Put(p, path[0], sub.0)), sub.1)
  {
  }

  lemma WalkObj(p: Props, q: seq<string>)
    requires q != []
    ensures Walk(Obj(p), q) == Walk(Lookup(p, q[0]).GetOr(Undefined), q[1..])
  {
  }

  /** `set` leaves every other file, in `configs` and in the cache, as it was. */
  lemma SetKeepsOtherFiles(configs: Props, cache: Props, key: string, v: Value, file: string)
    requires file != FileOf(key)
    ensures Lookup(SetState(configs, cache, key, v).0, file) == Lookup(configs, file)
    ensures Lookup(SetState(configs, cache, key, v).1, file) == Lookup(cache, file)
  {
    var a := Assign(Start(Lookup(configs, FileOf(key)).GetOr(Undefined)), SetPath(key), v);
    LookupPut(configs, FileOf(key), a.0, file);
    LookupPut(cache, FileOf(key), a.0, file);
  }

  /** Within the written file, where the written path already exists, every key that leaves
      that path reads as it did. */
  lemma SetKeepsOtherKeys(configs: Props, cache: Props, key: string, v: Value, other: string, j: nat, d: Value)
    requires Coherent(configs, cache) && HasKey(cache, FileOf(key)) && FileOf(other) == FileOf(key)
    requires ObjectsAlong(Lookup(configs, FileOf(key)).GetOr(Undefined), SetPath(key))
    requires j < |SetPath(key)| && j < |PathOf(other)| && PathOf(other)[..j] == SetPath(key)[..j] && PathOf(other)[j] != SetPath(key)[j]
    ensures Get(SetState(configs, cache, key, v).1, other, d) == Get(cache, other, d)
  {
    var file := FileOf(key);
    var root := Lookup(configs, file).GetOr(Undefined);
    var a := Assign(root, SetPath(key), v);
    assert root.Obj? && Start(root) == root;
    AssignOnObject(root, SetPath(key), v);
    var after := SetState(configs, cache, key, v).1;
    assert after == Put(cache, file, a.0);
    LookupPut(cache, file, a.0, file);
    AssignKeepsOthers(root, SetPath(key), v, PathOf(other), j);
    GetByWalk(after, cache, other, d);
  }

  lemma AssignOnObject(node: Value, path: seq<string>, v: Value)
    requires node.Obj? && path != []
    ensures Assign(node, path, v).0.Obj?
  {
  }

  /** Two caches whose trees for a key's file are objects walking alike answer `get` alike. */
  lemma GetByWalk(c1: Props, c2: Props, key: string, d: Value)
    requires FileConfig(c1, key).Obj? && FileConfig(c2, key).Obj?
    requires Walk(FileConfig(c1, key), PathOf(key)) == Walk(FileConfig(c2, key), PathOf(key))
    ensures Get(c1, key, d) == Get(c2, key, d)
  {
  }

  // ---- load ----

  /** `path.basename(file, path.extname(file))` of a `.ts` or `.js` file: the name without its
      extension; a file named just `.ts` or `.js` has no extension and keeps its name. */
  function ConfigName(file: string): (r: string)
    requires Text.EndsWith(file, ".ts") || Text.EndsWith(file, ".js")
    ensures |file| == 3 ==> r == file
    ensures |file| > 3 ==> file == r + file[|file| - 3..]
  {
    if |file| == 3 then file else file[..|file| - 3]
  }

  /** The config files of a directory listing, each with the value its module's default export
      gives: `configs[name] = …` in listing order. */
  function Overlay(configs: Props, listing: seq<(string, Value)>): (r: Props)
    ensures forall k :: HasKey(configs, k) ==> HasKey(r, k)
    decreases |listing|
  {
    if listing == [] then configs
    else
      var file := listing[|listing| - 1].0;
      var rest := Overlay(configs, listing[..|listing| - 1]);
      if Text.EndsWith(file, ".ts") || Text.EndsWith(file, ".js") then
        PutKeeps(rest, ConfigName(file), listing[|listing| - 1].1);
        Put(rest, ConfigName(file), listing[|listing| - 1].1)
      else rest
  }

  lemma PutKeeps(props: Props, k: string, v: Value)
    ensures forall k2 :: HasKey(props, k2) ==> HasKey(Put(props, k, v), k2)
  {
    forall k2 | HasKey(props, k2) ensures HasKey(Put(props, k, v), k2) {
      LookupPut(props, k, v, k2);
    }
  }

  /** A listed config file ends up under its name with its value, unless a later file of the
      same name replaced it. */
  lemma {:induction false} OverlayLast(configs: Props, listing: seq<(string, Value)>, i: nat)
    requires i < |listing| && (Text.EndsWith(listing[i].0, ".ts") || Text.EndsWith(listing[i].0, ".js"))
    requires forall j :: i < j < |listing| && (Text.EndsWith(listing[j].0, ".ts") || Text.EndsWith(listing[j].0, ".js")) ==>
      ConfigName(listing[j].0) != ConfigName(listing[i].0)
    ensures Lookup(Overlay(configs, listing), ConfigName(listing[i].0)) == Some(listing[i].1)
    decreases |listing|
  {
    var n := |listing| - 1;
    var rest := Overlay(configs, listing[..n]);
    var file := listing[n].0;
    if i == n {
      LookupPut(rest, ConfigName(file), listing[n].1, ConfigName(file));
    } else {
      OverlayLast(configs, listing[..n], i);
      if Text.EndsWith(file, ".ts") || Text.EndsWith(file, ".js") {
        LookupPut(rest, ConfigName(file), listing[n].1, ConfigName(listing[i].0));
      }
    }
  }

  class ConfigRepository {
    var configs: Props
    var cache: Props

    ghost predicate Valid()
      reads this
    {
      Coherent(configs, cache)
    }

    constructor()
      ensures configs == [] && cache == [] && Valid()
    {
      configs := [];
      cache := [];
    }

    /** `load()`, given the directory listing with each file's loaded value: nothing when the
        cache holds anything, otherwise every config file is stored and the cache becomes a
        copy of `configs`. */
    method Load(listing: seq<(string, Value)>)
      requires Valid()
      modifies this
      ensures Valid()
      ensures old(cache) != [] ==> configs == old(configs) && cache == old(cache)
      ensures old(cache) == [] ==> configs == Overlay(old(configs), listing) && cache == configs
    {
      if cache != [] {
        return;
      }
      configs := Overlay(configs, listing);
      cache := configs;
    }

    /** `reload()`: `load()` again. */
    method Reload(listing: seq<(string, Value)>)
      requires Valid()
      modifies this
      ensures Valid()
      ensures old(cache) != [] ==> configs == old(configs) && cache == old(cache)
      ensures old(cache) == [] ==> configs == Overlay(old(configs), listing) && cache == configs
    {
      Load(listing);
    }

    /** `set(key, value)`; a throw is `Err`. */
    method Set(key: string, v: Value) returns (outcome: Result<()>)
      requires Valid()
      modifies this
      ensures Valid()
      ensures var s := SetState(old(configs), old(cache), key, v);
        configs == s.0 && cache == s.1 && (outcome.Ok? <==> s.2)
    {
      var file := FileOf(key);
      var root := Lookup(configs, file).GetOr(Undefined);
      var node, ok := AssignPath(Start(root), SetPath(key), v);
      SetCoherent(configs, cache, key, v);
      configs := Put(configs, file, node);
      if ok || HasKey(cache, file) {
        cache := Put(cache, file, node);
      }
      outcome := if ok then Ok(()) else Err("Cannot create property on a primitive value");
    }

    /** `clearCache()`: the cache empties; `configs` keeps everything. */
    method ClearCache()
      modifies this
      ensures cache == [] && configs == old(configs) && Valid()
    {
      cache := [];
    }
  }
}
