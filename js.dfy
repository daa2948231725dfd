/** The JavaScript values the core passes around: configuration trees, query parameters,
    model attributes and result rows. Numbers are integers; an object is its list of own
    properties in insertion order, which is the order `Object.keys`/`Object.entries` give. */
module Js {
  import opened Wrappers
  import Text

  datatype Value =
    | Undefined
    | Null
    | Bool(b: bool)
    | Num(n: int)
    | Str(s: string)
    | Arr(items: seq<Value>)
    | Obj(props: seq<(string, Value)>)

  type Props = seq<(string, Value)>

  /** JavaScript truthiness: `undefined`, `null`, `false`, `0` and `""` are falsy. */
  predicate Truthy(v: Value) {
    match v
    case Undefined => false
    case Null => false
    case Bool(b) => b
    case Num(n) => n != 0
    case Str(s) => s != ""
    case Arr(_) => true
    case Obj(_) => true
  }

  /** `typeof v === "object" && v !== null`: arrays and plain objects. */
  predicate IsObject(v: Value) {
    v.Arr? || v.Obj?
  }

  /** `Object.entries` of an array: its elements keyed by index. */
  function IndexEntries(items: seq<Value>, from: nat): (r: Props)
    ensures |r| == |items|
    ensures forall i :: 0 <= i < |items| ==> r[i] == (Text.NatToString(from + i), items[i])
    decreases |items|
  {
    if items == [] then [] else [(Text.NatToString(from), items[0])] + IndexEntries(items[1..], from + 1)
  }

  /** `Object.entries(v)` of an object or an array. */
  function Entries(v: Value): (r: Props)
    requires IsObject(v)
    ensures v.Obj? ==> r == v.props
    ensures v.Arr? ==> |r| == |v.items| && forall i :: 0 <= i < |r| ==> r[i].1 == v.items[i]
  {
    if v.Obj? then v.props else IndexEntries(v.items, 0)
  }

  function Keys(props: Props): (r: seq<string>)
    ensures |r| == |props|
    ensures forall i :: 0 <= i < |props| ==> r[i] == props[i].0
  {
    if props == [] then [] else [props[0].0] + Keys(props[1..])
  }

  function Values(props: Props): (r: seq<Value>)
    ensures |r| == |props|
    ensures forall i :: 0 <= i < |props| ==> r[i] == props[i].1
  {
    if props == [] then [] else [props[0].1] + Values(props[1..])
  }

  /** No key occurs twice, as in any JavaScript object. */
  predicate UniqueKeys(props: Props) {
    forall i, j :: 0 <= i < j < |props| ==> props[i].0 != props[j].0
  }

  predicate HasKey(props: Props, k: string) {
    exists i :: 0 <= i < |props| && props[i].0 == k
  }

  /** The value stored under `k`, or `None` when `k` is not an own property. */
  function Lookup(props: Props, k: string): (r: Option<Value>)
    ensures r.None? <==> !HasKey(props, k)
    ensures r.Some? ==> exists i :: 0 <= i < |props| && props[i] == (k, r.value)
  {
    if props == [] then None
    else if props[0].0 == k then Some(props[0].1)
    else Lookup(props[1..], k)
  }

  /** `obj[k] = v`: an existing key keeps its place, a new one is appended. */
  function Put(props: Props, k: string, v: Value): (r: Props)
    ensures Keys(r) == (if HasKey(props, k) then Keys(props) else Keys(props) + [k])
  {
    if props == [] then [(k, v)]
    else if props[0].0 == k then [(k, v)] + props[1..]
    else [props[0]] + Put(props[1..], k, v)
  }

  /** A lookup finds the first entry with the key. */
  lemma {:induction false} LookupFirst(props: Props, k: string)
    ensures Lookup(props, k).Some? ==>
      exists i :: 0 <= i < |props| && props[i] == (k, Lookup(props, k).value) &&
        forall j :: 0 <= j < i ==> props[j].0 != k
  {
    if props != [] && props[0].0 != k {
      LookupFirst(props[1..], k);
      if Lookup(props, k).Some? {
        var i :| 0 <= i < |props[1..]| && props[1..][i] == (k, Lookup(props, k).value) &&
          forall j :: 0 <= j < i ==> props[1..][j].0 != k;
        assert props[i + 1] == (k, Lookup(props, k).value);
        assert forall j :: 0 <= j < i + 1 ==> props[j].0 != k by {
          forall j | 0 <= j < i + 1 ensures props[j].0 != k {
            if j > 0 { assert props[j] == props[1..][j - 1]; }
          }
        }
      }
    } else if props != [] {
      assert props[0] == (k, Lookup(props, k).value);
    }
  }

  /** `delete obj[k]`. */
  function Remove(props: Props, k: string): (r: Props)
    ensures !HasKey(r, k)
    ensures forall i :: 0 <= i < |r| ==> exists j :: 0 <= j < |props| && r[i] == props[j]
  {
    if props == [] then []
    else if props[0].0 == k then Remove(props[1..], k)
    else [props[0]] + Remove(props[1..], k)
  }

  /** The array index a property key names: a decimal numeral without leading zeros. */
  function ArrayIndex(k: string): (r: Option<nat>)
    ensures r.Some? ==> k != [] && Text.AllDigits(k)
  {
    if k != [] && Text.AllDigits(k) && (k[0] != '0' || k == "0") then Some(Text.DigitsValue(k)) else None
  }

  /** The decimal text of `i` is the key of element `i`. */
  lemma ArrayIndexOfNat(i: nat)
    ensures ArrayIndex(Text.NatToString(i)) == Some(i)
  {
    LeadingDigit(i);
    Text.NatToStringValue(i);
  }

  lemma {:induction false} LeadingDigit(i: nat)
    ensures Text.NatToString(i)[0] != '0' || i == 0
    ensures i == 0 ==> Text.NatToString(i) == "0"
    decreases i
  {
    if i >= 10 {
      LeadingDigit(i / 10);
    }
  }

  /** Reading `v[k]`: an object answers with its property or `undefined`; an array or a
      string answers its `length` and its elements by index; reading a property of
      `undefined` or `null` throws a TypeError. Other reads answer `undefined`. */
  function GetProp(v: Value, k: string): (r: Result<Value>)
    ensures r.Err? <==> (v.Undefined? || v.Null?)
    ensures v.Obj? ==> r == Ok(Lookup(v.props, k).GetOr(Undefined))
    ensures v.Arr? && ArrayIndex(k).Some? && ArrayIndex(k).value < |v.items| ==> r == Ok(v.items[ArrayIndex(k).value])
  {
    match v
    case Undefined => Err("Cannot read properties of undefined")
    case Null => Err("Cannot read properties of null")
    case Obj(props) => Ok(Lookup(props, k).GetOr(Undefined))
    case Arr(items) =>
      if k == "length" then Ok(Num(|items|))
      else if ArrayIndex(k).Some? && ArrayIndex(k).value < |items| then Ok(items[ArrayIndex(k).value])
      else Ok(Undefined)
    case Str(s) =>
      if k == "length" then Ok(Num(|s|))
      else if ArrayIndex(k).Some? && ArrayIndex(k).value < |s| then Ok(Str([s[ArrayIndex(k).value]]))
      else Ok(Undefined)
    case _ => Ok(Undefined)
  }

  /** `String(v)`. Inside an array, `null` and `undefined` render as the empty string. */
  function ToText(v: Value): string
  {
    match v
    case Undefined => "undefined"
    case Null => "null"
    case Bool(b) => if b then "true" else "false"
    case Num(n) => Text.IntToString(n)
    case Str(s) => s
    case Arr(items) => Text.Join(ElementTexts(items), ",")
    case Obj(_) => "[object Object]"
  }

  function ElementTexts(items: seq<Value>): (r: seq<string>)
    ensures |r| == |items|
  {
    if items == [] then []
    else [if items[0].Undefined? || items[0].Null? then "" else ToText(items[0])] + ElementTexts(items[1..])
  }

  lemma {:induction false} LookupPut(props: Props, k: string, v: Value, k2: string)
    ensures Lookup(Put(props, k, v), k2) == if k2 == k then Some(v) else Lookup(props, k2)
  {
    if props != [] && props[0].0 != k {
      LookupPut(props[1..], k, v, k2);
    }
  }

  lemma {:induction false} PutUnique(props: Props, k: string, v: Value)
    requires UniqueKeys(props)
    ensures UniqueKeys(Put(props, k, v))
  {
    var r := Put(props, k, v);
    var ks := Keys(r);
    forall i, j | 0 <= i < j < |r| ensures r[i].0 != r[j].0 {
      assert r[i].0 == ks[i] && r[j].0 == ks[j];
      if HasKey(props, k) {
        assert ks[i] == props[i].0 && ks[j] == props[j].0;
      } else {
        if j < |props| {
          assert ks[i] == props[i].0 && ks[j] == props[j].0;
        } else {
          assert ks[j] == k;
          assert ks[i] == props[i].0;
        }
      }
    }
  }

  lemma {:induction false} LookupRemove(props: Props, k: string, k2: string)
    ensures Lookup(Remove(props, k), k2) == if k2 == k then None else Lookup(props, k2)
  {
    if props != [] {
      LookupRemove(props[1..], k, k2);
    }
  }

  /** `delete obj[k]` leaves every other key's value alone. */
  lemma RemoveKeeps(props: Props, k: string)
    ensures forall k2 :: k2 != k ==> Lookup(Remove(props, k), k2) == Lookup(props, k2)
  {
    forall k2 | k2 != k {
      LookupRemove(props, k, k2);
    }
  }
}
