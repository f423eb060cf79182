/** The JavaScript values the frontend handles: what `JSON.parse` makes of
    a server response, truthiness, `||`, property reads, object spread and
    `String(value)`. Numbers are integers here. */
module Js {
  import opened Wrappers
  import opened Text
  import Serializers

  datatype Value =
    | Undefined
    | Null
    | Bool(b: bool)
    | Num(n: int)
    | Str(s: string)
    | Arr(items: seq<Value>)
    | Obj(fields: map<string, Value>)

  /** Reading a property of `null` or `undefined` throws. */
  datatype JsError = TypeError

  predicate Nullish(v: Value) {
    v.Undefined? || v.Null?
  }

  /** JavaScript truthiness: `undefined`, `null`, `false`, `0` and `""` are falsy. */
  predicate Truthy(v: Value) {
    match v
    case Undefined => false
    case Null => false
    case Bool(b) => b
    case Num(n) => n != 0
    case Str(s) => s != ""
    case Arr(_) => true
    case Obj(_) => true
  }

  /** `a || b`: the first operand when it is truthy, the second otherwise. */
  function Or(a: Value, b: Value): (r: Value)
    ensures Truthy(a) ==> r == a
    ensures !Truthy(a) ==> r == b
  {
    if Truthy(a) then a else b
  }

  /** `v.k` on a value that is not `null` or `undefined`. Only objects carry
      the keys the frontend reads; on any other value they are `undefined`. */
  function Get(v: Value, k: string): (r: Value)
    requires !Nullish(v)
    ensures v.Obj? && k in v.fields ==> r == v.fields[k]
    ensures !(v.Obj? && k in v.fields) ==> r == Undefined
  {
    if v.Obj? && k in v.fields then v.fields[k] else Undefined
  }

  /** The own enumerable properties of an array-like, keyed "0", "1", ... */
  function IndexMap(items: seq<Value>): (m: map<string, Value>)
    ensures forall i :: 0 <= i < |items| ==> DecString(i) in m
    ensures forall k :: k in m ==> AllDigits(k)
  {
    if items == [] then map[]
    else
      var n := |items| - 1;
      var m := IndexMap(items[..n]);
      m[DecString(n) := items[n]]
  }

  /** `{...v}`: the own enumerable properties of `v` (none for `null`,
      `undefined`, booleans and numbers). */
  function Spread(v: Value): (m: map<string, Value>)
    ensures v.Obj? ==> m == v.fields
  {
    match v
    case Obj(fields) => fields
    case Arr(items) => IndexMap(items)
    case Str(s) => IndexMap(seq(|s|, i requires 0 <= i < |s| => Str([s[i]])))
    case _ => map[]
  }

  /** `String(v)`, as `URLSearchParams.append` applies it. */
  function ToJsString(v: Value): string
    decreases v, 1
  {
    match v
    case Undefined => "undefined"
    case Null => "null"
    case Bool(b) => if b then "true" else "false"
    case Num(n) => IntString(n)
    case Str(s) => s
    case Arr(items) => JoinFrom(v, |items|)
    case Obj(_) => "[object Object]"
  }

  /** `items.slice(0, n).join(",")`, where `null` and `undefined` print empty. */
  function JoinFrom(v: Value, n: nat): string
    requires v.Arr? && n <= |v.items|
    decreases v, 0, n
  {
    if n == 0 then ""
    else
      var last := v.items[n - 1];
      var piece := if Nullish(last) then "" else ToJsString(last);
      if n == 1 then piece else JoinFrom(v, n - 1) + "," + piece
  }

  /** `JSON.parse` of the rendered document: arrays keep their order, and a
      repeated member name keeps its last value. */
  function FromJson(j: Serializers.Json): Value
    decreases j, 1
  {
    match j
    case JNull => Null
    case JBool(b) => Bool(b)
    case JInt(i) => Num(i)
    case JStr(s) => Str(s)
    case JArr(items) => Arr(ItemsFrom(j, |items|))
    case JObj(members) => Obj(MembersFrom(j, |members|))
  }

  function ItemsFrom(j: Serializers.Json, n: nat): (r: seq<Value>)
    requires j.JArr? && n <= |j.items|
    ensures |r| == n
    ensures forall i :: 0 <= i < n ==> r[i] == FromJson(j.items[i])
    decreases j, 0, n
  {
    if n == 0 then [] else ItemsFrom(j, n - 1) + [FromJson(j.items[n - 1])]
  }

  function MembersFrom(j: Serializers.Json, n: nat): (m: map<string, Value>)
    requires j.JObj? && n <= |j.members|
    ensures forall k :: k in m <==> k in Serializers.Keys(j.members[..n])
    decreases j, 0, n
  {
    if n == 0 then map[]
    else
      var prev := MembersFrom(j, n - 1);
      assert Serializers.Keys(j.members[..n]) == Serializers.Keys(j.members[..n - 1]) + [j.members[n - 1].0];
      prev[j.members[n - 1].0 := FromJson(j.members[n - 1].1)]
  }

  /** A member whose name occurs once in the document parses to that member's value. */
  lemma {:induction false} MembersFromUnique(j: Serializers.Json, n: nat, i: nat)
    requires j.JObj? && i < n <= |j.members|
    requires forall m :: 0 <= m < n && m != i ==> j.members[m].0 != j.members[i].0
    ensures j.members[i].0 in MembersFrom(j, n)
    ensures MembersFrom(j, n)[j.members[i].0] == FromJson(j.members[i].1)
    decreases n
  {
    if n - 1 != i {
      MembersFromUnique(j, n - 1, i);
    }
  }
}
