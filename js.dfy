/** JavaScript values as the route handlers see them after `JSON.parse`:
    truthiness, the `||` operator, property access and `Object.keys`. */
module Js {
  import opened Wrappers
  import opened Radix

  /** A parsed JSON value. Numbers are integral (see README, "Left out"). */
  datatype Json =
    | JNull
    | JBool(b: bool)
    | JNum(n: int)
    | JStr(s: string)
    | JArr(items: seq<Json>)
    | JObj(fields: map<string, Json>)

  /** The completion of an expression that may raise a TypeError in the runtime. */
  datatype Eval<+T> = Ok(value: T) | TypeError

  /** ToBoolean (ECMA-262 section 7.1.2) on undefined and JSON values: undefined,
      null, false, 0 and the empty string are falsy; every array and object,
      even an empty one, is truthy. */
  predicate Truthy(v: Option<Json>)
    ensures Truthy(v) ==> v.Some? && !v.value.JNull?
    ensures v.Some? && (v.value.JArr? || v.value.JObj?) ==> Truthy(v)
  {
    match v
    case None => false
    case Some(JNull) => false
    case Some(JBool(b)) => b
    case Some(JNum(n)) => n != 0
    case Some(JStr(s)) => s != ""
    case Some(JArr(_)) => true
    case Some(JObj(_)) => true
  }

  /** `a || b`: the left operand when it is truthy, otherwise the right one. */
  function Or(a: Option<Json>, b: Option<Json>): (r: Option<Json>)
    ensures r == a || r == b
    ensures Truthy(r) <==> Truthy(a) || Truthy(b)
    ensures Truthy(a) ==> r == a
    ensures !Truthy(a) ==> r == b
  {
    if Truthy(a) then a else b
  }

  /** `a || d` where the last operand `d` is a literal or a defined value,
      so that the result is never undefined. */
  function OrElse(a: Option<Json>, d: Json): (r: Json)
    ensures Some(r) == Or(a, Some(d))
  {
    if Truthy(a) then a.value else d
  }

  /** The declarative reading of a fallback chain `c0 || c1 || ... || d`:
      the first truthy candidate, or `d` when none is truthy. */
  function FirstTruthy(candidates: seq<Option<Json>>, d: Json): Json
  {
    if candidates == [] then d
    else if Truthy(candidates[0]) then candidates[0].value
    else FirstTruthy(candidates[1..], d)
  }

  /** FirstTruthy picks the default exactly when no candidate is truthy, and
      otherwise the truthy candidate that no truthy candidate precedes. */
  lemma {:induction false} FirstTruthyChoice(candidates: seq<Option<Json>>, d: Json)
    ensures (forall i | 0 <= i < |candidates| :: !Truthy(candidates[i])) ==> FirstTruthy(candidates, d) == d
    ensures forall i | 0 <= i < |candidates| ::
              Truthy(candidates[i]) && (forall j | 0 <= j < i :: !Truthy(candidates[j])) ==>
              Some(FirstTruthy(candidates, d)) == candidates[i]
  {
    if candidates != [] {
      FirstTruthyChoice(candidates[1..], d);
      forall i | 1 <= i < |candidates|
        ensures candidates[1..][i - 1] == candidates[i]
      {}
    }
  }

  /** The source's chains of one, two and three property reads ending in a
      default are fallback chains in the declarative sense. */
  lemma OrChains(a: Option<Json>, b: Option<Json>, c: Option<Json>, d: Json)
    ensures OrElse(a, d) == FirstTruthy([a], d)
    ensures OrElse(Or(a, b), d) == FirstTruthy([a, b], d)
    ensures OrElse(Or(Or(a, b), c), d) == FirstTruthy([a, b, c], d)
  {
    OrChainOfTwo(a, b, d);
    OrChainOfTwo(b, c, d);
    assert [a, b, c][1..] == [b, c];
  }

  lemma OrChainOfTwo(a: Option<Json>, b: Option<Json>, d: Json)
    ensures OrElse(a, d) == FirstTruthy([a], d)
    ensures OrElse(Or(a, b), d) == FirstTruthy([a, b], d)
  {
    assert [a, b][1..] == [b];
    assert [a][1..] == [] && [b][1..] == [];
  }

  /** A canonical array index: the property key `DecimalString(i)` of element `i`. */
  function IndexKey(key: string): (r: Option<nat>)
    ensures r.Some? ==> DecimalString(r.value) == key
  {
    if IsCanonical(key) then
      DecimalStringOfValue(key);
      Some(ValueOf(key, 10))
    else None
  }

  /** The decimal rendering of `i` is the index key of `i`. */
  lemma IndexKeyOfDecimal(i: nat)
    ensures IndexKey(DecimalString(i)) == Some(i)
  {
    ValueOfDecimalString(i);
  }

  /** `v[key]` on a value that is not null (reading a property of null raises
      a TypeError; the handlers deal with that case). Objects have their own
      properties; strings and arrays have `length` and their index properties.
      None of the keys the handlers read is an inherited property of a JSON
      value, so inherited properties are not modelled. */
  function Get(v: Json, key: string): Option<Json>
    requires !v.JNull?
  {
    match v
    case JObj(m) => if key in m then Some(m[key]) else None
    case JArr(a) =>
      if key == "length" then Some(JNum(|a|))
      else (match IndexKey(key)
            case Some(i) => if i < |a| then Some(a[i]) else None
            case None => None)
    case JStr(s) =>
      if key == "length" then Some(JNum(|s|))
      else (match IndexKey(key)
            case Some(i) => if i < |s| then Some(JStr([s[i]])) else None
            case None => None)
    case JBool(_) => None
    case JNum(_) => None
  }

  /** Element `i` of an array (or character `i` of a string) is the property
      named by the decimal rendering of `i`. */
  lemma GetIndex(v: Json, i: nat)
    requires v.JArr? || v.JStr?
    ensures v.JArr? ==> Get(v, DecimalString(i)) == (if i < |v.items| then Some(v.items[i]) else None)
    ensures v.JStr? ==> Get(v, DecimalString(i)) == (if i < |v.s| then Some(JStr([v.s[i]])) else None)
  {
    assert DecimalString(i) != "length";
    IndexKeyOfDecimal(i);
  }

  /** `v?.[key]`: undefined when `v` is undefined or null, `v[key]` otherwise. */
  function OptionalGet(v: Option<Json>, key: string): Option<Json>
  {
    match v
    case None => None
    case Some(JNull) => None
    case Some(x) => Get(x, key)
  }

  /** `Object.keys(v).length` for a value that is not null. */
  function OwnKeyCount(v: Json): nat
    requires !v.JNull?
  {
    match v
    case JObj(m) => |m.Keys|
    case JArr(a) => |a|
    case JStr(s) => |s|
    case JBool(_) => 0
    case JNum(_) => 0
  }

  /** `Array.prototype.map` with a callback that may raise a TypeError: the
      first element whose callback raises aborts the whole map. */
  function MapAll<T>(f: Json -> Eval<T>, list: seq<Json>): (r: Eval<seq<T>>)
    ensures r.Ok? ==> |r.value| == |list|
  {
    if list == [] then Ok([])
    else
      var first := f(list[0]);
      var rest := MapAll(f, list[1..]);
      if first.TypeError? || rest.TypeError? then TypeError
      else Ok([first.value] + rest.value)
  }

  /** The map succeeds exactly when the callback succeeds on every element,
      and then its i-th result is the callback's result on the i-th element. */
  lemma {:induction false} MapAllElementwise<T>(f: Json -> Eval<T>, list: seq<Json>)
    ensures MapAll(f, list).Ok? <==> forall i | 0 <= i < |list| :: f(list[i]).Ok?
    ensures MapAll(f, list).Ok? ==>
              forall i | 0 <= i < |list| :: Ok(MapAll(f, list).value[i]) == f(list[i])
  {
    if list != [] {
      MapAllElementwise(f, list[1..]);
      forall i | 1 <= i < |list|
        ensures list[i] == list[1..][i - 1]
      {
      }
      if MapAll(f, list).Ok? {
        assert MapAll(f, list).value == [f(list[0]).value] + MapAll(f, list[1..]).value;
      } else if f(list[0]).Ok? {
        var j :| 0 <= j < |list[1..]| && !f(list[1..][j]).Ok?;
        assert !f(list[j + 1]).Ok?;
      }
    }
  }
}
