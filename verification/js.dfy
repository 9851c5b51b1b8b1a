/** The JavaScript values the keyring code passes around, and the few pieces of
    JavaScript semantics it depends on: truthiness, reading a property of
    `undefined`/`null`, `String(value)`, array destructuring, object spread,
    `Object.keys` and `String.prototype.toLowerCase`. */
module Js {
  import opened Wrappers

  /** An element of a `Uint8Array` / `Buffer`. */
  newtype uint8 = x: int | 0 <= x < 256

  /** A JSON-like JavaScript value. Numbers are integers (see README, "Left out"). */
  datatype Json =
    | Undefined
    | Null
    | Bool(b: bool)
    | Num(n: int)
    | Str(s: string)
    | Arr(items: seq<Json>)
    | Obj(fields: map<string, Json>)

  /** `Boolean(v)`: the falsy values are undefined, null, false, 0 and "". */
  predicate Truthy(v: Json) {
    match v
    case Undefined => false
    case Null => false
    case Bool(b) => b
    case Num(n) => n != 0
    case Str(s) => s != ""
    case Arr(_) => true
    case Obj(_) => true
  }

  /** `v == null` (loose equality), i.e. undefined or null. */
  predicate Nullish(v: Json) {
    v.Undefined? || v.Null?
  }

  /** `obj[key]`: reading any property of undefined or null throws a TypeError;
      an object yields its own property or undefined. */
  function Get(obj: Json, key: string): (r: Result<Json>)
    ensures r.Err? <==> Nullish(obj)
  {
    match obj
    case Undefined => Err(RuntimeTypeError("Cannot read properties of undefined"))
    case Null => Err(RuntimeTypeError("Cannot read properties of null"))
    case Obj(m) => Ok(if key in m then m[key] else Undefined)
    case _ => Ok(Undefined)
  }

  const Digits := "0123456789"

  function NatToString(n: nat): (s: string)
    decreases n
  {
    if n < 10 then [Digits[n]] else NatToString(n / 10) + [Digits[n % 10]]
  }

  function IntToString(n: int): string {
    if n < 0 then "-" + NatToString(-n) else NatToString(n)
  }

  function Join(parts: seq<string>): string {
    if |parts| == 0 then ""
    else if |parts| == 1 then parts[0]
    else parts[0] + "," + Join(parts[1..])
  }

  /** `String(v)`, which is also the property key `obj[v]` uses and what a
      template literal `${v}` prints. Arrays join their elements with ","
      and print undefined and null elements as "". */
  function ToJsString(v: Json): string {
    match v
    case Undefined => "undefined"
    case Null => "null"
    case Bool(b) => if b then "true" else "false"
    case Num(n) => IntToString(n)
    case Str(s) => s
    case Arr(items) =>
      Join(seq(|items|, i requires 0 <= i < |items| =>
        if Nullish(items[i]) then "" else ToJsString(items[i])))
    case Obj(_) => "[object Object]"
  }

  function ElementAt(items: seq<Json>, i: nat): Json {
    if i < |items| then items[i] else Undefined
  }

  /** `const [x0, x1, ..., x(n-1)] = v`: arrays and strings are iterable, every
      other value throws a TypeError; missing elements are undefined. */
  function Destructure(v: Json, n: nat): (r: Result<seq<Json>>)
    ensures r.Ok? ==> |r.value| == n
    ensures r.Ok? <==> v.Arr? || v.Str?
  {
    match v
    case Arr(items) => Ok(seq(n, i requires 0 <= i < n => ElementAt(items, i)))
    case Str(s) => Ok(seq(n, i requires 0 <= i < n => if i < |s| then Str([s[i]]) else Undefined))
    case _ => Err(RuntimeTypeError("object is not iterable"))
  }

  /** The own properties `{...v}` copies. */
  function Spread(v: Json): map<string, Json> {
    if v.Obj? then v.fields else map[]
  }

  function LowerChar(c: char): char {
    if 'A' <= c <= 'Z' then (c as int + 32) as char else c
  }

  /** `s.toLowerCase()` on ASCII letters. */
  function ToLower(s: string): (r: string)
    ensures |r| == |s|
  {
    seq(|s|, i requires 0 <= i < |s| => LowerChar(s[i]))
  }

  /** Lower-casing twice is lower-casing once. */
  lemma ToLowerIdempotent(s: string)
    ensures ToLower(ToLower(s)) == ToLower(s)
  {
    forall i | 0 <= i < |s|
      ensures ToLower(ToLower(s))[i] == ToLower(s)[i]
    {
      assert LowerChar(LowerChar(s[i])) == LowerChar(s[i]);
    }
  }

  /** `Object.keys(m)`: every key exactly once. */
  method ObjectKeys<V>(m: map<string, V>) returns (keys: seq<string>)
    ensures forall i, j :: 0 <= i < j < |keys| ==> keys[i] != keys[j]
    ensures forall k :: k in m <==> k in keys
    ensures |keys| == |m.Keys|
  {
    keys := [];
    var rest := m.Keys;
    while rest != {}
      invariant rest <= m.Keys
      invariant forall k :: k in m <==> k in keys || k in rest
      invariant forall k :: k in keys ==> k !in rest
      invariant forall i, j :: 0 <= i < j < |keys| ==> keys[i] != keys[j]
      invariant |keys| + |rest| == |m.Keys|
      decreases rest
    {
      var k :| k in rest;
      keys := keys + [k];
      rest := rest - {k};
    }
  }
}
