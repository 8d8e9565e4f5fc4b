/**
 * The JavaScript values the service handles: parsed JSON bodies, handshake
 * fields and user records. The operators the source relies on (`||`, `??`,
 * property reads, template-literal rendering and object spread) are written
 * out here once, with JavaScript's semantics.
 */
module Js {
  import opened Wrappers

  /** A JSON value as JavaScript sees it, plus `undefined`. Numbers are integers. */
  datatype Json =
    | Undefined
    | Null
    | Bool(b: bool)
    | Num(n: int)
    | Str(s: string)
    | Arr(items: seq<Json>)
    | Obj(fields: map<string, Json>)

  /** JavaScript's ToBoolean: `undefined`, `null`, `false`, `0` and `""` are falsy. */
  predicate Truthy(v: Json)
  {
    match v
    case Undefined => false
    case Null => false
    case Bool(b) => b
    case Num(n) => n != 0
    case Str(s) => s != ""
    case Arr(_) => true
    case Obj(_) => true
  }

  /** `undefined` or `null`, the values `??` replaces. */
  predicate Nullish(v: Json)
  {
    v.Undefined? || v.Null?
  }

  /** `a || b`: the left operand if it is truthy, the right one otherwise. */
  function Or(a: Json, b: Json): Json
  {
    if Truthy(a) then a else b
  }

  /** `a ?? b`: the left operand unless it is `undefined` or `null`. */
  function Coalesce(a: Json, b: Json): Json
  {
    if Nullish(a) then b else a
  }

  /**
   * `v.key` on a receiver that is not `undefined`/`null`, for a key that no
   * prototype supplies (every key the service reads is such a key): an own
   * property of an object, `undefined` otherwise.
   */
  function Get(v: Json, key: string): Json
  {
    if v.Obj? && key in v.fields then v.fields[key] else Undefined
  }

  /** `v.key` where `v` may be nullish: reading a property of `undefined`/`null` throws. */
  function Read(v: Json, key: string): (r: Option<Json>)
    ensures r.None? <==> Nullish(v)
    ensures r.Some? ==> r.value == Get(v, key)
  {
    if Nullish(v) then None else Some(Get(v, key))
  }

  function DigitChar(d: nat): char
    requires d < 10
  {
    "0123456789"[d]
  }

  /** Decimal rendering of a natural number, without leading zeros. */
  function NatToString(n: nat): (r: string)
    ensures |r| >= 1
    ensures forall i :: 0 <= i < |r| ==> '0' <= r[i] <= '9'
    decreases n
  {
    if n < 10 then [DigitChar(n)] else NatToString(n / 10) + [DigitChar(n % 10)]
  }

  /** `String(n)` for an integer below 10^21 in magnitude. */
  function IntToString(n: int): string
  {
    if n < 0 then "-" + NatToString(-n) else NatToString(n)
  }

  /** `${v}` in a template literal (JavaScript's ToString). */
  function Display(v: Json): string
    decreases v
  {
    match v
    case Undefined => "undefined"
    case Null => "null"
    case Bool(b) => if b then "true" else "false"
    case Num(n) => IntToString(n)
    case Str(s) => s
    case Arr(items) => JoinItems(items)
    case Obj(_) => "[object Object]"
  }

  /** `Array.prototype.toString`: the elements joined by `,`, nullish elements as `""`. */
  function JoinItems(items: seq<Json>): string
    decreases items
  {
    if |items| == 0 then ""
    else
      var last := items[|items| - 1];
      var shown := if Nullish(last) then "" else Display(last);
      if |items| == 1 then shown else JoinItems(items[..|items| - 1]) + "," + shown
  }

  /** The values keyed `"0"`, `"1"`, ... as a spread copies an array or a string. */
  function IndexedFields(items: seq<Json>): map<string, Json>
  {
    if |items| == 0 then map[]
    else IndexedFields(items[..|items| - 1])[NatToString(|items| - 1) := items[|items| - 1]]
  }

  /** The one-character strings of `s`, as a spread sees a string. */
  function Chars(s: string): (cs: seq<Json>)
    ensures |cs| == |s|
  {
    seq(|s|, i requires 0 <= i < |s| => Str([s[i]]))
  }

  /** The own enumerable properties that `{...v}` copies. */
  function Spread(v: Json): (m: map<string, Json>)
    ensures v.Obj? ==> m == v.fields
  {
    match v
    case Obj(fields) => fields
    case Arr(items) => IndexedFields(items)
    case Str(s) => IndexedFields(Chars(s))
    case _ => map[]
  }

  /** The empty object literal `{}`. */
  const EmptyObject: Json := Obj(map[])
}
