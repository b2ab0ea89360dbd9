/**
 * The fragment of JavaScript value semantics the client relies on:
 * truthiness, `typeof`, optional property lookup (`v?.key`), object spread
 * (`{...a, ...b}`) and the string coercion that `localStorage` applies.
 */
module Js {

  datatype JsValue =
    | Undefined
    | Null
    | Bool(b: bool)
    | Num(n: int)
    | Str(s: string)
    | Arr(items: seq<JsValue>)
    | Obj(fields: map<string, JsValue>)
    | Func(id: nat)   // a function value, known only by its identity

  const EmptyObject: JsValue := Obj(map[])

  /** JavaScript truthiness. */
  predicate Truthy(v: JsValue) {
    match v
    case Undefined => false
    case Null => false
    case Bool(b) => b
    case Num(n) => n != 0
    case Str(s) => s != ""
    case Arr(_) => true
    case Obj(_) => true
    case Func(_) => true
  }

  /** The `typeof` operator. Arrays and `null` are reported as "object". */
  function TypeOf(v: JsValue): (t: string)
    ensures t != "array"
    ensures t == "object" <==> v.Null? || v.Arr? || v.Obj?
    ensures t == "function" <==> v.Func?
  {
    match v
    case Undefined => "undefined"
    case Null => "object"
    case Bool(_) => "boolean"
    case Num(_) => "number"
    case Str(_) => "string"
    case Arr(_) => "object"
    case Obj(_) => "object"
    case Func(_) => "function"
  }

  /** `v?.[key]` on a plain object; every other value has none of the keys the client reads. */
  function Get(v: JsValue, key: string): (r: JsValue)
    ensures v.Obj? && key in v.fields ==> r == v.fields[key]
    ensures !(v.Obj? && key in v.fields) ==> r == Undefined
  {
    if v.Obj? && key in v.fields then v.fields[key] else Undefined
  }

  /** The own properties that `{...v}` copies. */
  function Spread(v: JsValue): map<string, JsValue> {
    if v.Obj? then v.fields else map[]
  }

  /** `{...defaults, ...v}`: the keys of `v` win over the defaults. */
  function Extend(defaults: map<string, JsValue>, v: JsValue): (r: JsValue)
    ensures r.Obj? && r.fields.Keys == defaults.Keys + Spread(v).Keys
    ensures forall k | k in Spread(v) :: r.fields[k] == Spread(v)[k]
    ensures forall k | k in defaults && k !in Spread(v) :: r.fields[k] == defaults[k]
  {
    Obj(defaults + Spread(v))
  }

  /** A parameter declared `p = fallback`: an omitted (`undefined`) argument takes the fallback. */
  function WithDefault(v: JsValue, fallback: JsValue): JsValue {
    if v.Undefined? then fallback else v
  }

  /** A function-valued option: truthy and `typeof` "function". */
  predicate IsFunction(v: JsValue) {
    Truthy(v) && TypeOf(v) == "function"
  }

  function DigitChar(d: nat): char
    requires d < 10
  {
    "0123456789"[d]
  }

  /** Decimal text of a natural number. */
  function NatToString(n: nat): (s: string)
    ensures |s| >= 1
    ensures forall i | 0 <= i < |s| :: '0' <= s[i] <= '9'
    decreases n
  {
    if n < 10 then [DigitChar(n)] else NatToString(n / 10) + [DigitChar(n % 10)]
  }

  function IntToString(n: int): string {
    if n < 0 then "-" + NatToString(-n) else NatToString(n)
  }

  /** Array.prototype.join(","): `null` and `undefined` elements become empty. */
  function JoinItems(items: seq<JsValue>): string
    decreases items, 0
  {
    if items == [] then ""
    else
      var head := if items[0].Undefined? || items[0].Null? then "" else ToJsString(items[0]);
      if |items| == 1 then head else head + "," + JoinItems(items[1..])
  }

  /** String(v), as `localStorage.setItem`/`getItem` coerce keys and values. */
  function ToJsString(v: JsValue): (r: string)
    decreases v, 1
    ensures v.Str? ==> r == v.s
    ensures v.Obj? ==> r == "[object Object]"
  {
    match v
    case Undefined => "undefined"
    case Null => "null"
    case Bool(b) => if b then "true" else "false"
    case Num(n) => IntToString(n)
    case Str(s) => s
    case Arr(items) => JoinItems(items)
    case Obj(_) => "[object Object]"
    case Func(_) => "function"
  }

  /** String.prototype.includes. */
  predicate Includes(s: string, sub: string)
    decreases |s|
  {
    |sub| <= |s| && (s[..|sub|] == sub || Includes(s[1..], sub))
  }

  /** `sub` occurs in `s` starting at index `i`. */
  ghost predicate OccursAt(s: string, sub: string, i: int) {
    0 <= i <= |s| - |sub| && s[i..i + |sub|] == sub
  }

  /** `sub` occurs in `s` at some position: the meaning of Includes. */
  ghost predicate OccursIn(s: string, sub: string) {
    exists i :: OccursAt(s, sub, i)
  }

  /** An occurrence in `s[1..]` is an occurrence in `s` one position later. */
  lemma OccursShift(s: string, sub: string, i: int)
    requires 1 <= |s| && 0 <= i
    ensures OccursAt(s, sub, i + 1) <==> OccursAt(s[1..], sub, i)
  {
    if i <= |s| - 1 - |sub| {
      assert s[1..][i..i + |sub|] == s[i + 1..i + 1 + |sub|];
    }
  }

  lemma {:induction false} IncludesIffOccurs(s: string, sub: string)
    ensures Includes(s, sub) <==> OccursIn(s, sub)
    decreases |s|
  {
    if |sub| <= |s| {
      if s[..|sub|] == sub {
        assert OccursAt(s, sub, 0);
      } else {
        IncludesIffOccurs(s[1..], sub);
        if OccursIn(s, sub) {
          var i :| OccursAt(s, sub, i);
          assert i != 0;
          OccursShift(s, sub, i - 1);
        }
        if OccursIn(s[1..], sub) {
          var i :| OccursAt(s[1..], sub, i);
          OccursShift(s, sub, i);
        }
      }
    }
  }
}
