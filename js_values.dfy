/** JavaScript values as the JSON module handles them, and the few language
    operations its code relies on: truthiness, `typeof … === 'object'`,
    property reads, own enumerable keys (`for…in`, `Object.assign`, spread)
    and the conversion of a value to a string or property key. */
module JsValues {

  datatype Option<T> = None | Some(value: T)

  /** The outcome of an operation that may throw: a value, or an `Error`
      carrying its message. */
  datatype Result<T> = Ok(value: T) | Error(message: string)

  /** A JavaScript value.
      Numbers are integers. A function carries its source text (what `String(f)`
      yields) and its own enumerable properties (`Layer._propTypes`, say). An
      instance is the opaque result of `new C(props)`: it records the source text
      of the constructor and the props it was given. */
  datatype Value =
    | Undefined
    | Null
    | Bool(b: bool)
    | Num(n: int)
    | Str(s: string)
    | Arr(elems: seq<Value>)
    | Obj(fields: map<string, Value>)
    | Fn(source: string, statics: map<string, Value>)
    | Instance(ctor: string, props: map<string, Value>)

  /** JavaScript truthiness: `undefined`, `null`, `false`, `0` and `""` are falsy. */
  predicate Truthy(v: Value)
  {
    match v
    case Undefined => false
    case Null => false
    case Bool(b) => b
    case Num(n) => n != 0
    case Str(s) => s != ""
    case _ => true
  }

  /** `value && typeof value === 'object'`: a non-null object, arrays included. */
  predicate IsObject(v: Value)
  {
    v.Arr? || v.Obj? || v.Instance?
  }

  /** The values `JSON.parse` can produce. */
  predicate IsJson(v: Value)
    decreases v
  {
    match v
    case Null => true
    case Bool(_) => true
    case Num(_) => true
    case Str(_) => true
    case Arr(es) => forall i :: 0 <= i < |es| ==> IsJson(es[i])
    case Obj(f) => forall k :: k in f ==> IsJson(f[k])
    case _ => false
  }

  /** `a || b` on values. */
  function Or(a: Value, b: Value): (r: Value)
    ensures Truthy(r) <==> Truthy(a) || Truthy(b)
    ensures Truthy(a) ==> r == a
  {
    if Truthy(a) then a else b
  }

  /** `obj[key]` on a plain dictionary: `undefined` when the key is absent. */
  function Get(m: map<string, Value>, key: string): (r: Value)
    ensures key !in m ==> r.Undefined?
    ensures key in m ==> r == m[key]
  {
    if key in m then m[key] else Undefined
  }

  function DigitChar(d: nat): char
    requires d < 10
  {
    "0123456789"[d]
  }

  /** Decimal text of a natural number, without leading zeros. */
  function NatToString(n: nat): (s: string)
    ensures |s| > 0
    decreases n
  {
    if n < 10 then [DigitChar(n)] else NatToString(n / 10) + [DigitChar(n % 10)]
  }

  /** `String(n)` for an integer. */
  function IntToString(i: int): string
  {
    if i < 0 then "-" + NatToString(-i) else NatToString(i)
  }

  predicate IsDigits(s: string)
  {
    forall i :: 0 <= i < |s| ==> '0' <= s[i] <= '9'
  }

  /** The number written by a string of decimal digits. */
  function DigitsValue(s: string): nat
    requires IsDigits(s)
    decreases |s|
  {
    if s == [] then 0 else DigitsValue(s[..|s| - 1]) * 10 + (s[|s| - 1] as int - '0' as int)
  }

  /** The array index a property key denotes: a canonical decimal numeral. */
  function ArrayIndex(key: string): Option<nat>
  {
    if key != "" && IsDigits(key) && NatToString(DigitsValue(key)) == key
    then Some(DigitsValue(key))
    else None
  }

  lemma {:induction false} NatToStringDigits(n: nat)
    ensures IsDigits(NatToString(n)) && DigitsValue(NatToString(n)) == n
    decreases n
  {
    var s := NatToString(n);
    if n >= 10 {
      NatToStringDigits(n / 10);
      assert s[..|s| - 1] == NatToString(n / 10);
    }
  }

  /** Every index `i` is written as the key `NatToString(i)`, and that key reads back as `i`. */
  lemma ArrayIndexOfNatToString(n: nat)
    ensures ArrayIndex(NatToString(n)) == Some(n)
  {
    NatToStringDigits(n);
  }

  /** The keys `"0"`, …, `"n-1"` of an array or string of length `n`. */
  function IndexKeys(n: nat): set<string>
  {
    set i: nat | i < n :: NatToString(i)
  }

  /** `v[key]`. Reading a property of `null` or `undefined` throws, so callers
      must exclude them. Properties inherited from a prototype are not part of
      this model; an instance's own properties are set by its (opaque)
      constructor and read as `undefined`. */
  function GetProp(v: Value, key: string): (r: Value)
    requires !v.Undefined? && !v.Null?
    ensures v.Obj? ==> r == Get(v.fields, key)
    ensures v.Fn? ==> r == Get(v.statics, key)
  {
    match v
    case Obj(f) => Get(f, key)
    case Fn(_, st) => Get(st, key)
    case Arr(es) =>
      if key == "length" then Num(|es|)
      else (match ArrayIndex(key)
            case Some(i) => if i < |es| then es[i] else Undefined
            case None => Undefined)
    case Str(s) =>
      if key == "length" then Num(|s|)
      else (match ArrayIndex(key)
            case Some(i) => if i < |s| then Str([s[i]]) else Undefined
            case None => Undefined)
    case _ => Undefined
  }

  /** The own enumerable properties of a value, as `for…in`, spread and
      `Object.assign` see them: the entries of an object, the static
      properties of a function, the indices of an array or a string, and
      nothing for `null`, `undefined`, booleans, numbers and instances. */
  function OwnEnumerable(v: Value): (r: map<string, Value>)
    ensures v.Obj? ==> r == v.fields
    ensures !IsObject(v) && !v.Fn? && !v.Str? ==> r == map[]
  {
    match v
    case Obj(f) => f
    case Fn(_, st) => st
    case Arr(es) => map k | k in IndexKeys(|es|) :: GetProp(v, k)
    case Str(s) => map k | k in IndexKeys(|s|) :: GetProp(v, k)
    case _ => map[]
  }

  /** The own enumerable properties of an array are its elements, each under
      its index written in decimal. */
  lemma {:induction false} OwnEnumerableOfArray(es: seq<Value>, i: nat)
    requires i < |es|
    ensures NatToString(i) in OwnEnumerable(Arr(es))
    ensures OwnEnumerable(Arr(es))[NatToString(i)] == es[i]
  {
    ArrayIndexOfNatToString(i);
    assert NatToString(i) in IndexKeys(|es|);
  }

  /** `Object.assign(target, source)`: copies the source's own enumerable
      properties over the target's (`null` and `undefined` copy nothing). */
  function Assign(target: map<string, Value>, source: Value): (r: map<string, Value>)
    ensures r.Keys == target.Keys + OwnEnumerable(source).Keys
    ensures forall k :: k in OwnEnumerable(source) ==> r[k] == OwnEnumerable(source)[k]
    ensures forall k :: k in target && k !in OwnEnumerable(source) ==> r[k] == target[k]
  {
    target + OwnEnumerable(source)
  }

  function Join(parts: seq<string>, sep: string): string
  {
    if |parts| == 0 then "" else if |parts| == 1 then parts[0] else Join(parts[..|parts| - 1], sep) + sep + parts[|parts| - 1]
  }

  /** `String(v)`, which is also the property key `obj[v]` uses. Arrays join
      their elements with commas, writing `null` and `undefined` elements as
      empty strings; objects and instances print as `[object Object]`; a
      function prints as its source text. */
  function ToJsString(v: Value): string
    decreases v
  {
    match v
    case Undefined => "undefined"
    case Null => "null"
    case Bool(b) => if b then "true" else "false"
    case Num(n) => IntToString(n)
    case Str(s) => s
    case Arr(es) =>
      Join(seq(|es|, i requires 0 <= i < |es| => if es[i].Null? || es[i].Undefined? then "" else ToJsString(es[i])), ",")
    case Obj(_) => "[object Object]"
    case Fn(source, _) => source
    case Instance(_, _) => "[object Object]"
  }

  /** `s.startsWith(prefix)` */
  predicate StartsWith(s: string, prefix: string)
  {
    |prefix| <= |s| && s[..|prefix|] == prefix
  }
}
