/** The JavaScript values the library reads and builds: JSON-like data returned by the
    remote service, with `undefined`, truthiness and the TypeError that reading a
    property of `undefined` or `null` raises. */
module Js {

  datatype Option<+T> = None | Some(value: T)

  datatype Result<+T, +E> = Ok(value: T) | Err(error: E) {
    predicate IsFailure() {
      Err?
    }

    function PropagateFailure<U>(): Result<U, E>
      requires Err?
    {
      Err(error)
    }

    function Extract(): T
      requires Ok?
    {
      value
    }
  }

  /** The TypeError raised by reading a property of `undefined` or `null`. */
  datatype Thrown = TypeError

  /** A JavaScript value as it appears in decoded API responses. Numbers are exact; the
      NaN and infinities that only parsing produces are kept apart in `Float`. */
  datatype Json =
    | Undefined
    | Null
    | Bool(b: bool)
    | Num(n: real)
    | Str(s: string)
    | Arr(items: seq<Json>)
    | Obj(fields: map<string, Json>)

  /** A number produced by `Number.parseFloat` or `Date.parse`. */
  datatype Float = NaN | Infinite(negative: bool) | Finite(value: real)

  /** `v == null` in JavaScript: true of `undefined` and `null` only. */
  predicate Nullish(v: Json) {
    v.Undefined? || v.Null?
  }

  /** JavaScript truthiness. */
  predicate Truthy(v: Json) {
    match v
    case Undefined => false
    case Null => false
    case Bool(b) => b
    case Num(n) => n != 0.0
    case Str(s) => s != ""
    case Arr(_) => true
    case Obj(_) => true
  }

  /** Decimal digits of a natural number, the property key an array index becomes. */
  function NatText(n: nat): (r: string)
    ensures |r| >= 1
    ensures forall i :: 0 <= i < |r| ==> '0' <= r[i] <= '9'
  {
    if n < 10 then ["0123456789"[n]] else NatText(n / 10) + ["0123456789"[n % 10]]
  }

  /** Digit `d` names `d`: the ten digit characters are distinct. */
  lemma DigitNames(d: nat, e: nat)
    requires d < 10 && e < 10
    ensures "0123456789"[d] == "0123456789"[e] ==> d == e
  {
    assert forall k :: 0 <= k < 10 ==> "0123456789"[k] as int == '0' as int + k;
  }

  /** Distinct indices become distinct keys, so `Elem` on an object picks the
      property of exactly that index. */
  lemma {:induction false} NatTextInjective(m: nat, n: nat)
    ensures NatText(m) == NatText(n) ==> m == n
    decreases m
  {
    if NatText(m) == NatText(n) {
      var r := NatText(m);
      if m < 10 && n < 10 {
        DigitNames(m, n);
      } else if m >= 10 && n >= 10 {
        assert r[..|r| - 1] == NatText(m / 10) && r[..|r| - 1] == NatText(n / 10);
        NatTextInjective(m / 10, n / 10);
        DigitNames(m % 10, n % 10);
      }
    }
  }

  /** `v[key]` on a value that is not nullish; own properties of objects only. */
  function Field(v: Json, key: string): (r: Json)
    ensures !v.Obj? ==> r == Undefined
    ensures v.Obj? ==> r == if key in v.fields then v.fields[key] else Undefined
  {
    match v
    case Obj(m) => if key in m then m[key] else Undefined
    case _ => Undefined
  }

  /** `v[i]` on a value that is not nullish: array elements, string characters, or the
      object property named by the decimal index. */
  function Elem(v: Json, i: nat): (r: Json)
    ensures v.Arr? && i < |v.items| ==> r == v.items[i]
    ensures v.Arr? && i >= |v.items| ==> r == Undefined
    ensures v.Str? ==> r == if i < |v.s| then Str([v.s[i]]) else Undefined
  {
    match v
    case Arr(a) => if i < |a| then a[i] else Undefined
    case Str(s) => if i < |s| then Str([s[i]]) else Undefined
    case Obj(_) => Field(v, NatText(i))
    case _ => Undefined
  }

  /** The JavaScript expression `v.key`, which throws on `undefined` and `null`. */
  function Read(v: Json, key: string): (r: Result<Json, Thrown>)
    ensures r.Err? <==> Nullish(v)
    ensures r.Ok? ==> r.value == Field(v, key)
  {
    if Nullish(v) then Err(TypeError) else Ok(Field(v, key))
  }

  /** The JavaScript expression `v[i]`, which throws on `undefined` and `null`. */
  function ReadAt(v: Json, i: nat): (r: Result<Json, Thrown>)
    ensures r.Err? <==> Nullish(v)
    ensures r.Ok? ==> r.value == Elem(v, i)
  {
    if Nullish(v) then Err(TypeError) else Ok(Elem(v, i))
  }

  /** `v.k0.k1...kn`: the chain throws as soon as a value along it is nullish. */
  function ReadPath(v: Json, keys: seq<string>): (r: Result<Json, Thrown>)
    decreases |keys|
  {
    if keys == [] then Ok(v)
    else
      var next :- Read(v, keys[0]);
      ReadPath(next, keys[1..])
  }

  /** Walking the chain with `Field` and stopping at the first nullish value. */
  function Walk(v: Json, keys: seq<string>): Option<Json>
    decreases |keys|
  {
    if keys == [] then Some(v)
    else if Nullish(v) then None
    else Walk(Field(v, keys[0]), keys[1..])
  }

  /** A path read fails exactly when some value met before the last key is nullish,
      and otherwise yields the value found by following the keys. */
  lemma {:induction false} ReadPathIsWalk(v: Json, keys: seq<string>)
    ensures ReadPath(v, keys).Ok? <==> Walk(v, keys).Some?
    ensures ReadPath(v, keys).Ok? ==> ReadPath(v, keys).value == Walk(v, keys).value
    decreases |keys|
  {
    if keys != [] && !Nullish(v) {
      ReadPathIsWalk(Field(v, keys[0]), keys[1..]);
    }
  }

  /** A mutable JavaScript object whose own properties are assigned in place. */
  class JsObject {
    var fields: map<string, Json>

    constructor ()
      ensures fields == map[]
    {
      fields := map[];
    }

    /** The object as a value. */
    function Value(): Json
      reads this
    {
      Obj(fields)
    }
  }
}
