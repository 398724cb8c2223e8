/** JavaScript values as the editor's plain objects hold them, with the
    object spread `{...a, ...b}`, property access, truthiness and strict
    equality of primitives. */
module JsValue {

  datatype Value =
    | Undefined
    | Null
    | Bool(b: bool)
    | Number(n: real)
    | Str(s: string)
    | Arr(items: seq<Value>)
    | Obj(fields: map<string, Value>)

  type Object = map<string, Value>

  /** `!!v`: `false`, `0`, `''`, `null` and `undefined` are falsy. */
  predicate Truthy(v: Value) {
    match v
    case Undefined => false
    case Null => false
    case Bool(b) => b
    case Number(n) => n != 0.0
    case Str(s) => s != []
    case _ => true
  }

  /** `a || b`: the first operand when it is truthy, the second otherwise. */
  function Or(a: Value, b: Value): Value {
    if Truthy(a) then a else b
  }

  /** The own properties `{...v}` copies: an object's fields, and none for
      `null`, `undefined`, booleans and numbers. Strings and arrays are also
      given none here, although JavaScript copies their index keys. */
  function Props(v: Value): (r: Object)
    ensures v.Obj? ==> r == v.fields
    ensures !v.Obj? ==> r == map[]
  {
    if v.Obj? then v.fields else map[]
  }

  /** `{...a, ...b}`: every property of `b`, and those of `a` that `b` does
      not name. */
  function Spread(a: Object, b: Object): (r: Object)
    ensures r.Keys == a.Keys + b.Keys
    ensures forall k :: k in b ==> r[k] == b[k]
    ensures forall k :: k in a && k !in b ==> r[k] == a[k]
  {
    a + b
  }

  lemma SpreadEmpty(a: Object)
    ensures Spread(a, map[]) == a && Spread(map[], a) == a
  {
  }

  /** Spreading the same properties again changes nothing. */
  lemma SpreadIdempotent(a: Object, b: Object)
    ensures Spread(Spread(a, b), b) == Spread(a, b)
  {
  }

  /** `[...s]` for a string: one one-character string per code point, in
      order (a `char` here is a code point, as the string iterator yields). */
  function SpreadChars(s: string): (r: seq<Value>)
    ensures |r| == |s|
    ensures forall i :: 0 <= i < |s| ==> r[i] == Str([s[i]])
  {
    if s == [] then [] else [Str([s[0]])] + SpreadChars(s[1..])
  }

  /** `o[key]`, `undefined` for a missing key. */
  function Get(o: Object, key: string): (v: Value)
    ensures key in o ==> v == o[key]
    ensures key !in o ==> v == Undefined
  {
    if key in o then o[key] else Undefined
  }

  /** `v.key` on any value: only objects have named properties here. */
  function Field(v: Value, key: string): Value {
    Get(Props(v), key)
  }

  predicate Primitive(v: Value) {
    !v.Arr? && !v.Obj?
  }

  /** `a === b` on primitives (there is no NaN among the model's numbers);
      two objects or arrays are identical only by reference, which values do
      not record, so they are taken as distinct. */
  predicate StrictEquals(a: Value, b: Value) {
    Primitive(a) && Primitive(b) && a == b
  }
}
