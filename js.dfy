/** JSON request bodies as JavaScript sees them, and the few JavaScript value
    operations the route handlers rely on: truthiness, `a ?? b`, `a || b`
    and optional property access `v?.key`. */
module Js {

  datatype Option<+T> = None | Some(value: T)

  /** A value produced by `JSON.parse`, plus `undefined` for a property that
      is not there. JSON numbers are kept as reals (NaN cannot come out of
      JSON, so a number is falsy exactly when it is zero). */
  datatype Value =
    | Undefined
    | Null
    | Bool(b: bool)
    | Num(x: real)
    | Str(s: string)
    | Arr(items: seq<Value>)
    | Obj(fields: map<string, Value>)

  /** JavaScript's ToBoolean on such a value. */
  predicate Truthy(v: Value)
  {
    match v
    case Undefined => false
    case Null => false
    case Bool(b) => b
    case Num(x) => x != 0.0
    case Str(s) => s != ""
    case Arr(_) => true
    case Obj(_) => true
  }

  /** `v === null || v === undefined`: what `??` and `?.` test. */
  predicate Nullish(v: Value)
  {
    v.Undefined? || v.Null?
  }

  /** `v?.key` (and `v.key` on a value that is not nullish): only an object
      carries the properties a route reads; any other value yields undefined. */
  function Prop(v: Value, key: string): (r: Value)
    ensures !v.Obj? ==> r == Undefined
    ensures v.Obj? && key in v.fields ==> r == v.fields[key]
  {
    if v.Obj? && key in v.fields then v.fields[key] else Undefined
  }

  /** `a ?? b` */
  function Coalesce(a: Value, b: Value): (r: Value)
    ensures Nullish(a) ==> r == b
    ensures !Nullish(a) ==> r == a
  {
    if Nullish(a) then b else a
  }

  /** `a || b` */
  function Or(a: Value, b: Value): (r: Value)
    ensures Truthy(a) ==> r == a
    ensures !Truthy(a) ==> r == b
  {
    if Truthy(a) then a else b
  }

  /** Truthiness of an optional string (an environment variable, an optional
      prop): absent and empty are both falsy. */
  predicate Present(s: Option<string>)
  {
    s.Some? && s.value != ""
  }

  /** `v ?? null` and `v || null` agree except on the falsy values that are
      not nullish (`""`, `0`, `false`): `??` keeps those, `||` turns them
      into null. */
  lemma CoalesceVersusOr(v: Value)
    ensures Coalesce(v, Null) != Or(v, Null) <==> !Truthy(v) && !Nullish(v)
  {
  }
}
