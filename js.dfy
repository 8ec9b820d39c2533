/**
 * The untyped JavaScript values (`any`) that the front-end reads from
 * server responses: JSON values plus `undefined`.
 */
module Js {

  /** A JSON value as JavaScript holds it, extended with `undefined`.
      Numbers are kept as integers (see README, "Left out"). */
  datatype Json =
    | Undefined
    | Null
    | Bool(b: bool)
    | Num(n: int)
    | Str(s: string)
    | Arr(items: seq<Json>)
    | Obj(fields: map<string, Json>)

  /** Whether reading a property of `v` with plain `.` throws a TypeError
      (only `null` and `undefined` have no properties). */
  predicate Nullish(v: Json) {
    v.Undefined? || v.Null?
  }

  /** `v?.[key]` for a data property: the field of an object, and
      `undefined` for every other value (arrays, strings, numbers and
      booleans have no such data property; `?.` turns `null` and
      `undefined` into `undefined`). On a non-nullish value this is also
      what plain `v.key` reads. */
  function Prop(v: Json, key: string): Json {
    if v.Obj? && key in v.fields then v.fields[key] else Undefined
  }

  /** JavaScript truthiness: `undefined`, `null`, `false`, `0` and the
      empty string are falsy; every array and object is truthy. */
  predicate Truthy(v: Json) {
    match v
    case Undefined => false
    case Null => false
    case Bool(b) => b
    case Num(n) => n != 0
    case Str(s) => s != ""
    case Arr(_) => true
    case Obj(_) => true
  }

  /** `Array.isArray(v)`. */
  predicate IsArray(v: Json) {
    v.Arr?
  }
}
