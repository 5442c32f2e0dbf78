/** The part of the JSON library that the preferences store relies on, seen
    abstractly: a value is one of the kinds the store tests for, a parsed
    top-level object is a map from key to value, and a key lookup yields
    either a value or nothing (the library's null pointer). */
module JsonDoc {

  datatype Option<+T> = None | Some(value: T)

  /** A 2-D point with value semantics (the application's Vector2). */
  datatype Vector2 = Vector2(x: real, y: real)

  /** The library's json_int_t: a signed 64-bit integer. */
  newtype int64 = i: int | -0x8000_0000_0000_0000 <= i < 0x8000_0000_0000_0000

  /** A JSON value as far as the store can tell kinds apart. A real and an
      integer are different kinds; strings, arrays of the wrong shape,
      objects, booleans and null are all `JOther`. */
  datatype Json =
    | JReal(r: real)
    | JInt(i: int64)
    | JVec2(p: Vector2)
    | JOther

  /** A parsed top-level JSON object. */
  type Document = map<string, Json>

  /** Looking a key up in an object: the value, or None when the key is absent. */
  function ObjectGet(root: Document, key: string): (j: Option<Json>)
    ensures j.Some? <==> key in root
    ensures key in root ==> j.value == root[key]
  {
    if key in root then Some(root[key]) else None
  }

  /** The kind tests. Each rejects a missing value, as the library's tests
      reject a null pointer. */
  predicate IsVector2(j: Option<Json>) {
    j.Some? && j.value.JVec2?
  }

  predicate IsReal(j: Option<Json>) {
    j.Some? && j.value.JReal?
  }

  predicate IsInteger(j: Option<Json>) {
    j.Some? && j.value.JInt?
  }
}
