/** The loosely-typed values the client receives from its backends, with the
    JavaScript notions the code relies on: truthiness, `typeof`, and property
    reads that yield `undefined` for a missing key. */
module Json {

  datatype Json =
    | JUndefined
    | JNull
    | JBool(b: bool)
    | JNum(n: real)
    | JStr(s: string)
    | JArr(items: seq<Json>)
    | JObj(fields: map<string, Json>)

  /** JavaScript truthiness. NaN is not representable, so every number other
      than 0 is truthy. */
  predicate Truthy(j: Json) {
    match j
    case JUndefined => false
    case JNull => false
    case JBool(b) => b
    case JNum(n) => n != 0.0
    case JStr(s) => s != ""
    case JArr(_) => true
    case JObj(_) => true
  }

  /** `x == null || x === undefined`: reading a property of such a value throws. */
  predicate Nullish(j: Json) {
    j.JUndefined? || j.JNull?
  }

  /** `typeof j === 'object' && j !== null` (arrays included, as in JavaScript). */
  predicate IsObjectLike(j: Json) {
    j.JArr? || j.JObj?
  }

  /** `j.key` for a value that is not nullish. Only named keys are read this
      way (the `length` of strings and arrays is taken from the datatype), so
      a primitive or an array yields `undefined`. */
  function Field(j: Json, key: string): (r: Json)
    ensures !j.JObj? ==> r == JUndefined
    ensures j.JObj? && key !in j.fields ==> r == JUndefined
    ensures j.JObj? && key in j.fields ==> r == j.fields[key]
  {
    if j.JObj? && key in j.fields then j.fields[key] else JUndefined
  }

  /** `location.name?.split(',')` evaluates without throwing: properties of
      the location can be read, and its name is absent or a string. */
  predicate NameRenders(location: Json) {
    !Nullish(location) && (Nullish(Field(location, "name")) || Field(location, "name").JStr?)
  }

  /** Every suggestion in a list can draw its labels. */
  predicate AllNamesRender(items: seq<Json>) {
    forall k :: 0 <= k < |items| ==> NameRenders(items[k])
  }

  /** `a || b`: the left operand when truthy, else the right one. */
  function Or(a: Json, b: Json): (r: Json)
    ensures Truthy(a) ==> r == a
    ensures !Truthy(a) ==> r == b
  {
    if Truthy(a) then a else b
  }
}
