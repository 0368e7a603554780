/** The slice of JavaScript value semantics the services and hooks rely on:
    parsed JSON values, `undefined`, truthiness, the `||` operator, and
    property access, which throws a `TypeError` on `null` and `undefined`. */
module JsValues {
  import opened Options

  /** A value `JSON.parse` can produce. Numbers are modelled as integers. */
  datatype Json =
    | JNull
    | JBool(b: bool)
    | JNum(n: int)
    | JStr(s: string)
    | JArr(items: seq<Json>)
    | JObj(fields: map<string, Json>)

  /** A JavaScript value read from JSON: `None` is `undefined`. */
  type Value = Option<Json>

  /** What a `throw` carries: an `Error` object with its message, or anything else. */
  datatype Thrown = ErrorObject(message: string) | OtherThrown

  /** The outcome of evaluating code that may throw. */
  datatype Outcome<T> = Returns(value: T) | Throws(thrown: Thrown)

  /** `Boolean(v)`: false exactly for `undefined`, `null`, `false`, `0` and `''`. */
  predicate Truthy(v: Value) {
    match v
    case None => false
    case Some(JNull) => false
    case Some(JBool(b)) => b
    case Some(JNum(n)) => n != 0
    case Some(JStr(s)) => s != ""
    case Some(JArr(_)) => true
    case Some(JObj(_)) => true
  }

  /** `a || b`: the left operand when it is truthy, otherwise the right one. */
  function Or(a: Value, b: Value): (r: Value)
    ensures Truthy(a) ==> r == a
    ensures !Truthy(a) ==> r == b
    ensures Truthy(r) <==> Truthy(a) || Truthy(b)
  {
    if Truthy(a) then a else b
  }

  /** `a || fallback` with a fallback that is defined. */
  function OrElse(a: Value, fallback: Json): (r: Json)
    ensures Truthy(a) ==> Some(r) == a
    ensures !Truthy(a) ==> r == fallback
  {
    if Truthy(a) then a.value else fallback
  }

  /** The message V8 puts in the `TypeError` for reading `key` of `null` or `undefined`. */
  function NullAccessMessage(v: Value, key: string): string {
    "Cannot read properties of " + (if v.None? then "undefined" else "null") + " (reading '" + key + "')"
  }

  /** `v[key]` for a JSON-derived value: throws on `null` and `undefined`, is
      `undefined` for a missing key and for primitives and arrays, and is the
      field's value on an object. */
  function Prop(v: Value, key: string): (r: Outcome<Value>)
    ensures r.Throws? <==> v == None || v == Some(JNull)
    ensures r.Throws? ==> r.thrown == ErrorObject(NullAccessMessage(v, key))
    ensures r.Returns? && r.value.Some? ==> v.Some? && v.value.JObj? && key in v.value.fields
  {
    match v
    case None => Throws(ErrorObject(NullAccessMessage(v, key)))
    case Some(JNull) => Throws(ErrorObject(NullAccessMessage(v, key)))
    case Some(JObj(m)) => Returns(if key in m then Some(m[key]) else None)
    case Some(_) => Returns(None)
  }

  /** The object literal `{ key: value }`, where an `undefined` value leaves the
      key out once the object is serialised with `JSON.stringify`. */
  function ObjectOf(key: string, value: Value): (r: Json)
    ensures r.JObj?
    ensures key in r.fields <==> value.Some?
    ensures value.Some? ==> r.fields[key] == value.value
  {
    if value.Some? then JObj(map[key := value.value]) else JObj(map[])
  }

  /** The value of `key` on a value that is not `null` or `undefined`. */
  function Field(j: Json, key: string): (r: Value)
    ensures j != JNull ==> Prop(Some(j), key) == Returns(r)
  {
    if j.JObj? && key in j.fields then Some(j.fields[key]) else None
  }
}
