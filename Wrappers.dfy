/** Values shared by the whole model: an optional value and the JSON values
    that travel between the frontend, the REST layer and the store. */
module Wrappers {

  datatype Option<+T> = None | Some(value: T) {
    function GetOr(default: T): T {
      match this
      case Some(v) => v
      case None => default
    }
  }

  /** A JSON value as `JSON.parse` or `express.json()` produces it. Numbers
      are integers here (see README, "Left out"). */
  datatype Json =
    | JNull
    | JBool(b: bool)
    | JNumber(n: int)
    | JString(s: string)
    | JArray(items: seq<Json>)
    | JObject(fields: map<string, Json>)

  /** A JSON object body, the shape `req.body` and a stored document have. */
  type Doc = map<string, Json>

  /** JavaScript truthiness of a property read: `undefined` (absent), `null`,
      `false`, `0` and `""` are falsy; every array and object is truthy. */
  predicate Truthy(v: Option<Json>) {
    match v
    case None => false
    case Some(JNull) => false
    case Some(JBool(b)) => b
    case Some(JNumber(n)) => n != 0
    case Some(JString(s)) => s != ""
    case Some(JArray(_)) => true
    case Some(JObject(_)) => true
  }

  /** Reads property `key` of an object body: `undefined` when it is absent. */
  function Get(d: Doc, key: string): (r: Option<Json>)
    ensures r.Some? <==> key in d
    ensures r.Some? ==> r.value == d[key]
  {
    if key in d then Some(d[key]) else None
  }

  /** `typeof v === 'string' ? v : ''`, the coercion the translation
      endpoint applies to every field it reads. */
  function StringOr(v: Option<Json>, default: string): (r: string)
    ensures (v.Some? && v.value.JString?) ==> r == v.value.s
    ensures !(v.Some? && v.value.JString?) ==> r == default
  {
    match v
    case Some(JString(s)) => s
    case _ => default
  }
}
