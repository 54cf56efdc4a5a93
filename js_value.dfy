/** The part of JavaScript's value semantics that the login screen relies on
    when it reads a parsed server reply: JSON values, truthiness, optional
    member access `v?.key` and the fallback operator `a || b`. */
module JsValue {
  import opened Wrappers

  /** A value produced by `JSON.parse`. Numbers are modelled as reals. */
  datatype Json =
    | JNull
    | JBool(b: bool)
    | JNumber(n: real)
    | JString(s: string)
    | JArray(items: seq<Json>)
    | JObject(fields: map<string, Json>)

  /** JavaScript truthiness of a parsed JSON value: `null`, `false`, `0` and
      `""` are falsy, everything else (including every array and object) is
      truthy. JSON cannot produce `NaN`. */
  predicate Truthy(v: Json)
    ensures !Truthy(v) <==> v in {JNull, JBool(false), JNumber(0.0), JString("")}
  {
    match v
    case JNull => false
    case JBool(b) => b
    case JNumber(n) => n != 0.0
    case JString(s) => s != ""
    case JArray(_) => true
    case JObject(_) => true
  }

  /** `v?.key` on a parsed JSON value: the member's value when `v` is an
      object holding `key`, and `undefined` (None) otherwise. */
  function Member(v: Json, key: string): (r: Option<Json>)
    ensures r.Some? <==> v.JObject? && key in v.fields
    ensures r.Some? ==> r.value == v.fields[key]
  {
    if v.JObject? && key in v.fields then Some(v.fields[key]) else None
  }

  /** `a || fallback` where `a` may be `undefined`: `a` itself when it is
      truthy, `fallback` otherwise. */
  function OrElse(a: Option<Json>, fallback: Json): (r: Json)
    ensures Truthy(fallback) ==> Truthy(r)
    ensures r == fallback || (a == Some(r) && Truthy(r))
    ensures a.Some? && Truthy(a.value) ==> r == a.value
  {
    if a.Some? && Truthy(a.value) then a.value else fallback
  }
}
