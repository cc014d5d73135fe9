// JSON values as serde_json presents them to the server: the replies of
// the browser's DevTools protocol and the results of evaluated scripts.
// Parsing and printing JSON text are not part of this model; numbers are
// kept as reals.

module Json {
  import opened Wrappers

  datatype Json =
    | JNull
    | JBool(b: bool)
    | JNumber(n: real)
    | JString(s: string)
    | JArray(items: seq<Json>)
    | JObject(fields: map<string, Json>)

  /** `Value::get(key)`: the field of an object; nothing for a missing key or a value that is not an object. */
  function Get(j: Json, key: string): (r: Option<Json>)
    ensures r.Some? <==> j.JObject? && key in j.fields
    ensures r.Some? ==> r.value == j.fields[key]
  {
    if j.JObject? && key in j.fields then Some(j.fields[key]) else None
  }

  /** `Value::as_str`. */
  function AsStr(j: Json): (r: Option<string>)
    ensures r.Some? <==> j.JString?
    ensures r.Some? ==> r.value == j.s
  {
    if j.JString? then Some(j.s) else None
  }

  /** `Value::as_array`. */
  function AsArray(j: Json): (r: Option<seq<Json>>)
    ensures r.Some? <==> j.JArray?
    ensures r.Some? ==> r.value == j.items
  {
    if j.JArray? then Some(j.items) else None
  }

  /** A field read as a string: `v.get(key).and_then(as_str)`. */
  function StrField(j: Json, key: string): (r: Option<string>)
    ensures r.Some? <==> Get(j, key).Some? && Get(j, key).value.JString?
    ensures r.Some? ==> r.value == j.fields[key].s
  {
    match Get(j, key)
    case Some(v) => AsStr(v)
    case None => None
  }

  /** Whether a number is a whole number, as the unsigned and signed integer readers demand. */
  predicate IsWhole(n: real)
  {
    n.Floor as real == n
  }
}
