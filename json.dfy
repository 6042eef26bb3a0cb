/**
 * Decoded JSON values, as the HTTP client's `response.json()` hands them to
 * the request adapter, and the two pieces of Python behaviour the adapter
 * relies on: `dict.get` and the type name an `AttributeError` reports.
 */
module Json {
  import opened Wrappers

  /** A decoded JSON document. Objects are dictionaries keyed by member name. */
  datatype Value =
    | JNull
    | JBool(b: bool)
    | JNumber(n: int)
    | JString(s: string)
    | JArray(items: seq<Value>)
    | JObject(fields: map<string, Value>)

  /** Python's `d.get(key)`: the member's value, or `None` when the key is absent. */
  function Get(d: map<string, Value>, key: string): (r: Option<Value>)
    ensures r.Some? <==> key in d
    ensures r.Some? ==> r.value == d[key]
  {
    if key in d then Some(d[key]) else None
  }

  /** The name of the Python type `json.loads` decodes a value to. */
  function TypeName(v: Value): string
  {
    match v
    case JNull => "NoneType"
    case JBool(_) => "bool"
    case JNumber(_) => "int"
    case JString(_) => "str"
    case JArray(_) => "list"
    case JObject(_) => "dict"
  }
}
