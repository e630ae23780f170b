/**
 * Decoded JSON documents as the HTTP client hands them to the program, the
 * exceptions the program can raise, and Python's subscript `d[key]` on them.
 */
module Json {
  import opened Wrappers

  /** A decoded JSON value. Numbers are never computed on, so they keep their text. */
  datatype Json =
    | JNull
    | JBool(b: bool)
    | JNumber(text: string)
    | JStr(s: string)
    | JArray(items: seq<Json>)
    | JObject(fields: map<string, Json>)

  /** The exceptions that can end a polling cycle. */
  datatype Exception =
    | KeyError(key: string)      // subscript of an object lacking the key
    | TypeError                  // subscript of something that is not an object
    | EndpointReturnedNone       // the explicit raise on a `None` body
    | JsonDecodeError            // a 200 reply whose body is not JSON
    | ConnectionError            // the HTTP or MQTT transport raised

  type Attempt<T> = Result<T, Exception>

  /** `j[key]`: the member of an object, KeyError when absent, TypeError on a non-object. */
  function Lookup(j: Json, key: string): (r: Attempt<Json>)
    ensures r.Ok? <==> j.JObject? && key in j.fields
    ensures r.Ok? ==> r.value == j.fields[key]
    ensures r.Err? ==> r.error == (if j.JObject? then KeyError(key) else TypeError)
  {
    match j
    case JObject(fields) => if key in fields then Ok(fields[key]) else Err(KeyError(key))
    case _ => Err(TypeError)
  }

  /** True when `j` is an object holding `key`. */
  predicate Has(j: Json, key: string) {
    j.JObject? && key in j.fields
  }
}
