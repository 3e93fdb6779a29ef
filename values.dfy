/** Python values as the tools see them: decoded JSON, dictionaries, the
    exceptions a call can raise, and `dict.get`. */
module Values {

  datatype Option<T> = None | Some(value: T)

  /** A decoded JSON value. Python's `None` is `JNull`. A dictionary is a map
      from its keys to its values; the insertion order of its keys is not kept
      (it only shows through `str()`, which this model leaves abstract). */
  datatype Json =
    | JNull
    | JBool(b: bool)
    | JInt(i: int)
    | JStr(s: string)
    | JArr(items: seq<Json>)
    | JObj(fields: map<string, Json>)

  /** The exceptions a tool can let escape. */
  datatype PyError =
    | Transport(message: string)   // requests could not complete the exchange
    | JsonDecode                   // response.json() on a body that is not JSON
    | AttributeError               // `.get` on a value that is not a dict
    | TypeError                    // iterating a non-iterable, hashing an unhashable key
    | ValueError                   // unpacking a row of the wrong length
    | Database(message: string)    // psycopg2 raised while executing a statement

  /** What a Python call does: return a value or raise. */
  datatype Outcome<T> = Returned(value: T) | Raised(error: PyError)

  /** `d.get(key)`: the value under `key`, or None when it is missing. */
  function Get(d: map<string, Json>, key: string): Json
  {
    if key in d then d[key] else JNull
  }

  /** The dictionary `{k: d.get(k) for k in keys}`. */
  function Pick(d: map<string, Json>, keys: set<string>): (r: map<string, Json>)
    ensures r.Keys == keys
    ensures forall k :: k in keys && k in d ==> r[k] == d[k]
    ensures forall k :: k in keys && k !in d ==> r[k] == JNull
  {
    map k | k in keys :: Get(d, k)
  }

  /** `{"error": message}`, the value handle_response returns on an HTTP error. */
  function ErrorValue(message: string): Json
  {
    JObj(map["error" := JStr(message)])
  }
}
