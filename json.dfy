/** The already-parsed JSON value that `response.json()` hands to the program. */
module Json {
  import opened Wrappers

  /** A JSON value as Python's `json` module returns it. A JSON object becomes a
      dictionary, modelled as a map from keys to values; numbers are kept exact. */
  datatype Json =
    | JNull
    | JBool(b: bool)
    | JNum(value: real)
    | JString(str: string)
    | JArray(items: seq<Json>)
    | JObject(fields: map<string, Json>)

  /** The empty object `{}`, the default of the nested `.get` calls. */
  const EmptyObject: Json := JObject(map[])

  /** Python's `dict.get(key, default)`. */
  function Get(m: map<string, Json>, key: string, default: Json): Json
  {
    if key in m then m[key] else default
  }

  /** Reference reading of a chain of keys: the value found by following `path`
      from `j`, or `None` as soon as a step is not an object holding the key. */
  function Lookup(j: Json, path: seq<string>): Option<Json>
  {
    if path == [] then Some(j)
    else if j.JObject? && path[0] in j.fields then Lookup(j.fields[path[0]], path[1..])
    else None
  }

  /** One step of `Lookup`. */
  lemma LookupStep(j: Json, k: string, rest: seq<string>)
    ensures Lookup(j, [k] + rest) == if j.JObject? && k in j.fields then Lookup(j.fields[k], rest) else None
  {
  }
}
