/** The values `json.loads` can produce, and the Python dictionary
    operations the handler applies to them: `d[key]`, `d.get(key)` and
    `d.get(key, default)`. Each may raise, and which exception it raises
    is kept, since the handler catches some and not others. */
module PyJson {
  import opened Wrappers

  /** A decoded JSON value. Numbers keep their source text: the handler only
      ever compares values against strings, so their numeric value never
      matters. */
  datatype Json =
    | JNull
    | JBool(b: bool)
    | JNumber(text: string)
    | JString(s: string)
    | JArray(items: seq<Json>)
    | JObject(fields: map<string, Json>)

  /** The Python exceptions the handler's dictionary operations can raise. */
  datatype PyError = TypeError | KeyError

  /** `hash(v)` succeeds: Python lists and dicts are unhashable, so using one
      as a dictionary key raises `TypeError`. */
  predicate Hashable(v: Json) {
    !v.JArray? && !v.JObject?
  }

  /** `obj[key]` for a string key on a decoded value: only an object can be
      subscripted by a string; an absent key raises `KeyError`. */
  function Subscript(obj: Json, key: string): (r: Result<Json, PyError>)
    ensures r.Ok? <==> obj.JObject? && key in obj.fields
    ensures r.Ok? ==> r.value == obj.fields[key]
    ensures r.Err? && obj.JObject? ==> r.error == KeyError
    ensures r.Err? && !obj.JObject? ==> r.error == TypeError
  {
    match obj
    case JObject(fields) => if key in fields then Ok(fields[key]) else Err(KeyError)
    case _ => Err(TypeError)
  }

  /** `d.get(key)` on a string-keyed dictionary: `None` for a hashable key it
      lacks, `TypeError` for an unhashable key, even when `d` is empty. */
  function Get<V>(d: map<string, V>, key: Json): (r: Result<Option<V>, PyError>)
    ensures r.Err? <==> !Hashable(key)
    ensures r.Err? ==> r.error == TypeError
    ensures r.Ok? ==> (r.value.Some? <==> key.JString? && key.s in d)
    ensures r.Ok? && r.value.Some? ==> r.value.value == d[key.s]
  {
    if !Hashable(key) then Err(TypeError)
    else if key.JString? && key.s in d then Ok(Some(d[key.s]))
    else Ok(None)
  }

  /** `d[key]` on a string-keyed dictionary: `TypeError` for an unhashable
      key, `KeyError` for a hashable key it lacks. */
  function Index<V>(d: map<string, V>, key: Json): (r: Result<V, PyError>)
    ensures r.Ok? <==> key.JString? && key.s in d
    ensures r.Ok? ==> r.value == d[key.s]
    ensures r.Err? ==> r.error == (if Hashable(key) then KeyError else TypeError)
  {
    match Get(d, key)
    case Err(e) => Err(e)
    case Ok(None) => Err(KeyError)
    case Ok(Some(v)) => Ok(v)
  }
}
