/**
 * An already-parsed JSON document, with the accessors the Blender importer
 * uses (`get`, `as_array`, `as_str`, `as_f64`). Object keys are unique, as in
 * the JSON library's map-backed objects.
 */
module JsonValues {
  import opened Options

  datatype Json =
    | Null
    | Bool(b: bool)
    | Number(n: real)
    | String(s: string)
    | Array(items: seq<Json>)
    | Object(fields: map<string, Json>)

  /** `Value::get` with a string key: a member of an object; nothing for any other value. */
  function Get(v: Json, key: string): (r: Option<Json>)
    ensures r.Some? <==> v.Object? && key in v.fields
    ensures r.Some? ==> r.value == v.fields[key]
  {
    if v.Object? && key in v.fields then Some(v.fields[key]) else None
  }

  function AsArray(v: Json): (r: Option<seq<Json>>)
    ensures r.Some? <==> v.Array?
    ensures r.Some? ==> r.value == v.items
  {
    if v.Array? then Some(v.items) else None
  }

  function AsStr(v: Json): (r: Option<string>)
    ensures r.Some? <==> v.String?
    ensures r.Some? ==> r.value == v.s
  {
    if v.String? then Some(v.s) else None
  }

  function AsNumber(v: Json): (r: Option<real>)
    ensures r.Some? <==> v.Number?
    ensures r.Some? ==> r.value == v.n
  {
    if v.Number? then Some(v.n) else None
  }

  /** `v.get(key).and_then(as_array)`: the array stored under `key`, if the member is an array. */
  function GetArray(v: Json, key: string): (r: Option<seq<Json>>)
    ensures r.Some? <==> v.Object? && key in v.fields && v.fields[key].Array?
    ensures r.Some? ==> r.value == v.fields[key].items
  {
    match Get(v, key)
    case Some(w) => AsArray(w)
    case None => None
  }

  /** `v.get(key).and_then(as_str)`. */
  function GetStr(v: Json, key: string): (r: Option<string>)
    ensures r.Some? <==> v.Object? && key in v.fields && v.fields[key].String?
    ensures r.Some? ==> r.value == v.fields[key].s
  {
    match Get(v, key)
    case Some(w) => AsStr(w)
    case None => None
  }

  /** `v.get(key).and_then(as_f64)`. */
  function GetNumber(v: Json, key: string): (r: Option<real>)
    ensures r.Some? <==> v.Object? && key in v.fields && v.fields[key].Number?
    ensures r.Some? ==> r.value == v.fields[key].n
  {
    match Get(v, key)
    case Some(w) => AsNumber(w)
    case None => None
  }
}
