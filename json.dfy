/** JSON values as Python's `json` module and `requests` hand them to the
    core: `None`, booleans, numbers, strings, lists and dicts. */
module JsonValue {
  import opened Wrappers

  datatype Json =
    | Null
    | Bool(b: bool)
    | Num(n: int)
    | Str(s: string)
    | Arr(items: seq<Json>)
    | Obj(fields: map<string, Json>)

  /** What decoding a text as JSON gave: a value, or a decoding error. */
  datatype Parsed = Decoded(value: Json) | NotJson

  /** `d[key]` for a dict that has the key, `None` otherwise. */
  function Member(j: Json, key: string): Json {
    if j.Obj? && key in j.fields then j.fields[key] else Null
  }

  /** `None` becomes JSON null, a string becomes a JSON string. */
  function OptStr(o: Option<string>): Json {
    match o
    case None => Null
    case Some(s) => Str(s)
  }
}
