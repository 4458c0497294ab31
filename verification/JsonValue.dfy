/** JSON values as the Go decoder yields them. */
module JsonValue {
  datatype Json =
    | Null | Bool(b: bool) | Num(value: real) | Str(s: string)
    | Arr(items: seq<Json>) | Obj(fields: map<string, Json>)

  /** A map lookup in Go: null for a missing key. */
  function Get(m: map<string, Json>, key: string): Json {
    if key in m then m[key] else Null
  }
}
