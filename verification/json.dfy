/** The JSON values the plugin's cache file can hold once loaded by Python's
    `json` module (floating-point numbers excepted). */
module Json {

  datatype Json =
    | Null
    | Bool(b: bool)
    | Int(i: int)
    | Str(s: string)
    | Arr(items: seq<Json>)
    | Obj(fields: map<string, Json>)

  /** A Python dict: the fields of a JSON object. */
  type Dict = map<string, Json>
}
