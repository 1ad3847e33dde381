/** The JSON values the program keeps in Python dicts and lists and writes with `json.dump`. */
module Json {

  datatype Json =
    | Null
    | Bool(b: bool)
    | Num(n: real)
    | Str(s: string)
    | Arr(items: seq<Json>)
    | Obj(fields: map<string, Json>)

  /** A Python `dict` with string keys. */
  type Dict = map<string, Json>
}
