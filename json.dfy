/** JSON values as `json.load` returns them, and records as string-keyed objects. */
module Json {
  datatype Value =
    | Null
    | Bool(b: bool)
    | Int(i: int)
    | Str(s: string)
    | Arr(items: seq<Value>)
    | Obj(fields: seq<(string, Value)>)

  /** A stored record: one JSON object. Field order only matters for formatting, which is not modelled. */
  type Record = map<string, Value>
}
