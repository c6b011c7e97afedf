/** JSON-like values: what a configuration dictionary holds once loaded. */
module Json {

  datatype Value =
    | Null
    | Bool(b: bool)
    | Int(i: int)
    | Real(r: real)
    | Str(s: string)
    | Arr(items: seq<Value>)
    /** a Python dict with string keys */
    | Obj(fields: map<string, Value>)

  type Dict = map<string, Value>
}
