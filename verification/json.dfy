/** JSON values as the Flask side reads request bodies and writes responses. */
module Json {

  datatype Value =
    | Str(s: string)
    | Num(n: int)
    | Bool(b: bool)
    | Null
    | Arr(items: seq<Value>)
    | Obj(fields: map<string, Value>)

  /** A decoded JSON object. */
  type Object = map<string, Value>
}
