/** What a route hands back to Flask. */
module Flask {
  import opened Json
  import opened Schema

  datatype Reply =
    | Jsonify(status: int, body: Value)          // `jsonify(...), status`
    | Aborted(status: int, description: string)  // `abort(status, description=...)`
    | Invalid(errors: seq<FieldError>)            // flask_pydantic's 400 when the body fails its schema
  {
    function Status(): int {
      match this
      case Jsonify(s, _) => s
      case Aborted(s, _) => s
      case Invalid(_) => 400
    }
  }

  /** `{'message': m}`. */
  function Message(m: string): Value {
    Obj(map["message" := Str(m)])
  }
}
