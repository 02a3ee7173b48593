/** The JSON values a request body carries, and JavaScript truthiness over them. */
module JsValues {
  import opened Wrappers

  /** A parsed JSON value. Numbers are integers here (see README, "Left out"). */
  datatype Value =
    | Null
    | Bool(b: bool)
    | Num(n: int)
    | Str(s: string)
    | Arr(items: seq<Value>)
    | Obj(fields: map<string, Value>)

  /** A JSON object: a request body or a record handed to the store. */
  type Doc = map<string, Value>

  /** `doc.key`: the property if the object has it, `undefined` otherwise. */
  function Field(doc: Doc, key: string): Option<Value> {
    if key in doc then Some(doc[key]) else None
  }

  /** JavaScript truthiness: `undefined`, `null`, `false`, `0` and `""` are falsy;
      every object and array is truthy. */
  predicate Truthy(v: Option<Value>) {
    match v
    case None => false
    case Some(Null) => false
    case Some(Bool(b)) => b
    case Some(Num(n)) => n != 0
    case Some(Str(s)) => s != ""
    case Some(Arr(_)) => true
    case Some(Obj(_)) => true
  }

  /** Truthiness of an optional string such as a query parameter or a token. */
  predicate Present(s: Option<string>) {
    s.Some? && s.value != ""
  }
}
