/** Decoded JSON values, as `json.loads` hands them to the result view. */
module Json {
  /** `Null` is Python's `None`; numbers (int or float) are exact reals. */
  datatype Value =
    | Null
    | Bool(b: bool)
    | Num(n: real)
    | Str(s: string)
    | Arr(items: seq<Value>)
    | Obj(fields: map<string, Value>)

  /** A flat record: one row of the flattened match table. */
  type Record = map<string, Value>

  /** Python truthiness: None, False, zero and empty containers are falsy. */
  predicate Truthy(v: Value) {
    match v
    case Null => false
    case Bool(b) => b
    case Num(n) => n != 0.0
    case Str(s) => s != ""
    case Arr(items) => items != []
    case Obj(fields) => fields != map[]
  }
}

/** The Python exceptions the result view can raise, and a result type carrying them. */
module Errors {
  datatype Error =
    | ConnectionError(status: int)  // non-success HTTP status
    | TypeError                     // iterating or subscripting the wrong kind of value
    | KeyError(key: string)         // a missing dict key or DataFrame column
    | AttributeError                // `.get` or `.update` on something that is not a dict

  datatype Result<T> = Ok(value: T) | Err(error: Error)

  datatype Option<T> = None | Some(value: T)
}
