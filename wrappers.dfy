/** Small value types shared by the server and the client models. */
module Wrappers {
  /** A value that may be absent (`undefined` / `null` in the JavaScript source). */
  datatype Option<+T> = None | Some(value: T)

  /** The outcome of a step that either produces a value or fails with an error. */
  datatype Result<+R, +E> = Success(value: R) | Failure(error: E)
}

/** JavaScript semantics that both halves of the application rely on. */
module Js {
  import opened Wrappers

  /** JavaScript truthiness of a value that is either missing or a string:
      `undefined`, `null` and `""` are falsy, every other string is truthy. */
  function Truthy(v: Option<string>): (r: bool)
    ensures r <==> v != None && v != Some("")
  {
    match v
    case None => false
    case Some(s) => |s| > 0
  }
}
