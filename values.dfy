/** Small value-level vocabulary shared by the other modules: optional
    fields, success/failure outcomes, and the JavaScript values that the
    facade passes through to the storage engine. */
module Values {

  /** A field of a configuration object that is either absent or present. */
  datatype Option<+T> = None | Some(value: T) {
    function GetOr(default: T): T {
      match this
      case Some(v) => v
      case None => default
    }
  }

  /** The settled state of a promise: resolved with a value or rejected. */
  datatype Result<+T, +E> = Ok(value: T) | Err(error: E)

  /** The JavaScript values a caller can hand to `get`, `add`, `put`,
      `delete` and `addAll`. Numbers are integers; objects are opaque. */
  datatype Value =
    | Undefined
    | Null
    | Bool(b: bool)
    | Number(n: int)
    | Text(s: string)
    | Object(id: nat)

  /** JavaScript truthiness: `undefined`, `null`, `false`, `0` and the
      empty string are falsy, every object is truthy. */
  predicate Truthy(v: Value) {
    match v
    case Undefined => false
    case Null => false
    case Bool(b) => b
    case Number(n) => n != 0
    case Text(s) => s != ""
    case Object(_) => true
  }
}
