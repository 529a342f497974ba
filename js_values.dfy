/** JavaScript values as the fetch-sync client sees them: the arguments of its
    public calls, the payloads of worker messages and the reasons promises are
    rejected with. Numbers are integers here (no NaN, no fractions). */
module JsValues {

  datatype Option<+T> = None | Some(value: T) {
    /** `x || default` for an optional value. */
    function GetOr(default: T): T {
      if Some? then value else default
    }
  }

  /** A JavaScript value. `Req` is an instance of `Request`, `EmptyObject` a
      fresh `{}` literal, `Obj` any other plain object or array, `Error` and
      `TypeError` instances of those classes. */
  datatype Value =
    | Undefined
    | Null
    | Bool(b: bool)
    | Num(n: int)
    | Str(s: string)
    | Req(url: string)
    | EmptyObject
    | Obj(ref: nat)
    | Fn(ref: nat)
    | Error(message: string)
    | TypeError(message: string)

  /** The string the `typeof` operator yields. */
  function TypeOf(v: Value): string {
    match v
    case Undefined => "undefined"
    case Bool(_) => "boolean"
    case Num(_) => "number"
    case Str(_) => "string"
    case Fn(_) => "function"
    case _ => "object"  // null, Request, plain objects and errors
  }

  /** JavaScript truthiness (`!!v`). */
  predicate Truthy(v: Value) {
    match v
    case Undefined => false
    case Null => false
    case Bool(b) => b
    case Num(n) => n != 0
    case Str(s) => s != ""
    case _ => true
  }

  /** The outcome of a synchronous call: a value, or an exception thrown. */
  datatype Result<+T> = Ok(value: T) | Throw(error: Value)
}
