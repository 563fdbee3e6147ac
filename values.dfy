/** The JavaScript values a log call carries: payload objects, Error objects and the message union. */
module Values {
  import opened Wrappers
  import opened Strings

  /** An `Error` instance: its `name` may be nullish and its `stack` may be absent. */
  datatype JsError = JsError(name: Option<string>, message: string, stack: Option<string>)

  /** A JSON-like JavaScript value; `ErrorVal` is a reference to a native Error object. */
  datatype Value =
    | Undefined
    | Null
    | Bool(b: bool)
    | Num(n: int)
    | Str(s: string)
    | Arr(items: seq<Value>)
    | Obj(fields: map<string, Value>)
    | ErrorVal(error: JsError)

  /** An object literal: `logPayload` and `messageObj`. */
  type Payload = map<string, Value>

  /** The `message` argument of a log call, decided once: a plain value or an `Error` instance. */
  datatype Message = Plain(value: Value) | Err(error: JsError)

  /** The message as the value it is (`rawMessage` holds it unmodified). */
  function MessageValue(m: Message): Value {
    match m
    case Plain(v) => v
    case Err(e) => ErrorVal(e)
  }

  /** The property key a primitive value becomes when used as `dict[value]`. */
  function PropertyKey(v: Value): (k: Option<string>)
    ensures v.Str? ==> k == Some(v.s)
    ensures k.Some? <==> !(v.Arr? || v.Obj? || v.ErrorVal?)
  {
    match v
    case Undefined => Some("undefined")
    case Null => Some("null")
    case Bool(b) => Some(if b then "true" else "false")
    case Num(n) => Some(IntToString(n))
    case Str(s) => Some(s)
    case Arr(_) => None
    case Obj(_) => None
    case ErrorVal(_) => None
  }
}
