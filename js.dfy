/**
 * The small part of JavaScript's value semantics that the front end relies on:
 * truthiness, `||`, property access with and without optional chaining,
 * `String(v)`, and the shape of an HTTP reply as the HTTP client reports it.
 */
module Js {

  datatype Option<+T> = None | Some(value: T)

  /**
   * A JavaScript value as far as the front end inspects one. Numbers are
   * integers (no NaN, no fractions); an object is its own enumerable
   * properties. Arrays and functions are not distinguished from objects.
   */
  datatype JsValue =
    | Undefined
    | Null
    | Bool(b: bool)
    | Num(n: int)
    | Str(s: string)
    | Obj(fields: map<string, JsValue>)

  /** ToBoolean: undefined, null, false, 0 and "" are the falsy values. */
  predicate Truthy(v: JsValue)
  {
    match v
    case Undefined => false
    case Null => false
    case Bool(b) => b
    case Num(n) => n != 0
    case Str(s) => s != ""
    case Obj(_) => true
  }

  /** `a || b`: the left operand when it is truthy, the right one otherwise. */
  function Or(a: JsValue, b: JsValue): JsValue
  {
    if Truthy(a) then a else b
  }

  /**
   * `v.key`. Reading a property of undefined or null throws a TypeError,
   * which is `None` here. Primitives have none of the property names this
   * front end reads (`msg`, `message`, `data`, `role`, `boking`, ...), and
   * neither does Object.prototype, so a missing key reads as undefined.
   */
  function Prop(v: JsValue, key: string): Option<JsValue>
  {
    match v
    case Undefined => None
    case Null => None
    case Obj(fields) => Some(if key in fields then fields[key] else Undefined)
    case _ => Some(Undefined)
  }

  /** `v?.key`: like `v.key`, but undefined instead of a TypeError. */
  function OptProp(v: JsValue, key: string): (r: JsValue)
    ensures Prop(v, key).Some? ==> r == Prop(v, key).value
    ensures v == Undefined || v == Null ==> r == Undefined
  {
    match Prop(v, key)
    case None => Undefined
    case Some(x) => x
  }

  /** `String(v)` for the values modelled here (a plain object prints as "[object Object]"). */
  function ToJsString(v: JsValue): string
  {
    match v
    case Undefined => "undefined"
    case Null => "null"
    case Bool(b) => if b then "true" else "false"
    case Num(n) => IntString(n)
    case Str(s) => s
    case Obj(_) => "[object Object]"
  }

  /** Decimal digits of a natural number, most significant first. */
  function NatString(n: nat): (s: string)
    ensures |s| >= 1
    ensures forall i :: 0 <= i < |s| ==> '0' <= s[i] <= '9'
    ensures s[0] == '0' ==> n == 0 && |s| == 1
    decreases n
  {
    if n < 10 then [DigitChar(n)] else NatString(n / 10) + [DigitChar(n % 10)]
  }

  function DigitChar(d: nat): (c: char)
    requires d < 10
    ensures '0' <= c <= '9' && c as int - '0' as int == d
  {
    ('0' as int + d) as char
  }

  /** `String(n)` for an integer: a minus sign followed by the digits of |n| when n < 0. */
  function IntString(n: int): string
  {
    if n < 0 then "-" + NatString(-n) else NatString(n)
  }

  /**
   * What a caught exception offers to the `catch` blocks: `err.response.data`
   * when the server answered (an HTTP error status), and `err.message`.
   * A network failure or a TypeError has no response.
   */
  datatype Failure = Failure(response: Option<JsValue>, message: JsValue)

  /** What an awaited HTTP request produces: a 2xx response, or a thrown error. */
  datatype Reply =
    | Ok(status: int, body: JsValue)
    | Failed(error: Failure)

  /** `err.response?.data?.message`. */
  function ServerMessage(err: Failure): (r: JsValue)
    ensures err.response.None? ==> r == Undefined
  {
    match err.response
    case None => Undefined
    case Some(data) => OptProp(data, "message")
  }

  /** `err.response?.data?.message || fallback`, the usual catch-block message. */
  function CaughtMessage(err: Failure, fallback: string): (r: JsValue)
    requires fallback != ""
    ensures Truthy(r)
    ensures Truthy(ServerMessage(err)) ==> r == ServerMessage(err)
    ensures !Truthy(ServerMessage(err)) ==> r == Str(fallback)
  {
    Or(ServerMessage(err), Str(fallback))
  }

  /**
   * The error a `catch` sees when `x.data` is read from a response body that
   * is null or undefined: a TypeError, which has no `response`.
   */
  function TypeErrorFailure(message: JsValue): Failure
  {
    Failure(None, message)
  }

  /** Where the front end navigates: a path and the in-memory navigation state. */
  datatype Navigation = Navigate(path: string, state: JsValue)
}
