/**
 * The slice of JavaScript's value model that the runtime inspects: the shapes
 * of loaded modules, option values and thrown errors.
 */
module Js {

  datatype Option<T> = None | Some(value: T)

  /** A thrown JavaScript error: its constructor name, its `code` property ("" when unset) and its message. */
  datatype JsError = JsError(kind: string, code: string, message: string)

  /** The outcome of an operation that may throw. */
  datatype Result<T> = Ok(value: T) | Err(error: JsError)

  function Error(message: string): JsError
  {
    JsError("Error", "", message)
  }

  function TypeError(message: string): JsError
  {
    JsError("TypeError", "", message)
  }

  function RangeError(message: string): JsError
  {
    JsError("RangeError", "", message)
  }

  /**
   * A JavaScript value. Functions are known only by an identity; NaN is not
   * represented and numbers are integers.
   */
  datatype Value =
    | Undefined
    | Null
    | Bool(b: bool)
    | Num(n: int)
    | Str(s: string)
    | Func(id: string)
    | Arr(items: seq<Value>)
    | Obj(fields: map<string, Value>)

  /** JavaScript truthiness. */
  predicate Truthy(v: Value)
  {
    match v
    case Undefined => false
    case Null => false
    case Bool(b) => b
    case Num(n) => n != 0
    case Str(s) => s != ""
    case _ => true
  }

  /** `isNil` of utils.ts: null or undefined. */
  predicate IsNil(v: Value)
  {
    v.Undefined? || v.Null?
  }

  /** Property read on a value that is not null or undefined; a missing key reads as undefined. */
  function Get(v: Value, key: string): Value
  {
    if v.Obj? && key in v.fields then v.fields[key] else Undefined
  }

  /** `x && typeof x === "object" && typeof x.execute === "function"`, the shape every loader checks. */
  predicate IsExecutableModule(v: Value)
  {
    v.Obj? && Get(v, "execute").Func?
  }

  /** A string property as an optional string; any other value reads as absent. */
  function StrOrNone(v: Value): Option<string>
  {
    if v.Str? then Some(v.s) else None
  }

  /** The decimal digits of a natural number. */
  function NatToString(n: nat): (r: string)
    ensures |r| >= 1
    ensures forall i :: 0 <= i < |r| ==> '0' <= r[i] <= '9'
    decreases n
  {
    var digit := ['0' + (n % 10) as char];
    if n < 10 then digit else NatToString(n / 10) + digit
  }

  function IntToString(n: int): string
  {
    if n < 0 then "-" + NatToString(-n) else NatToString(n)
  }

  /**
   * The text a template literal `${v}` produces. A function shows as its
   * identity (its source text is not modelled).
   */
  function Display(v: Value): string
    decreases v
  {
    match v
    case Undefined => "undefined"
    case Null => "null"
    case Bool(b) => if b then "true" else "false"
    case Num(n) => IntToString(n)
    case Str(s) => s
    case Func(id) => id
    case Arr(items) => DisplayItems(items)
    case Obj(_) => "[object Object]"
  }

  /** `Array.prototype.toString`: the items joined by ",", with null and undefined shown as "". */
  function DisplayItems(items: seq<Value>): string
    decreases items
  {
    if |items| == 0 then ""
    else
      var first := if IsNil(items[0]) then "" else Display(items[0]);
      if |items| == 1 then first else first + "," + DisplayItems(items[1..])
  }
}
