/**
 * Plain JavaScript values, as a request body or a repository result is
 * seen by the interceptor and the validators: primitives, arrays and
 * plain objects (whose field order is not modelled).
 */
module JsValue {
  datatype Value =
    | Undefined
    | Null
    | Bool(b: bool)
    | Num(n: int)
    | Str(s: string)
    | Arr(items: seq<Value>)
    | Obj(fields: map<string, Value>)

  /** `o[key]` on a plain object: a missing field reads as `undefined`. */
  function Field(fields: map<string, Value>, key: string): (v: Value)
    ensures key !in fields ==> v == Undefined
    ensures key in fields ==> v == fields[key]
  {
    if key in fields then fields[key] else Undefined
  }
}
