/**
 * The process environment as the configuration mappers see it: a snapshot
 * from variable names to string values, where a missing key is `undefined`.
 */
module Env {
  import opened Wrappers

  type Env = map<string, string>

  /** `process.env[key]`: the value, or `undefined` when the variable is not set. */
  function Get(env: Env, key: string): (v: Option<string>)
    ensures v.Some? <==> key in env
    ensures v.Some? ==> v.value == env[key]
  {
    if key in env then Some(env[key]) else None
  }

  /** `v || ''`: `undefined` and `''` are both falsy, so either gives `''`. */
  function OrEmpty(v: Option<string>): (s: string)
    ensures s == "" <==> v.None? || v.value == ""
    ensures s != "" ==> v == Some(s)
  {
    match v
    case None => ""
    case Some(x) => if x == "" then "" else x
  }

  /** `String(v)`, the conversion `parseInt` applies to its argument: `undefined` becomes `"undefined"`. */
  function ToJsString(v: Option<string>): (s: string)
    ensures v.Some? ==> s == v.value
  {
    match v
    case None => "undefined"
    case Some(x) => x
  }

  /** class-validator's `isNotEmpty` on a string that may be `undefined`: neither `undefined` nor `''`. */
  predicate IsNotEmpty(v: Option<string>) {
    v.Some? && v.value != ""
  }

  /** The variable `key` is set and not `''`: `@IsNotEmpty()` holds for it as a string. */
  predicate Present(env: Env, key: string) {
    key in env && env[key] != ""
  }

  /** `process.env[key] || ''`: the value when the variable is set, `''` otherwise. */
  function StringVar(env: Env, key: string): (s: string)
    ensures s == (if key in env then env[key] else "")
  {
    OrEmpty(Get(env, key))
  }
}
