/**
 * The runtime environment and its selection from `NODE_ENV`
 * (`env()` in src/main.ts).
 */
module Environments {
  import opened Wrappers

  /** The `Environment` enum: the values the application knows. */
  datatype Environment = Local | Production

  /** The enum's string value, which is also the name of the environment's directory under `./env/`. */
  function Name(e: Environment): (s: string)
    ensures s != "" && forall k :: 0 <= k < |s| ==> s[k] != '/'
  {
    match e
    case Local => "local"
    case Production => "production"
  }

  /** The enum member whose value is `s`, if any: `Object.values(Environment).includes(s)`. */
  function FromName(s: string): (r: Option<Environment>)
    ensures r.Some? ==> Name(r.value) == s
    ensures r.None? ==> forall e: Environment :: Name(e) != s
  {
    if s == Name(Local) then Some(Local)
    else if s == Name(Production) then Some(Production)
    else None
  }

  /** Distinct members have distinct values, so every value names exactly one member. */
  lemma FromNameName(e: Environment)
    ensures FromName(Name(e)) == Some(e)
  {
    assert Name(Local) != Name(Production) by {
      assert |Name(Local)| != |Name(Production)|;
    }
  }

  /**
   * `env()`: `NODE_ENV` when it is set, not empty and one of the enum's
   * values; `Local` otherwise.
   */
  function SelectEnv(nodeEnv: Option<string>): (e: Environment)
    ensures (exists k: Environment :: nodeEnv == Some(Name(k))) ==> nodeEnv == Some(Name(e))
    ensures (forall k: Environment :: nodeEnv != Some(Name(k))) ==> e == Local
  {
    if nodeEnv.None? || nodeEnv.value == "" then Local
    else match FromName(nodeEnv.value)
      case None => Local
      case Some(e) => e
  }

  /** A known value is returned unchanged. */
  lemma SelectKnown(e: Environment)
    ensures SelectEnv(Some(Name(e))) == e
  {
    FromNameName(e);
  }

  /** Selecting again from the selected environment's value changes nothing. */
  lemma SelectIdempotent(nodeEnv: Option<string>)
    ensures SelectEnv(Some(Name(SelectEnv(nodeEnv)))) == SelectEnv(nodeEnv)
  {
    SelectKnown(SelectEnv(nodeEnv));
  }
}
