/**
 * The validation gate every configuration section passes through: each
 * declared constraint is evaluated, every violation is collected, and the
 * mapped record is returned only when none is violated.
 */
module Constraints {
  import opened Wrappers

  /** One declared constraint (one decorator) on one property, and whether it holds. */
  datatype Constraint = Constraint(property: string, rule: string, holds: bool)

  /** A violated constraint, as reported to the caller. */
  datatype Violation = Violation(property: string, rule: string)

  predicate AllHold(cs: seq<Constraint>) {
    forall i :: 0 <= i < |cs| ==> cs[i].holds
  }

  /** Every violated constraint, in declaration order: the complete set, not just the first. */
  function Violations(cs: seq<Constraint>): (r: seq<Violation>)
    ensures |r| <= |cs|
    ensures forall v :: v in r <==>
      exists i :: 0 <= i < |cs| && !cs[i].holds && v == Violation(cs[i].property, cs[i].rule)
    ensures r == [] <==> AllHold(cs)
  {
    if cs == [] then []
    else
      var rest := Violations(cs[1..]);
      assert forall i :: 1 <= i < |cs| ==> cs[i] == cs[1..][i - 1];
      if cs[0].holds then rest
      else [Violation(cs[0].property, cs[0].rule)] + rest
  }

  /** Validate, then hand back the mapped record; a failure carries every violation. */
  function Gate<T>(cs: seq<Constraint>, value: T): (r: Result<T, seq<Violation>>)
    ensures r.Success? <==> AllHold(cs)
    ensures r.Success? ==> r.value == value
    ensures r.Failure? ==> r.error == Violations(cs) && r.error != []
  {
    var vs := Violations(cs);
    if vs == [] then Success(value) else Failure(vs)
  }

  /** Whether some violation names `property`. */
  predicate Reports(vs: seq<Violation>, property: string) {
    exists i :: 0 <= i < |vs| && vs[i].property == property
  }

  /** A property is reported exactly when one of its own constraints fails. */
  predicate Fails(cs: seq<Constraint>, property: string) {
    exists i :: 0 <= i < |cs| && cs[i].property == property && !cs[i].holds
  }

  lemma ReportsIffFails(cs: seq<Constraint>, property: string)
    ensures Reports(Violations(cs), property) <==> Fails(cs, property)
  {
    var vs := Violations(cs);
    if Fails(cs, property) {
      var i :| 0 <= i < |cs| && cs[i].property == property && !cs[i].holds;
      var v := Violation(cs[i].property, cs[i].rule);
      assert v in vs;
      var j :| 0 <= j < |vs| && vs[j] == v;
    }
    if Reports(vs, property) {
      var j :| 0 <= j < |vs| && vs[j].property == property;
      assert vs[j] in vs;
    }
  }

  // The class-validator rules the configuration classes use. They are checked
  // against the raw environment: a property declared `string` is the raw
  // variable (`None` is `undefined`), a property declared `number` is the raw
  // variable converted to a number by the validator (see `NumberProperty`).

  /**
   * A property declared `number` as the validator sees it: `Absent` when the
   * variable is unset, otherwise `Num(n)`, the converted value, with
   * `n == None` standing for `NaN`.
   */
  datatype NumberProperty = Absent | Num(n: Option<int>)

  /**
   * The raw variable converted with `toNumber`, the string-to-number
   * conversion the validator applies before checking (its definition is
   * not part of this model, so it is a parameter).
   */
  function AsNumber(v: Option<string>, toNumber: string -> Option<int>): (p: NumberProperty)
    ensures p.Absent? <==> v.None?
    ensures v.Some? ==> p.n == toNumber(v.value)
  {
    match v
    case None => Absent
    case Some(x) => Num(toNumber(x))
  }

  /** `@IsInt()`: `Number.isInteger`, false for `NaN` and for `undefined`. */
  predicate IsInt(p: NumberProperty) {
    p.Num? && p.n.Some?
  }

  /** `@Min(m)`: `p >= m`, false for `NaN` and for `undefined`. */
  predicate Min(p: NumberProperty, m: int) {
    p.Num? && p.n.Some? && p.n.value >= m
  }

  /** `@Max(m)`: `p <= m`, false for `NaN` and for `undefined`. */
  predicate Max(p: NumberProperty, m: int) {
    p.Num? && p.n.Some? && p.n.value <= m
  }

  /** `@IsNotEmpty()` on a number: only `undefined` is empty; `NaN` is a number. */
  predicate NumberIsNotEmpty(p: NumberProperty) {
    p.Num?
  }

  /** `@IsNotEmpty()` on a property declared `boolean`: the converted value is empty only when the variable is unset. */
  predicate BooleanIsNotEmpty(v: Option<string>) {
    v.Some?
  }

  /** A TCP port number: an integer in 0..65535 (`NaN` is not one). */
  predicate ValidPort(n: Option<int>) {
    n.Some? && 0 <= n.value <= 65535
  }

  /** On a missing variable every number rule fails; on `NaN` only `@IsNotEmpty()` holds. */
  lemma NumberRulesOnMissingValues(m: int)
    ensures !IsInt(Absent) && !Min(Absent, m) && !Max(Absent, m) && !NumberIsNotEmpty(Absent)
    ensures !IsInt(Num(None)) && !Min(Num(None), m) && !Max(Num(None), m) && NumberIsNotEmpty(Num(None))
  {
  }

  /** On an integer `@IsInt()` and `@IsNotEmpty()` hold, and `@Min`/`@Max` compare it with their bound. */
  lemma NumberRulesOnIntegers(n: int, m: int)
    ensures IsInt(Num(Some(n))) && NumberIsNotEmpty(Num(Some(n)))
    ensures Min(Num(Some(n)), m) <==> n >= m
    ensures Max(Num(Some(n)), m) <==> n <= m
  {
  }

  /** `@IsNotEmpty()` on a boolean property fails only on an unset variable: `""` and `"false"` pass. */
  lemma BooleanRules(v: Option<string>)
    ensures BooleanIsNotEmpty(Some("")) && BooleanIsNotEmpty(Some("false"))
    ensures !BooleanIsNotEmpty(None)
    ensures BooleanIsNotEmpty(v) <==> v != None
  {
  }

  /** `@IsInt() @Min(0) @Max(65535)` together hold exactly for a converted valid port. */
  lemma PortRules(p: NumberProperty)
    ensures IsInt(p) && Min(p, 0) && Max(p, 65535) <==> p.Num? && ValidPort(p.n)
  {
  }
}
