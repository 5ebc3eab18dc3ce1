/**
 * The `database` configuration section that the application module loads
 * (src/config/database.config.ts): host, port, username and password.
 */
module DatabaseSection {
  import opened Wrappers
  import opened Env
  import opened Constraints
  import ParseInt

  const ConfigPrefix := "database"

  /** Exactly four fields: there is no database name and no SSL flag in this section. */
  datatype DatabaseConfig = DatabaseConfig(
    DATABASE_HOST: string,
    DATABASE_PORT: Option<int>,
    DATABASE_USERNAME: string,
    DATABASE_PASSWORD: string)

  /** `parseInt(v || '', 10)`: `''` has no digits, so an unset port is `NaN` like any non-numeric one. */
  function ParsePort(v: Option<string>): (n: Option<int>)
    ensures v.Some? ==> n == ParseInt.Parse(v.value)
    ensures v.None? ==> n.None?
  {
    ParseInt.NoDigitsIsNaN("");
    ParseInt.Parse(OrEmpty(v))
  }

  /** The mapper: strings default to `''` through `|| ''`, the port is parsed by `ParsePort`. */
  function FromEnv(env: Env): (c: DatabaseConfig)
    ensures Present(env, "DATABASE_HOST") ==> c.DATABASE_HOST == env["DATABASE_HOST"]
    ensures Present(env, "DATABASE_USERNAME") ==> c.DATABASE_USERNAME == env["DATABASE_USERNAME"]
    ensures Present(env, "DATABASE_PASSWORD") ==> c.DATABASE_PASSWORD == env["DATABASE_PASSWORD"]
    ensures !Present(env, "DATABASE_HOST") ==> c.DATABASE_HOST == ""
    ensures !Present(env, "DATABASE_USERNAME") ==> c.DATABASE_USERNAME == ""
    ensures !Present(env, "DATABASE_PASSWORD") ==> c.DATABASE_PASSWORD == ""
    ensures "DATABASE_PORT" in env ==> c.DATABASE_PORT == ParseInt.Parse(env["DATABASE_PORT"])
    ensures "DATABASE_PORT" !in env ==> c.DATABASE_PORT.None?
  {
    var host := StringVar(env, "DATABASE_HOST");
    var rawPort := Get(env, "DATABASE_PORT");
    assert rawPort.Some? ==> rawPort.value == env["DATABASE_PORT"];
    var port := ParsePort(rawPort);
    var username := StringVar(env, "DATABASE_USERNAME");
    var password := StringVar(env, "DATABASE_PASSWORD");
    DatabaseConfig(host, port, username, password)
  }

  /** Every property carries `@IsNotEmpty()` and nothing else; checked on the raw environment. */
  function Schema(env: Env, toNumber: string -> Option<int>): seq<Constraint>
  {
    [ Constraint("DATABASE_HOST", "isNotEmpty", IsNotEmpty(Get(env, "DATABASE_HOST"))),
      Constraint("DATABASE_PORT", "isNotEmpty", NumberIsNotEmpty(AsNumber(Get(env, "DATABASE_PORT"), toNumber))),
      Constraint("DATABASE_USERNAME", "isNotEmpty", IsNotEmpty(Get(env, "DATABASE_USERNAME"))),
      Constraint("DATABASE_PASSWORD", "isNotEmpty", IsNotEmpty(Get(env, "DATABASE_PASSWORD"))) ]
  }

  /** Host, username and password set and not empty, and a port set to anything at all. */
  predicate Accepted(env: Env) {
    Present(env, "DATABASE_HOST") && "DATABASE_PORT" in env
    && Present(env, "DATABASE_USERNAME") && Present(env, "DATABASE_PASSWORD")
  }

  /** The schema accepts an environment exactly when it is `Accepted`; the port's value never matters. */
  lemma SchemaAccepts(env: Env, toNumber: string -> Option<int>)
    ensures AllHold(Schema(env, toNumber)) <==> Accepted(env)
  {
    var cs := Schema(env, toNumber);
    assert cs[0].holds && cs[1].holds && cs[2].holds && cs[3].holds <==> Accepted(env);
  }

  /** Each string is reported exactly when it is unset or empty, the port exactly when it is unset. */
  lemma SchemaReports(env: Env, toNumber: string -> Option<int>)
    ensures Reports(Violations(Schema(env, toNumber)), "DATABASE_HOST") <==> !Present(env, "DATABASE_HOST")
    ensures Reports(Violations(Schema(env, toNumber)), "DATABASE_PORT") <==> "DATABASE_PORT" !in env
    ensures Reports(Violations(Schema(env, toNumber)), "DATABASE_USERNAME") <==> !Present(env, "DATABASE_USERNAME")
    ensures Reports(Violations(Schema(env, toNumber)), "DATABASE_PASSWORD") <==> !Present(env, "DATABASE_PASSWORD")
  {
    var cs := Schema(env, toNumber);
    ReportsIffFails(cs, "DATABASE_HOST");
    ReportsIffFails(cs, "DATABASE_PORT");
    ReportsIffFails(cs, "DATABASE_USERNAME");
    ReportsIffFails(cs, "DATABASE_PASSWORD");
    if !Present(env, "DATABASE_HOST") {
      assert cs[0].property == "DATABASE_HOST" && !cs[0].holds;
    }
    if "DATABASE_PORT" !in env {
      assert cs[1].property == "DATABASE_PORT" && !cs[1].holds;
    }
    if !Present(env, "DATABASE_USERNAME") {
      assert cs[2].property == "DATABASE_USERNAME" && !cs[2].holds;
    }
    if !Present(env, "DATABASE_PASSWORD") {
      assert cs[3].property == "DATABASE_PASSWORD" && !cs[3].holds;
    }
  }

  /**
   * The section as loaded: accepted exactly when host, username and
   * password are set and not empty and the port is set. A loaded record
   * has non-empty strings; its port is whatever `parseInt` made of the
   * variable, `NaN` included.
   */
  function Load(env: Env, toNumber: string -> Option<int>): (r: Result<DatabaseConfig, seq<Violation>>)
    ensures r.Success? <==> Accepted(env)
    ensures r.Success? ==> r.value == FromEnv(env)
    ensures r.Success? ==> r.value.DATABASE_HOST != "" && r.value.DATABASE_USERNAME != ""
                           && r.value.DATABASE_PASSWORD != ""
    ensures r.Failure? ==> (Reports(r.error, "DATABASE_HOST") <==> !Present(env, "DATABASE_HOST"))
                           && (Reports(r.error, "DATABASE_PORT") <==> "DATABASE_PORT" !in env)
                           && (Reports(r.error, "DATABASE_USERNAME") <==> !Present(env, "DATABASE_USERNAME"))
                           && (Reports(r.error, "DATABASE_PASSWORD") <==> !Present(env, "DATABASE_PASSWORD"))
  {
    SchemaAccepts(env, toNumber);
    SchemaReports(env, toNumber);
    Gate(Schema(env, toNumber), FromEnv(env))
  }

  /** A set but non-numeric `DATABASE_PORT` passes validation and reaches the record as `NaN`. */
  lemma NonNumericPortLoads(env: Env, toNumber: string -> Option<int>)
    requires Accepted(env)
    requires forall k :: 0 <= k < |env["DATABASE_PORT"]| ==> !ParseInt.IsDigit(env["DATABASE_PORT"][k])
    ensures Load(env, toNumber).Success? && Load(env, toNumber).value.DATABASE_PORT.None?
  {
    ParseInt.NoDigitsIsNaN(env["DATABASE_PORT"]);
  }
}
