/**
 * The `database` configuration section with a database name and an SSL
 * flag (src/config/database/database.config.ts).
 */
module SslDatabaseSection {
  import opened Wrappers
  import opened Env
  import opened Constraints
  import ParseInt
  import DatabaseSection

  datatype DatabaseConfig = DatabaseConfig(
    DATABASE_HOST: string,
    DATABASE_PORT: Option<int>,
    DATABASE_NAME: string,
    DATABASE_USERNAME: string,
    DATABASE_PASSWORD: string,
    DATABASE_SSL: bool)

  /** `process.env.DATABASE_SSL === 'true'`: only the exact string `true` turns SSL on. */
  function SslFlag(v: Option<string>): (b: bool)
    ensures b <==> v == Some("true")
  {
    match v
    case Some(x) => x == "true"
    case None => false
  }

  /** The mapper: strings default to `''`, the port as in the four-field section, the SSL flag by `SslFlag`. */
  function FromEnv(env: Env): (c: DatabaseConfig)
    ensures Present(env, "DATABASE_HOST") ==> c.DATABASE_HOST == env["DATABASE_HOST"]
    ensures Present(env, "DATABASE_NAME") ==> c.DATABASE_NAME == env["DATABASE_NAME"]
    ensures Present(env, "DATABASE_USERNAME") ==> c.DATABASE_USERNAME == env["DATABASE_USERNAME"]
    ensures Present(env, "DATABASE_PASSWORD") ==> c.DATABASE_PASSWORD == env["DATABASE_PASSWORD"]
    ensures !Present(env, "DATABASE_HOST") ==> c.DATABASE_HOST == ""
    ensures !Present(env, "DATABASE_NAME") ==> c.DATABASE_NAME == ""
    ensures !Present(env, "DATABASE_USERNAME") ==> c.DATABASE_USERNAME == ""
    ensures !Present(env, "DATABASE_PASSWORD") ==> c.DATABASE_PASSWORD == ""
    ensures "DATABASE_PORT" in env ==> c.DATABASE_PORT == ParseInt.Parse(env["DATABASE_PORT"])
    ensures "DATABASE_PORT" !in env ==> c.DATABASE_PORT.None?
    ensures c.DATABASE_SSL <==> "DATABASE_SSL" in env && env["DATABASE_SSL"] == "true"
  {
    var host := StringVar(env, "DATABASE_HOST");
    var rawPort := Get(env, "DATABASE_PORT");
    assert rawPort.Some? ==> rawPort.value == env["DATABASE_PORT"];
    var port := DatabaseSection.ParsePort(rawPort);
    var name := StringVar(env, "DATABASE_NAME");
    var username := StringVar(env, "DATABASE_USERNAME");
    var password := StringVar(env, "DATABASE_PASSWORD");
    var ssl := SslFlag(Get(env, "DATABASE_SSL"));
    DatabaseConfig(host, port, name, username, password, ssl)
  }

  /** Every property carries `@IsNotEmpty()` and nothing else; checked on the raw environment. */
  function Schema(env: Env, toNumber: string -> Option<int>): seq<Constraint>
  {
    [ Constraint("DATABASE_HOST", "isNotEmpty", IsNotEmpty(Get(env, "DATABASE_HOST"))),
      Constraint("DATABASE_PORT", "isNotEmpty", NumberIsNotEmpty(AsNumber(Get(env, "DATABASE_PORT"), toNumber))),
      Constraint("DATABASE_NAME", "isNotEmpty", IsNotEmpty(Get(env, "DATABASE_NAME"))),
      Constraint("DATABASE_USERNAME", "isNotEmpty", IsNotEmpty(Get(env, "DATABASE_USERNAME"))),
      Constraint("DATABASE_PASSWORD", "isNotEmpty", IsNotEmpty(Get(env, "DATABASE_PASSWORD"))),
      Constraint("DATABASE_SSL", "isNotEmpty", BooleanIsNotEmpty(Get(env, "DATABASE_SSL"))) ]
  }

  /** The four strings set and not empty; the port and the SSL flag set to anything at all. */
  predicate Accepted(env: Env) {
    Present(env, "DATABASE_HOST") && "DATABASE_PORT" in env && Present(env, "DATABASE_NAME")
    && Present(env, "DATABASE_USERNAME") && Present(env, "DATABASE_PASSWORD") && "DATABASE_SSL" in env
  }

  lemma SchemaAccepts(env: Env, toNumber: string -> Option<int>)
    ensures AllHold(Schema(env, toNumber)) <==> Accepted(env)
  {
    var cs := Schema(env, toNumber);
    assert cs[0].holds && cs[1].holds && cs[2].holds && cs[3].holds && cs[4].holds && cs[5].holds
      <==> Accepted(env);
  }

  /** The property named by constraint `i` is reported exactly when that constraint fails. */
  lemma ReportsOwnConstraint(env: Env, toNumber: string -> Option<int>, i: nat)
    requires i < 6
    ensures Reports(Violations(Schema(env, toNumber)), Schema(env, toNumber)[i].property)
            <==> !Schema(env, toNumber)[i].holds
  {
    var cs := Schema(env, toNumber);
    ReportsIffFails(cs, cs[i].property);
    forall j | 0 <= j < |cs| && cs[j].property == cs[i].property
      ensures j == i
    {
    }
  }

  lemma SchemaReports(env: Env, toNumber: string -> Option<int>)
    ensures Reports(Violations(Schema(env, toNumber)), "DATABASE_HOST") <==> !Present(env, "DATABASE_HOST")
    ensures Reports(Violations(Schema(env, toNumber)), "DATABASE_PORT") <==> "DATABASE_PORT" !in env
    ensures Reports(Violations(Schema(env, toNumber)), "DATABASE_NAME") <==> !Present(env, "DATABASE_NAME")
    ensures Reports(Violations(Schema(env, toNumber)), "DATABASE_USERNAME") <==> !Present(env, "DATABASE_USERNAME")
    ensures Reports(Violations(Schema(env, toNumber)), "DATABASE_PASSWORD") <==> !Present(env, "DATABASE_PASSWORD")
    ensures Reports(Violations(Schema(env, toNumber)), "DATABASE_SSL") <==> "DATABASE_SSL" !in env
  {
    ReportsOwnConstraint(env, toNumber, 0);
    ReportsOwnConstraint(env, toNumber, 1);
    ReportsOwnConstraint(env, toNumber, 2);
    ReportsOwnConstraint(env, toNumber, 3);
    ReportsOwnConstraint(env, toNumber, 4);
    ReportsOwnConstraint(env, toNumber, 5);
  }

  /**
   * The section as loaded: accepted exactly when the four strings are set
   * and not empty and the port and SSL variables are set; a failure carries
   * every violation (which ones, `SchemaReports` says).
   */
  function Load(env: Env, toNumber: string -> Option<int>): (r: Result<DatabaseConfig, seq<Violation>>)
    ensures r.Success? <==> Accepted(env)
    ensures r.Success? ==> r.value == FromEnv(env)
    ensures r.Failure? ==> r.error == Violations(Schema(env, toNumber))
  {
    SchemaAccepts(env, toNumber);
    Gate(Schema(env, toNumber), FromEnv(env))
  }

  /** A loaded record has non-empty strings, and SSL is on exactly when `DATABASE_SSL` is `true`. */
  lemma LoadedRecord(env: Env, toNumber: string -> Option<int>)
    requires Load(env, toNumber).Success?
    ensures var c := Load(env, toNumber).value;
      && c.DATABASE_HOST == env["DATABASE_HOST"] != ""
      && c.DATABASE_NAME == env["DATABASE_NAME"] != ""
      && c.DATABASE_USERNAME == env["DATABASE_USERNAME"] != ""
      && c.DATABASE_PASSWORD == env["DATABASE_PASSWORD"] != ""
      && (c.DATABASE_SSL <==> env["DATABASE_SSL"] == "true")
  {
  }

  /** Any set value other than `true` (`TRUE`, `1`, `yes`, `''`) passes validation and loads with SSL off. */
  lemma SslOffUnlessTrue(env: Env, toNumber: string -> Option<int>)
    requires Accepted(env) && env["DATABASE_SSL"] != "true"
    ensures Load(env, toNumber).Success? && !Load(env, toNumber).value.DATABASE_SSL
  {
  }
}
