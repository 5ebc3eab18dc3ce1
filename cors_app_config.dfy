/**
 * The `app` configuration section with CORS support
 * (src/config/app/app.config.ts): `APP_NAME`, `APP_PORT` and the expanded
 * `APP_CORS_ORIGIN`.
 */
module CorsAppSection {
  import opened Wrappers
  import opened Env
  import opened Constraints
  import ParseInt
  import Cors

  datatype AppConfig = AppConfig(APP_NAME: Option<string>, APP_PORT: Option<int>, APP_CORS_ORIGIN: Cors.CorsOrigin)

  /** The mapper: the name as it is, the port through `parseInt(…, 10)`, the origin through `getCorsOrigin`. */
  function FromEnv(env: Env): (c: AppConfig)
    ensures c.APP_NAME.Some? <==> "APP_NAME" in env
    ensures c.APP_NAME.Some? ==> c.APP_NAME.value == env["APP_NAME"]
    ensures "APP_PORT" in env ==> c.APP_PORT == ParseInt.Parse(env["APP_PORT"])
    ensures "APP_PORT" !in env ==> c.APP_PORT.None?
    ensures "APP_CORS_ORIGIN" in env ==> c.APP_CORS_ORIGIN == Cors.ExpandCorsOrigin(Some(env["APP_CORS_ORIGIN"]))
    ensures "APP_CORS_ORIGIN" !in env ==> c.APP_CORS_ORIGIN == Cors.CorsFlag(false)
  {
    ParseInt.UndefinedIsNaN();
    AppConfig(
      Get(env, "APP_NAME"),
      ParseInt.Parse(ToJsString(Get(env, "APP_PORT"))),
      Cors.ExpandCorsOrigin(Get(env, "APP_CORS_ORIGIN")))
  }

  /**
   * The decorators of this `AppConfig` class, evaluated on the raw
   * environment. `APP_CORS_ORIGIN` carries only `@IsOptional()`, so no
   * constraint of its own.
   */
  function Schema(env: Env, toNumber: string -> Option<int>): seq<Constraint>
  {
    var name := Get(env, "APP_NAME");
    var port := AsNumber(Get(env, "APP_PORT"), toNumber);
    [ Constraint("APP_NAME", "isNotEmpty", IsNotEmpty(name)),
      Constraint("APP_PORT", "isInt", IsInt(port)),
      Constraint("APP_PORT", "min", Min(port, 0)),
      Constraint("APP_PORT", "max", Max(port, 65535)),
      Constraint("APP_PORT", "isNotEmpty", NumberIsNotEmpty(port)) ]
  }

  /** `APP_PORT` is set and converts to a valid port number. */
  predicate PortAccepted(env: Env, toNumber: string -> Option<int>) {
    "APP_PORT" in env && ValidPort(toNumber(env["APP_PORT"]))
  }

  /** The schema accepts an environment exactly when its name and its port are accepted. */
  lemma SchemaAccepts(env: Env, toNumber: string -> Option<int>)
    ensures AllHold(Schema(env, toNumber)) <==> Present(env, "APP_NAME") && PortAccepted(env, toNumber)
  {
    var cs := Schema(env, toNumber);
    var port := AsNumber(Get(env, "APP_PORT"), toNumber);
    PortRules(port);
    assert cs[0].holds <==> Present(env, "APP_NAME");
    assert cs[1].holds && cs[2].holds && cs[3].holds <==> PortAccepted(env, toNumber);
  }

  /** Name and port are reported exactly when not accepted; the CORS origin never is. */
  lemma SchemaReports(env: Env, toNumber: string -> Option<int>)
    ensures Reports(Violations(Schema(env, toNumber)), "APP_NAME") <==> !Present(env, "APP_NAME")
    ensures Reports(Violations(Schema(env, toNumber)), "APP_PORT") <==> !PortAccepted(env, toNumber)
    ensures !Reports(Violations(Schema(env, toNumber)), "APP_CORS_ORIGIN")
  {
    var cs := Schema(env, toNumber);
    var port := AsNumber(Get(env, "APP_PORT"), toNumber);
    PortRules(port);
    ReportsIffFails(cs, "APP_NAME");
    ReportsIffFails(cs, "APP_PORT");
    ReportsIffFails(cs, "APP_CORS_ORIGIN");
    if !Present(env, "APP_NAME") {
      assert cs[0].property == "APP_NAME" && !cs[0].holds;
    }
    if !PortAccepted(env, toNumber) {
      var i := if !IsInt(port) then 1 else if !Min(port, 0) then 2 else 3;
      assert cs[i].property == "APP_PORT" && !cs[i].holds;
    }
  }

  /**
   * The section as loaded. Acceptance depends on `APP_NAME` and `APP_PORT`
   * only; whatever `APP_CORS_ORIGIN` holds, it is expanded and never rejected.
   */
  function Load(env: Env, toNumber: string -> Option<int>): (r: Result<AppConfig, seq<Violation>>)
    ensures r.Success? <==> Present(env, "APP_NAME") && PortAccepted(env, toNumber)
    ensures r.Success? ==> r.value == FromEnv(env)
    ensures r.Success? ==> r.value.APP_CORS_ORIGIN == Cors.ExpandCorsOrigin(Get(env, "APP_CORS_ORIGIN"))
    ensures r.Failure? ==> (Reports(r.error, "APP_NAME") <==> !Present(env, "APP_NAME"))
                           && (Reports(r.error, "APP_PORT") <==> !PortAccepted(env, toNumber))
                           && !Reports(r.error, "APP_CORS_ORIGIN")
  {
    SchemaAccepts(env, toNumber);
    SchemaReports(env, toNumber);
    Gate(Schema(env, toNumber), FromEnv(env))
  }

  /** Setting, changing or removing `APP_CORS_ORIGIN` never changes whether the section loads. */
  lemma CorsOriginNeverRejects(env: Env, toNumber: string -> Option<int>, origin: Option<string>)
    ensures var env' := if origin.Some? then env["APP_CORS_ORIGIN" := origin.value] else env - {"APP_CORS_ORIGIN"};
      Load(env', toNumber).Success? == Load(env, toNumber).Success?
  {
    var env' := if origin.Some? then env["APP_CORS_ORIGIN" := origin.value] else env - {"APP_CORS_ORIGIN"};
    assert "APP_NAME" in env' <==> "APP_NAME" in env;
    assert "APP_PORT" in env' <==> "APP_PORT" in env;
    assert "APP_NAME" in env ==> env'["APP_NAME"] == env["APP_NAME"];
    assert "APP_PORT" in env ==> env'["APP_PORT"] == env["APP_PORT"];
  }
}
