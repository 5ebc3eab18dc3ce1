/**
 * The `app` configuration section that the application module loads
 * (src/config/app.config.ts): `PORT` and `APP_NAME`.
 */
module AppSection {
  import opened Wrappers
  import opened Env
  import opened Constraints
  import ParseInt

  /** The name the section is registered under: its fields are read as `app.PORT`, `app.APP_NAME`. */
  const ConfigPrefix := "app"

  datatype AppConfig = AppConfig(PORT: Option<int>, APP_NAME: Option<string>)

  /** The mapper: `PORT` through `parseInt(…, 10)`, `APP_NAME` copied as it is. */
  function FromEnv(env: Env): (c: AppConfig)
    ensures "PORT" in env ==> c.PORT == ParseInt.Parse(env["PORT"])
    ensures "PORT" !in env ==> c.PORT.None?
    ensures c.APP_NAME.Some? <==> "APP_NAME" in env
    ensures c.APP_NAME.Some? ==> c.APP_NAME.value == env["APP_NAME"]
  {
    ParseInt.UndefinedIsNaN();
    AppConfig(ParseInt.Parse(ToJsString(Get(env, "PORT"))), Get(env, "APP_NAME"))
  }

  /** The decorators of the `AppConfig` class, evaluated on the raw environment. */
  function Schema(env: Env, toNumber: string -> Option<int>): seq<Constraint>
  {
    var port := AsNumber(Get(env, "PORT"), toNumber);
    var name := Get(env, "APP_NAME");
    [ Constraint("PORT", "isInt", IsInt(port)),
      Constraint("PORT", "min", Min(port, 0)),
      Constraint("PORT", "max", Max(port, 65535)),
      Constraint("PORT", "isNotEmpty", NumberIsNotEmpty(port)),
      Constraint("APP_NAME", "isNotEmpty", IsNotEmpty(name)) ]
  }

  /** `PORT` is set and converts to a valid port number. */
  predicate PortAccepted(env: Env, toNumber: string -> Option<int>) {
    "PORT" in env && ValidPort(toNumber(env["PORT"]))
  }

  /** The schema accepts an environment exactly when its port and its name are accepted. */
  lemma SchemaAccepts(env: Env, toNumber: string -> Option<int>)
    ensures AllHold(Schema(env, toNumber)) <==> PortAccepted(env, toNumber) && Present(env, "APP_NAME")
  {
    var cs := Schema(env, toNumber);
    var port := AsNumber(Get(env, "PORT"), toNumber);
    PortRules(port);
    assert cs[0].holds && cs[1].holds && cs[2].holds <==> PortAccepted(env, toNumber);
    assert cs[4].holds <==> Present(env, "APP_NAME");
  }

  /** A failed check reports `PORT` exactly when the port is not accepted, `APP_NAME` exactly when the name is not. */
  lemma SchemaReports(env: Env, toNumber: string -> Option<int>)
    ensures Reports(Violations(Schema(env, toNumber)), "PORT") <==> !PortAccepted(env, toNumber)
    ensures Reports(Violations(Schema(env, toNumber)), "APP_NAME") <==> !Present(env, "APP_NAME")
  {
    var cs := Schema(env, toNumber);
    var port := AsNumber(Get(env, "PORT"), toNumber);
    PortRules(port);
    ReportsIffFails(cs, "PORT");
    ReportsIffFails(cs, "APP_NAME");
    if !PortAccepted(env, toNumber) {
      var i := if !IsInt(port) then 0 else if !Min(port, 0) then 1 else 2;
      assert cs[i].property == "PORT" && !cs[i].holds;
    }
    if !Present(env, "APP_NAME") {
      assert cs[4].property == "APP_NAME" && !cs[4].holds;
    }
  }

  /**
   * The section as loaded: the raw environment is validated first; when
   * every constraint holds the mapped record is returned, otherwise every
   * violation, naming each variable that failed.
   */
  function Load(env: Env, toNumber: string -> Option<int>): (r: Result<AppConfig, seq<Violation>>)
    ensures r.Success? <==> PortAccepted(env, toNumber) && Present(env, "APP_NAME")
    ensures r.Success? ==> r.value == FromEnv(env)
    ensures r.Success? ==> r.value.APP_NAME.Some? && r.value.APP_NAME.value != ""
    ensures r.Failure? ==> (Reports(r.error, "PORT") <==> !PortAccepted(env, toNumber))
                           && (Reports(r.error, "APP_NAME") <==> !Present(env, "APP_NAME"))
  {
    SchemaAccepts(env, toNumber);
    SchemaReports(env, toNumber);
    Gate(Schema(env, toNumber), FromEnv(env))
  }

  /**
   * The validator checks the converted raw variable, the record carries
   * `parseInt` of it: a loaded port is a valid port number whenever the two
   * conversions agree on the value of `PORT`.
   */
  lemma LoadedPortIsValid(env: Env, toNumber: string -> Option<int>)
    requires Load(env, toNumber).Success?
    requires "PORT" in env ==> toNumber(env["PORT"]) == ParseInt.Parse(env["PORT"])
    ensures ValidPort(Load(env, toNumber).value.PORT)
  {
  }

  /**
   * The precondition above is needed: a conversion that reads an empty
   * `PORT` as 0 (as `Number("")` does) accepts it, while the mapper's
   * `parseInt("")` is `NaN`, so the section loads without a port.
   */
  lemma EmptyPortLoadsWithoutPort(toNumber: string -> Option<int>)
    requires toNumber("") == Some(0)
    ensures var env := map["PORT" := "", "APP_NAME" := "app"];
      Load(env, toNumber).Success? && Load(env, toNumber).value.PORT.None?
  {
    var env := map["PORT" := "", "APP_NAME" := "app"];
    assert PortAccepted(env, toNumber) && Present(env, "APP_NAME");
    ParseInt.NoDigitsIsNaN("");
  }
}
