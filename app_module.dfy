/**
 * The root module's configuration wiring (`AppModule.forRoot` in
 * src/app.module.ts) and what bootstrap takes from it: the global
 * configuration and the port to listen on (src/main.ts, src/config/config.type.ts).
 */
module AppModule {
  import opened Wrappers
  import opened Env
  import opened JsString
  import opened Constraints
  import opened Environments
  import AppSection
  import DatabaseSection
  import ParseInt

  /** The configuration factories `ConfigModule` runs at start-up. */
  datatype ConfigLoader = AppConfigLoader | DatabaseConfigLoader

  /** The options `forRoot` hands to `ConfigModule.forRoot`. */
  datatype ConfigModuleOptions = ConfigModuleOptions(
    isGlobal: bool,
    load: seq<ConfigLoader>,
    envFilePath: seq<string>,
    ignoreEnvFile: bool)

  /**
   * The namespace a loader registers its section under (the section's
   * `CONFIG_PREFIX`): bootstrap reads `app.PORT`.
   */
  function Namespace(loader: ConfigLoader): string {
    match loader
    case AppConfigLoader => AppSection.ConfigPrefix
    case DatabaseConfigLoader => DatabaseSection.ConfigPrefix
  }

  const EnvRoot := "./env/"

  /** `./env/<directory>/<file>`. */
  function EnvFile(directory: string, file: string): string {
    EnvRoot + directory + "/" + file
  }

  /** The inverse of `EnvFile`: the directory and file of a path under `./env/`. */
  function ParseEnvFile(path: string): (r: Option<(string, string)>)
    ensures r.Some? ==> path == EnvFile(r.value.0, r.value.1)
    ensures r.Some? ==> forall k :: 0 <= k < |r.value.0| ==> r.value.0[k] != '/'
  {
    if !StartsWith(path, EnvRoot) then None
    else
      var rest := path[|EnvRoot|..];
      match IndexOf(rest, "/")
      case None => None
      case Some(i) =>
        assert rest == rest[..i] + "/" + rest[i + 1..];
        forall k | 0 <= k < i ensures rest[..i][k] != '/' {
          assert !StartsWith(rest[k..], "/");
          assert rest[k..][..1] == [rest[k]];
        }
        Some((rest[..i], rest[i + 1..]))
  }

  /** The first `/` of `directory + "/" + file` is the one after a slash-free directory. */
  lemma {:induction false} FirstSlash(directory: string, file: string)
    requires forall k :: 0 <= k < |directory| ==> directory[k] != '/'
    ensures IndexOf(directory + "/" + file, "/") == Some(|directory|)
  {
    var s := directory + "/" + file;
    assert s[|directory|..][..1] == "/";
    forall k | 0 <= k < |directory| ensures !StartsWith(s[k..], "/") {
      assert s[k..][..1] == [directory[k]];
    }
  }

  /** A slash-free directory and any file name survive the round trip through a path. */
  lemma EnvFileRoundTrip(directory: string, file: string)
    requires forall k :: 0 <= k < |directory| ==> directory[k] != '/'
    ensures ParseEnvFile(EnvFile(directory, file)) == Some((directory, file))
  {
    var path := EnvFile(directory, file);
    assert path[..|EnvRoot|] == EnvRoot;
    var rest := directory + "/" + file;
    assert path[|EnvRoot|..] == rest;
    FirstSlash(directory, file);
    assert rest[..|directory|] == directory;
    assert rest[|directory| + 1..] == file;
  }

  /** `AppModule.forRoot(env)`: global config, app then database loader, two files of the environment's directory. */
  function ForRoot(env: Environment): (o: ConfigModuleOptions)
    ensures o.isGlobal
    ensures o.load == [AppConfigLoader, DatabaseConfigLoader]
    ensures |o.envFilePath| == 2
    ensures ParseEnvFile(o.envFilePath[0]) == Some((Name(env), "common.env"))
    ensures ParseEnvFile(o.envFilePath[1]) == Some((Name(env), "database.env"))
    ensures o.ignoreEnvFile <==> env == Production
  {
    EnvFileRoundTrip(Name(env), "common.env");
    EnvFileRoundTrip(Name(env), "database.env");
    ConfigModuleOptions(
      true,
      [AppConfigLoader, DatabaseConfigLoader],
      [EnvFile(Name(env), "common.env"), EnvFile(Name(env), "database.env")],
      env == Production)
  }

  /**
   * The loaders of `forRoot` register the namespaces `app` and `database`,
   * one each, the names of `GlobalConfig`'s two fields.
   */
  lemma ForRootNamespaces(env: Environment)
    ensures var load := ForRoot(env).load;
      |load| == 2 && Namespace(load[0]) == "app" && Namespace(load[1]) == "database"
      && Namespace(load[0]) != Namespace(load[1])
  {
  }

  /** Bootstrap's module options: `forRoot(env())`. */
  function StartupOptions(nodeEnv: Option<string>): ConfigModuleOptions {
    ForRoot(SelectEnv(nodeEnv))
  }

  /** Whatever `NODE_ENV` holds, both env files lie in the directory of a known environment. */
  lemma StartupFilesNameKnownEnvironment(nodeEnv: Option<string>)
    ensures forall path :: path in StartupOptions(nodeEnv).envFilePath ==>
      ParseEnvFile(path).Some? && FromName(ParseEnvFile(path).value.0).Some?
  {
    var e := SelectEnv(nodeEnv);
    FromNameName(e);
  }

  /** Env files are read everywhere but in production, whatever `NODE_ENV` holds. */
  lemma StartupIgnoresEnvFileOnlyInProduction(nodeEnv: Option<string>)
    ensures StartupOptions(nodeEnv).ignoreEnvFile <==> nodeEnv == Some("production")
  {
    FromNameName(Production);
    assert Name(Production) == "production";
  }

  /** `GlobalConfig`: the two sections, under the names `app` and `database`. */
  datatype GlobalConfig = GlobalConfig(app: AppSection.AppConfig, database: DatabaseSection.DatabaseConfig)

  /**
   * The loaders run in the order of `load`: the app section first; a
   * failing section aborts start-up with its violations, so the database
   * section is reached only when the app section loads.
   */
  function LoadGlobal(env: Env, toNumber: string -> Option<int>): (r: Result<GlobalConfig, seq<Violation>>)
    ensures r.Success? <==> AppSection.Load(env, toNumber).Success? && DatabaseSection.Load(env, toNumber).Success?
    ensures r.Success? ==> r.value == GlobalConfig(AppSection.FromEnv(env), DatabaseSection.FromEnv(env))
    ensures AppSection.Load(env, toNumber).Failure? ==> r == Failure(AppSection.Load(env, toNumber).error)
    ensures AppSection.Load(env, toNumber).Success? && DatabaseSection.Load(env, toNumber).Failure? ==>
      r == Failure(DatabaseSection.Load(env, toNumber).error)
  {
    match AppSection.Load(env, toNumber)
    case Failure(vs) => Failure(vs)
    case Success(app) =>
      match DatabaseSection.Load(env, toNumber)
      case Failure(vs) => Failure(vs)
      case Success(database) => Success(GlobalConfig(app, database))
  }

  /** `configService.getOrThrow('app.PORT')`: the port bootstrap listens on. */
  function ListenPort(g: GlobalConfig): Option<int> {
    g.app.PORT
  }

  /**
   * When the validator's number conversion agrees with `parseInt` on
   * `PORT`, a configuration that loads yields a valid port to listen on.
   */
  lemma ListenPortIsValid(env: Env, toNumber: string -> Option<int>)
    requires LoadGlobal(env, toNumber).Success?
    requires "PORT" in env ==> toNumber(env["PORT"]) == ParseInt.Parse(env["PORT"])
    ensures ValidPort(ListenPort(LoadGlobal(env, toNumber).value))
  {
    AppSection.LoadedPortIsValid(env, toNumber);
  }
}
