# Configuration, CORS expansion and DTO boundary of ultimate-nestjs

This project models the logic of a small NestJS/TypeORM user service that
sits between raw state and typed values:

- **CORS origin expansion** (`getCorsOrigin`). A raw `APP_CORS_ORIGIN`
  string becomes `true`, `false`, `"*"` or a duplicate-free list. Each
  trimmed comma-separated token adds itself, its `http://127.0.0.1` form and
  its `https://www.` form, in insertion order. The source builds the list
  with a loop that mutates a `Set`. It is modelled as a `method` with a
  loop invariant, proved against a specification function. A JS `Set` is
  a `seq` that ignores repeated insertions.
- **Configuration sections**. There are four env→record mappers: `app`
  twice and `database` twice. Each comes with its class-validator schema
  and with the validate-then-map gate of `createConfigLoader`. `parseInt`
  follows section 19.2.5 of ECMA-262 with radix 10. `NaN` is `None`.
- **Environment selection and module wiring**: `env()` and
  `AppModule.forRoot`, the config files they point at, and the port
  bootstrap listens on.
- **Entity→DTO interceptor**: projection of a value, or element-wise of
  an array, onto a DTO class that excludes fields (`UserDto` drops
  `isActive`).
- **Create-user validators**: `CreateUserDto` and `CreateBulkUserDto`.

Modules:

| file | contents |
|---|---|
| wrappers.dfy | `Option`, `Result` |
| js_string.dfy | `JsString`: `startsWith`, `indexOf`, `includes`, first-occurrence `replace`, `split`, `trim` |
| parse_int.dfy | `ParseInt`: `parseInt(s, 10)` and `String(n)` |
| env.dfy | `Env`: the environment snapshot, `\|\| ''`, `String(undefined)` |
| constraints.dfy | `Constraints`: constraint lists, the validation gate, the class-validator rules used |
| cors.dfy | `Cors`: `getCorsOrigin` |
| app_config.dfy, cors_app_config.dfy | the two `app` sections |
| database_config.dfy, ssl_database_config.dfy | the two `database` sections |
| environment.dfy | `Environments`: `env()` |
| app_module.dfy | `AppModule`: `forRoot`, global configuration, listen port |
| js_value.dfy | `JsValue`: plain JavaScript values |
| entity_to_dto.dfy | `EntityToDto`: the interceptor |
| create_user_dto.dfy | `CreateUser`: the request validators |

Three facts about the code shape the model:

- **Empty CORS tokens are kept.** `split(',').map((o) => o.trim())`
  never filters, so `"a,,b"` and `" "` list `""`
  (`Cors.TokenPresent`, `Cors.WhiteSpaceOnlyListsEmptyOrigin`).
- **The CORS list is in insertion order.** `Array.from` of a `Set`
  iterates in insertion order, so the model proves that order
  (`Cors.CorsListSpec`).
- **Validation reads the raw environment.** `createConfigLoader` validates
  `process.env`, not the mapped record (src/config/utils/create-config.ts:10).
  So the schemas are evaluated on the raw variables. The mapper's output
  is returned unchecked.

## Model

| member | source | states |
|---|---|---|
| Cors.ExpandCorsOrigin | src/config/app/app.config.ts:32-60 | The value `getCorsOrigin` returns. It is `true` iff the input is `"true"`, and `false` iff the input is `undefined`, `""` or `"false"`. It is the wildcard iff the input is `"*"`, and a list iff the input is none of these literals. |
| Cors.GetCorsOrigin | src/config/app/app.config.ts:32-60 | `"true"` gives `true`. `undefined`, `""` and `"false"` give `false`. `"*"` gives the wildcard. No input is trimmed before these checks. Any other input gives the list that inserting the candidates of the trimmed tokens into an insertion-ordered set produces. The loop invariant: after `i` tokens, the set holds what inserting the candidates of those `i` tokens produces. |
| Cors.AddOrigin | src/config/app/app.config.ts:44-57 | One pass of the `forEach` callback. It inserts the token, then its loopback form if it starts with `http://localhost`, then its `www.` form if it starts with `https://` and lacks `://www.`. The new set equals the old set with the token's expansions inserted. |
| Cors.Candidates | src/config/app/app.config.ts:44-57 | A string is among the inserted candidates iff some token expands to it. |
| Cors.InsertAllSpec | src/config/app/app.config.ts:42-59 | Inserting a sequence into an initially empty insertion-ordered set gives a list with no duplicates. It holds exactly the inserted strings. Any two of them appear in the order of their first insertion. |
| Cors.CorsListSpec | src/config/app/app.config.ts:39-59 | For non-literal input the result is a list. It has no duplicates and lists exactly the expansions of the trimmed tokens, in order of first insertion. |
| Cors.CorsListMembers | src/config/app/app.config.ts:44-59 | A string is listed iff some token brings it in. |
| Cors.TokenPresent | src/config/app/app.config.ts:39-45 | Every comma-separated piece, trimmed, is listed. Empty pieces are included. |
| Cors.LoopbackFormPresent | src/config/app/app.config.ts:48-50 | A token starting with `http://localhost` also lists `http://127.0.0.1` followed by the rest of the token. |
| Cors.WwwFormPresent | src/config/app/app.config.ts:54-56 | A token starting with `https://` that does not contain `://www.` also lists `https://www.` followed by the rest of the token. |
| Cors.WwwOriginAlone | src/config/app/app.config.ts:54 | An `https://` token that already contains `://www.` contributes only itself. |
| Cors.PlainOrigin | src/config/app/app.config.ts:45-54 | A token that starts with neither prefix contributes only itself. |
| Cors.ExpansionsInclude | src/config/app/app.config.ts:45-56 | A token's expansions include the token itself and, when the guards hold, its loopback and `www.` forms. |
| Cors.WhiteSpaceOnlyListsEmptyOrigin | src/config/app/app.config.ts:35-39 | Non-empty input made only of white space passes the literal checks and lists `""`. |
| JsString.IndexOf | src/config/app/app.config.ts:54 | The result is the first position where the pattern occurs, or none if it occurs nowhere. |
| JsString.ReplaceFirst | src/config/app/app.config.ts:49 | A string that does not contain the pattern is unchanged. A string that starts with it has exactly that prefix replaced. |
| JsString.Split | src/config/app/app.config.ts:39 | There is at least one piece, and no piece contains the separator. |
| JsString.JoinSplit | src/config/app/app.config.ts:39 | Joining the pieces with the separator gives back the input. |
| JsString.SplitWithoutSeparator | src/config/app/app.config.ts:39 | A string without the separator splits into itself alone. |
| JsString.Trim | src/config/app/app.config.ts:39 | The result is a contiguous piece of the input, with only white space on either side. It neither starts nor ends with white space. |
| JsString.TrimIdempotent | src/config/app/app.config.ts:39 | Trimming twice is trimming once. |
| JsString.TrimAllWhiteSpace | src/config/app/app.config.ts:39 | A string of white space trims to `""`. |
| JsString.TrimUnpadded | src/config/app/app.config.ts:39 | A string with no white space at either end is its own trim. |
| ParseInt.Parse | src/config/app.config.ts:20 | After leading white space and an optional sign, the result is `NaN` iff no digit follows. Otherwise its magnitude is the value of the leading digits, negated after `-`. |
| ParseInt.LeadingDigits | src/config/app.config.ts:20 | The result is the longest all-digit prefix. |
| ParseInt.ParseIntToString | src/config/app.config.ts:20 | `parseInt` reads back the decimal numeral of any integer. It ignores whatever follows the numeral from the first non-digit on. |
| ParseInt.ParseSkipsWhiteSpace | src/config/app.config.ts:20 | Leading white space does not change the result. |
| ParseInt.NoDigitsIsNaN | src/config/database.config.ts:21 | A string with no digit parses to `NaN`, the empty string included. |
| ParseInt.UndefinedIsNaN | src/config/app.config.ts:20 | `parseInt(undefined, 10)` is `NaN`. |
| Env.OrEmpty | src/config/database.config.ts:20 | `v \|\| ''` is empty exactly when `v` is `undefined` or `''`, and is `v` otherwise. |
| Env.StringVar | src/config/database.config.ts:20 | An unset variable reads as `''`, a set one as its value. |
| Constraints.NumberRulesOnMissingValues | src/config/app.config.ts:8-11 | On an unset variable `@IsInt()`, `@Min`, `@Max` and `@IsNotEmpty()` all fail. On `NaN` the first three fail and `@IsNotEmpty()` holds. |
| Constraints.NumberRulesOnIntegers | src/config/app.config.ts:8-11 | On an integer `@IsInt()` and `@IsNotEmpty()` hold. `@Min(m)` holds iff it is at least `m`, and `@Max(m)` iff it is at most `m`. |
| Constraints.BooleanRules | src/config/database/database.config.ts:18-19 | `@IsNotEmpty()` on the boolean `DATABASE_SSL` fails iff the variable is unset. `""` and `"false"` pass. |
| Constraints.PortRules | src/config/app.config.ts:8-11 | `@IsInt() @Min(0) @Max(65535)` together hold iff the variable is set and converts to an integer in 0..65535. |
| Constraints.Violations | src/config/utils/create-config.ts:10 | Every failing constraint is reported, and only those. The list is empty iff all constraints hold. |
| Constraints.Gate | src/config/utils/create-config.ts:10-13 | The mapped value is returned iff every constraint holds. Otherwise the failure carries the non-empty list of all violations. |
| Constraints.ReportsIffFails | src/config/utils/create-config.ts:10 | A property is reported iff one of its own constraints fails. |
| AppSection.FromEnv | src/config/app.config.ts:18-23 | `PORT` is `parseInt` of the variable, and `NaN` when the variable is unset. `APP_NAME` is the variable as it is. |
| AppSection.SchemaAccepts | src/config/app.config.ts:7-16 | The schema holds iff `PORT` converts to an integer in 0..65535 and `APP_NAME` is set and not empty. |
| AppSection.SchemaReports | src/config/app.config.ts:7-16 | `PORT` is reported iff it is not accepted. `APP_NAME` is reported iff it is not accepted. |
| AppSection.Load | src/config/app.config.ts:7-23 | The section loads iff port and name are accepted, and then it is the mapped record. On failure each field is reported iff it was rejected. |
| AppSection.LoadedPortIsValid | src/config/app.config.ts:8-20 | When the validator's conversion agrees with `parseInt` on `PORT`, a loaded port is a valid port number. |
| AppSection.EmptyPortLoadsWithoutPort | src/config/app.config.ts:8-20 | A conversion that reads `""` as 0 accepts an empty `PORT`, and the section then loads with `PORT` as `NaN`. |
| CorsAppSection.FromEnv | src/config/app/app.config.ts:21-27 | The name is copied and the port parsed. The origin is `getCorsOrigin` of the variable when it is set, and `false` when it is unset. |
| CorsAppSection.SchemaAccepts | src/config/app/app.config.ts:7-19 | The schema holds iff `APP_NAME` is set and not empty and `APP_PORT` converts to an integer in 0..65535. |
| CorsAppSection.SchemaReports | src/config/app/app.config.ts:7-19 | Name and port are reported iff rejected. `APP_CORS_ORIGIN` is never reported. |
| CorsAppSection.Load | src/config/app/app.config.ts:7-27 | The section loads iff name and port are accepted. The loaded origin is the expanded CORS value. On failure the violations name exactly the rejected fields. |
| CorsAppSection.CorsOriginNeverRejects | src/config/app/app.config.ts:17-18 | Setting, changing or removing `APP_CORS_ORIGIN` never changes whether the section loads. |
| DatabaseSection.ParsePort | src/config/database.config.ts:21 | `parseInt(v \|\| '', 10)` is `parseInt` of the value, and `NaN` when the variable is unset. |
| DatabaseSection.FromEnv | src/config/database.config.ts:18-25 | Each string is the variable if it is set and not empty, and `''` otherwise. The port is parsed. |
| DatabaseSection.SchemaAccepts | src/config/database.config.ts:7-16 | The schema holds iff host, username and password are set and not empty and the port is set to any value. |
| DatabaseSection.SchemaReports | src/config/database.config.ts:7-16 | Each string is reported iff it is unset or empty. The port is reported iff it is unset. |
| DatabaseSection.Load | src/config/database.config.ts:7-25 | The section loads iff accepted, and then the strings are not empty. On failure each field is reported iff it was rejected. |
| DatabaseSection.NonNumericPortLoads | src/config/database.config.ts:11-21 | A set but digit-free port passes validation and loads as `NaN`. |
| SslDatabaseSection.SslFlag | src/config/database/database.config.ts:29 | SSL is on iff the variable is exactly `"true"`. |
| SslDatabaseSection.FromEnv | src/config/database/database.config.ts:22-31 | The strings default to `''` and the port is parsed. SSL is on iff `DATABASE_SSL` is `"true"`. |
| SslDatabaseSection.SchemaAccepts | src/config/database/database.config.ts:7-20 | The schema holds iff the four strings are set and not empty and the port and SSL variables are set. |
| SslDatabaseSection.ReportsOwnConstraint | src/config/database/database.config.ts:7-20 | Each property has exactly one constraint. It is reported iff that constraint fails. |
| SslDatabaseSection.SchemaReports | src/config/database/database.config.ts:7-20 | Each string is reported iff it is unset or empty. Port and SSL are reported iff unset. |
| SslDatabaseSection.Load | src/config/database/database.config.ts:7-31 | The section loads iff accepted, and then it is the mapped record. A failure carries all violations. |
| SslDatabaseSection.LoadedRecord | src/config/database/database.config.ts:22-31 | A loaded record has the variables' non-empty strings, and SSL is on iff `DATABASE_SSL` is `"true"`. |
| SslDatabaseSection.SslOffUnlessTrue | src/config/database/database.config.ts:29 | Any set value other than `"true"` passes validation and loads with SSL off. |
| Environments.Name | src/main.ts:9 | Every enum value is a non-empty string without `/`. |
| Environments.FromName | src/main.ts:9 | The membership test finds the member whose value it is, or reports that there is none. |
| Environments.FromNameName | src/main.ts:9 | Every member is found again from its value. |
| Environments.SelectEnv | src/main.ts:8-16 | A known `NODE_ENV` is kept. Anything else becomes `Local`, including unset and `''`. |
| Environments.SelectKnown | src/main.ts:15 | The value of a known environment selects that environment. |
| Environments.SelectIdempotent | src/main.ts:8-16 | Selecting again from the selected environment's value returns the same environment. |
| AppModule.ParseEnvFile | src/app.module.ts:21 | A parsed path is rebuilt from its directory and file, and the directory holds no `/`. |
| AppModule.FirstSlash | src/app.module.ts:21 | The first `/` after a slash-free directory is the one that ends it. |
| AppModule.EnvFileRoundTrip | src/app.module.ts:21 | A slash-free directory and a file name survive the round trip through a path. |
| AppModule.ForRoot | src/app.module.ts:14-30 | The options are global and load the app section, then the database section. The two files are `common.env` and `database.env` in the environment's own directory. `ignoreEnvFile` is true iff the environment is `Production`. |
| AppModule.ForRootNamespaces | src/app.module.ts:20 | The two loaders register the namespaces `app` and `database`, one each: the `CONFIG_PREFIX` of each section, and the names bootstrap reads, as in `app.PORT`. |
| AppModule.StartupFilesNameKnownEnvironment | src/main.ts:19 | For any `NODE_ENV`, both env files lie in a known environment's directory. |
| AppModule.StartupIgnoresEnvFileOnlyInProduction | src/app.module.ts:26 | Env files are skipped iff `NODE_ENV` is exactly `"production"`. |
| AppModule.LoadGlobal | src/app.module.ts:20 | Start-up configuration succeeds iff both sections load, and then holds both mapped records. An app-section failure is the failure reported. When the app section loads, a database-section failure is the failure reported. |
| AppModule.ListenPortIsValid | src/main.ts:26 | When the validator's conversion agrees with `parseInt` on `PORT`, a configuration that loads yields a valid port to listen on. |
| EntityToDto.Project | src/interceptors/entity-to-dto.interceptor.ts:14-16 | An object keeps exactly its non-excluded fields, with their values. An array is projected element by element, keeping its length. Any other value is returned as it is. |
| EntityToDto.ProjectStrips | src/interceptors/entity-to-dto.interceptor.ts:14-16 | No object the projection reaches carries an excluded field: the value itself if it is an object, and every object inside arrays at any depth. |
| EntityToDto.InterceptIsProject | src/interceptors/entity-to-dto.interceptor.ts:10-19 | Intercepting any value, array or not, gives the same result as projecting it. |
| EntityToDto.EntityToDtoInterceptor.ProjectAll | src/interceptors/entity-to-dto.interceptor.ts:14 | The result has the same length, and element `i` is the projection of element `i`. |
| EntityToDto.EntityToDtoInterceptor.Intercept | src/interceptors/entity-to-dto.interceptor.ts:10-19 | An array maps element-wise, preserving length and order. Any other value is projected once, with the DTO fixed at construction. |
| EntityToDto.ExcludedFieldsAbsent | src/interceptors/entity-to-dto.interceptor.ts:13-16 | No excluded field is left on the returned object, nor on any object inside returned arrays at any depth. Fields of objects nested inside objects are not covered. |
| EntityToDto.OtherFieldsKept | src/interceptors/entity-to-dto.interceptor.ts:16 | A field the DTO does not exclude keeps its value. |
| EntityToDto.ProjectIdempotent | src/interceptors/entity-to-dto.interceptor.ts:16 | Projecting twice is projecting once. |
| EntityToDto.InterceptIdempotent | src/interceptors/entity-to-dto.interceptor.ts:13-16 | Intercepting an intercepted value changes nothing. |
| EntityToDto.NothingExcludedKeepsValue | src/interceptors/entity-to-dto.interceptor.ts:16 | A DTO that excludes nothing projects every value onto itself. |
| EntityToDto.NothingExcludedIsIdentity | src/interceptors/entity-to-dto.interceptor.ts:13-16 | A DTO that excludes nothing passes every value through unchanged. |
| EntityToDto.ProjectAllAppend | src/interceptors/entity-to-dto.interceptor.ts:14 | The projection of a concatenation is the concatenation of the projections. |
| EntityToDto.UserProjection | src/modules/user/dto/user.dto.ts:4-10 | A user projected onto `UserDto` keeps exactly `id`, `firstName` and `lastName`, and loses `isActive`. |
| CreateUser.EmptyValues | src/modules/user/models/create-user.dto.ts:6-16 | `@IsNotEmpty()` holds on `false`, `0`, `[]` and `{}`. It fails on `''`, `null` and `undefined`. |
| CreateUser.FieldRules | src/modules/user/models/create-user.dto.ts:6-16 | A value that passes `@IsBoolean()` is never empty. `@IsString()` and `@IsNotEmpty()` together hold iff the value is a string with at least one character. |
| CreateUser.ValidCreateUserIff | src/modules/user/models/create-user.dto.ts:5-17 | A body is valid iff it is an object whose names are non-empty strings and whose `isActive` is a boolean, `false` included. |
| CreateUser.BooleanNeverEmpty | src/modules/user/models/create-user.dto.ts:14-16 | On `isActive`, `@IsNotEmpty()` adds nothing to `@IsBoolean()`. |
| CreateUser.ElementCases | src/modules/user/models/create-user.dto.ts:21-23 | An object element is valid iff it is a valid `CreateUserDto`. A primitive element is never valid. |
| CreateUser.AllValidIff | src/modules/user/models/create-user.dto.ts:21-23 | Nested validation holds iff every element is valid. A valid element is a valid user object, or an array of valid elements at any depth. |
| CreateUser.NestedArrayIsBatch | src/modules/user/models/create-user.dto.ts:21-23 | An array inside `users` is valid iff it would be valid as `users` itself. |
| CreateUser.ValidBulkIff | src/modules/user/models/create-user.dto.ts:19-24 | A bulk request is valid iff `users` is an array whose every element is valid: a valid user, or an array walked into recursively. |
| CreateUser.NestedUsersAccepted | src/modules/user/models/create-user.dto.ts:20-23 | `{ users: [[]] }` is valid, and so is `{ users: [[u]] }` for any valid user `u`. |
| CreateUser.AllValidAppend | src/modules/user/models/create-user.dto.ts:21-23 | A concatenation of batches is valid iff both batches are valid. |
| CreateUser.EmptyBulkValid | src/modules/user/models/create-user.dto.ts:20-21 | An empty `users` array is a valid bulk request. |

## Left out

- **Out of scope entirely:** the rxjs `Observable`/`pipe` around the interceptor, HTTP routing, the services and controllers, TypeORM and bootstrap I/O (`NestFactory`, `listen`, `getUrl`). Only the value-level `map` is modelled.
- **Logging:** every `console.info` call.
- **`validateConfig`:** src/config/utils/validate-config.ts is not part of this model.
  - The gate assumes that it checks every declared constraint on the raw environment and throws on any violation.
  - Properties declared `number` or `boolean` are assumed to be converted before they are checked. The number conversion is the parameter `toNumber` of each `Load`; its definition is unknown.
  - Other variables in the environment are assumed to be ignored.
- SslDatabaseSection.Load: src/config/database/database.config.ts:3 imports `createConfigLoader` from `src/utils/config`, which is not part of this model. The same validate-then-map gate as src/config/utils/create-config.ts is assumed.
- **The `Environment` enum:** src/constants/app.constant.ts is not part of this model. `Environment` is assumed to have exactly the members `Local = "local"` and `Production = "production"`.
- **Numbers:** JavaScript `Number` values are unbounded integers, and `NaN` is `None`. `parseInt` precision loss beyond 2^53 and floating-point fields are not modelled.
- **Strings:** strings are sequences of Unicode scalar values, not UTF-16 code units. `trim` uses the ECMA-262 white space and line terminator characters listed in `JsString.IsWhiteSpace`.
- **`plainToInstance`:** only `excludeExtraneousValues: false` with `@Exclude()` markers is modelled.
  - A projected object keeps nested values as they are. Fields of objects nested inside objects are not projected, because they have no DTO class of their own.
  - Class instances, prototypes and field order of objects are not modelled.
- CreateUser.ValidElement: an `undefined` element of `users` is rejected like any other primitive. class-validator's own handling of `undefined` array elements is not modelled, because a JSON request body cannot contain one.
- **Request validators:** validation error objects and their formatting are not modelled, and neither is class-transformer's conversion of the request body. Only validity is stated.
- **Bootstrap:** `env()` is called twice (src/main.ts:19, 27). Both calls read the same snapshot, so they agree because `SelectEnv` is a function. A change to `NODE_ENV` between the calls is not modelled.
- AppModule.LoadGlobal: its `env` is the environment after `ConfigModule` has merged the files in `envFilePath`, or skipped them when `ignoreEnvFile` is set. Reading and merging those files is not modelled, so the options of `AppModule.ForRoot` do not feed into `LoadGlobal`.
- **Start-up failure:** a failing configuration section aborts start-up. It is modelled as the `Failure` of `AppModule.LoadGlobal`, not as a thrown exception or a process exit.
- **Concrete CORS examples** on literal strings, such as a full expansion of `"http://localhost:3000, https://example.com"`, are not stated as lemmas. Their properties follow from the general lemmas above.
