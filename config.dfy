/**
 * Reading the server configuration from the process environment. The
 * environment is a map from variable names to their values; a name that is
 * not a key is unset. Throwing is an `Err` carrying the error the code raises.
 */
module Config {
  import opened Wrappers
  import Decimal

  type Env = map<string, string>

  datatype ConfigError =
    | MissingVariable(name: string)
    | InvalidInteger(name: string, raw: string)

  /** `requireEnv`: the value, unless it is unset or empty, which is an error. */
  function RequireEnv(env: Env, name: string): (r: Result<string, ConfigError>)
    ensures r.Ok? <==> name in env && env[name] != ""
    ensures r.Ok? ==> r.value == env[name]
    ensures r.Err? ==> r.error == MissingVariable(name)
  {
    if name in env && env[name] != "" then Ok(env[name]) else Err(MissingVariable(name))
  }

  /** `optionalEnv`: the value when the variable is set, even to "", and the fallback only when unset. */
  function OptionalEnv(env: Env, name: string, fallback: string): (v: string)
    ensures name in env ==> v == env[name]
    ensures name !in env ==> v == fallback
  {
    if name in env then env[name] else fallback
  }

  /**
   * `optionalInt`: the fallback when unset or empty; otherwise the leading
   * decimal integer `parseInt` reads, and an error when it reads NaN.
   */
  function OptionalInt(env: Env, name: string, fallback: int): (r: Result<int, ConfigError>)
    ensures (name !in env || env[name] == "") ==> r == Ok(fallback)
    ensures name in env && env[name] != "" ==>
      match Decimal.ParseInt(env[name])
      case NaN => r == Err(InvalidInteger(name, env[name]))
      case Int(n) => r == Ok(n)
  {
    if name !in env || env[name] == "" then Ok(fallback)
    else
      match Decimal.ParseInt(env[name])
      case NaN => Err(InvalidInteger(name, env[name]))
      case Int(n) => Ok(n)
  }

  /** `PORT=12abc` reads as 12, and `PORT=abc` is rejected. */
  lemma OptionalIntExamples()
    ensures OptionalInt(map["PORT" := "12abc"], "PORT", DefaultPort) == Ok(12)
    ensures OptionalInt(map["PORT" := "abc"], "PORT", DefaultPort) == Err(InvalidInteger("PORT", "abc"))
  {
    OptionalIntOfParsed(map["PORT" := "12abc"], "PORT", DefaultPort);
    Decimal.ParseIntTrailingText();
    OptionalIntOfParsed(map["PORT" := "abc"], "PORT", DefaultPort);
    Decimal.ParseIntNoDigits();
  }

  /** A set, non-empty variable is read through `parseInt` alone. */
  lemma OptionalIntOfParsed(env: Env, name: string, fallback: int)
    requires name in env && env[name] != ""
    ensures Decimal.ParseInt(env[name]).NaN? ==> OptionalInt(env, name, fallback) == Err(InvalidInteger(name, env[name]))
    ensures Decimal.ParseInt(env[name]).Int? ==> OptionalInt(env, name, fallback) == Ok(Decimal.ParseInt(env[name]).value)
  {
  }

  datatype AppConfig = AppConfig(
    nodeEnv: string,
    port: int,
    corsOrigin: string,
    jwtSecret: string,
    mongoUri: string,
    redisHost: string,
    redisPort: int,
    uploadsDir: string)

  const DefaultNodeEnv := "development"
  const DefaultPort := 3001
  const DefaultCorsOrigin := "*"
  const DefaultRedisPort := 6379
  const DefaultUploadsDir := "uploads"

  /** A variable `optionalInt` accepts: unset, empty, or starting with an integer. */
  predicate IntAccepted(env: Env, name: string) {
    name !in env || env[name] == "" || Decimal.ParseInt(env[name]).Int?
  }

  /**
   * The `config` object. Its properties are evaluated in the order written,
   * so the first lookup that throws decides the error.
   */
  function LoadConfig(env: Env): (r: Result<AppConfig, ConfigError>)
    ensures r.Ok? <==>
      && RequireEnv(env, "JWT_SECRET").Ok?
      && RequireEnv(env, "MONGO_URI").Ok?
      && RequireEnv(env, "REDIS_HOST").Ok?
      && IntAccepted(env, "PORT")
      && IntAccepted(env, "REDIS_PORT")
    ensures r.Ok? ==>
      && r.value.jwtSecret == env["JWT_SECRET"]
      && r.value.mongoUri == env["MONGO_URI"]
      && r.value.redisHost == env["REDIS_HOST"]
      && r.value.nodeEnv == OptionalEnv(env, "NODE_ENV", DefaultNodeEnv)
      && r.value.corsOrigin == OptionalEnv(env, "CORS_ORIGIN", DefaultCorsOrigin)
      && r.value.uploadsDir == OptionalEnv(env, "UPLOADS_DIR", DefaultUploadsDir)
      && r.value.port == OptionalInt(env, "PORT", DefaultPort).value
      && r.value.redisPort == OptionalInt(env, "REDIS_PORT", DefaultRedisPort).value
  {
    var nodeEnv := OptionalEnv(env, "NODE_ENV", DefaultNodeEnv);
    match OptionalInt(env, "PORT", DefaultPort)
    case Err(e) => Err(e)
    case Ok(port) =>
      var corsOrigin := OptionalEnv(env, "CORS_ORIGIN", DefaultCorsOrigin);
      match RequireEnv(env, "JWT_SECRET")
      case Err(e) => Err(e)
      case Ok(jwtSecret) =>
        match RequireEnv(env, "MONGO_URI")
        case Err(e) => Err(e)
        case Ok(mongoUri) =>
          match RequireEnv(env, "REDIS_HOST")
          case Err(e) => Err(e)
          case Ok(redisHost) =>
            match OptionalInt(env, "REDIS_PORT", DefaultRedisPort)
            case Err(e) => Err(e)
            case Ok(redisPort) =>
              Ok(AppConfig(nodeEnv, port, corsOrigin, jwtSecret, mongoUri, redisHost, redisPort,
                           OptionalEnv(env, "UPLOADS_DIR", DefaultUploadsDir)))
  }

  /** With only the mandatory variables set, every other setting takes its default. */
  lemma DefaultsWhenUnset(jwtSecret: string, mongoUri: string, redisHost: string)
    requires jwtSecret != "" && mongoUri != "" && redisHost != ""
    ensures LoadConfig(map["JWT_SECRET" := jwtSecret, "MONGO_URI" := mongoUri, "REDIS_HOST" := redisHost])
      == Ok(AppConfig("development", 3001, "*", jwtSecret, mongoUri, redisHost, 6379, "uploads"))
  {
  }

  /** An unreadable `PORT` is reported before any missing mandatory variable. */
  lemma InvalidPortReportedFirst(env: Env)
    requires "PORT" in env && env["PORT"] != "" && Decimal.ParseInt(env["PORT"]).NaN?
    ensures LoadConfig(env) == Err(InvalidInteger("PORT", env["PORT"]))
  {
  }

  /** A missing mandatory variable is reported once the port has been read. */
  lemma MissingSecretReported(env: Env)
    requires "JWT_SECRET" !in env
    requires IntAccepted(env, "PORT")
    ensures LoadConfig(env) == Err(MissingVariable("JWT_SECRET"))
  {
  }
}
