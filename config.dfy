/** Application configuration of cmd/my-application/app/config: the defaults of newConfig
    and NewFromEnv, which overlays the environment variables on them in a fixed key order.
    The process environment is passed in as a map, and zapcore's level parser
    (Level.Set) as a function. */
module AppConfig {
  import opened Basics
  import opened Clients
  import LoggerOptions

  type Environment = string

  const EnvLocal: Environment := "local"
  const EnvDevelopment: Environment := "development"
  const EnvStaging: Environment := "staging"
  const EnvProduction: Environment := "production"

  const DefaultEnv: Environment := EnvLocal
  const DefaultLogFormat: LoggerOptions.LogFormat := LoggerOptions.LogFormatText
  const DefaultLogLevel: Level := InfoLevel

  /** Config. MongoOptions is never nil: newConfig always creates it. */
  datatype Config = Config(
    env: Environment,
    logLevel: Level,
    logFormat: LoggerOptions.LogFormat,
    mongoOptions: MongoOptions,
    bucket: string)

  /** The four deployment environments are four different names. */
  lemma EnvironmentsDistinct()
    ensures |{EnvLocal, EnvDevelopment, EnvStaging, EnvProduction}| == 4
  {
  }

  /** newConfig: local environment, Info level, text logs, base client options, and no
      bucket. The defaults are themselves accepted by the parsers. */
  function NewConfig(): (c: Config)
    ensures c.env == EnvLocal && c.logLevel == InfoLevel && c.logFormat == LoggerOptions.LogFormatText
    ensures c.mongoOptions == BaseMongoOptions && c.bucket == ""
    ensures ParseEnvironment(c.env) == Ok(c.env)
    ensures ParseLogFormat(c.logFormat) == Ok(c.logFormat)
  {
    Config(DefaultEnv, DefaultLogLevel, DefaultLogFormat, BaseMongoOptions, "")
  }

  /** parseEnvironment: exactly the four environment names are accepted, unchanged. */
  function ParseEnvironment(val: string): (r: Result<Environment>)
    ensures r.Ok? <==> val in {EnvLocal, EnvDevelopment, EnvStaging, EnvProduction}
    ensures r.Ok? ==> r.value == val
    ensures r.Err? ==> r.error == "environment \"" + val + "\" is not valid"
  {
    if val == EnvLocal || val == EnvDevelopment || val == EnvStaging || val == EnvProduction then Ok(val)
    else Err("environment \"" + val + "\" is not valid")
  }

  /** parseLogFormat: exactly "text" and "json" are accepted; the empty string is not. */
  function ParseLogFormat(val: string): (r: Result<LoggerOptions.LogFormat>)
    ensures r.Ok? <==> val == LoggerOptions.LogFormatText || val == LoggerOptions.LogFormatJSON
    ensures r.Ok? ==> r.value == val
    ensures r.Err? ==> r.error == "log format \"" + val + "\" is not supported"
  {
    if val != LoggerOptions.LogFormatText && val != LoggerOptions.LogFormatJSON then
      Err("log format \"" + val + "\" is not supported")
    else
      Ok(val)
  }

  const EnvEnv := "ENV"
  const EnvLogLevel := "LOG_LEVEL"
  const EnvLogFormat := "LOG_FORMAT"
  const EnvMongoURI := "MONGODB_URI"
  const EnvBucket := "STORAGE_BUCKET"

  /** The order in which NewFromEnv reads the variables. */
  const EnvVars: seq<string> := [EnvEnv, EnvLogLevel, EnvLogFormat, EnvMongoURI, EnvBucket]

  /** os.Getenv: an unset variable reads as the empty string. */
  function Getenv(env: map<string, string>, key: string): string
  {
    if key in env then env[key] else ""
  }

  /** One arm of the switch in NewFromEnv: the key's own field is parsed and written; every
      other field is left as it was, and a bucket name is taken verbatim. */
  function ApplyVar(cfg: Config, key: string, val: string, parseLevel: string -> Result<Level>): (r: Result<Config>)
    ensures r.Ok? && key == EnvEnv ==> r.value == cfg.(env := r.value.env)
    ensures r.Ok? && key == EnvLogLevel ==> r.value == cfg.(logLevel := r.value.logLevel)
    ensures r.Ok? && key == EnvLogFormat ==> r.value == cfg.(logFormat := r.value.logFormat)
    ensures key == EnvMongoURI ==> r == Ok(cfg.(mongoOptions := ApplyURI(cfg.mongoOptions, val)))
    ensures key == EnvBucket ==> r == Ok(cfg.(bucket := val))
    ensures r.Err? ==> key in {EnvEnv, EnvLogLevel, EnvLogFormat}
  {
    if key == EnvEnv then
      match ParseEnvironment(val)
      case Ok(e) => Ok(cfg.(env := e))
      case Err(msg) => Err(msg)
    else if key == EnvLogLevel then
      match parseLevel(val)
      case Ok(l) => Ok(cfg.(logLevel := l))
      case Err(msg) => Err(msg)
    else if key == EnvLogFormat then
      match ParseLogFormat(val)
      case Ok(f) => Ok(cfg.(logFormat := f))
      case Err(msg) => Err(msg)
    else if key == EnvMongoURI then
      Ok(cfg.(mongoOptions := ApplyURI(cfg.mongoOptions, val)))
    else if key == EnvBucket then
      Ok(cfg.(bucket := val))
    else
      Ok(cfg)
  }

  /** The loop of NewFromEnv from `keys` on: empty variables are skipped and the first
      error ends the loop. */
  function ApplyVars(cfg: Config, keys: seq<string>, env: map<string, string>, parseLevel: string -> Result<Level>): Result<Config>
    decreases |keys|
  {
    if keys == [] then Ok(cfg)
    else if Getenv(env, keys[0]) == "" then ApplyVars(cfg, keys[1..], env, parseLevel)
    else
      match ApplyVar(cfg, keys[0], Getenv(env, keys[0]), parseLevel)
      case Err(msg) => Err(msg)
      case Ok(c) => ApplyVars(c, keys[1..], env, parseLevel)
  }

  /** What NewFromEnv computes. */
  function FromEnv(env: map<string, string>, parseLevel: string -> Result<Level>): Result<Config>
  {
    ApplyVars(NewConfig(), EnvVars, env, parseLevel)
  }

  /** NewFromEnv: walks the keys in order, updating the configuration in place and
      returning at the first error. */
  method NewFromEnv(env: map<string, string>, parseLevel: string -> Result<Level>) returns (r: Result<Config>)
    ensures r == FromEnv(env, parseLevel)
  {
    var cfg := NewConfig();
    for i := 0 to |EnvVars|
      invariant ApplyVars(cfg, EnvVars[i..], env, parseLevel) == FromEnv(env, parseLevel)
    {
      var key := EnvVars[i];
      assert EnvVars[i..][1..] == EnvVars[i + 1..];
      var val := Getenv(env, key);
      if val == "" {
        continue;
      }
      var err: Option<string> := None;
      if key == EnvEnv {
        var e := ParseEnvironment(val);
        if e.Ok? { cfg := cfg.(env := e.value); } else { err := Some(e.error); }
      } else if key == EnvLogLevel {
        var l := parseLevel(val);
        if l.Ok? { cfg := cfg.(logLevel := l.value); } else { err := Some(l.error); }
      } else if key == EnvLogFormat {
        var f := ParseLogFormat(val);
        if f.Ok? { cfg := cfg.(logFormat := f.value); } else { err := Some(f.error); }
      } else if key == EnvMongoURI {
        cfg := cfg.(mongoOptions := ApplyURI(cfg.mongoOptions, val));
      } else if key == EnvBucket {
        cfg := cfg.(bucket := val);
      }
      if err.Some? {
        return Err(err.value);
      }
    }
    return Ok(cfg);
  }

  /** Reference definition of NewFromEnv's answer, field by field: the error of the first
      variable in key order that is set and does not parse; otherwise each field is its
      variable's parsed value, or the default when the variable is unset or empty. */
  function ExpectedFromEnv(env: map<string, string>, parseLevel: string -> Result<Level>): Result<Config>
  {
    var e, l, f := Getenv(env, EnvEnv), Getenv(env, EnvLogLevel), Getenv(env, EnvLogFormat);
    var u, b := Getenv(env, EnvMongoURI), Getenv(env, EnvBucket);
    if e != "" && ParseEnvironment(e).Err? then Err(ParseEnvironment(e).error)
    else if l != "" && parseLevel(l).Err? then Err(parseLevel(l).error)
    else if f != "" && ParseLogFormat(f).Err? then Err(ParseLogFormat(f).error)
    else Ok(Config(
      if e == "" then DefaultEnv else e,
      if l == "" then DefaultLogLevel else parseLevel(l).value,
      if f == "" then DefaultLogFormat else f,
      if u == "" then BaseMongoOptions else ApplyURI(BaseMongoOptions, u),
      b))
  }

  lemma {:induction false} FromEnvMatchesExpected(env: map<string, string>, parseLevel: string -> Result<Level>)
    ensures FromEnv(env, parseLevel) == ExpectedFromEnv(env, parseLevel)
  {
    var k1 := [EnvLogLevel, EnvLogFormat, EnvMongoURI, EnvBucket];
    var k2, k3, k4 := k1[1..], k1[2..], k1[3..];
    assert EnvVars[1..] == k1 && k2[1..] == k3 && k3[1..] == k4 && k4[1..] == [];
    var e, l, f := Getenv(env, EnvEnv), Getenv(env, EnvLogLevel), Getenv(env, EnvLogFormat);
    var u, b := Getenv(env, EnvMongoURI), Getenv(env, EnvBucket);
    var c0 := NewConfig();
    if e != "" && ParseEnvironment(e).Err? {
      return;
    }
    var c1 := if e == "" then c0 else c0.(env := e);
    assert FromEnv(env, parseLevel) == ApplyVars(c1, k1, env, parseLevel);
    if l != "" && parseLevel(l).Err? {
      return;
    }
    var c2 := if l == "" then c1 else c1.(logLevel := parseLevel(l).value);
    assert ApplyVars(c1, k1, env, parseLevel) == ApplyVars(c2, k2, env, parseLevel);
    if f != "" && ParseLogFormat(f).Err? {
      return;
    }
    var c3 := if f == "" then c2 else c2.(logFormat := f);
    assert ApplyVars(c2, k2, env, parseLevel) == ApplyVars(c3, k3, env, parseLevel);
    var c4 := if u == "" then c3 else c3.(mongoOptions := ApplyURI(c3.mongoOptions, u));
    assert ApplyVars(c3, k3, env, parseLevel) == ApplyVars(c4, k4, env, parseLevel);
    assert ApplyVars(c4, k4, env, parseLevel) == Ok(c4.(bucket := b));
  }

  /** A configuration read from the environment always names a known environment and a
      log format the logger accepts. */
  lemma FromEnvIsValid(env: map<string, string>, parseLevel: string -> Result<Level>)
    ensures FromEnv(env, parseLevel).Ok? ==>
      var c := FromEnv(env, parseLevel).value;
      && c.env in {EnvLocal, EnvDevelopment, EnvStaging, EnvProduction}
      && c.logFormat in {LoggerOptions.LogFormatText, LoggerOptions.LogFormatJSON}
  {
    FromEnvMatchesExpected(env, parseLevel);
  }

  /** LOG_FORMAT=xml fails naming the unsupported format whenever ENV and LOG_LEVEL are
      unset or parse. */
  lemma XmlLogFormatRejected(env: map<string, string>, parseLevel: string -> Result<Level>)
    requires Getenv(env, EnvLogFormat) == "xml"
    requires Getenv(env, EnvEnv) == "" || ParseEnvironment(Getenv(env, EnvEnv)).Ok?
    requires Getenv(env, EnvLogLevel) == "" || parseLevel(Getenv(env, EnvLogLevel)).Ok?
    ensures FromEnv(env, parseLevel) == Err("log format \"xml\" is not supported")
  {
    FromEnvMatchesExpected(env, parseLevel);
  }
}
