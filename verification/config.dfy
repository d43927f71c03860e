/**
  config.go: the default configuration, the `.env` line rules, the
  environment-variable overrides, validation and the listen address. The
  process environment is a map from names to values; reading an unset name
  gives "", as `os.Getenv` does.
 */
module Configuration {
  import opened Results
  import opened SensorTypes
  import opened GoStrings

  /** `Config`. */
  datatype Config = Config(
    serverPort: string,
    serverHost: string,
    mongoUri: string,
    mongoDatabase: string,
    mongoTimeout: Int64,
    maxDataStore: Int64,
    enableLogging: bool,
    logLevel: string,
    environment: string,
    dataDir: string,
    enableFileLog: bool)

  /** `defaultConfig`. */
  const DefaultConfig: Config := Config(
    "18000", "", "mongodb://localhost:27017", "sensor_logger", 10, 100, true, "info", "dev", "./data", true)

  // ---------------------------------------------------------------------
  // Validation.
  // ---------------------------------------------------------------------

  const ValidLogLevels: seq<string> := ["debug", "info", "warn", "error"]
  const ValidEnvironments: seq<string> := ["dev", "development", "prod", "production"]

  /** The reasons `validateConfig` rejects a configuration, in the order it checks them. */
  datatype ConfigError =
    | InvalidPort(port: string)
    | InvalidMongoTimeout(timeout: int)
    | InvalidMaxDataStore(maxDataStore: int)
    | InvalidLogLevel(level: string)
    | InvalidEnvironment(environment: string)

  /** A port that `strconv.Atoi` accepts and that lies in 1..65535. */
  predicate ValidPort(port: string) {
    Atoi(port).Success? && 1 <= Atoi(port).value <= 65535
  }

  /** Everything `validateConfig` demands. Level and environment are matched case-sensitively. */
  predicate Valid(c: Config) {
    && ValidPort(c.serverPort)
    && c.mongoTimeout >= 1
    && c.maxDataStore >= 1
    && c.logLevel in ValidLogLevels
    && c.environment in ValidEnvironments
  }

  /**
    `validateConfig`: passes exactly on valid configurations; otherwise
    reports the first failing check, port first and environment last.
   */
  function ValidateConfig(c: Config): (r: Outcome<ConfigError>)
    ensures r.Pass? <==> Valid(c)
    ensures !ValidPort(c.serverPort) ==> r == Fail(InvalidPort(c.serverPort))
    ensures r.Fail? && r.error.InvalidMongoTimeout? ==> ValidPort(c.serverPort) && c.mongoTimeout < 1
    ensures r.Fail? && r.error.InvalidMaxDataStore? ==> ValidPort(c.serverPort) && c.mongoTimeout >= 1 && c.maxDataStore < 1
    ensures r.Fail? && r.error.InvalidLogLevel? ==>
      ValidPort(c.serverPort) && c.mongoTimeout >= 1 && c.maxDataStore >= 1 && c.logLevel !in ValidLogLevels
    ensures r.Fail? && r.error.InvalidEnvironment? ==>
      && ValidPort(c.serverPort) && c.mongoTimeout >= 1 && c.maxDataStore >= 1 && c.logLevel in ValidLogLevels
      && c.environment !in ValidEnvironments
  {
    if !ValidPort(c.serverPort) then Fail(InvalidPort(c.serverPort))
    else if c.mongoTimeout < 1 then Fail(InvalidMongoTimeout(c.mongoTimeout))
    else if c.maxDataStore < 1 then Fail(InvalidMaxDataStore(c.maxDataStore))
    else if c.logLevel !in ValidLogLevels then Fail(InvalidLogLevel(c.logLevel))
    else if c.environment !in ValidEnvironments then Fail(InvalidEnvironment(c.environment))
    else Pass
  }

  /** The decimal form of a number is a valid port exactly when the number is in 1..65535. */
  lemma PortOfDecimal(n: int)
    requires MinInt64 <= n <= MaxInt64
    ensures ValidPort(Itoa(n)) <==> 1 <= n <= 65535
  {
    AtoiOfItoa(n);
  }

  /** The defaults pass validation. */
  lemma DefaultConfigValid()
    ensures ValidateConfig(DefaultConfig) == Pass
  {
    PortOfDecimal(18000);
    assert Itoa(18000) == "18000" by {
      assert FormatNat(18000) == FormatNat(1800) + [DigitChar(0)];
      assert FormatNat(1800) == FormatNat(180) + [DigitChar(0)];
      assert FormatNat(180) == FormatNat(18) + [DigitChar(0)];
      assert FormatNat(18) == FormatNat(1) + [DigitChar(8)];
    }
  }

  // ---------------------------------------------------------------------
  // `.env` lines.
  // ---------------------------------------------------------------------

  /** What one line of a `.env` file amounts to. */
  datatype EnvLine =
    | Skipped                          // blank or a `#` comment
    | NoEquals(line: string)           // reported as malformed and ignored
    | Entry(key: string, value: string)

  /** A value of length at least 2 wrapped in a matching pair of `"` or `'`. */
  predicate Quoted(v: string) {
    |v| >= 2 && ((v[0] == '"' && v[|v| - 1] == '"') || (v[0] == '\'' && v[|v| - 1] == '\''))
  }

  /** Strips exactly one matching pair of outer quotes, and nothing else. */
  function Unquote(v: string): (r: string)
    ensures Quoted(v) ==> r == v[1..|v| - 1]
    ensures !Quoted(v) ==> r == v
  {
    if Quoted(v) then v[1..|v| - 1] else v
  }

  /** Splits a trimmed, non-comment line at its first `=`, trimming both sides and unquoting the value. */
  function SplitEnvLine(line: string): (r: EnvLine)
    ensures r.Skipped? == false
    ensures r.NoEquals? <==> '=' !in line
    ensures r.NoEquals? ==> r.line == line
    ensures r.Entry? ==> '=' !in r.key
    ensures r.Entry? ==> (exists i :: 0 <= i < |line| && line[i] == '=' && '=' !in line[..i]
                                && r.key == TrimSpace(line[..i]) && r.value == Unquote(TrimSpace(line[i + 1..])))
  {
    match IndexOf(line, '=')
    case None => NoEquals(line)
    case Some(i) =>
      var key := TrimSpace(line[..i]);
      assert '=' !in key by {
        var a := LeadingEnd(line[..i], 0);
        assert key == line[..i][a..a + |key|];
      }
      Entry(key, Unquote(TrimSpace(line[i + 1..])))
  }

  /**
    The per-line logic of `loadEnvFile`: trim the line; skip it when empty or
    a comment; without `=` it is malformed; otherwise split at the first `=`
    and trim both sides, then unquote the value.
   */
  function ParseEnvLine(raw: string): (r: EnvLine)
    ensures r.Skipped? <==> TrimSpace(raw) == "" || TrimSpace(raw)[0] == '#'
    ensures r.NoEquals? <==> !r.Skipped? && '=' !in TrimSpace(raw)
    ensures r.NoEquals? ==> r.line == TrimSpace(raw)
    ensures r.Entry? ==> '=' !in r.key
    ensures r.Entry? ==> var line := TrimSpace(raw);
      (exists i :: 0 <= i < |line| && line[i] == '=' && '=' !in line[..i]
                   && r.key == TrimSpace(line[..i]) && r.value == Unquote(TrimSpace(line[i + 1..])))
  {
    var line := TrimSpace(raw);
    if line == "" || line[0] == '#' then Skipped else SplitEnvLine(line)
  }

  /** The first `=` of `k + "=" + rest` is the one after `k` when `k` has none. */
  lemma FirstEquals(k: string, rest: string)
    requires '=' !in k
    ensures IndexOf(k + "=" + rest, '=') == Some(|k|)
  {
    var s := k + "=" + rest;
    assert s[|k|] == '=';
    assert s[..|k|] == k;
  }

  lemma EntryPieces(k: string, w: string)
    ensures (k + "=" + w)[..|k|] == k && (k + "=" + w)[|k| + 1..] == w
  {
  }

  /**
    A line written as `key=value`, with a key that is trimmed, non-empty, free
    of `=` and not a comment, and a trimmed unquoted value, reads back as
    exactly that key and value; the value may itself contain `=`.
   */
  lemma EnvEntryRoundTrip(k: string, v: string)
    requires |k| > 0 && k[0] != '#' && '=' !in k && IsTrimmed(k)
    requires IsTrimmed(v) && !Quoted(v)
    ensures ParseEnvLine(k + "=" + v) == Entry(k, v)
  {
    var line := k + "=" + v;
    assert IsTrimmed(line) by {
      assert line[0] == k[0];
      if |v| > 0 {
        assert line[|line| - 1] == v[|v| - 1];
      }
    }
    TrimSpaceOfTrimmed(line);
    assert ParseEnvLine(line) == SplitEnvLine(line);
    FirstEquals(k, v);
    EntryPieces(k, v);
    TrimSpaceOfTrimmed(k);
    TrimSpaceOfTrimmed(v);
  }

  /**
    A quoted value keeps everything between the quotes, white space and `=`
    included.
   */
  lemma EnvQuotedRoundTrip(k: string, v: string, q: char)
    requires |k| > 0 && k[0] != '#' && '=' !in k && IsTrimmed(k)
    requires q == '"' || q == '\''
    ensures ParseEnvLine(k + "=" + ([q] + v + [q])) == Entry(k, v)
  {
    var w := [q] + v + [q];
    assert Quoted(w) && w[1..|w| - 1] == v;
    assert IsTrimmed(w);
    var line := k + "=" + w;
    assert IsTrimmed(line) by {
      assert line[0] == k[0];
      assert line[|line| - 1] == q;
    }
    TrimSpaceOfTrimmed(line);
    assert ParseEnvLine(line) == SplitEnvLine(line);
    FirstEquals(k, w);
    EntryPieces(k, w);
    TrimSpaceOfTrimmed(k);
    TrimSpaceOfTrimmed(w);
  }

  /**
    White space before the key, around the `=` and after the value is
    dropped: the key is the trimmed text before the first `=`, the value the
    unquoted trimmed text after it.
   */
  lemma EnvPaddedEntry(p1: string, k: string, p2: string, p3: string, v: string, p4: string)
    requires AllSpace(p1) && AllSpace(p2) && AllSpace(p3) && AllSpace(p4)
    requires |k| > 0 && k[0] != '#' && '=' !in k && IsTrimmed(k)
    requires |v| > 0 && IsTrimmed(v)
    ensures ParseEnvLine(p1 + k + p2 + "=" + p3 + v + p4) == Entry(k, Unquote(v))
  {
    var t := k + p2 + "=" + p3 + v;
    assert IsTrimmed(t) && t[0] == k[0] by {
      assert t[0] == k[0];
      assert t[|t| - 1] == v[|v| - 1];
    }
    assert p1 + k + p2 + "=" + p3 + v + p4 == p1 + t + p4;
    TrimSpaceOfPadded(p1, t, p4);
    SplitPadded(k, p2, p3, v);
  }

  /** The trimmed line `k p2 = p3 v` splits into the key `k` and the value `v`. */
  lemma SplitPadded(k: string, p2: string, p3: string, v: string)
    requires AllSpace(p2) && AllSpace(p3)
    requires '=' !in k && IsTrimmed(k) && |k| > 0
    requires |v| > 0 && IsTrimmed(v)
    ensures SplitEnvLine(k + p2 + "=" + p3 + v) == Entry(k, Unquote(v))
  {
    assert '=' !in k + p2 by {
      assert forall i :: 0 <= i < |p2| ==> IsSpace(p2[i]);
    }
    assert k + p2 + "=" + p3 + v == (k + p2) + "=" + (p3 + v);
    FirstEquals(k + p2, p3 + v);
    EntryPieces(k + p2, p3 + v);
    TrimSpaceOfPadded("", k, p2);
    assert "" + k + p2 == k + p2;
    TrimSpaceOfPadded(p3, v, "");
    assert p3 + v + "" == p3 + v;
  }

  /** White space around a line, key or value makes no difference. */
  lemma EnvLinePadding(raw: string)
    ensures ParseEnvLine(TrimSpace(raw)) == ParseEnvLine(raw)
  {
    TrimSpaceIdempotent(raw);
    SameTrimSameLine(TrimSpace(raw), raw);
  }

  /** A line is read through its trimmed text alone. */
  lemma SameTrimSameLine(a: string, b: string)
    requires TrimSpace(a) == TrimSpace(b)
    ensures ParseEnvLine(a) == ParseEnvLine(b)
  {
  }

  /** The variable environment, as `os.Getenv` and `os.Setenv` see it. */
  type Env = map<string, string>

  /** `os.Getenv`: "" for an unset name. */
  function Getenv(env: Env, name: string): string {
    if name in env then env[name] else ""
  }

  /**
    `os.Setenv` on Unix: an empty name, a name holding `=` or a NUL byte, or
    a value holding a NUL byte is rejected and leaves the environment as it
    was; otherwise the variable is set, replacing any earlier value.
   */
  function Setenv(env: Env, key: string, value: string): (r: Option<Env>)
    ensures r.Some? <==> key != "" && '\0' !in key && '=' !in key && '\0' !in value
    ensures r.Some? ==> r.value == env[key := value]
  {
    if key == "" || '\0' in key || '=' in key || '\0' in value then None
    else Some(env[key := value])
  }

  /**
    `loadEnvFile` over the lines of the file: each entry is set in turn, a
    rejected one only warned about, so a later line for the same key wins.
   */
  function LoadEnvLines(env: Env, lines: seq<string>): (r: Env)
    ensures forall k :: k in env ==> k in r
  {
    if |lines| == 0 then env
    else
      var before := LoadEnvLines(env, lines[..|lines| - 1]);
      match ParseEnvLine(lines[|lines| - 1])
      case Entry(k, v) =>
        (match Setenv(before, k, v)
         case Some(after) => after
         case None => before)
      case _ => before
  }

  /**
    The file's effect does not depend on what was set before: it is the
    existing environment overlaid with the file's own assignments, so a `.env`
    entry replaces an exported variable of the same name.
   */
  lemma {:induction false} LoadEnvLinesOverlay(env: Env, lines: seq<string>)
    ensures LoadEnvLines(env, lines) == env + LoadEnvLines(map[], lines)
  {
    if |lines| > 0 {
      var init := lines[..|lines| - 1];
      LoadEnvLinesOverlay(env, init);
      var a := LoadEnvLines(env, init);
      var b := LoadEnvLines(map[], init);
      match ParseEnvLine(lines[|lines| - 1])
      case Entry(k, v) =>
        if Setenv(a, k, v).Some? {
          assert Setenv(b, k, v).Some?;
          OverlayUpdate(env, b, k, v);
        } else {
          assert Setenv(b, k, v).None?;
        }
      case _ =>
    }
  }

  lemma OverlayUpdate(env: Env, b: Env, k: string, v: string)
    ensures (env + b)[k := v] == env + b[k := v]
  {
  }

  /** Loading the same file twice changes nothing the first load did not. */
  lemma LoadEnvLinesIdempotent(env: Env, lines: seq<string>)
    ensures LoadEnvLines(LoadEnvLines(env, lines), lines) == LoadEnvLines(env, lines)
  {
    LoadEnvLinesOverlay(env, lines);
    LoadEnvLinesOverlay(LoadEnvLines(env, lines), lines);
    var a := LoadEnvLines(map[], lines);
    assert (env + a) + a == env + a;
  }

  /**
    Later lines win: a well-formed line sets its key unless a later line sets
    the same key again.
   */
  lemma {:induction false} LastLineWins(env: Env, lines: seq<string>, i: nat, k: string, v: string)
    requires i < |lines| && ParseEnvLine(lines[i]) == Entry(k, v)
    requires k != "" && '\0' !in k && '\0' !in v
    requires forall j :: i < j < |lines| ==> !(ParseEnvLine(lines[j]).Entry? && ParseEnvLine(lines[j]).key == k)
    ensures Getenv(LoadEnvLines(env, lines), k) == v
  {
    if i < |lines| - 1 {
      var init := lines[..|lines| - 1];
      assert init[i] == lines[i];
      assert forall j :: i < j < |init| ==> init[j] == lines[j];
      LastLineWins(env, init, i, k, v);
      OtherLineKeeps(env, lines, k);
    } else {
      FinalLineSets(env, lines, k, v);
    }
  }

  /** A final line that does not set `k` leaves `k` as the lines before it left it. */
  lemma OtherLineKeeps(env: Env, lines: seq<string>, k: string)
    requires |lines| > 0
    requires !(ParseEnvLine(lines[|lines| - 1]).Entry? && ParseEnvLine(lines[|lines| - 1]).key == k)
    ensures Getenv(LoadEnvLines(env, lines), k) == Getenv(LoadEnvLines(env, lines[..|lines| - 1]), k)
  {
  }

  /** A final well-formed line sets its key. */
  lemma FinalLineSets(env: Env, lines: seq<string>, k: string, v: string)
    requires |lines| > 0 && ParseEnvLine(lines[|lines| - 1]) == Entry(k, v)
    requires k != "" && '\0' !in k && '\0' !in v
    ensures Getenv(LoadEnvLines(env, lines), k) == v
  {
  }

  // ---------------------------------------------------------------------
  // Overrides from the environment.
  // ---------------------------------------------------------------------

  /** A string field takes the variable's value when that is non-empty. */
  function OverrideString(current: string, val: string): (r: string)
    ensures r == current || (r == val && val != "")
    ensures val != "" ==> r == val
  {
    if val != "" then val else current
  }

  /** An integer field changes only when the variable is non-empty and parses. */
  function OverrideInt(current: Int64, val: string): (r: Int64)
    ensures r != current ==> Atoi(val) == Success(r as int)
    ensures Atoi(val).Success? ==> r == Atoi(val).value
    ensures Atoi(val).Failure? ==> r == current
  {
    if val != "" then
      match Atoi(val)
      case Success(n) => n
      case Failure(_) => current
    else current
  }

  /** A boolean field, when the variable is non-empty, becomes whether it reads "true" in any letter case. */
  function OverrideBool(current: bool, val: string): (r: bool)
    ensures val == "" ==> r == current
    ensures val != "" ==> (r <==> ToLower(val) == "true")
  {
    if val != "" then ToLower(val) == "true" else current
  }

  /** `loadFromEnv`. */
  function LoadFromEnv(c: Config, env: Env): (r: Config)
    ensures r.serverPort == OverrideString(c.serverPort, Getenv(env, "SERVER_PORT"))
    ensures r.serverHost == OverrideString(c.serverHost, Getenv(env, "SERVER_HOST"))
    ensures r.mongoUri == OverrideString(c.mongoUri, Getenv(env, "MONGO_URI"))
    ensures r.mongoDatabase == OverrideString(c.mongoDatabase, Getenv(env, "MONGO_DATABASE"))
    ensures r.mongoTimeout == OverrideInt(c.mongoTimeout, Getenv(env, "MONGO_TIMEOUT"))
    ensures r.maxDataStore == OverrideInt(c.maxDataStore, Getenv(env, "MAX_DATA_STORE"))
    ensures r.enableLogging == OverrideBool(c.enableLogging, Getenv(env, "ENABLE_LOGGING"))
    ensures r.logLevel == OverrideString(c.logLevel, Getenv(env, "LOG_LEVEL"))
    ensures r.dataDir == OverrideString(c.dataDir, Getenv(env, "DATA_DIR"))
    ensures r.enableFileLog == OverrideBool(c.enableFileLog, Getenv(env, "ENABLE_FILE_LOG"))
    ensures r.environment == OverrideString(c.environment, Getenv(env, "ENVIRONMENT"))
  {
    c.(serverPort := OverrideString(c.serverPort, Getenv(env, "SERVER_PORT")),
       serverHost := OverrideString(c.serverHost, Getenv(env, "SERVER_HOST")),
       mongoUri := OverrideString(c.mongoUri, Getenv(env, "MONGO_URI")),
       mongoDatabase := OverrideString(c.mongoDatabase, Getenv(env, "MONGO_DATABASE")),
       mongoTimeout := OverrideInt(c.mongoTimeout, Getenv(env, "MONGO_TIMEOUT")),
       maxDataStore := OverrideInt(c.maxDataStore, Getenv(env, "MAX_DATA_STORE")),
       enableLogging := OverrideBool(c.enableLogging, Getenv(env, "ENABLE_LOGGING")),
       logLevel := OverrideString(c.logLevel, Getenv(env, "LOG_LEVEL")),
       dataDir := OverrideString(c.dataDir, Getenv(env, "DATA_DIR")),
       enableFileLog := OverrideBool(c.enableFileLog, Getenv(env, "ENABLE_FILE_LOG")),
       environment := OverrideString(c.environment, Getenv(env, "ENVIRONMENT")))
  }

  /** The names `loadFromEnv` reads. */
  const ConfigVariables: set<string> := {
    "SERVER_PORT", "SERVER_HOST", "MONGO_URI", "MONGO_DATABASE", "MONGO_TIMEOUT", "MAX_DATA_STORE",
    "ENABLE_LOGGING", "LOG_LEVEL", "DATA_DIR", "ENABLE_FILE_LOG", "ENVIRONMENT"}

  /** With none of the variables set (or all set to ""), the configuration is unchanged. */
  lemma LoadFromEnvUnset(c: Config, env: Env)
    requires forall name :: name in ConfigVariables ==> Getenv(env, name) == ""
    ensures LoadFromEnv(c, env) == c
  {
  }

  /** Applying the overrides a second time changes nothing. */
  lemma LoadFromEnvIdempotent(c: Config, env: Env)
    ensures LoadFromEnv(LoadFromEnv(c, env), env) == LoadFromEnv(c, env)
  {
  }

  /** An unparsable number leaves the field alone; "TRUE" and "True" both switch a flag on. */
  lemma OverrideExamples(c: Config)
    ensures OverrideInt(c.maxDataStore, "abc") == c.maxDataStore
    ensures OverrideBool(false, "TRUE") && OverrideBool(false, "True")
    ensures !OverrideBool(true, "1") && !OverrideBool(true, "yes")
  {
    assert Atoi("abc").Failure? by {
      assert !IsDigit('a');
    }
  }

  /**
    `LoadConfig` without the directory creation: start from the defaults,
    apply the `.env` file when it could be opened (`None` when it could not,
    which is only a warning), apply the environment overrides, validate.
   */
  function LoadConfig(envFile: Option<seq<string>>, env: Env): (r: Result<Config, ConfigError>)
    ensures r.Success? <==> Valid(LoadFromEnv(DefaultConfig, EffectiveEnv(envFile, env)))
    ensures r.Success? ==> r.value == LoadFromEnv(DefaultConfig, EffectiveEnv(envFile, env))
  {
    var c := LoadFromEnv(DefaultConfig, EffectiveEnv(envFile, env));
    match ValidateConfig(c)
    case Pass => Success(c)
    case Fail(e) => Failure(e)
  }

  /** The environment `loadFromEnv` reads: the process environment after the `.env` file, if any. */
  function EffectiveEnv(envFile: Option<seq<string>>, env: Env): Env {
    if envFile.Some? then LoadEnvLines(env, envFile.value) else env
  }

  /** With no file and an empty environment the server runs on the defaults. */
  lemma LoadConfigDefaults()
    ensures LoadConfig(None, map[]) == Success(DefaultConfig)
  {
    LoadFromEnvUnset(DefaultConfig, map[]);
    DefaultConfigValid();
  }

  // ---------------------------------------------------------------------
  // Listen address.
  // ---------------------------------------------------------------------

  /** `GetServerAddr`: `host:port`, or `:port` on every interface when the host is empty. */
  function GetServerAddr(c: Config): (r: string)
    ensures c.serverHost == "" ==> r == ":" + c.serverPort
    ensures c.serverHost != "" ==> r == c.serverHost + ":" + c.serverPort
  {
    if c.serverHost == "" then ":" + c.serverPort else c.serverHost + ":" + c.serverPort
  }

  /**
    A port without a colon is recovered after the last colon of the address,
    and the host before it.
   */
  lemma ServerAddrSplits(c: Config)
    requires ':' !in c.serverPort
    ensures var r := GetServerAddr(c);
      LastIndexOf(r, ':').Some?
      && r[..LastIndexOf(r, ':').value] == c.serverHost
      && r[LastIndexOf(r, ':').value + 1..] == c.serverPort
  {
    var r := GetServerAddr(c);
    var h := c.serverHost;
    assert r == h + ":" + c.serverPort;
    assert r[|h|] == ':';
    assert r[|h| + 1..] == c.serverPort;
    assert r[..|h|] == h && r[|h| + 1..] == c.serverPort;
  }
}
