/**
  logger.go: reading a log level from text and deriving the logger's settings
  from the application configuration.
 */
module Logging {
  import opened GoStrings
  import opened Configuration

  /** The four `slog` levels the server uses. */
  datatype Level = Debug | Info | Warn | Error

  /** The numeric value `slog` gives each level; larger is more severe. */
  function Severity(l: Level): int {
    match l
    case Debug => -4
    case Info => 0
    case Warn => 4
    case Error => 8
  }

  /** The lower-case name each level is configured by. */
  function LevelName(l: Level): string {
    match l
    case Debug => "debug"
    case Info => "info"
    case Warn => "warn"
    case Error => "error"
  }

  /**
    `parseLogLevel`: the lower-cased text picks the level, "warning" also
    meaning Warn; anything else, the empty text included, is Info.
   */
  function ParseLogLevel(s: string): (l: Level)
    ensures ToLower(s) == "debug" ==> l == Debug
    ensures ToLower(s) == "warn" || ToLower(s) == "warning" ==> l == Warn
    ensures ToLower(s) == "error" ==> l == Error
    ensures ToLower(s) !in {"debug", "warn", "warning", "error"} ==> l == Info
  {
    var t := ToLower(s);
    if t == "debug" then Debug
    else if t == "info" then Info
    else if t == "warn" || t == "warning" then Warn
    else if t == "error" then Error
    else Info
  }

  /** Each level's name reads back as that level, in any letter case. */
  lemma ParseLevelName(l: Level)
    ensures ParseLogLevel(LevelName(l)) == l
    ensures ParseLogLevel(ToUpper(LevelName(l))) == l
  {
    var n := LevelName(l);
    LowerOfUpper(n);
    assert forall i :: 0 <= i < |n| ==> 'a' <= n[i] <= 'z';
    LowerOfLowercase(n);
  }

  /** Letter case never matters to `parseLogLevel`. */
  lemma ParseLogLevelCaseInsensitive(s: string)
    ensures ParseLogLevel(ToUpper(s)) == ParseLogLevel(s)
  {
    LowerOfUpper(s);
  }

  /** `LogConfig`, without the log file path. */
  datatype LogConfig = LogConfig(level: Level, environment: string, enableFile: bool, addSource: bool)

  /**
    `GetLogConfig`: the environment is "production" exactly when the
    configured level is literally "warn" or "error", otherwise "dev"; source
    positions are logged only in "dev". The configuration's own Environment
    field plays no part.
   */
  function GetLogConfig(c: Config): (r: LogConfig)
    ensures r.environment == "production" <==> c.logLevel == "warn" || c.logLevel == "error"
    ensures r.environment == "production" || r.environment == "dev"
    ensures r.addSource <==> r.environment == "dev"
    ensures r.level == ParseLogLevel(c.logLevel)
    ensures r.enableFile == c.enableFileLog
  {
    var environment := if c.logLevel == "warn" || c.logLevel == "error" then "production" else "dev";
    LogConfig(ParseLogLevel(c.logLevel), environment, c.enableFileLog, environment == "dev")
  }

  /**
    For a configuration that passes validation, production logging is chosen
    exactly when the level is Warn or more severe.
   */
  lemma ProductionIffSevere(c: Config)
    requires Valid(c)
    ensures GetLogConfig(c).environment == "production" <==> Severity(GetLogConfig(c).level) >= Severity(Warn)
  {
    var l := c.logLevel;
    assert l == "debug" || l == "info" || l == "warn" || l == "error";
    assert forall i :: 0 <= i < |l| ==> 'a' <= l[i] <= 'z';
    LowerOfLowercase(l);
  }

  /**
    Unvalidated input can disagree: "WARN" parses to Warn, but the
    case-sensitive test in `GetLogConfig` still picks "dev".
   */
  lemma UpperCaseWarnStaysDev(c: Config)
    requires c.logLevel == "WARN"
    ensures GetLogConfig(c).level == Warn
    ensures GetLogConfig(c).environment == "dev"
  {
    assert ToLower("WARN") == "warn";
  }
}
