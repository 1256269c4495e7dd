/** The log section of the configuration: the level and format checks of
    pkg/proxy/config/log.go and the defaults of internal/config/log.go. */
module LogConfigs {
  import opened Wrappers
  import opened ZeroValues

  /** `isValidLogLevel`: exact, case-sensitive membership in the four levels. */
  function IsValidLevel(level: string): (r: bool)
    ensures r <==> level in {"debug", "info", "warn", "error"}
  {
    level in ["debug", "info", "warn", "error"]
  }

  /** `isValidLogFormat`: `json` or `text`, matched exactly. */
  function IsValidFormat(format: string): (r: bool)
    ensures r <==> format in {"json", "text"}
  {
    format in ["json", "text"]
  }

  /** `LogConfig.validate`: nil iff both fields are valid; the level is
      checked first, so a config wrong in both reports its level. */
  function ValidateLog(level: string, format: string): (o: Outcome)
    ensures o.Pass? <==> IsValidLevel(level) && IsValidFormat(format)
    ensures !IsValidLevel(level) ==> o == Fail("invalid level: " + level + " (must be debug, info, warn or error)")
    ensures IsValidLevel(level) && !IsValidFormat(format) ==> o == Fail("invalid format: " + format + " (must be text or json)")
  {
    if !IsValidLevel(level) then Fail("invalid level: " + level + " (must be debug, info, warn or error)")
    else if !IsValidFormat(format) then Fail("invalid format: " + format + " (must be text or json)")
    else Pass
  }

  /** Matching is case-sensitive: `INFO` and `JSON` are rejected. */
  lemma CaseSensitive()
    ensures !IsValidLevel("INFO") && !IsValidFormat("JSON")
  {
  }

  /** The fields of a log section. */
  datatype LogSettings = LogSettings(level: string, format: string)

  /** `applyDefaults` of internal/config/log.go: an empty level becomes
      `info`, an empty format `text`; a non-empty value is kept. */
  function DefaultedLog(s: LogSettings): (d: LogSettings)
    ensures s.level != "" ==> d.level == s.level
    ensures s.format != "" ==> d.format == s.format
    ensures s.level == "" ==> d.level == "info"
    ensures s.format == "" ==> d.format == "text"
    ensures d.level != "" && d.format != ""
  {
    LogSettings(OrDefault(s.level, "info"), OrDefault(s.format, "text"))
  }

  /** `LogConfig` of internal/config/log.go. */
  class LogConfig {
    var level: string
    var format: string

    function Current(): LogSettings
      reads this
    {
      LogSettings(level, format)
    }

    constructor(s: LogSettings)
      ensures Current() == s
    {
      level := s.level;
      format := s.format;
    }

    /** `applyDefaults`. */
    method ApplyDefaults()
      modifies this
      ensures Current() == DefaultedLog(old(Current()))
    {
      if level == "" {
        level := "info";
      }
      if format == "" {
        format := "text";
      }
    }
  }

  /** A section with neither field set gets `info` and `text`. */
  lemma LogDefaultValues()
    ensures DefaultedLog(LogSettings("", "")) == LogSettings("info", "text")
  {
  }

  /** Defaulting twice is defaulting once. */
  lemma LogDefaultsIdempotent(s: LogSettings)
    ensures DefaultedLog(DefaultedLog(s)) == DefaultedLog(s)
  {
  }

  /** Empty fields are defaulted to valid values: validation then depends on
      the configured values only. */
  lemma DefaultedLogValidIff(s: LogSettings)
    ensures var d := DefaultedLog(s); ValidateLog(d.level, d.format).Pass? <==>
              (s.level == "" || IsValidLevel(s.level)) && (s.format == "" || IsValidFormat(s.format))
  {
  }
}
