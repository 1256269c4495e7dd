/** The optional access-log section of the configuration: the format check
    shared by pkg/proxy/config/accesslog.go and internal/config/accessLog.go,
    and the nil-safe default of internal/config/accessLog.go (which
    internal/config/accesslog.go repeats word for word). */
module AccessLogConfigs {
  import opened Wrappers
  import opened ZeroValues

  /** `isValidAccessLogFormat`: exact, case-sensitive membership. */
  function IsValidAccessLogFormat(format: string): (r: bool)
    ensures r <==> format in {"common", "json", "combined"}
  {
    format in ["common", "json", "combined"]
  }

  /** `AccessLogConfig.validate` on a possibly nil section (`None`): a nil
      section is valid, a present one iff its format is one of the three. */
  function ValidateAccessLog(format: Option<string>): (o: Outcome)
    ensures format.None? ==> o == Pass
    ensures format.Some? ==> (o.Pass? <==> IsValidAccessLogFormat(format.value))
    ensures o.Fail? ==> o == Fail("invalid format: " + format.value + " (must be common, json or combined)")
  {
    if format.Some? && !IsValidAccessLogFormat(format.value) then
      Fail("invalid format: " + format.value + " (must be common, json or combined)")
    else Pass
  }

  /** Matching is case-sensitive. */
  lemma FormatCaseSensitive()
    ensures ValidateAccessLog(Some("JSON")).Fail? && ValidateAccessLog(Some("Common")).Fail?
  {
  }

  class AccessLogConfig {
    var format: string

    constructor(format: string)
      ensures this.format == format
    {
      this.format := format;
    }
  }

  /** The default on a possibly nil section's format (`None`): a nil
      section stays nil, an empty format becomes `common`, any other is
      kept. */
  function DefaultedAccessLog(format: Option<string>): (d: Option<string>)
    ensures d.None? <==> format.None?
    ensures format.Some? && format.value != "" ==> d == format
    ensures format == Some("") ==> d == Some("common")
    ensures d.Some? ==> d.value != ""
  {
    if format.Some? then Some(OrDefault(format.value, "common")) else None
  }

  /** Defaulting twice is defaulting once. */
  lemma AccessLogDefaultsIdempotent(format: Option<string>)
    ensures DefaultedAccessLog(DefaultedAccessLog(format)) == DefaultedAccessLog(format)
  {
  }

  /** `applyDefaults` with a possibly nil receiver: nothing happens to a nil
      section; an empty format becomes `common`, any other is kept, so a
      second run changes nothing. */
  method ApplyDefaults(c: AccessLogConfig?)
    modifies c
    ensures c != null ==> c.format == OrDefault(old(c.format), "common")
    ensures c != null && old(c.format) != "" ==> c.format == old(c.format)
    ensures c != null ==> c.format != ""
  {
    if c != null {
      if c.format == "" {
        c.format := "common";
      }
    }
  }

  /** After defaults, a present section is valid iff its format was empty
      or one of the three; in particular an empty format validates. */
  lemma DefaultedFormatValidIff(format: string)
    ensures ValidateAccessLog(Some(OrDefault(format, "common"))).Pass? <==> format == "" || IsValidAccessLogFormat(format)
  {
  }
}
