/** The proxy's own configuration check of pkg/proxy/config/config.go: the
    server, log and access-log sections, in that order. The two sections
    the validators dereference are values here; the access-log section may
    be nil (`None`). */
module ProxyConfigs {
  import opened Wrappers
  import opened ServerConfigs
  import opened LogConfigs
  import opened AccessLogConfigs

  /** `Config.Validate`: nil iff every section validates, otherwise the
      first failing section's error wrapped with the section's name. */
  function ValidateSections(server: ServerSettings, log: LogSettings, accessLog: Option<string>): (o: Outcome)
    ensures o.Pass? <==> && ValidateProxyServer(server).Pass?
                         && ValidateLog(log.level, log.format).Pass?
                         && ValidateAccessLog(accessLog).Pass?
    ensures ValidateProxyServer(server).Fail? ==>
      o == Fail("failed to validate server config: " + ValidateProxyServer(server).error)
    ensures ValidateProxyServer(server).Pass? && ValidateLog(log.level, log.format).Fail? ==>
      o == Fail("failed to validate log config: " + ValidateLog(log.level, log.format).error)
    ensures ValidateProxyServer(server).Pass? && ValidateLog(log.level, log.format).Pass? && ValidateAccessLog(accessLog).Fail? ==>
      o == Fail("failed to validate access_log config: " + ValidateAccessLog(accessLog).error)
  {
    var srv := ValidateProxyServer(server);
    var lg := ValidateLog(log.level, log.format);
    var al := ValidateAccessLog(accessLog);
    if srv.Fail? then Fail("failed to validate server config: " + srv.error)
    else if lg.Fail? then Fail("failed to validate log config: " + lg.error)
    else if al.Fail? then Fail("failed to validate access_log config: " + al.error)
    else Pass
  }

  /** A nil access-log section never fails the check, and the sizes of the
      server section are never looked at. */
  lemma NilAccessLogAccepted(server: ServerSettings, log: LogSettings)
    ensures ValidateSections(server, log, None) ==
            ValidateSections(server.(maxHeaderBytes := -1, maxRequestBody := -1), log, Some("common"))
  {
    ProxySizesUnchecked(server, -1, -1);
  }
}
