/** The whole YAML configuration of internal/config/config.go: server, log
    and optional access-log sections, one route section per host and the
    global middleware entries; the defaults `Load` applies and then the
    validation it runs.

    The route sections are those of internals/config/route.go; the log
    section is checked by the validator of pkg/proxy/config/log.go, since
    internal/config/log.go has none of its own. */
module Configs {
  import opened Wrappers
  import opened ZeroValues
  import opened MiddlewareConfigs
  import opened RouteConfigs
  import opened ServerConfigs
  import opened LogConfigs
  import opened AccessLogConfigs

  /** Every route section defaulted, the hosts unchanged. */
  function DefaultedRoutes(m: map<string, RouteSettings>): (d: map<string, RouteSettings>)
    ensures d.Keys == m.Keys
    ensures forall h :: h in m ==> d[h] == DefaultedRoute(m[h])
  {
    map h | h in m :: DefaultedRoute(m[h])
  }

  /** The contents of a configuration: a nil section is `None`. */
  datatype ConfigState = ConfigState(
    server: Option<TextServerSettings>,
    log: Option<LogSettings>,
    accessLog: Option<string>,
    routes: map<string, RouteSettings>,
    middlewares: seq<MiddlewareConfig>)

  /** What `applyDefaults` makes of a configuration: nil server and log
      sections replaced by defaulted zero sections, a nil access-log section
      kept nil, every section, route and global entry defaulted, the set of
      hosts unchanged. */
  function DefaultedConfig(c: ConfigState): (d: ConfigState)
    ensures d.server.Some? && d.log.Some?
    ensures d.server.value == DefaultedTextServer(if c.server.Some? then c.server.value else ZeroTextServer)
    ensures d.log.value == DefaultedLog(if c.log.Some? then c.log.value else LogSettings("", ""))
    ensures d.accessLog == DefaultedAccessLog(c.accessLog)
    ensures d.routes.Keys == c.routes.Keys
    ensures forall h :: h in c.routes ==> d.routes[h] == DefaultedRoute(c.routes[h])
    ensures d.middlewares == DefaultedAll(c.middlewares)
  {
    ConfigState(
      Some(DefaultedTextServer(if c.server.Some? then c.server.value else ZeroTextServer)),
      Some(DefaultedLog(if c.log.Some? then c.log.value else LogSettings("", ""))),
      DefaultedAccessLog(c.accessLog),
      DefaultedRoutes(c.routes),
      DefaultedAll(c.middlewares))
  }

  /** Defaulting twice is defaulting once. */
  lemma {:induction false} ConfigDefaultsIdempotent(c: ConfigState)
    ensures DefaultedConfig(DefaultedConfig(c)) == DefaultedConfig(c)
  {
    var d := DefaultedConfig(c);
    TextServerDefaultsIdempotent(d.server.value);
    LogDefaultsIdempotent(d.log.value);
    AccessLogDefaultsIdempotent(c.accessLog);
    DefaultedAllIdempotent(c.middlewares);
    forall h | h in c.routes
      ensures DefaultedRoute(d.routes[h]) == d.routes[h]
    {
      RouteDefaultsIdempotent(c.routes[h]);
    }
    assert DefaultedConfig(d).routes == d.routes;
  }

  /** What `validate` accepts: every section valid, a nil access-log
      section included, at least one route, every route and every global
      entry valid. */
  predicate ConfigValid(c: ConfigState)
    requires c.server.Some? && c.log.Some?
  {
    && ValidateTextServer(c.server.value).Pass?
    && ValidateLog(c.log.value.level, c.log.value.format).Pass?
    && ValidateAccessLog(c.accessLog).Pass?
    && |c.routes| > 0
    && (forall h :: h in c.routes ==> RouteValid(c.routes[h]))
    && (forall i :: 0 <= i < |c.middlewares| ==> Valid(c.middlewares[i]))
  }

  /** The errors `validate` may give: those of server, log and access log
      in that order, wrapped with the section's name; then a missing route;
      then the error of any invalid route, since hosts are visited in no
      particular order; then the global entries' first error. */
  ghost predicate ConfigRejects(c: ConfigState, e: string)
    requires c.server.Some? && c.log.Some?
  {
    var srv := ValidateTextServer(c.server.value);
    var lg := ValidateLog(c.log.value.level, c.log.value.format);
    var al := ValidateAccessLog(c.accessLog);
    if srv.Fail? then e == "failed to validate server config: " + srv.error
    else if lg.Fail? then e == "failed to validate log config: " + lg.error
    else if al.Fail? then e == "failed to validate access_log config: " + al.error
    else if |c.routes| == 0 then e == "failed to validate routes. There must be at least one route"
    else if exists h :: h in c.routes && !RouteValid(c.routes[h]) then
      exists h, inner :: h in c.routes && RouteRejects(c.routes[h], inner)
                         && e == "failed to validate route for " + h + ": " + inner
    else ListRejects(c.middlewares, e)
  }

  /** A configuration with no routes is rejected even when every section
      defaulted to valid values. */
  lemma NoRoutesRejected(c: ConfigState)
    requires c.routes == map[]
    ensures !ConfigValid(DefaultedConfig(c))
  {
  }

  /** `Config`; a nil section is a null reference. */
  class Config {
    var server: TextServerConfig?
    var log: LogConfig?
    var accessLog: AccessLogConfig?
    var routes: map<string, RouteSettings>
    var middlewares: seq<MiddlewareConfig>

    constructor(server: TextServerConfig?, log: LogConfig?, accessLog: AccessLogConfig?,
                routes: map<string, RouteSettings>, middlewares: seq<MiddlewareConfig>)
      ensures this.server == server && this.log == log && this.accessLog == accessLog
      ensures this.routes == routes && this.middlewares == middlewares
    {
      this.server := server;
      this.log := log;
      this.accessLog := accessLog;
      this.routes := routes;
      this.middlewares := middlewares;
    }

    /** The access-log format, `None` for a nil section. */
    function AccessLogFormat(): Option<string>
      reads this, accessLog
    {
      if accessLog == null then None else Some(accessLog.format)
    }

    /** The whole configuration's contents. */
    function State(): ConfigState
      reads this, server, log, accessLog
    {
      ConfigState(
        if server == null then None else Some(server.Current()),
        if log == null then None else Some(log.Current()),
        AccessLogFormat(), routes, middlewares)
    }

    /** The first three steps of `applyDefaults`: the server and log
        sections, allocated when nil, and a present access-log section. */
    method DefaultSections()
      modifies this, server, log, accessLog
      ensures server != null && log != null
      ensures old(server) != null ==> server == old(server)
      ensures old(log) != null ==> log == old(log)
      ensures server.Current() == DefaultedTextServer(if old(server) == null then ZeroTextServer else old(server.Current()))
      ensures log.Current() == DefaultedLog(if old(log) == null then LogSettings("", "") else old(log.Current()))
      ensures AccessLogFormat() == DefaultedAccessLog(old(AccessLogFormat()))
      ensures accessLog == old(accessLog) && routes == old(routes) && middlewares == old(middlewares)
    {
      if server == null {
        server := new TextServerConfig(ZeroTextServer);
      }
      server.ApplyDefaults();
      if log == null {
        log := new LogConfig(LogSettings("", ""));
      }
      log.ApplyDefaults();
      AccessLogConfigs.ApplyDefaults(accessLog);
    }

    /** The last two steps of `applyDefaults`: each route section, hosts in
        no particular order, then each global entry. */
    method DefaultRoutesAndEntries()
      modifies this
      ensures routes == DefaultedRoutes(old(routes))
      ensures middlewares == DefaultedAll(old(middlewares))
      ensures server == old(server) && log == old(log) && accessLog == old(accessLog)
    {
      var todo := routes.Keys;
      while todo != {}
        invariant todo <= routes.Keys == old(routes).Keys
        invariant forall h :: h in routes ==>
          routes[h] == if h in todo then old(routes[h]) else DefaultedRoute(old(routes[h]))
        invariant server == old(server) && log == old(log) && accessLog == old(accessLog)
        invariant middlewares == old(middlewares)
        decreases todo
      {
        var h :| h in todo;
        routes := routes[h := DefaultedRoute(routes[h])];
        todo := todo - {h};
      }
      middlewares := ApplyDefaultsEach(middlewares);
    }

    /** `applyDefaults`: the contents become `DefaultedConfig` of the old
        ones; a present section is defaulted in place and a nil server or
        log section gets a new object. */
    method ApplyDefaults()
      modifies this, server, log, accessLog
      ensures State() == DefaultedConfig(old(State()))
      ensures server != null && log != null
      ensures old(server) != null ==> server == old(server)
      ensures old(log) != null ==> log == old(log)
      ensures accessLog == old(accessLog)
    {
      DefaultSections();
      DefaultRoutesAndEntries();
    }

    /** `validate`: nil iff the configuration is accepted, otherwise the
        first failing stage's error. The server and log sections are
        dereferenced, so they must exist. */
    method Validate() returns (o: Outcome)
      requires server != null && log != null
      ensures o.Pass? <==> ConfigValid(State())
      ensures o.Fail? ==> ConfigRejects(State(), o.error)
    {
      var srv := ValidateTextServer(server.Current());
      if srv.Fail? {
        return Fail("failed to validate server config: " + srv.error);
      }
      var lg := ValidateLog(log.level, log.format);
      if lg.Fail? {
        return Fail("failed to validate log config: " + lg.error);
      }
      var al := ValidateAccessLog(AccessLogFormat());
      if al.Fail? {
        return Fail("failed to validate access_log config: " + al.error);
      }
      if |routes| == 0 {
        return Fail("failed to validate routes. There must be at least one route");
      }
      var todo := routes.Keys;
      while todo != {}
        invariant todo <= routes.Keys
        invariant forall h :: h in routes && h !in todo ==> RouteValid(routes[h])
        decreases todo
      {
        var h :| h in todo;
        var r := ValidateRoute(routes[h]);
        if r.Fail? {
          return Fail("failed to validate route for " + h + ": " + r.error);
        }
        todo := todo - {h};
      }
      o := ValidateList(middlewares);
    }

    /** `Load` after the file is decoded into this object (`readErr` is the
        decoder's error): defaults first, then validation of the defaulted
        configuration. */
    method Load(readErr: Option<string>) returns (o: Outcome)
      modifies this, server, log, accessLog
      ensures readErr.Some? ==> o == Fail("failed to read config file: " + readErr.value)
      ensures readErr.None? ==> State() == DefaultedConfig(old(State()))
      ensures readErr.None? ==> (o.Pass? <==> ConfigValid(DefaultedConfig(old(State()))))
      ensures readErr.None? && o.Fail? ==>
        exists e :: ConfigRejects(DefaultedConfig(old(State())), e) && o.error == "failed to validate config: " + e
    {
      if readErr.Some? {
        return Fail("failed to read config file: " + readErr.value);
      }
      ApplyDefaults();
      var v := Validate();
      if v.Fail? {
        return Fail("failed to validate config: " + v.error);
      }
      return Pass;
    }
  }
}
