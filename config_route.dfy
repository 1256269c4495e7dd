/** A route section of the configuration (internals/config/route.go): the
    backend URL, the preserve-host flag, the transport settings and the
    route's own middleware entries. Durations are nanoseconds. */
module RouteConfigs {
  import opened Wrappers
  import opened Strings
  import opened ZeroValues
  import opened GoMath
  import opened MiddlewareConfigs

  /** The fields of a route section. */
  datatype RouteSettings = RouteSettings(
    backend: string,
    preserveHost: bool,
    dialTimeout: int, responseHeaderTimeout: int, idleConnTimeout: int,
    maxIdleConns: int,
    middlewares: seq<MiddlewareConfig>)

  /** `applyDefaults`: 10s to dial, 30s to the response header, 90s idle
      connections and a pool of 100 for zero values; every middleware entry
      defaulted; the backend and the preserve-host flag are never touched. */
  function DefaultedRoute(s: RouteSettings): (d: RouteSettings)
    ensures d.backend == s.backend && d.preserveHost == s.preserveHost
    ensures s.dialTimeout != 0 ==> d.dialTimeout == s.dialTimeout
    ensures s.responseHeaderTimeout != 0 ==> d.responseHeaderTimeout == s.responseHeaderTimeout
    ensures s.idleConnTimeout != 0 ==> d.idleConnTimeout == s.idleConnTimeout
    ensures s.maxIdleConns != 0 ==> d.maxIdleConns == s.maxIdleConns
    ensures s.dialTimeout == 0 ==> d.dialTimeout == 10 * Second
    ensures s.responseHeaderTimeout == 0 ==> d.responseHeaderTimeout == 30 * Second
    ensures s.idleConnTimeout == 0 ==> d.idleConnTimeout == 90 * Second
    ensures s.maxIdleConns == 0 ==> d.maxIdleConns == 100
    ensures d.dialTimeout != 0 && d.responseHeaderTimeout != 0 && d.idleConnTimeout != 0 && d.maxIdleConns != 0
    ensures d.middlewares == DefaultedAll(s.middlewares)
  {
    RouteSettings(s.backend, s.preserveHost,
      OrDefaultInt(s.dialTimeout, 10 * Second), OrDefaultInt(s.responseHeaderTimeout, 30 * Second),
      OrDefaultInt(s.idleConnTimeout, 90 * Second), OrDefaultInt(s.maxIdleConns, 100),
      DefaultedAll(s.middlewares))
  }

  /** A route with nothing but a backend gets the four defaults and keeps
      `preserve_host` false. */
  lemma RouteDefaultValues(backend: string)
    ensures DefaultedRoute(RouteSettings(backend, false, 0, 0, 0, 0, [])) ==
            RouteSettings(backend, false, 10 * Second, 30 * Second, 90 * Second, 100, [])
  {
  }

  /** Defaulting twice is defaulting once. */
  lemma RouteDefaultsIdempotent(s: RouteSettings)
    ensures DefaultedRoute(DefaultedRoute(s)) == DefaultedRoute(s)
  {
    DefaultedAllIdempotent(s.middlewares);
  }

  /** `isUrl`: an `http://` or `https://` prefix, case-sensitive; nothing
      after the prefix is looked at. */
  function IsUrl(s: string): (r: bool)
    ensures r ==> |s| >= 7 && s[..4] == "http"
  {
    HasPrefix(s, "http://") || HasPrefix(s, "https://")
  }

  lemma IsUrlExamples()
    ensures IsUrl("http://backend:8080") && IsUrl("https://")
    ensures !IsUrl("HTTP://backend") && !IsUrl("backend:8080") && !IsUrl("ftp://backend")
  {
    assert "http://backend:8080"[..7] == "http://";
    assert "https://"[..8] == "https://";
    assert "HTTP://backend"[..4][0] == 'H';
    assert "ftp://backend"[..4][0] == 'f';
  }

  /** The checks on the route's own fields, in order: a backend, a URL
      prefix, then the three timeouts and the pool size non-negative. */
  function CheckFields(s: RouteSettings): (o: Outcome)
    ensures o.Pass? <==> && s.backend != "" && IsUrl(s.backend) && s.dialTimeout >= 0 && s.responseHeaderTimeout >= 0
                         && s.idleConnTimeout >= 0 && s.maxIdleConns >= 0
    ensures s.backend == "" ==> o == Fail("backend is required")
    ensures s.backend != "" && !IsUrl(s.backend) ==> o == Fail("invalid backend URL: " + s.backend)
  {
    if s.backend == "" then Fail("backend is required")
    else if !IsUrl(s.backend) then Fail("invalid backend URL: " + s.backend)
    else if s.dialTimeout < 0 then Fail("dial_timeout can't be negative")
    else if s.responseHeaderTimeout < 0 then Fail("response_header_timeout can't be negative")
    else if s.idleConnTimeout < 0 then Fail("idle_conn_timeout can't be negative")
    else if s.maxIdleConns < 0 then Fail("max_idle_conns can't be negative")
    else Pass
  }

  /** What `validate` accepts. */
  predicate RouteValid(s: RouteSettings) {
    CheckFields(s).Pass? && forall i :: 0 <= i < |s.middlewares| ==> Valid(s.middlewares[i])
  }

  /** The errors `validate` may give: the first failing field check, or
      else the error of the first invalid middleware entry. */
  ghost predicate RouteRejects(s: RouteSettings, e: string) {
    if CheckFields(s).Fail? then e == CheckFields(s).error else ListRejects(s.middlewares, e)
  }

  /** After defaults only negative values, the backend and the middleware
      entries can make a route invalid. */
  lemma DefaultedRouteValidIff(s: RouteSettings)
    ensures RouteValid(DefaultedRoute(s)) <==>
      && s.backend != "" && IsUrl(s.backend) && s.dialTimeout >= 0 && s.responseHeaderTimeout >= 0
      && s.idleConnTimeout >= 0 && s.maxIdleConns >= 0
      && forall i :: 0 <= i < |s.middlewares| ==> Valid(Defaulted(s.middlewares[i]))
  {
  }

  /** `RouteConfig`. */
  class RouteConfig {
    var backend: string
    var preserveHost: bool
    var dialTimeout: int
    var responseHeaderTimeout: int
    var idleConnTimeout: int
    var maxIdleConns: int
    var middlewares: seq<MiddlewareConfig>

    function Current(): RouteSettings
      reads this
    {
      RouteSettings(backend, preserveHost, dialTimeout, responseHeaderTimeout, idleConnTimeout, maxIdleConns, middlewares)
    }

    constructor(s: RouteSettings)
      ensures Current() == s
    {
      backend, preserveHost, dialTimeout, responseHeaderTimeout := s.backend, s.preserveHost, s.dialTimeout, s.responseHeaderTimeout;
      idleConnTimeout, maxIdleConns, middlewares := s.idleConnTimeout, s.maxIdleConns, s.middlewares;
    }

    /** `applyDefaults`: the zero fields assigned, then each middleware
        entry defaulted in place. */
    method ApplyDefaults()
      modifies this
      ensures Current() == DefaultedRoute(old(Current()))
    {
      if dialTimeout == 0 {
        dialTimeout := 10 * Second;
      }
      if responseHeaderTimeout == 0 {
        responseHeaderTimeout := 30 * Second;
      }
      if idleConnTimeout == 0 {
        idleConnTimeout := 90 * Second;
      }
      if maxIdleConns == 0 {
        maxIdleConns := 100;
      }
      middlewares := ApplyDefaultsEach(middlewares);
    }

    /** `validate`. */
    method Validate() returns (o: Outcome)
      ensures o.Pass? <==> RouteValid(Current())
      ensures o.Fail? ==> RouteRejects(Current(), o.error)
    {
      o := ValidateRoute(Current());
    }
  }

  /** `validate` on a route's contents: nil iff the route is valid,
      otherwise the error of the first failing check. */
  method ValidateRoute(s: RouteSettings) returns (o: Outcome)
    ensures o.Pass? <==> RouteValid(s)
    ensures o.Fail? ==> RouteRejects(s, o.error)
  {
    var fields := CheckFields(s);
    if fields.Fail? {
      return fields;
    }
    o := ValidateList(s.middlewares);
  }
}
