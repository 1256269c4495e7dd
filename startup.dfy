/** The start-up path of cmd/rp/main.go: the YAML configuration mapped to
    the proxy's own configuration (internal/proxy/config.go), the middleware
    entries built into instances, and the options each route is registered
    with. */
module Startup {
  import opened Wrappers
  import opened MiddlewareConfigs
  import opened RouteConfigs
  import opened ServerConfigs
  import opened LogConfigs
  import Configs
  import Middlewares
  import Routes
  import Strings

  /** `proxy.Config`: sizes in bytes, a possibly nil access-log section; the
      routes have the fields of the YAML route sections. */
  datatype ProxyConfig = ProxyConfig(
    server: ServerSettings,
    log: LogSettings,
    accessLog: Option<string>,
    routes: map<string, RouteSettings>,
    middlewares: seq<MiddlewareConfig>)

  /** Every entry of the list builds. */
  predicate AllBuild(cfgs: seq<MiddlewareConfig>) {
    forall i :: 0 <= i < |cfgs| ==> Build(cfgs[i]).Built?
  }

  /** Entry `i` is the first that does not build. */
  predicate FirstUnbuilt(cfgs: seq<MiddlewareConfig>, i: int) {
    0 <= i < |cfgs| && !Build(cfgs[i]).Built? && forall j :: 0 <= j < i ==> Build(cfgs[j]).Built?
  }

  /** How `buildMiddlewares` reports an entry that did not build: an error
      naming the entry's type, or the entry's panic. */
  function BuildFailure(c: MiddlewareConfig): (r: Built<seq<Instance>>)
    requires !Build(c).Built?
    ensures r.Failed? <==> Build(c).Failed?
    ensures r.Failed? ==> r.error == "failed to build middleware " + c.typ + ": " + Build(c).error
    ensures r.Panicked? ==> r.reason == Build(c).reason
  {
    match Build(c)
    case Failed(e) => Failed("failed to build middleware " + c.typ + ": " + e)
    case Panicked(p) => Panicked(p)
  }

  /** `buildMiddlewares`: every entry built in order, or the report of the
      first entry that did not build and nothing else. */
  method BuildMiddlewares(cfgs: seq<MiddlewareConfig>) returns (r: Built<seq<Instance>>)
    ensures r.Built? <==> AllBuild(cfgs)
    ensures r.Built? ==> |r.value| == |cfgs| && forall i :: 0 <= i < |cfgs| ==> r.value[i] == Build(cfgs[i]).value
    ensures !r.Built? ==> exists i :: FirstUnbuilt(cfgs, i) && r == BuildFailure(cfgs[i])
  {
    var built: seq<Instance> := [];
    for i := 0 to |cfgs|
      invariant |built| == i
      invariant forall j :: 0 <= j < i ==> Build(cfgs[j]).Built? && built[j] == Build(cfgs[j]).value
    {
      var b := Build(cfgs[i]);
      if !b.Built? {
        assert FirstUnbuilt(cfgs, i);
        return BuildFailure(cfgs[i]);
      }
      built := built + [b.value];
    }
    return Built(built);
  }

  /** A `headers` entry has both rule sets; other entries trivially. */
  predicate RulesPresent(c: MiddlewareConfig) {
    c.typ == "headers" ==> c.request.Some? && c.response.Some?
  }

  /** Every entry of a list accepted by validation builds, unless it is a
      `headers` entry missing a rule set. */
  lemma ValidatedListBuilds(cfgs: seq<MiddlewareConfig>)
    requires forall i :: 0 <= i < |cfgs| ==> Valid(cfgs[i])
    requires forall i :: 0 <= i < |cfgs| ==> RulesPresent(cfgs[i])
    ensures AllBuild(cfgs)
  {
    forall i | 0 <= i < |cfgs|
      ensures Build(cfgs[i]).Built?
    {
      ValidBuildsUnlessRulesMissing(cfgs[i]);
    }
  }

  /** An entry of an unknown type is reported with its type twice: once by
      `buildMiddlewares`, once by `Build`. */
  lemma UnknownTypeReport(c: MiddlewareConfig)
    requires c.typ !in ConfigurableTypes
    ensures BuildFailure(c) == Failed("failed to build middleware " + c.typ + ": " + "unknow middleware type: " + c.typ)
  {
    var e := "unknow middleware type: " + c.typ;
    assert Build(c) == Failed(e) by {
      assert Build(c).Failed? && Build(c).error == e;
    }
    FailureReport(c, e);
    Strings.ConcatAssoc("failed to build middleware " + c.typ + ": ", "unknow middleware type: ", c.typ);
  }

  /** The report of an entry whose construction failed with `e`. */
  lemma FailureReport(c: MiddlewareConfig, e: string)
    requires Build(c) == Failed(e)
    ensures BuildFailure(c) == Failed("failed to build middleware " + c.typ + ": " + e)
  {
  }

  /** A configuration that validation accepted builds everywhere, global
      entries and every route's entries, unless some `headers` entry misses
      a rule set. */
  lemma AcceptedConfigBuilds(c: Configs.ConfigState)
    requires c.server.Some? && c.log.Some? && Configs.ConfigValid(c)
    requires forall i :: 0 <= i < |c.middlewares| ==> RulesPresent(c.middlewares[i])
    requires forall h, i :: h in c.routes && 0 <= i < |c.routes[h].middlewares| ==> RulesPresent(c.routes[h].middlewares[i])
    ensures AllBuild(c.middlewares)
    ensures forall h :: h in c.routes ==> AllBuild(c.routes[h].middlewares)
  {
    ValidatedListBuilds(c.middlewares);
    forall h | h in c.routes
      ensures AllBuild(c.routes[h].middlewares)
    {
      ValidatedListBuilds(c.routes[h].middlewares);
    }
  }

  /** The global entries' instances and each host's instances. */
  datatype Instances = Instances(global: seq<Instance>, routes: map<string, seq<Instance>>)

  /** The instances `buildMiddlewares` makes of an all-building list. */
  function BuiltList(cfgs: seq<MiddlewareConfig>): (r: seq<Instance>)
    requires AllBuild(cfgs)
    ensures |r| == |cfgs| && forall i :: 0 <= i < |cfgs| ==> r[i] == Build(cfgs[i]).value
  {
    seq(|cfgs|, i requires 0 <= i < |cfgs| => Build(cfgs[i]).value)
  }

  /** A report of `buildMiddlewares` that did not build, wrapped by `run`
      with `prefix`; a panic passes through unchanged. */
  function Wrapped(prefix: string, b: Built<seq<Instance>>): (r: Built<Instances>)
    requires !b.Built?
    ensures r.Failed? <==> b.Failed?
    ensures r.Failed? ==> r.error == prefix + b.error
    ensures r.Panicked? ==> r.reason == b.reason
  {
    match b
    case Failed(e) => Failed(prefix + e)
    case Panicked(p) => Panicked(p)
  }

  /** The builds of `run`: the global entries first, then each route's own
      entries, hosts in no particular order. Everything builds, or the
      report names the global list or the failing route's host. */
  method BuildAll(global: seq<MiddlewareConfig>, routes: map<string, RouteSettings>) returns (r: Built<Instances>)
    ensures r.Built? <==> AllBuild(global) && forall h :: h in routes ==> AllBuild(routes[h].middlewares)
    ensures r.Built? ==> r.value.global == BuiltList(global)
    ensures r.Built? ==> r.value.routes.Keys == routes.Keys
    ensures r.Built? ==> forall h :: h in routes ==> r.value.routes[h] == BuiltList(routes[h].middlewares)
    ensures !r.Built? && !AllBuild(global) ==>
      exists i :: FirstUnbuilt(global, i) && r == Wrapped("failed to build global middlewares: ", BuildFailure(global[i]))
    ensures !r.Built? && AllBuild(global) ==>
      exists h, i :: h in routes && FirstUnbuilt(routes[h].middlewares, i)
                  && r == Wrapped("failed to build route " + h + " middlewares: ", BuildFailure(routes[h].middlewares[i]))
  {
    var g := BuildMiddlewares(global);
    if !g.Built? {
      return Wrapped("failed to build global middlewares: ", g);
    }
    assert g.value == BuiltList(global);
    var built: map<string, seq<Instance>> := map[];
    var todo := routes.Keys;
    while todo != {}
      invariant todo <= routes.Keys
      invariant built.Keys == routes.Keys - todo
      invariant forall h :: h in built ==> AllBuild(routes[h].middlewares) && built[h] == BuiltList(routes[h].middlewares)
      decreases todo
    {
      var h :| h in todo;
      var m := BuildMiddlewares(routes[h].middlewares);
      if !m.Built? {
        return Wrapped("failed to build route " + h + " middlewares: ", m);
      }
      assert m.value == BuiltList(routes[h].middlewares);
      built := built[h := m.value];
      todo := todo - {h};
    }
    return Built(Instances(g.value, built));
  }

  /** `MapConfig`: the two size strings parsed by `parseSize` (the size
      parser of the filesize package), the other fields copied. The global
      entries are not copied: `run` builds them from the YAML configuration
      itself. */
  method MapConfig(cli: Configs.Config, parseSize: string -> Result<int>) returns (r: Result<ProxyConfig>)
    requires cli.server != null && cli.log != null
    ensures var s := cli.server.Current();
      && (parseSize(s.maxHeaderBytes).Err? ==>
            r == Err("failed to parse max_header_bytes: " + parseSize(s.maxHeaderBytes).error))
      && (parseSize(s.maxHeaderBytes).Ok? && parseSize(s.maxRequestBody).Err? ==>
            r == Err("failed to parse max_request_body: " + parseSize(s.maxRequestBody).error))
      && (r.Ok? <==> parseSize(s.maxHeaderBytes).Ok? && parseSize(s.maxRequestBody).Ok?)
      && (r.Ok? ==> r.value.server == ServerSettings(s.listen, s.readTimeout, s.writeTimeout, s.idleTimeout,
                                        s.shutdownTimeout, parseSize(s.maxHeaderBytes).value, parseSize(s.maxRequestBody).value))
    ensures r.Ok? ==> r.value.log == cli.log.Current() && r.value.accessLog == cli.AccessLogFormat()
    ensures r.Ok? ==> r.value.routes == cli.routes && r.value.middlewares == []
  {
    var headerBytes := parseSize(cli.server.maxHeaderBytes);
    if headerBytes.Err? {
      return Err("failed to parse max_header_bytes: " + headerBytes.error);
    }
    var requestBody := parseSize(cli.server.maxRequestBody);
    if requestBody.Err? {
      return Err("failed to parse max_request_body: " + requestBody.error);
    }
    var server := ServerSettings(cli.server.listen, cli.server.readTimeout, cli.server.writeTimeout,
                                 cli.server.idleTimeout, cli.server.shutdownTimeout, headerBytes.value, requestBody.value);
    var accessLog := if cli.accessLog != null then Some(cli.accessLog.format) else None;
    var routes: map<string, RouteSettings> := map[];
    var todo := cli.routes.Keys;
    while todo != {}
      invariant todo <= cli.routes.Keys
      invariant routes.Keys == cli.routes.Keys - todo
      invariant forall h :: h in routes ==> routes[h] == cli.routes[h]
      decreases todo
    {
      var h :| h in todo;
      var route := cli.routes[h];
      routes := routes[h := RouteSettings(route.backend, route.preserveHost, route.dialTimeout,
                                          route.responseHeaderTimeout, route.idleConnTimeout,
                                          route.maxIdleConns, route.middlewares)];
      todo := todo - {h};
    }
    return Ok(ProxyConfig(server, LogSettings(cli.log.level, cli.log.format), accessLog, routes, []));
  }

  /** The options `run` registers a route with, in call order; `mws` is the
      route's built middleware. */
  function RouteOptions(route: RouteSettings, mws: seq<Middlewares.Middleware>): seq<Routes.RouteOption> {
    [Routes.WithPreserveHost(route.preserveHost),
     Routes.WithIdleConnTimeout(route.idleConnTimeout),
     Routes.WithResponseHeaderTimeout(route.responseHeaderTimeout),
     Routes.WithMaxIdleConns(route.maxIdleConns),
     Routes.WithDialTimeout(route.dialTimeout),
     Routes.WithMiddlewares(mws)]
  }

  /** A route registered by `run` has exactly its section's settings: every
      default of a new route is overridden, so `preserve_host` left out of
      the YAML (false) turns off the default host preservation. */
  lemma {:induction false} WiredRouteSettings(route: RouteSettings, mws: seq<Middlewares.Middleware>)
    ensures Routes.ApplyOptions(Routes.Defaults, RouteOptions(route, mws)) ==
      Routes.Settings(route.preserveHost,
        Routes.Transport(route.responseHeaderTimeout, route.idleConnTimeout, route.maxIdleConns, Some(route.dialTimeout)),
        mws)
  {
    var opts := RouteOptions(route, mws);
    var s0 := Routes.Defaults;
    assert opts[..1][..0] == opts[..0] && |opts[..0]| == 0;
    assert Routes.ApplyOptions(s0, opts[..0]) == s0;
    var s1 := Routes.ApplyOptions(s0, opts[..1]);
    assert s1 == Routes.ApplyOption(s0, opts[0]);
    assert opts[..2][..1] == opts[..1];
    var s2 := Routes.ApplyOptions(s0, opts[..2]);
    assert s2 == Routes.ApplyOption(s1, opts[1]);
    assert opts[..3][..2] == opts[..2];
    var s3 := Routes.ApplyOptions(s0, opts[..3]);
    assert s3 == Routes.ApplyOption(s2, opts[2]);
    assert opts[..4][..3] == opts[..3];
    var s4 := Routes.ApplyOptions(s0, opts[..4]);
    assert s4 == Routes.ApplyOption(s3, opts[3]);
    assert opts[..5][..4] == opts[..4];
    var s5 := Routes.ApplyOptions(s0, opts[..5]);
    assert s5 == Routes.ApplyOption(s4, opts[4]);
    assert opts[..6][..5] == opts[..5];
    assert opts[..6] == opts;
  }
}
