/** The older proxy of internal/proxy/handler.go. It dispatches like the
    newer one and builds the same backend request, but it composes the chain
    differently: the global middleware, then max-body and recovery, then the
    route's own middleware, with no override by kind. It also logs the
    request when an access log is configured. */
module LegacyProxies {
  import opened Wrappers
  import opened Http
  import opened Middlewares
  import opened HostRouter
  import Routes
  import Proxies
  import ProxyAccessLog
  import Forwarding

  /** The chain of `ServeHTTP`, first element outermost. */
  function LegacyLayers(global: seq<Middleware>, route: seq<Middleware>, maxRequestBody: int): seq<Middleware> {
    global + [Middleware(MaxRequestBody, maxRequestBody), Middleware(Recovery, 0)] + route
  }

  /** The global middleware come first and keep their order, then max-body and
      recovery, and the route's middleware come after recovery, so they run
      inside it; the chain is as long as its three parts together. */
  lemma LegacyLayersShape(global: seq<Middleware>, route: seq<Middleware>, maxRequestBody: int)
    ensures var l := LegacyLayers(global, route, maxRequestBody);
      && |l| == |global| + 2 + |route|
      && l[..|global|] == global
      && l[|global|] == Middleware(MaxRequestBody, maxRequestBody)
      && l[|global| + 1].tag == Recovery
      && l[|global| + 2..] == route
  {
    var l := LegacyLayers(global, route, maxRequestBody);
    assert l[..|global|] == global;
    assert l[|global| + 2..] == route;
  }

  /** A kind in both lists is not merged: the global instance and the route
      instance both stay in the chain, at their own positions, while the
      newer proxy keeps only the route's instance. */
  lemma BothInstancesKept(global: seq<Middleware>, route: seq<Middleware>, maxRequestBody: int, i: int, j: int)
    requires 0 <= i < |global| && 0 <= j < |route| && global[i].tag == route[j].tag
    ensures var l := LegacyLayers(global, route, maxRequestBody);
      l[i] == global[i] && l[|global| + 2 + j] == route[j] && i < |global| + 2 + j
  {
    LegacyLayersShape(global, route, maxRequestBody);
  }

  class LegacyProxy {
    const router: Router<Routes.Route>
    var gmiddlewares: seq<Middleware>
    /** `cfg.Server.MaxRequestBody`. */
    const maxRequestBody: int
    /** The format of `cfg.AccessLog`, `None` when there is none. */
    const accessLog: Option<string>

    ghost predicate Valid()
      reads this, router
    {
      router.Valid()
    }

    constructor(maxRequestBody: int, accessLog: Option<string>)
      ensures Valid() && fresh(router)
      ensures router.exact == map[] && router.wildcards == map[]
      ensures gmiddlewares == [] && this.maxRequestBody == maxRequestBody && this.accessLog == accessLog
    {
      router := new Router<Routes.Route>();
      gmiddlewares := [];
      this.maxRequestBody := maxRequestBody;
      this.accessLog := accessLog;
    }

    /** `Use`: the new middleware go after the ones already registered. */
    method Use(mws: seq<Middleware>)
      modifies this
      ensures gmiddlewares == old(gmiddlewares) + mws
    {
      gmiddlewares := gmiddlewares + mws;
    }

    /** `Route`: the route is built from whatever `url.Parse` returned, a nil
        backend on failure, and registered under the prepared host. `parse` is
        `url.Parse`, `None` standing for its error. */
    method Route(host: string, backend: string, parse: string -> Option<Url>, opts: seq<Routes.RouteOption>)
      returns (rt: Routes.Route)
      requires Valid()
      modifies router
      ensures Valid() && fresh(rt)
      ensures rt.backend == parse(backend)
      ensures rt.Current() == Routes.ApplyOptions(Routes.Defaults, opts)
      ensures var p := PrepareHost(host);
        if IsWildcard(p) then router.wildcards == old(router.wildcards)[p := rt] && router.exact == old(router.exact)
        else router.exact == old(router.exact)[p := rt] && router.wildcards == old(router.wildcards)
    {
      var backendUrl := parse(backend);
      rt := new Routes.Route(backendUrl, opts);
      router.Add(host, rt);
    }

    /** `ServeHTTP`: 400 for an empty Host and 404 for a host without a route,
        as in the newer proxy; a nil backend panics when dereferenced and a
        failed backend request is answered 500; otherwise the backend request
        is built and the chain assembled. The access log is only deferred
        once the chain is about to run, and only when configured; its line is
        `logAccess`'s of internal/proxy/accessLog.go. `time` is the start time,
        formatted. */
    method ServeHTTP(req: Request, resp: Response, join: (string, string) -> string, createErr: Option<string>, time: string)
      returns (d: Proxies.Dispatch, logged: bool, line: Option<string>)
      ensures req.host == "" ==> d == Proxies.Rejected(Error(resp, "Missing Host header", 400))
      ensures var p := PrepareHost(req.host);
        req.host != "" ==>
          (d.Rejected? <==> p !in router.exact && forall k :: k in router.wildcards ==> !MatchWildcard(p, k))
      ensures req.host != "" && d.Rejected? ==> d.resp == Error(resp, "No route found for host", 404)
      ensures var p := PrepareHost(req.host);
        d.Routed? ==>
          && (p in router.exact ==> d.route == router.exact[p])
          && (p !in router.exact ==> exists k :: k in router.wildcards && MatchWildcard(p, k) && router.wildcards[k] == d.route)
          && d.handled == Routes.Prepare(d.route.backend, d.route.preserveHost, req, resp,
                                         LegacyLayers(gmiddlewares, d.route.middlewares, maxRequestBody), join, createErr)
      ensures logged <==> d.Routed? && d.handled.Chained? && accessLog.Some?
      ensures logged ==> line == ProxyAccessLog.LegacyLogAccess(accessLog.value, req, time)
      ensures !logged ==> line == None
    {
      logged, line := false, None;
      if req.host == "" {
        return Proxies.Rejected(Error(resp, "Missing Host header", 400)), logged, line;
      }
      var found := router.Lookup(req.host);
      if found.None? {
        return Proxies.Rejected(Error(resp, "No route found for host", 404)), logged, line;
      }
      var handled;
      handled, logged, line := ServeRoute(found.value, req, resp, join, createErr, time);
      d := Proxies.Routed(found.value, handled);
    }

    /** The part of `ServeHTTP` after the route is found: the backend is
        dereferenced, the backend request created and built, the access log
        deferred when configured, and the chain assembled. */
    method ServeRoute(route: Routes.Route, req: Request, resp: Response, join: (string, string) -> string,
                      createErr: Option<string>, time: string)
      returns (handled: Routes.Handled, logged: bool, line: Option<string>)
      ensures handled == Routes.Prepare(route.backend, route.preserveHost, req, resp,
                                        LegacyLayers(gmiddlewares, route.middlewares, maxRequestBody), join, createErr)
      ensures logged <==> handled.Chained? && accessLog.Some?
      ensures logged ==> line == ProxyAccessLog.LegacyLogAccess(accessLog.value, req, time)
      ensures !logged ==> line == None
    {
      logged, line := false, None;
      if route.backend.None? {
        return Routes.Panicked("invalid memory address or nil pointer dereference"), logged, line;
      }
      if createErr.Some? {
        var answer := Error(resp, "Failed to create backend request: " + createErr.value, 500);
        return Routes.Answered(answer), logged, line;
      }
      var backendReq := Forwarding.BuildBackendRequest(req, route.backend.value, route.preserveHost, join);
      if accessLog.Some? {
        logged := true;
        line := ProxyAccessLog.LegacyLogAccess(accessLog.value, req, time);
      }
      var globals := gmiddlewares + [Middleware(MaxRequestBody, maxRequestBody), Middleware(Recovery, 0)];
      var all := globals + route.middlewares;
      var handler := ApplyMiddlewares(Base, all);
      LayersInjective(handler, ChainOf(all));
      handled := Routes.Chained(backendReq, handler);
    }
  }
}
