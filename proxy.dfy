/** The proxy of pkg/proxy/proxy.go: a host router of routes and the global
    middleware list, dispatching each request by its Host. */
module Proxies {
  import opened Wrappers
  import opened Http
  import opened Middlewares
  import opened HostRouter
  import Routes

  /** What `serveHTTP` does with a request: answers it itself, or hands it to
      the route the router chose. */
  datatype Dispatch =
    | Rejected(resp: Response)
    | Routed(route: Routes.Route, handled: Routes.Handled)

  class Proxy {
    const router: Router<Routes.Route>
    var middlewares: seq<Middleware>
    /** `cfg.Server.MaxRequestBody`, the limit `handle` passes to max-body. */
    const maxRequestBody: int

    ghost predicate Valid()
      reads this, router
    {
      router.Valid()
    }

    /** `New`: an empty router and no global middleware. */
    constructor(maxRequestBody: int)
      ensures Valid() && fresh(router)
      ensures router.exact == map[] && router.wildcards == map[]
      ensures middlewares == [] && this.maxRequestBody == maxRequestBody
    {
      router := new Router<Routes.Route>();
      middlewares := [];
      this.maxRequestBody := maxRequestBody;
    }

    /** `Use`: the new middleware go after the ones already registered. */
    method Use(mws: seq<Middleware>)
      modifies this
      ensures middlewares == old(middlewares) + mws
    {
      middlewares := middlewares + mws;
    }

    /** `Route`: the route is built from whatever `url.Parse` returned and is
        registered even when parsing failed, with a nil backend. `parse` is
        `url.Parse`, `None` standing for its error. */
    method Route(host: string, backend: string, parse: string -> Option<Url>, opts: seq<Routes.RouteOption>)
      returns (rt: Routes.Route)
      requires Valid()
      modifies router
      ensures Valid() && fresh(rt)
      ensures rt.backend == parse(backend)
      ensures rt.Current() == Routes.ApplyOptions(Routes.Defaults, opts)
      ensures var p := PrepareHost(host);
        if IsWildcard(p) then router.wildcards == old(router.wildcards)[p := rt] && router.exact == old(router.exact)
        else router.exact == old(router.exact)[p := rt] && router.wildcards == old(router.wildcards)
    {
      var backendUrl := parse(backend);
      rt := new Routes.Route(backendUrl, opts);
      router.Add(host, rt);
    }

    /** `serveHTTP`: an empty Host is answered 400 without consulting the
        router, a host without a route 404; otherwise the request goes to the
        route the router returns, whose `handle` sees the global list. */
    method ServeHTTP(req: Request, resp: Response, join: (string, string) -> string, createErr: Option<string>)
      returns (d: Dispatch)
      ensures req.host == "" ==> d == Rejected(Error(resp, "Missing Host header", 400))
      ensures var p := PrepareHost(req.host);
        req.host != "" ==>
          (d.Rejected? <==> p !in router.exact && forall k :: k in router.wildcards ==> !MatchWildcard(p, k))
      ensures req.host != "" && d.Rejected? ==> d.resp == Error(resp, "No route found for host", 404)
      ensures var p := PrepareHost(req.host);
        d.Routed? ==>
          && (p in router.exact ==> d.route == router.exact[p])
          && (p !in router.exact ==> exists k :: k in router.wildcards && MatchWildcard(p, k) && router.wildcards[k] == d.route)
          && d.handled == Routes.Prepare(d.route.backend, d.route.preserveHost, req, resp,
                                         Routes.HandleLayers(middlewares, d.route.middlewares, maxRequestBody), join, createErr)
    {
      if req.host == "" {
        return Rejected(Error(resp, "Missing Host header", 400));
      }
      var found := router.Lookup(req.host);
      if found.None? {
        return Rejected(Error(resp, "No route found for host", 404));
      }
      var handled := found.value.Handle(req, resp, maxRequestBody, middlewares, join, createErr);
      d := Routed(found.value, handled);
    }
  }

  /** Two `Use` calls keep their order: the first call's middleware run
      outside the second's. */
  method UseTwice(a: seq<Middleware>, b: seq<Middleware>) returns (global: seq<Middleware>)
    ensures global == a + b
  {
    var p := new Proxy(0);
    p.Use(a);
    p.Use(b);
    global := p.middlewares;
  }
}
