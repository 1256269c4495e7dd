/** A proxied route (pkg/proxy/route.go, and the identical `Route` of
    internal/proxy/route.go): its backend, its transport settings, the
    preserve-host flag and its own middleware, set up by defaults and then
    by functional options applied in order. */
module Routes {
  import opened Wrappers
  import opened Http
  import opened Middlewares
  import Merge
  import Forwarding
  import Strings
  import opened GoMath

  /** The `http.Transport` fields a route sets; the dial timeout is only known
      once `WithDialTimeout` was applied. */
  datatype Transport = Transport(responseHeaderTimeout: int, idleConnTimeout: int, maxIdleConns: int, dialTimeout: Option<int>)

  /** The functional options, each a closure over one value. */
  datatype RouteOption =
    | WithPreserveHost(preserve: bool)
    | WithIdleConnTimeout(idle: int)
    | WithResponseHeaderTimeout(responseHeader: int)
    | WithMaxIdleConns(maxIdle: int)
    | WithDialTimeout(dial: int)
    | WithMiddlewares(mws: seq<Middleware>)

  /** Everything about a route that the options can change. */
  datatype Settings = Settings(preserveHost: bool, transport: Transport, middlewares: seq<Middleware>)

  /** A new route: host preserved, no middleware, 30s to the response header,
      90s idle connections, at most 100 of them. */
  const Defaults := Settings(true, Transport(30 * Second, 90 * Second, 100, None), [])

  /** What one option does to the settings. */
  function ApplyOption(s: Settings, opt: RouteOption): Settings {
    match opt
    case WithPreserveHost(p) => s.(preserveHost := p)
    case WithIdleConnTimeout(t) => s.(transport := s.transport.(idleConnTimeout := t))
    case WithResponseHeaderTimeout(t) => s.(transport := s.transport.(responseHeaderTimeout := t))
    case WithMaxIdleConns(n) => s.(transport := s.transport.(maxIdleConns := n))
    case WithDialTimeout(t) => s.(transport := s.transport.(dialTimeout := Some(t)))
    case WithMiddlewares(m) => s.(middlewares := s.middlewares + m)
  }

  /** The options applied left to right. */
  function ApplyOptions(s: Settings, opts: seq<RouteOption>): Settings
    decreases |opts|
  {
    if |opts| == 0 then s
    else ApplyOption(ApplyOptions(s, opts[..|opts| - 1]), opts[|opts| - 1])
  }

  /** Applying two lists of options is applying their concatenation. */
  lemma {:induction false} OptionsCompose(s: Settings, a: seq<RouteOption>, b: seq<RouteOption>)
    ensures ApplyOptions(s, a + b) == ApplyOptions(ApplyOptions(s, a), b)
    decreases |b|
  {
    if |b| == 0 {
      assert a + b == a;
    } else {
      var n := |b| - 1;
      assert (a + b)[..|a + b| - 1] == a + b[..n];
      OptionsCompose(s, a, b[..n]);
    }
  }

  /** Each option changes only its own field. */
  lemma OptionChangesOwnField(s: Settings, opt: RouteOption)
    ensures var r := ApplyOption(s, opt);
      && (!opt.WithPreserveHost? ==> r.preserveHost == s.preserveHost)
      && (!opt.WithMiddlewares? ==> r.middlewares == s.middlewares)
      && (!opt.WithIdleConnTimeout? ==> r.transport.idleConnTimeout == s.transport.idleConnTimeout)
      && (!opt.WithResponseHeaderTimeout? ==> r.transport.responseHeaderTimeout == s.transport.responseHeaderTimeout)
      && (!opt.WithMaxIdleConns? ==> r.transport.maxIdleConns == s.transport.maxIdleConns)
      && (!opt.WithDialTimeout? ==> r.transport.dialTimeout == s.transport.dialTimeout)
  {
  }

  /** The last `WithPreserveHost` decides the flag. */
  lemma {:induction false} PreserveHostLastWins(s: Settings, opts: seq<RouteOption>, i: int)
    requires 0 <= i < |opts| && opts[i].WithPreserveHost?
    requires forall j :: i < j < |opts| ==> !opts[j].WithPreserveHost?
    ensures ApplyOptions(s, opts).preserveHost == opts[i].preserve
    decreases |opts|
  {
    var n := |opts| - 1;
    if i < n {
      PreserveHostLastWins(s, opts[..n], i);
    }
  }

  /** Without a `WithPreserveHost` the flag keeps its value. */
  lemma {:induction false} PreserveHostKept(s: Settings, opts: seq<RouteOption>)
    requires forall j :: 0 <= j < |opts| ==> !opts[j].WithPreserveHost?
    ensures ApplyOptions(s, opts).preserveHost == s.preserveHost
    decreases |opts|
  {
    if |opts| > 0 {
      PreserveHostKept(s, opts[..|opts| - 1]);
    }
  }

  /** The last `WithIdleConnTimeout` decides the idle timeout. */
  lemma {:induction false} IdleConnTimeoutLastWins(s: Settings, opts: seq<RouteOption>, i: int)
    requires 0 <= i < |opts| && opts[i].WithIdleConnTimeout?
    requires forall j :: i < j < |opts| ==> !opts[j].WithIdleConnTimeout?
    ensures ApplyOptions(s, opts).transport.idleConnTimeout == opts[i].idle
    decreases |opts|
  {
    var n := |opts| - 1;
    if i < n {
      IdleConnTimeoutLastWins(s, opts[..n], i);
    }
  }

  /** The middleware all `WithMiddlewares` options in the list contribute, in
      list order. */
  function OptionMiddlewares(opts: seq<RouteOption>): seq<Middleware>
    decreases |opts|
  {
    if |opts| == 0 then []
    else (if opts[0].WithMiddlewares? then opts[0].mws else []) + OptionMiddlewares(opts[1..])
  }

  lemma {:induction false} OptionMiddlewaresSnoc(opts: seq<RouteOption>, o: RouteOption)
    ensures OptionMiddlewares(opts + [o]) == OptionMiddlewares(opts) + (if o.WithMiddlewares? then o.mws else [])
    decreases |opts|
  {
    if |opts| == 0 {
      assert [o][1..] == [];
    } else {
      assert (opts + [o])[1..] == opts[1..] + [o];
      OptionMiddlewaresSnoc(opts[1..], o);
      Strings.ConcatAssoc(if opts[0].WithMiddlewares? then opts[0].mws else [],
                          OptionMiddlewares(opts[1..]), if o.WithMiddlewares? then o.mws else []);
    }
  }

  /** `WithMiddlewares` appends and never replaces: the route's list is the
      starting list followed by every option's middleware in call order. */
  lemma {:induction false} MiddlewaresAccumulate(s: Settings, opts: seq<RouteOption>)
    ensures ApplyOptions(s, opts).middlewares == s.middlewares + OptionMiddlewares(opts)
    decreases |opts|
  {
    if |opts| > 0 {
      var n := |opts| - 1;
      MiddlewaresAccumulate(s, opts[..n]);
      OptionMiddlewaresSnoc(opts[..n], opts[n]);
      assert opts[..n] + [opts[n]] == opts;
    }
  }

  /** The outcome of `handle` up to the moment its handler chain runs. */
  datatype Handled =
    | Panicked(reason: string)                             // a Go run-time panic
    | Answered(resp: Response)                             // answered before any middleware ran
    | Chained(backendReq: Request, handler: Chain<Middleware>) // the chain that serves the request

  /** The common part of both proxy generations: dereference the backend
      (a nil one panics), create the backend request (a failure answers 500),
      build it, and wrap the base handler in `layers`. `createErr` is the error
      `http.NewRequestWithContext` returns, if any. */
  function Prepare(backend: Option<Url>, preserveHost: bool, req: Request, resp: Response,
                   layers: seq<Middleware>, join: (string, string) -> string, createErr: Option<string>): (h: Handled)
    ensures h.Panicked? <==> backend.None?
    ensures h.Answered? <==> backend.Some? && createErr.Some?
    ensures h.Answered? ==> h.resp == Error(resp, "Failed to create backend request: " + createErr.value, 500)
    ensures h.Chained? ==> Layers(h.handler) == layers
    ensures h.Chained? ==> h.backendReq == Forwarding.BackendRequestSpec(req, backend.value, preserveHost, join)
  {
    match backend
    case None => Panicked("invalid memory address or nil pointer dereference")
    case Some(b) =>
      if createErr.Some? then Answered(Error(resp, "Failed to create backend request: " + createErr.value, 500))
      else Chained(Forwarding.BackendRequestSpec(req, b, preserveHost, join), ChainOf(layers))
  }

  /** The middleware `handle` wraps around the base handler: the merge of the
      global and route lists, then the max-body limit, then recovery. */
  function HandleLayers(global: seq<Middleware>, route: seq<Middleware>, maxRequestBody: int): seq<Middleware> {
    Merge.Merged(global, route) + [Middleware(MaxRequestBody, maxRequestBody), Middleware(Recovery, 0)]
  }

  /** Recovery is the innermost layer, directly around the base handler, with
      the body limit just outside it, and the chain has every kind of the
      global and route lists. */
  lemma HandleLayersShape(global: seq<Middleware>, route: seq<Middleware>, maxRequestBody: int)
    ensures var l := HandleLayers(global, route, maxRequestBody);
      && |l| >= 2
      && l[|l| - 1].tag == Recovery && l[|l| - 2] == Middleware(MaxRequestBody, maxRequestBody)
      && Tags(l) == Tags(global) + Tags(route) + {MaxRequestBody, Recovery}
  {
    var m := Merge.Merged(global, route);
    var tail := [Middleware(MaxRequestBody, maxRequestBody), Middleware(Recovery, 0)];
    Merge.MergeTags(global, route);
    Merge.TagsConcat(m, tail);
    assert Tags(tail) == {MaxRequestBody, Recovery} by {
      assert tail[0] in tail && tail[1] in tail;
    }
  }

  /** No kind occurs twice in the chain when neither list repeats one and
      neither holds a max-body or recovery instance. */
  lemma HandleLayersDistinct(global: seq<Middleware>, route: seq<Middleware>, maxRequestBody: int)
    requires DistinctTags(global) && DistinctTags(route)
    requires MaxRequestBody !in Tags(global) + Tags(route) && Recovery !in Tags(global) + Tags(route)
    ensures DistinctTags(HandleLayers(global, route, maxRequestBody))
  {
    Merge.MergeTags(global, route);
    Merge.MergeDistinct(global, route);
    DistinctBeforeLimits(Merge.Merged(global, route), maxRequestBody);
  }

  /** A list without repeated kinds, max-body and recovery keeps that
      property with those two appended. */
  lemma DistinctBeforeLimits(m: seq<Middleware>, maxRequestBody: int)
    requires DistinctTags(m) && MaxRequestBody !in Tags(m) && Recovery !in Tags(m)
    ensures DistinctTags(m + [Middleware(MaxRequestBody, maxRequestBody), Middleware(Recovery, 0)])
  {
    var tail := [Middleware(MaxRequestBody, maxRequestBody), Middleware(Recovery, 0)];
    assert Tags(tail) == {MaxRequestBody, Recovery} by {
      assert tail[0] in tail && tail[1] in tail;
    }
    DistinctConcat(m, tail);
  }

  class Route {
    /** `nil` when the backend URL did not parse. */
    const backend: Option<Url>
    var preserveHost: bool
    var transport: Transport
    var middlewares: seq<Middleware>

    function Current(): Settings
      reads this
    {
      Settings(preserveHost, transport, middlewares)
    }

    /** `newRoute(backend, opts...)`: the defaults, then each option in order. */
    constructor(backend: Option<Url>, opts: seq<RouteOption>)
      ensures this.backend == backend
      ensures Current() == ApplyOptions(Defaults, opts)
    {
      this.backend := backend;
      preserveHost := true;
      transport := Transport(30 * Second, 90 * Second, 100, None);
      middlewares := [];
      new;
      for i := 0 to |opts|
        invariant Current() == ApplyOptions(Defaults, opts[..i])
      {
        assert opts[..i + 1][..i] == opts[..i];
        Apply(opts[i]);
      }
      assert opts[..|opts|] == opts;
    }

    /** Runs one option closure on the route. */
    method Apply(opt: RouteOption)
      modifies this
      ensures Current() == ApplyOption(old(Current()), opt)
    {
      match opt
      case WithPreserveHost(p) => preserveHost := p;
      case WithIdleConnTimeout(t) => transport := transport.(idleConnTimeout := t);
      case WithResponseHeaderTimeout(t) => transport := transport.(responseHeaderTimeout := t);
      case WithMaxIdleConns(n) => transport := transport.(maxIdleConns := n);
      case WithDialTimeout(t) => transport := transport.(dialTimeout := Some(t));
      case WithMiddlewares(m) => middlewares := middlewares + m;
    }

    /** `handle` up to the start of the handler chain: the backend request it
        builds and the chain it assembles. `join` is `path.Join`. */
    method Handle(req: Request, resp: Response, maxRequestBody: int, global: seq<Middleware>,
                  join: (string, string) -> string, createErr: Option<string>) returns (out: Handled)
      ensures out == Prepare(backend, preserveHost, req, resp, HandleLayers(global, middlewares, maxRequestBody), join, createErr)
    {
      if backend.None? {
        return Panicked("invalid memory address or nil pointer dereference");
      }
      if createErr.Some? {
        return Answered(Error(resp, "Failed to create backend request: " + createErr.value, 500));
      }
      var backendReq := Forwarding.BuildBackendRequest(req, backend.value, preserveHost, join);
      var merged := Merge.MergeMiddlewares(global, middlewares);
      var all := merged + [Middleware(MaxRequestBody, maxRequestBody), Middleware(Recovery, 0)];
      var handler := ApplyMiddlewares(Base, all);
      LayersInjective(handler, ChainOf(all));
      out := Chained(backendReq, handler);
    }
  }
}
