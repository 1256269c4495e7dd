/** The rate-limit middleware of pkg/middleware/ratelimit.go: the client IP
    of a request, and a cache of one token-bucket limiter per IP.

    `net.ParseIP` followed by `IP.String` is the parameter `parseIP`: the
    canonical text of an address, `None` when the text is not one. The token
    bucket itself is not modelled: whether `Allow` grants a token is the
    parameter `allow`. */
module RateLimits {
  import opened Wrappers
  import opened Strings
  import opened Http
  import GoMath
  import Forwarding

  /** The last comma-separated element of `X-Forwarded-For`, untrimmed. */
  function LastForwarded(h: Header): string {
    var parts := Split(Get(h, "X-Forwarded-For"), ',');
    parts[|parts| - 1]
  }

  /** `getIP`: a last `X-Forwarded-For` element that parses as an IP wins, in
      canonical form; otherwise the host of `RemoteAddr`, which must split off
      a port and parse, with `::1` reported as `127.0.0.1`. */
  function GetIP(req: Request, parseIP: string -> Option<string>): (r: Result<string>)
    ensures parseIP(LastForwarded(req.header)).Some? ==> r == Ok(parseIP(LastForwarded(req.header)).value)
    ensures parseIP(LastForwarded(req.header)).None? ==>
      match SplitHostPort(req.remoteAddr)
      case None => r == Err("invalid RemoteAddr")
      case Some((host, _)) =>
        && (parseIP(host).None? ==> r == Err("failed to parse IP: " + host))
        && (parseIP(host) == Some("::1") ==> r == Ok("127.0.0.1"))
        && (parseIP(host).Some? && parseIP(host) != Some("::1") ==> r == Ok(parseIP(host).value))
  {
    var fromHeader := parseIP(LastForwarded(req.header));
    if fromHeader.Some? then Ok(fromHeader.value)
    else
      match SplitHostPort(req.remoteAddr)
      case None => Err("invalid RemoteAddr")
      case Some((host, _)) =>
        match parseIP(host)
        case None => Err("failed to parse IP: " + host)
        case Some(ip) => if ip == "::1" then Ok("127.0.0.1") else Ok(ip)
  }

  /** A forwarded address that parses makes `RemoteAddr` irrelevant. */
  lemma ForwardedIgnoresRemoteAddr(req: Request, parseIP: string -> Option<string>, addr: string)
    requires parseIP(LastForwarded(req.header)).Some?
    ensures GetIP(req.(remoteAddr := addr), parseIP) == GetIP(req, parseIP)
  {
  }

  /** The `::1` mapping is only applied on the `RemoteAddr` path: a forwarded
      `::1` is reported as it is. */
  lemma LoopbackMappedOnlyFromRemoteAddr(req: Request, parseIP: string -> Option<string>)
    requires parseIP(LastForwarded(req.header)) == Some("::1")
    ensures GetIP(req, parseIP) == Ok("::1")
  {
  }

  /** Behind a hop of this proxy, the next hop's rate limiter sees the client
      the hop saw: the address the forwarded-header rewrite appended. */
  lemma {:induction false} NextHopSeesClient(inbound: Request, next: Request, parseIP: string -> Option<string>)
    requires next.header == Forwarding.ForwardedHeaders(inbound.header, inbound)
    requires ',' !in ClientHost(inbound.remoteAddr)
    requires parseIP(ClientHost(inbound.remoteAddr)).Some?
    ensures GetIP(next, parseIP) == Ok(parseIP(ClientHost(inbound.remoteAddr)).value)
  {
    var client := ClientHost(inbound.remoteAddr);
    var xff := Forwarding.ForwardedFor(Get(inbound.header, "X-Forwarded-For"), client);
    assert Get(next.header, "X-Forwarded-For") == xff;
    Forwarding.ForwardedForAppendsHop(Get(inbound.header, "X-Forwarded-For"), client);
  }

  /** No trimming: in `"1.1.1.1, 2.2.2.2"` the last element is `" 2.2.2.2"`,
      which `net.ParseIP` rejects, so the `RemoteAddr` path decides. */
  lemma UntrimmedElementFallsBack(req: Request, parseIP: string -> Option<string>)
    requires Get(req.header, "X-Forwarded-For") == "1.1.1.1, 2.2.2.2"
    requires parseIP(" 2.2.2.2") == None
    requires req.remoteAddr == "10.0.0.1:4000" && parseIP("10.0.0.1") == Some("10.0.0.1")
    ensures GetIP(req, parseIP) == Ok("10.0.0.1")
  {
    UntrimmedLastElement(req.header);
    ExampleRemoteAddr();
  }

  lemma UntrimmedLastElement(h: Header)
    requires Get(h, "X-Forwarded-For") == "1.1.1.1, 2.2.2.2"
    ensures LastForwarded(h) == " 2.2.2.2"
  {
    var b := " 2.2.2.2";
    assert ',' !in b by {
      forall i | 0 <= i < |b| ensures b[i] != ',' {
      }
    }
    assert "1.1.1.1, 2.2.2.2" == "1.1.1.1" + "," + b;
    LastElementAfterComma(h, "1.1.1.1", b);
  }

  lemma LastElementAfterComma(h: Header, a: string, b: string)
    requires Get(h, "X-Forwarded-For") == a + "," + b
    requires a != "" && ',' !in b
    ensures LastForwarded(h) == b
  {
    assert a + "," + b == Forwarding.ForwardedFor(a, b);
    Forwarding.ForwardedForAppendsHop(a, b);
  }

  lemma ExampleRemoteAddr()
    ensures SplitHostPort("10.0.0.1:4000") == Some(("10.0.0.1", "4000"))
  {
    SplitJoinedHostPort("10.0.0.1", "4000");
    assert "10.0.0.1:4000" == "10.0.0.1" + ":" + "4000";
  }

  /** The refill interval `Window / Requests` as Go divides durations, and a
      `Requests` of zero, which makes that division panic. */
  function Interval(window: int, requests: int): (r: Option<int>)
    ensures r.None? <==> requests == 0
    ensures r.Some? ==> r.value == GoMath.TruncDiv(window, requests)
  {
    if requests == 0 then None else Some(GoMath.TruncDiv(window, requests))
  }

  /** A token-bucket limiter: one token per `every` nanoseconds, `burst` at once. */
  datatype Limiter = Limiter(every: int, burst: int)

  /** `RatelimitConfig` with its cache of limiters per IP. */
  class RateLimitConfig {
    const requests: int
    const window: int
    const burst: int
    var limiters: map<string, Limiter>

    constructor(requests: int, window: int, burst: int)
      ensures this.requests == requests && this.window == window && this.burst == burst
      ensures limiters == map[]
    {
      this.requests := requests;
      this.window := window;
      this.burst := burst;
      limiters := map[];
    }

    /** The handler as written. A failed `getIP` answers 500. A cached IP
        reuses its limiter: 429 without a token, the next handler otherwise.
        A new IP has a limiter created and stored, but the local variable the
        handler calls `Allow` on is still nil, so the first request of every
        IP panics; so does any request that has to divide by zero `Requests`. */
    method Handle(req: Request, resp: Response, parseIP: string -> Option<string>, allow: bool) returns (s: Step)
      modifies this
      ensures GetIP(req, parseIP).Err? ==> s == Reply(Error(resp, "Internal Server Error", 500)) && limiters == old(limiters)
      ensures GetIP(req, parseIP).Ok? ==>
        var ip := GetIP(req, parseIP).value;
        && (ip in old(limiters) ==>
              limiters == old(limiters) && s == (if allow then Next(req, resp) else Reply(Error(resp, "Rate limit exceeded", 429))))
        && (ip !in old(limiters) && requests == 0 ==> s == Panic("integer divide by zero") && limiters == old(limiters))
        && (ip !in old(limiters) && requests != 0 ==>
              s == Panic("invalid memory address or nil pointer dereference")
              && limiters == old(limiters)[ip := Limiter(GoMath.TruncDiv(window, requests), burst)])
    {
      var ip := GetIP(req, parseIP);
      if ip.Err? {
        return Reply(Error(resp, "Internal Server Error", 500));
      }
      var limiter: Option<Limiter> := None;
      if ip.value in limiters {
        limiter := Some(limiters[ip.value]);
      } else {
        var every := Interval(window, requests);
        if every.None? {
          return Panic("integer divide by zero");
        }
        limiters := limiters[ip.value := Limiter(every.value, burst)];
      }
      if limiter.None? {
        return Panic("invalid memory address or nil pointer dereference");
      }
      if !allow {
        return Reply(Error(resp, "Rate limit exceeded", 429));
      }
      s := Next(req, resp);
    }

    /** The handler as evidently intended: on a miss the limiter just created
        and stored is the one asked for a token. No request panics once
        `Requests` is non-zero, and the next handler runs exactly when a
        token is granted. */
    method HandleCorrected(req: Request, resp: Response, parseIP: string -> Option<string>, allow: bool) returns (s: Step)
      requires requests != 0
      modifies this
      ensures !s.Panic?
      ensures s.Next? <==> GetIP(req, parseIP).Ok? && allow
      ensures s.Next? ==> s == Next(req, resp)
      ensures GetIP(req, parseIP).Err? ==> s == Reply(Error(resp, "Internal Server Error", 500)) && limiters == old(limiters)
      ensures GetIP(req, parseIP).Ok? && !allow ==> s == Reply(Error(resp, "Rate limit exceeded", 429))
      ensures GetIP(req, parseIP).Ok? ==>
        var ip := GetIP(req, parseIP).value;
        && (ip in old(limiters) ==> limiters == old(limiters))
        && (ip !in old(limiters) ==> limiters == old(limiters)[ip := Limiter(GoMath.TruncDiv(window, requests), burst)])
    {
      var ip := GetIP(req, parseIP);
      if ip.Err? {
        return Reply(Error(resp, "Internal Server Error", 500));
      }
      var limiter: Limiter;
      if ip.value in limiters {
        limiter := limiters[ip.value];
      } else {
        var every := Interval(window, requests);
        limiter := Limiter(every.value, burst);
        limiters := limiters[ip.value := limiter];
      }
      if !allow {
        return Reply(Error(resp, "Rate limit exceeded", 429));
      }
      s := Next(req, resp);
    }
  }

  /** The first request from an address that passes `getIP` never reaches
      the next handler as written, whatever the token bucket says; with the
      correction it does when a token is granted. */
  method FirstRequestPanics(req: Request, parseIP: string -> Option<string>) returns (asWritten: Step, corrected: Step)
    requires GetIP(req, parseIP).Ok?
    ensures asWritten.Panic?
    ensures corrected == Next(req, EmptyResponse)
  {
    var cfg := new RateLimitConfig(10, 60 * 1_000_000_000, 5);
    asWritten := cfg.Handle(req, EmptyResponse, parseIP, true);
    var fixed := new RateLimitConfig(10, 60 * 1_000_000_000, 5);
    corrected := fixed.HandleCorrected(req, EmptyResponse, parseIP, true);
  }
}
