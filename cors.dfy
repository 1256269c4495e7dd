/** The CORS middleware of pkg/middleware/cors.go: an exact-match origin
    allow-list with the response headers of the CORS protocol (section 3.2 of
    the WHATWG Fetch Standard) and the answer to a preflight request. */
module CrossOrigin {
  import opened Wrappers
  import opened Strings
  import opened Http
  import GoMath
  import Setters

  datatype CorsConfig = CorsConfig(
    allowedOrigins: seq<string>,
    allowedMethods: seq<string>,
    allowedHeaders: seq<string>,
    exposedHeaders: seq<string>,
    allowCredentials: bool,
    maxAge: int)              // a time.Duration, in nanoseconds

  /** `strconv.Itoa(int(MaxAge.Seconds()))`: the decimal of the whole
      seconds, truncated toward zero, so a part of a second in either
      direction is dropped and only a duration of at least a second back is
      negative. */
  function MaxAgeSeconds(maxAge: int): (r: string)
    ensures maxAge >= 0 ==> r == NatToDecimal(maxAge / GoMath.Second)
    ensures -GoMath.Second < maxAge < 0 ==> r == "0"
    ensures maxAge <= -GoMath.Second ==> r == "-" + NatToDecimal(-maxAge / GoMath.Second)
  {
    Itoa(GoMath.TruncDiv(maxAge, GoMath.Second))
  }

  /** The headers every allowed origin gets: the origin echoed verbatim, the
      credentials flag when configured and the exposed headers when their
      comma join is not empty. */
  predicate OriginHeaders(cfg: CorsConfig, origin: string, before: Header, after: Header) {
    && Values(after, "Access-Control-Allow-Origin") == [origin]
    && Setters.SetWhenConfigured(before, after, "Access-Control-Allow-Credentials", if cfg.allowCredentials then "true" else "")
    && Setters.SetWhenConfigured(before, after, "Access-Control-Expose-Headers", Join(cfg.exposedHeaders, ","))
  }

  /** The preflight headers: the methods' join even when empty, the maximum
      age in seconds, and the allowed headers when their join is not empty. */
  predicate PreflightHeaders(cfg: CorsConfig, before: Header, after: Header) {
    && Values(after, "Access-Control-Allow-Methods") == [Join(cfg.allowedMethods, ",")]
    && Values(after, "Access-Control-Max-Age") == [MaxAgeSeconds(cfg.maxAge)]
    && Setters.SetWhenConfigured(before, after, "Access-Control-Allow-Headers", Join(cfg.allowedHeaders, ","))
  }

  const CorsHeaderNames: set<string> := {
    "Access-Control-Allow-Origin", "Access-Control-Allow-Credentials", "Access-Control-Expose-Headers",
    "Access-Control-Allow-Methods", "Access-Control-Max-Age", "Access-Control-Allow-Headers"}

  /** The origin headers as the handler sets them. */
  method SetOriginHeaders(cfg: CorsConfig, origin: string, h: Header) returns (r: Header)
    ensures OriginHeaders(cfg, origin, h, r)
    ensures forall k :: k !in {"Access-Control-Allow-Origin", "Access-Control-Allow-Credentials", "Access-Control-Expose-Headers"} ==>
              (k in r <==> k in h) && Values(r, k) == Values(h, k)
  {
    r := Set(h, "Access-Control-Allow-Origin", origin);
    var r1 := Setters.SetIfConfigured(r, "Access-Control-Allow-Credentials", if cfg.allowCredentials then "true" else "");
    r := Setters.SetIfConfigured(r1, "Access-Control-Expose-Headers", Join(cfg.exposedHeaders, ","));
  }

  /** The preflight headers as the handler sets them. */
  method SetPreflightHeaders(cfg: CorsConfig, h: Header) returns (r: Header)
    ensures PreflightHeaders(cfg, h, r)
    ensures forall k :: k !in {"Access-Control-Allow-Methods", "Access-Control-Max-Age", "Access-Control-Allow-Headers"} ==>
              (k in r <==> k in h) && Values(r, k) == Values(h, k)
  {
    r := Set(h, "Access-Control-Allow-Methods", Join(cfg.allowedMethods, ","));
    var r1 := Set(r, "Access-Control-Max-Age", MaxAgeSeconds(cfg.maxAge));
    r := Setters.SetIfConfigured(r1, "Access-Control-Allow-Headers", Join(cfg.allowedHeaders, ","));
  }

  /** The handler. A request without `Origin` goes on untouched. An origin
      not exactly in the list gets 403. An allowed one gets the origin
      headers; a preflight (`OPTIONS`) then also gets the preflight headers
      and 204 without the next handler, any other method goes on to the next
      handler with the origin headers set. */
  method CorsHandler(cfg: CorsConfig, req: Request, resp: Response) returns (s: Step)
    ensures var origin := Get(req.header, "Origin");
      && (origin == "" ==> s == Next(req, resp))
      && (origin != "" && origin !in cfg.allowedOrigins ==> s == Reply(Error(resp, "CORS policy: Origin not allowed", 403)))
      && (origin != "" && origin in cfg.allowedOrigins ==>
            && !s.Panic? && (s.Next? <==> req.verb != "OPTIONS")
            && OriginHeaders(cfg, origin, resp.header, s.resp.header)
            && (forall k :: k !in CorsHeaderNames ==>
                  (k in s.resp.header <==> k in resp.header) && Values(s.resp.header, k) == Values(resp.header, k))
            && s.resp.body == resp.body
            && (req.verb == "OPTIONS" ==>
                  PreflightHeaders(cfg, resp.header, s.resp.header) && s.resp.status == WriteHeader(resp, 204).status)
            && (req.verb != "OPTIONS" ==>
                  s == Next(req, resp.(header := s.resp.header))
                  && forall k :: k in {"Access-Control-Allow-Methods", "Access-Control-Max-Age", "Access-Control-Allow-Headers"} ==>
                       Values(s.resp.header, k) == Values(resp.header, k)))
  {
    var origin := Get(req.header, "Origin");
    if origin == "" {
      return Next(req, resp);
    }
    if origin !in cfg.allowedOrigins {
      return Reply(Error(resp, "CORS policy: Origin not allowed", 403));
    }
    var h := SetOriginHeaders(cfg, origin, resp.header);
    if req.verb == "OPTIONS" {
      var h2 := SetPreflightHeaders(cfg, h);
      return Reply(WriteHeader(resp.(header := h2), 204));
    }
    s := Next(req, resp.(header := h));
  }

  /** The credentials flag is sent iff it is configured (when the response
      did not already carry one). */
  lemma CredentialsIff(cfg: CorsConfig, origin: string, before: Header, after: Header)
    requires OriginHeaders(cfg, origin, before, after)
    requires "Access-Control-Allow-Credentials" !in before
    ensures Values(after, "Access-Control-Allow-Credentials") == (if cfg.allowCredentials then ["true"] else [])
  {
  }

  /** A maximum age of ninety and a half seconds is sent as 90; a negative
      one of half a second as 0. */
  lemma MaxAgeExamples()
    ensures GoMath.TruncDiv(90_500_000_000, GoMath.Second) == 90
    ensures GoMath.TruncDiv(-500_000_000, GoMath.Second) == 0
  {
  }
}
