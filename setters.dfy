/** The middleware that only rewrite the request or the response header before
    calling the next handler (max-body, security headers, request ID), and
    the recovery wrappers. The handlers of pkg/middleware and their
    function-typed copies in internal/middleware behave the same and are
    modelled once. */
module Setters {
  import opened Wrappers
  import opened Http

  /** The max-body handler: the body is wrapped with the ceiling iff it is
      positive; the next handler runs once, with the original writer. */
  method LimitBody(maxBytes: int, req: Request, resp: Response) returns (s: Step)
    ensures s.Next? && s.resp == resp
    ensures maxBytes > 0 ==> s.req == req.(body := Limited(req.body, maxBytes))
    ensures maxBytes <= 0 ==> s.req == req
  {
    var r := req;
    if maxBytes > 0 {
      r := r.(body := Limited(r.body, maxBytes));
    }
    s := Next(r, resp);
  }

  /** How a handler run ends: normally, or by a panic that is still
      propagating; either way with what it wrote. */
  datatype Run = Completed(resp: Response) | Panicking(reason: string, resp: Response)

  /** The deferred function of the recovery wrapper of pkg/proxy/middleware.go:
      `recover()` sees the panic pending when it runs, answers 500 if there
      is one, and then calls the next handler. */
  function RecoveryDeferred(pending: Option<string>, w: Response, next: Response -> Run): Run {
    var w' := if pending.Some? then Error(w, "Internal Server Error", 500) else w;
    next(w')
  }

  /** That wrapper as written: its body only defers, so `recover()` runs when
      no panic can be pending and the next handler is called afterwards,
      outside its reach: the result is exactly the next handler's, panics
      included. */
  function RecoveryAsWritten(w: Response, next: Response -> Run): (r: Run)
    ensures r == next(w)
    ensures next(w).Panicking? ==> r.Panicking?
  {
    RecoveryDeferred(None, w, next)
  }

  /** The recovery of pkg/middleware/recovery.go, which is what the wrapper
      evidently means: the next handler runs in the body, and a panic it
      raises is stopped by the deferred `recover()` and answered with 500 —
      unless the next handler already sent a status, which then stays, with
      the error text behind what it wrote. */
  function Recovery(w: Response, next: Response -> Run): (r: Run)
    ensures r.Completed?
    ensures next(w).Completed? ==> r == next(w)
    ensures next(w).Panicking? ==> r.resp == Error(next(w).resp, "Internal Server Error", 500)
    ensures next(w).Panicking? && next(w).resp.status.None? ==> r.resp.status == Some(500)
    ensures next(w).Panicking? && next(w).resp.status.Some? ==> r.resp.status == next(w).resp.status
    ensures next(w).Panicking? ==> r.resp.body == next(w).resp.body + "Internal Server Error\n"
  {
    match next(w)
    case Completed(resp) => Completed(resp)
    case Panicking(_, resp) => Completed(Error(resp, "Internal Server Error", 500))
  }

  /** A handler that panics before writing anything. */
  function PanicAt(w: Response): Run {
    Panicking("boom", w)
  }

  /** A handler that writes part of its body without `WriteHeader`, which
      commits status 200, and then panics. */
  function PanicAfterWrite(w: Response): Run {
    Panicking("boom", Write(w, "partial"))
  }

  /** Recovery after a partial write cannot change the status any more: the
      client gets 200 and the partial body followed by the error text. */
  lemma RecoveryAfterPartialWrite()
    ensures Recovery(EmptyResponse, PanicAfterWrite).resp.status == Some(200)
    ensures Recovery(EmptyResponse, PanicAfterWrite).resp.body == "partial" + "Internal Server Error\n"
  {
    var w := Write(EmptyResponse, "partial");
    assert w.status == Some(200) && w.body == "partial";
    assert PanicAfterWrite(EmptyResponse) == Panicking("boom", w);
  }

  /** With a panicking next handler the wrapper as written lets the panic
      through, while recovery answers 500. */
  lemma RecoveryAsWrittenDoesNotRecover()
    ensures RecoveryAsWritten(EmptyResponse, PanicAt) == Panicking("boom", EmptyResponse)
    ensures Recovery(EmptyResponse, PanicAt) == Completed(Error(EmptyResponse, "Internal Server Error", 500))
    ensures Recovery(EmptyResponse, PanicAt).resp.status == Some(500)
  {
  }

  /** `SecurityHeadersConfig`: one value per header, empty when unused. */
  datatype SecurityHeadersConfig = SecurityHeadersConfig(
    contentTypeOptions: string,   // X-Content-Type-Options
    frameOptions: string,         // X-Frame-Options
    xssProtection: string,        // X-XSS-Protection
    referrerPolicy: string,       // Referrer-Policy
    permissionsPolicy: string)    // Permissions-Policy

  /** The security header names, in the order the handler sets them and in
      the canonical form `Set` stores them under (`X-XSS-Protection` becomes
      `X-Xss-Protection`, `Http.CanonicalXssProtection`). */
  const SecurityHeaderNames: set<string> :=
    {"X-Content-Type-Options", "X-Frame-Options", "X-Xss-Protection", "Referrer-Policy", "Permissions-Policy"}

  /** After a conditional `Set`: the configured value alone, or the earlier
      values when none is configured. */
  predicate SetWhenConfigured(before: Header, after: Header, name: string, value: string) {
    Values(after, name) == if value != "" then [value] else Values(before, name)
  }

  /** `if value != "" { h.Set(name, value) }`. */
  method SetIfConfigured(h: Header, name: string, value: string) returns (r: Header)
    ensures SetWhenConfigured(h, r, name, value)
    ensures forall k :: k != name ==> (k in r <==> k in h) && Values(r, k) == Values(h, k)
    ensures value == "" ==> r == h
  {
    r := h;
    if value != "" {
      r := Set(h, name, value);
    }
  }

  /** The security-headers handler: each header whose value is configured is
      set to it, replacing what was there; nothing else changes, so an empty
      configuration changes nothing; then the next handler runs once with the
      same request. */
  method SecureHeaders(cfg: SecurityHeadersConfig, req: Request, resp: Response) returns (s: Step)
    ensures s.Next? && s.req == req && s.resp == resp.(header := s.resp.header)
    ensures SetWhenConfigured(resp.header, s.resp.header, "X-Content-Type-Options", cfg.contentTypeOptions)
    ensures SetWhenConfigured(resp.header, s.resp.header, "X-Frame-Options", cfg.frameOptions)
    ensures SetWhenConfigured(resp.header, s.resp.header, "X-Xss-Protection", cfg.xssProtection)
    ensures SetWhenConfigured(resp.header, s.resp.header, "Referrer-Policy", cfg.referrerPolicy)
    ensures SetWhenConfigured(resp.header, s.resp.header, "Permissions-Policy", cfg.permissionsPolicy)
    ensures forall k :: k !in SecurityHeaderNames ==>
              (k in s.resp.header <==> k in resp.header) && Values(s.resp.header, k) == Values(resp.header, k)
    ensures cfg == SecurityHeadersConfig("", "", "", "", "") ==> s.resp == resp
  {
    var h := resp.header;
    h := SetIfConfigured(h, "X-Content-Type-Options", cfg.contentTypeOptions);
    h := SetIfConfigured(h, "X-Frame-Options", cfg.frameOptions);
    h := SetIfConfigured(h, "X-Xss-Protection", cfg.xssProtection);
    h := SetIfConfigured(h, "Referrer-Policy", cfg.referrerPolicy);
    h := SetIfConfigured(h, "Permissions-Policy", cfg.permissionsPolicy);
    s := Next(req, resp.(header := h));
  }

  /** The request-ID handler: an inbound ID in the configured header is
      kept, an empty or missing one is replaced by `generated` (the UUID the
      handler creates); request and response header both hold exactly that
      one ID, nothing else changes, and the next handler runs once. `Get`
      and `Set` look the configured name up in its canonical form. */
  method RequestId(headerName: string, req: Request, resp: Response, generated: string) returns (s: Step, id: string)
    ensures id == (if Get(req.header, CanonicalKey(headerName)) != "" then Get(req.header, CanonicalKey(headerName)) else generated)
    ensures s.Next? && s.req == req.(header := s.req.header) && s.resp == resp.(header := s.resp.header)
    ensures Values(s.req.header, CanonicalKey(headerName)) == [id] && Values(s.resp.header, CanonicalKey(headerName)) == [id]
    ensures forall k :: k != CanonicalKey(headerName) ==>
              (k in s.req.header <==> k in req.header) && Values(s.req.header, k) == Values(req.header, k)
              && (k in s.resp.header <==> k in resp.header) && Values(s.resp.header, k) == Values(resp.header, k)
  {
    var name := CanonicalKey(headerName);
    id := Get(req.header, name);
    if id == "" {
      id := generated;
    }
    var r := req.(header := Set(req.header, name, id));
    var w := resp.(header := Set(resp.header, name, id));
    s := Next(r, w);
  }

  /** With the default name `X-Request-ID`, an inbound ID, which the server
      stores under `X-Request-Id`, is reused, and both sides end up with one
      key for it. */
  method DefaultNameReusesInbound(req: Request, resp: Response, generated: string) returns (id: string)
    requires Get(req.header, "X-Request-Id") != ""
    ensures id == Get(req.header, "X-Request-Id")
  {
    CanonicalRequestId();
    var s;
    s, id := RequestId("X-Request-ID", req, resp, generated);
  }
}
