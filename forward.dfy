/** The backend request that both proxy generations build from an inbound
    request (pkg/proxy/route.go and internal/proxy/handler.go): header copy,
    the `X-Forwarded-*` rewrite, the backend URL and Host, and the base
    handler that relays the backend's answer. */
module Forwarding {
  import opened Wrappers
  import opened Strings
  import opened Http

  /** Every value of `src` appended after `dst`'s values of the same key, as a
      loop of `Header.Add` calls does. A key whose value list is empty in `src`
      is not created. */
  function AddAllSpec(dst: Header, src: Header): (r: Header)
    ensures forall k :: k in r <==> k in dst || Values(src, k) != []
    ensures forall k :: Values(r, k) == Values(dst, k) + Values(src, k)
  {
    map k | k in dst.Keys + src.Keys && (k in dst || |src[k]| > 0) :: Values(dst, k) + Values(src, k)
  }

  /** `for k, vv := range src { for _, v := range vv { dst.Add(k, v) } }`, with
      the outer loop visiting keys in no particular order. */
  method AddAll(dst: Header, src: Header) returns (r: Header)
    ensures r == AddAllSpec(dst, src)
  {
    r := dst;
    var keys := src.Keys;
    ghost var done: set<string> := {};
    while keys != {}
      invariant keys + done == src.Keys && keys !! done
      invariant forall k :: k in r <==> k in dst || (k in done && src[k] != [])
      invariant forall k :: Values(r, k) == Values(dst, k) + (if k in done then src[k] else [])
      decreases keys
    {
      var k :| k in keys;
      r := AddValues(r, k, src[k]);
      keys := keys - {k};
      done := done + {k};
    }
    SameValues(r, AddAllSpec(dst, src));
  }

  /** Two headers with the same keys and the same values per key are equal. */
  lemma SameValues(a: Header, b: Header)
    requires forall k :: (k in a <==> k in b) && Values(a, k) == Values(b, k)
    ensures a == b
  {
    forall k | k in a ensures a[k] == b[k] {
      assert Values(a, k) == Values(b, k);
    }
  }

  /** The inner loop: `h.Add(k, v)` for each value in order. */
  method AddValues(h: Header, k: string, vv: seq<string>) returns (r: Header)
    ensures k in r <==> k in h || vv != []
    ensures Values(r, k) == Values(h, k) + vv
    ensures forall k' :: k' != k ==> (k' in r <==> k' in h) && Values(r, k') == Values(h, k')
  {
    r := h;
    for j := 0 to |vv|
      invariant k in r <==> k in h || j > 0
      invariant Values(r, k) == Values(h, k) + vv[..j]
      invariant forall k' :: k' != k ==> (k' in r <==> k' in h) && Values(r, k') == Values(h, k')
    {
      assert vv[..j + 1] == vv[..j] + [vv[j]];
      r := Add(r, k, vv[j]);
    }
    assert vv[..|vv|] == vv;
  }

  /** The `X-Forwarded-For` value after one hop: the existing value, a comma
      and the client host, or the client host alone. */
  function ForwardedFor(prior: string, client: string): string {
    if prior != "" then prior + "," + client else client
  }

  /** `addForwardedHeaders`: `X-Forwarded-For` gets the client host appended,
      `X-Forwarded-Host` is the original Host and `X-Forwarded-Proto` is
      "http"; every other key is unchanged. */
  function ForwardedHeaders(h: Header, original: Request): (r: Header)
    ensures Values(r, "X-Forwarded-For") == [ForwardedFor(Get(h, "X-Forwarded-For"), ClientHost(original.remoteAddr))]
    ensures Values(r, "X-Forwarded-Host") == [original.host]
    ensures Values(r, "X-Forwarded-Proto") == ["http"]
    ensures forall k :: k !in {"X-Forwarded-For", "X-Forwarded-Host", "X-Forwarded-Proto"} ==>
              (k in r <==> k in h) && Values(r, k) == Values(h, k)
  {
    var xff := ForwardedFor(Get(h, "X-Forwarded-For"), ClientHost(original.remoteAddr));
    Set(Set(Set(h, "X-Forwarded-For", xff), "X-Forwarded-Host", original.host), "X-Forwarded-Proto", "http")
  }

  /** The last comma-separated element after a hop is the client host the hop
      saw, which is the element the rate limiter of the next hop reads. */
  lemma {:induction false} ForwardedForAppendsHop(prior: string, client: string)
    requires ',' !in client
    ensures var parts := Split(ForwardedFor(prior, client), ',');
      parts[|parts| - 1] == client
  {
    var s := ForwardedFor(prior, client);
    LastOfSplit(s, ',');
    if prior != "" {
      LastComma(prior, client);
    } else {
      assert s == client;
      assert s[LastIndexOf(s, ',') + 1..] == client;
    }
  }

  /** In `a + "," + b` with no comma in `b`, the last comma is the joining one. */
  lemma LastComma(a: string, b: string)
    requires ',' !in b
    ensures LastIndexOf(a + "," + b, ',') == |a|
    ensures (a + "," + b)[|a| + 1..] == b
  {
    var s := a + "," + b;
    assert s[|a|] == ',';
    assert s[|a| + 1..] == b;
    LastIndexOfUnique(s, ',', |a|);
  }

  /** The backend URL: the route's backend with the inbound path joined to its
      path by `path.Join` (a parameter) and the inbound query copied verbatim. */
  function BackendUrl(backend: Url, inbound: Url, join: (string, string) -> string): (u: Url)
    ensures u.scheme == backend.scheme && u.host == backend.host
    ensures u.path == join(backend.path, inbound.path)
    ensures u.rawQuery == inbound.rawQuery
  {
    backend.(path := join(backend.path, inbound.path), rawQuery := inbound.rawQuery)
  }

  /** `http.NewRequestWithContext(ctx, r.Method, url, r.Body)` as it comes back
      when it does not fail: the inbound method and body, the Host of the URL,
      no header and an outgoing request's empty RequestURI and default
      protocol. */
  function OutgoingRequest(inbound: Request, url: Url): (r: Request)
    ensures r.verb == inbound.verb && r.body == inbound.body && r.url == url
    ensures r.header == map[] && r.host == url.host
  {
    Request(inbound.verb, url.host, url, "", "HTTP/1.1", "", map[], inbound.body)
  }

  /** The Host of the backend request: the original one when the route
      preserves it, the backend's otherwise. */
  function BackendHost(preserveHost: bool, inbound: Request, backend: Url): string {
    if preserveHost then inbound.host else backend.host
  }

  /** The complete backend request, as a function of its inputs. */
  function BackendRequestSpec(inbound: Request, backend: Url, preserveHost: bool, join: (string, string) -> string): Request {
    var url := BackendUrl(backend, inbound.url, join);
    var out := OutgoingRequest(inbound, url);
    var h := ForwardedHeaders(AddAllSpec(map[], inbound.header), inbound);
    out.(header := h, host := BackendHost(preserveHost, inbound, backend))
  }

  /** Builds the backend request the way `handle` / `ServeHTTP` does once the
      request was created: the header copy loop, the forwarded headers, the Host. */
  method BuildBackendRequest(inbound: Request, backend: Url, preserveHost: bool, join: (string, string) -> string)
    returns (br: Request)
    ensures br == BackendRequestSpec(inbound, backend, preserveHost, join)
  {
    var url := BackendUrl(backend, inbound.url, join);
    br := OutgoingRequest(inbound, url);
    var copied := AddAll(br.header, inbound.header);
    br := br.(header := ForwardedHeaders(copied, inbound));
    if preserveHost {
      br := br.(host := inbound.host);
    } else {
      br := br.(host := backend.host);
    }
  }

  /** What the backend request yields: a response, or a transport error. */
  datatype BackendResult =
    | BackendOk(status: int, header: Header, body: string)
    | BackendErr(msg: string)

  /** The base handler's answer on top of what the writer already holds. */
  function RelaySpec(resp: Response, result: BackendResult): Response {
    match result
    case BackendErr(msg) => Error(resp, "Failed to do request: " + msg, 502)
    case BackendOk(status, header, body) =>
      Write(WriteHeader(resp.(header := AddAllSpec(resp.header, header)), status), body)
  }

  /** The base handler: a transport error gives 502; otherwise every backend
      header value is added, the backend status written, then the body copied. */
  method Relay(resp: Response, result: BackendResult) returns (out: Response)
    ensures out == RelaySpec(resp, result)
  {
    match result
    case BackendErr(msg) =>
      out := Error(resp, "Failed to do request: " + msg, 502);
    case BackendOk(status, header, body) =>
      var h := AddAll(resp.header, header);
      out := WriteHeader(resp.(header := h), status);
      out := Write(out, body);
  }

  /** Properties of the backend request: the inbound headers all reach the
      backend apart from the three forwarded ones, the URL combines backend and
      inbound URL, and the Host follows the preserve-host choice. */
  lemma BackendRequestProperties(inbound: Request, backend: Url, preserveHost: bool, join: (string, string) -> string)
    ensures var br := BackendRequestSpec(inbound, backend, preserveHost, join);
      && br.verb == inbound.verb && br.body == inbound.body
      && br.url.host == backend.host && br.url.path == join(backend.path, inbound.url.path)
      && br.url.rawQuery == inbound.url.rawQuery
      && br.host == (if preserveHost then inbound.host else backend.host)
      && (forall k :: k !in {"X-Forwarded-For", "X-Forwarded-Host", "X-Forwarded-Proto"} ==>
            Values(br.header, k) == Values(inbound.header, k))
      && Values(br.header, "X-Forwarded-For") ==
           [ForwardedFor(Get(inbound.header, "X-Forwarded-For"), ClientHost(inbound.remoteAddr))]
      && Values(br.header, "X-Forwarded-Host") == [inbound.host]
      && Values(br.header, "X-Forwarded-Proto") == ["http"]
  {
    var copied := AddAllSpec(map[], inbound.header);
    assert Get(copied, "X-Forwarded-For") == Get(inbound.header, "X-Forwarded-For") by {
      assert Values(copied, "X-Forwarded-For") == Values(inbound.header, "X-Forwarded-For");
    }
  }

  /** A successful backend answer is relayed with its status (when none was
      written before), all its header values and its body; a status the
      writer already sent is never replaced. */
  lemma RelayProperties(resp: Response, result: BackendResult)
    ensures var out := RelaySpec(resp, result);
      && (resp.status.Some? ==> out.status == resp.status)
      && (result.BackendErr? ==> resp.status.None? ==> out.status == Some(502))
      && (result.BackendOk? ==>
            && (resp.status.None? ==> out.status == Some(result.status))
            && out.body == resp.body + result.body
            && forall k :: Values(out.header, k) == Values(resp.header, k) + Values(result.header, k))
  {
  }
}
