/** The slice of Go's `net/http`, `net` and `net/url` behaviour that the proxy's
    decisions depend on: header maps, requests, the response as a handler sees
    it, `http.Error`, `net.SplitHostPort` and `Request.BasicAuth`.

    A handler's run on one request is abstracted as a `Step`: it either calls
    the next handler exactly once with a (possibly rewritten) request and
    response, or answers the request itself without calling it, or panics. */
module Http {
  import opened Wrappers
  import opened Strings
  import Base64

  /** `http.Header`, with every key already in canonical form. */
  type Header = map<string, seq<string>>

  /** The bytes allowed in a header name: the token characters of section
      3.2.6 of RFC 7230. */
  predicate TokenChar(c: char) {
    || ('a' <= c <= 'z') || ('A' <= c <= 'Z') || ('0' <= c <= '9')
    || c == '!' || c == '#' || c == '$' || c == '%' || c == '&' || c == '\'' || c == '*'
    || c == '+' || c == '-' || c == '.' || c == '^' || c == '_' || c == '`' || c == '|' || c == '~'
  }

  /** One character in `textproto`'s letter case: upper case when it starts
      a word, lower case otherwise; anything but an ASCII letter is kept. */
  function Recase(c: char, upper: bool): char {
    if upper && 'a' <= c <= 'z' then (c as int - 32) as char
    else if !upper && 'A' <= c <= 'Z' then (c as int + 32) as char
    else c
  }

  /** Letter case as `textproto` writes it, with `upper` telling whether the
      first character starts a word: a word starts at the front and after
      every `-`. */
  function CanonicalFrom(s: string, upper: bool): (r: string)
    ensures |r| == |s|
    ensures forall i :: 0 <= i < |s| ==> r[i] == Recase(s[i], if i == 0 then upper else s[i - 1] == '-')
    decreases |s|
  {
    if |s| == 0 then ""
    else [Recase(s[0], upper)] + CanonicalFrom(s[1..], s[0] == '-')
  }

  /** `textproto.CanonicalMIMEHeaderKey`, which `Header.Get`, `Set`, `Add`
      and `Del` apply to their name argument: a name holding a non-token
      character is kept as it is. */
  function CanonicalKey(s: string): (r: string)
    ensures |r| == |s|
    ensures (exists i :: 0 <= i < |s| && !TokenChar(s[i])) ==> r == s
  {
    if forall i :: 0 <= i < |s| ==> TokenChar(s[i]) then CanonicalFrom(s, true) else s
  }

  /** Canonical letter case changes no other character and is stable. */
  lemma {:induction false} CanonicalFromIdempotent(s: string, upper: bool)
    ensures CanonicalFrom(CanonicalFrom(s, upper), upper) == CanonicalFrom(s, upper)
    ensures forall i :: 0 <= i < |s| ==> (CanonicalFrom(s, upper)[i] == '-' <==> s[i] == '-')
    ensures forall i :: 0 <= i < |s| ==> (TokenChar(CanonicalFrom(s, upper)[i]) <==> TokenChar(s[i]))
    decreases |s|
  {
    if |s| > 0 {
      CanonicalFromIdempotent(s[1..], s[0] == '-');
      var r := CanonicalFrom(s, upper);
      assert r[1..] == CanonicalFrom(s[1..], s[0] == '-');
      assert CanonicalFrom(r, upper) == [r[0]] + CanonicalFrom(r[1..], r[0] == '-');
    }
  }

  /** Canonicalising a name twice is canonicalising it once. */
  lemma CanonicalKeyIdempotent(s: string)
    ensures CanonicalKey(CanonicalKey(s)) == CanonicalKey(s)
  {
    CanonicalFromIdempotent(s, true);
  }

  /** The canonical form of a token name, character by character. */
  lemma CanonicalKeyFrom(s: string, r: string)
    requires forall i :: 0 <= i < |s| ==> TokenChar(s[i])
    requires |r| == |s|
    requires forall i :: 0 <= i < |s| ==> r[i] == Recase(s[i], i == 0 || s[i - 1] == '-')
    ensures CanonicalKey(s) == r
  {
    var c := CanonicalFrom(s, true);
    assert CanonicalKey(s) == c;
    forall i | 0 <= i < |s|
      ensures c[i] == r[i]
    {
      assert r[i] == Recase(s[i], i == 0 || s[i - 1] == '-');
      if i == 0 {
        assert c[i] == Recase(s[i], true);
      } else {
        assert c[i] == Recase(s[i], s[i - 1] == '-');
      }
    }
  }

  /** Header names the middleware pass that are not canonical as written. */
  lemma CanonicalRequestId()
    ensures CanonicalKey("X-Request-ID") == "X-Request-Id"
  {
    var s := "X-Request-ID";
    var r := "X-Request-Id";
    forall i | 0 <= i < |s|
      ensures TokenChar(s[i]) && r[i] == Recase(s[i], i == 0 || s[i - 1] == '-')
    {
      if i == 0 {
      } else if i == 1 {
      } else if i == 2 {
      } else if i == 3 {
      } else if i == 4 {
      } else if i == 5 {
      } else if i == 6 {
      } else if i == 7 {
      } else if i == 8 {
      } else if i == 9 {
      } else if i == 10 {
      }
    }
    CanonicalKeyFrom(s, r);
  }

  /** A client's lower-case spelling meets the same key. */
  lemma CanonicalLowerRequestId()
    ensures CanonicalKey("x-request-id") == "X-Request-Id"
  {
    var s := "x-request-id";
    var r := "X-Request-Id";
    forall i | 0 <= i < |s|
      ensures TokenChar(s[i]) && r[i] == Recase(s[i], i == 0 || s[i - 1] == '-')
    {
      if i == 0 {
      } else if i == 1 {
      } else if i == 2 {
      } else if i == 3 {
      } else if i == 4 {
      } else if i == 5 {
      } else if i == 6 {
      } else if i == 7 {
      } else if i == 8 {
      } else if i == 9 {
      } else if i == 10 {
      }
    }
    CanonicalKeyFrom(s, r);
  }

  lemma CanonicalAuthenticate()
    ensures CanonicalKey("WWW-Authenticate") == "Www-Authenticate"
  {
    var s := "WWW-Authenticate";
    var r := "Www-Authenticate";
    forall i | 0 <= i < |s|
      ensures TokenChar(s[i]) && r[i] == Recase(s[i], i == 0 || s[i - 1] == '-')
    {
      if i == 0 {
      } else if i == 1 {
      } else if i == 2 {
      } else if i == 3 {
      } else if i == 4 {
      } else if i == 5 {
      } else if i == 6 {
      } else if i == 7 {
      } else if i == 8 {
      } else if i == 9 {
      } else if i == 10 {
      } else if i == 11 {
      } else if i == 12 {
      } else if i == 13 {
      } else if i == 14 {
      }
    }
    CanonicalKeyFrom(s, r);
  }

  lemma CanonicalXssProtection()
    ensures CanonicalKey("X-XSS-Protection") == "X-Xss-Protection"
  {
    var s := "X-XSS-Protection";
    var r := "X-Xss-Protection";
    forall i | 0 <= i < |s|
      ensures TokenChar(s[i]) && r[i] == Recase(s[i], i == 0 || s[i - 1] == '-')
    {
      if i == 0 {
      } else if i == 1 {
      } else if i == 2 {
      } else if i == 3 {
      } else if i == 4 {
      } else if i == 5 {
      } else if i == 6 {
      } else if i == 7 {
      } else if i == 8 {
      } else if i == 9 {
      } else if i == 10 {
      } else if i == 11 {
      } else if i == 12 {
      } else if i == 13 {
      } else if i == 14 {
      }
    }
    CanonicalKeyFrom(s, r);
  }

  /** A name with a space is not a token and is kept as written. */
  lemma NonTokenKept()
    ensures CanonicalKey("bad name") == "bad name"
  {
    assert !TokenChar("bad name"[3]);
  }

  /** `Header.Get`: the first value of the key, or "" when there is none. */
  function Get(h: Header, key: string): (r: string)
    ensures r != "" ==> key in h && |h[key]| > 0 && h[key][0] == r
    ensures key in h && |h[key]| > 0 ==> r == h[key][0]
    ensures key !in h || |h[key]| == 0 ==> r == ""
  {
    if key in h && |h[key]| > 0 then h[key][0] else ""
  }

  /** `Header.Set`: the key holds exactly the one value; nothing else changes. */
  function Set(h: Header, key: string, value: string): (r: Header)
    ensures key in r && r[key] == [value]
    ensures forall k :: k != key ==> (k in r <==> k in h) && (k in h ==> r[k] == h[k])
  {
    h[key := [value]]
  }

  /** The values a key currently has (none when it is absent). */
  function Values(h: Header, key: string): seq<string> {
    if key in h then h[key] else []
  }

  /** `Header.Add`: the value is appended after the key's existing values. */
  function Add(h: Header, key: string, value: string): (r: Header)
    ensures key in r && r[key] == Values(h, key) + [value]
    ensures forall k :: k != key ==> (k in r <==> k in h) && (k in h ==> r[k] == h[k])
  {
    h[key := Values(h, key) + [value]]
  }

  /** `Header.Del`: the key is gone; nothing else changes. */
  function Del(h: Header, key: string): (r: Header)
    ensures key !in r
    ensures forall k :: k != key ==> (k in r <==> k in h) && (k in h ==> r[k] == h[k])
  {
    h - {key}
  }

  /** The parts of a `url.URL` that the proxy reads or writes. */
  datatype Url = Url(scheme: string, host: string, path: string, rawQuery: string)

  /** A request body: the original stream, or one wrapped by
      `http.MaxBytesReader` with a byte ceiling. */
  datatype Body = Original | Limited(inner: Body, limit: int)

  datatype Request = Request(
    verb: string,          // Request.Method
    host: string,          // Request.Host
    url: Url,              // Request.URL
    requestURI: string,    // Request.RequestURI
    proto: string,         // Request.Proto
    remoteAddr: string,    // Request.RemoteAddr
    header: Header,
    body: Body)

  /** What a handler has produced on its `ResponseWriter` so far: the header
      map, the status once `WriteHeader` ran, and the body bytes. */
  datatype Response = Response(header: Header, status: Option<int>, body: string)

  const EmptyResponse := Response(map[], None, "")

  /** `ResponseWriter.WriteHeader`: only the first call sets the status. */
  function WriteHeader(resp: Response, code: int): (r: Response)
    ensures r.header == resp.header && r.body == resp.body
    ensures r.status == if resp.status.None? then Some(code) else resp.status
  {
    if resp.status.None? then resp.(status := Some(code)) else resp
  }

  /** `ResponseWriter.Write`: the bytes are appended to the body, and a
      first write before any `WriteHeader` commits status 200. */
  function Write(resp: Response, b: string): (r: Response)
    ensures r.header == resp.header && r.body == resp.body + b
    ensures r.status == if resp.status.None? then Some(200) else resp.status
  {
    WriteHeader(resp, 200).(body := resp.body + b)
  }

  /** Bytes are only ever sent after a status: the invariant every writer
      operation above keeps. */
  predicate Committed(resp: Response) {
    resp.body != "" ==> resp.status.Some?
  }

  /** Once a write committed 200 without `WriteHeader`, a later
      `WriteHeader` or `Error` changes no status; and every response built
      by the writer operations keeps `Committed`. */
  lemma WriteCommitsStatus(resp: Response, b: string, code: int, msg: string)
    requires resp.status.None?
    requires Committed(resp)
    ensures Write(resp, b).status == Some(200)
    ensures WriteHeader(Write(resp, b), code).status == Some(200)
    ensures Error(Write(resp, b), msg, code).status == Some(200)
    ensures Error(Write(resp, b), msg, code).body == b + msg + "\n"
    ensures Committed(Write(resp, b)) && Committed(WriteHeader(resp, code)) && Committed(Error(resp, msg, code))
  {
    assert resp.body == "";
  }

  /** `http.Error(w, msg, code)`: plain-text headers, the status, then the
      message and a newline as body; a status already sent stays. */
  function Error(resp: Response, msg: string, code: int): (r: Response)
    ensures "Content-Length" !in r.header
    ensures Get(r.header, "Content-Type") == "text/plain; charset=utf-8"
    ensures Get(r.header, "X-Content-Type-Options") == "nosniff"
    ensures r.status == if resp.status.None? then Some(code) else resp.status
    ensures r.body == resp.body + msg + "\n"
  {
    var h := Del(resp.header, "Content-Length");
    var h := Set(Set(h, "Content-Type", "text/plain; charset=utf-8"), "X-Content-Type-Options", "nosniff");
    Write(WriteHeader(resp.(header := h), code), msg + "\n")
  }

  /** One handler's run on one request. */
  datatype Step =
    | Next(req: Request, resp: Response)   // called the next handler once with these
    | Reply(resp: Response)                // answered without calling the next handler
    | Panic(reason: string)                // a Go run-time panic

  /** `net.SplitHostPort`: splits "host:port", "[host]:port" or "[host%zone]:port"
      at the last colon; `None` for each of Go's error cases (no port, too many
      colons, misplaced brackets). */
  function SplitHostPort(hp: string): (r: Option<(string, string)>)
    ensures r.Some? ==> ':' !in r.value.1
  {
    var i := LastIndexOf(hp, ':');
    if i < 0 then None
    else if hp[0] == '[' then
      var end := IndexOf(hp, ']');
      if end < 0 || end + 1 == |hp| || end + 1 != i then None
      else if '[' in hp[1..] || ']' in hp[end + 1..] then None
      else Some((hp[1..end], hp[i + 1..]))
    else
      var host := hp[..i];
      if ':' in host || '[' in hp || ']' in hp then None
      else Some((host, hp[i + 1..]))
  }

  /** A host and port without colons or brackets are split back apart. */
  lemma SplitJoinedHostPort(host: string, port: string)
    requires ':' !in host && '[' !in host && ']' !in host
    requires ':' !in port && '[' !in port && ']' !in port
    requires host == "" || host[0] != '['
    ensures SplitHostPort(host + ":" + port) == Some((host, port))
  {
    var hp := host + ":" + port;
    var i := LastIndexOf(hp, ':');
    assert hp[|host|] == ':';
    assert i == |host|;
    assert hp[..i] == host;
    assert hp[i + 1..] == port;
    assert '[' !in hp && ']' !in hp by {
      assert forall c :: c in hp ==> c in host || c == ':' || c in port;
    }
  }

  /** The client host of a request as the proxy's `getClientIP` computes it:
      `RemoteAddr` without its port, or `RemoteAddr` itself when it cannot be split. */
  function ClientHost(remoteAddr: string): (r: string)
    ensures SplitHostPort(remoteAddr).Some? ==> r == SplitHostPort(remoteAddr).value.0
    ensures SplitHostPort(remoteAddr).None? ==> r == remoteAddr
  {
    match SplitHostPort(remoteAddr)
    case Some((host, _)) => host
    case None => remoteAddr
  }

  /** Go strings hold bytes: the string whose characters are these bytes. */
  function BytesToString(b: seq<Base64.byte>): (s: string)
    ensures |s| == |b| && forall i :: 0 <= i < |b| ==> s[i] as int == b[i]
  {
    seq(|b|, i requires 0 <= i < |b| => b[i] as char)
  }

  /** `Request.BasicAuth`: the `Authorization` header must start with "Basic "
      in any letter case, followed by base64 of "user:password". */
  function BasicAuthOf(h: Header): (r: Option<(string, string)>)
    ensures r.Some? ==>
              |Get(h, "Authorization")| >= 6 && ToLower(Get(h, "Authorization")[..6]) == "basic "
  {
    var auth := Get(h, "Authorization");
    if |auth| < 6 || ToLower(auth[..6]) != "basic " then None
    else
      match Base64.Decode(auth[6..])
      case None => None
      case Some(c) => Cut(BytesToString(c), ':')
  }

  /** `Request.Referer` and `Request.UserAgent`. */
  function Referer(h: Header): string { Get(h, "Referer") }
  function UserAgent(h: Header): string { Get(h, "User-Agent") }
}
