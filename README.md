# A verified model of a host-based HTTP reverse proxy

This project models the request-handling core of the `reverse-proxy` Go
repository in Dafny and proves properties of that model. The proxy works as
follows:

- It receives an HTTP request and picks a route by its `Host`.
- A route is chosen by an exact host name, or else by a `*`-prefixed wildcard
  pattern.
- The request is wrapped in a chain of middleware: rate limit, basic auth,
  CORS, header rewrite, gzip compression, request ID, security headers,
  request-body limit and panic recovery.
- It is then forwarded to the route's backend with `X-Forwarded-*` headers.
- An access-log line is written in the common, combined or JSON format.
- A YAML configuration is defaulted, validated, mapped to the proxy's own
  configuration and built into middleware instances at start-up.

The repository holds three generations of the same code: `internal/`,
`internals/` and `pkg/`. They do not type-check against one another. For
example, pkg/proxy/proxy.go:55 calls a five-parameter `handle` with four
arguments. Each file is modelled on its own terms, and where two generations
differ both are modelled (`Proxies` and `LegacyProxies`, `ProxyAccessLog`).

## How the model is built

- Strings are `seq<char>`, and each `char` stands for one byte of the Go
  string. No character is decoded as UTF-8, so the base64-decoded basic-auth
  login (`Http.BytesToString`) is compared byte by byte with the configured
  user names, as Go compares them.
- A header is a `map<string, seq<string>>` whose keys are already
  canonical in the sense of `Http.CanonicalKey`.
- A middleware instance is its kind tag plus an opaque identity.
- A handler is the chain of instances around the base handler. One run of a
  middleware is a `Step`:
  - the next handler once, with the request and response it is given;
  - a reply without the next handler;
  - a Go panic.
- Go's unordered map iteration becomes a nondeterministic pick, `:|`, in a
  `while` loop. This applies to the wildcard scan, the route loops of the
  configuration and the basic-auth user map.
- Objects whose fields the source updates in place are classes with
  `modifies` clauses: the router, the proxy, a route, the counting writers,
  the gzip writer, the rate limiter's cache and the configuration sections.
- Decisions that are pure become functions.
- Errors are the Go message strings: `Outcome` is `Pass` or `Fail(msg)`.

These files are covered by members of another module:

- `ApplyMiddlewares` models all three wrapping loops:
  - `applyMiddlewares` at pkg/proxy/route.go:185-191;
  - `applyInternalMiddlewares` at pkg/proxy/middleware.go:41-46;
  - `applyMiddlewares` at internal/proxy/handler.go:96-102.
- `AccessLog.CountingWriter` models three writers that count status and bytes:
  - pkg/accesslog/writer.go;
  - pkg/accesslog/responsewriter.go;
  - the writer of pkg/proxy/accesslog.go:45-61.
- `Setters` models both copies of the max-body and security-headers handlers:
  - the ones in pkg/middleware;
  - the function-typed ones in internal/middleware/maxRequestBody.go and
    internal/middleware/securityHeaders.go;
  - also the max-body wrapper of pkg/proxy/middleware.go:18-25.
- `Routes` models both pkg/proxy/route.go and internal/proxy/route.go, which
  set the same defaults and options.
- internals/middleware/config.go has the same defaulting and validation as
  internal/config/middleware.go, so `MiddlewareConfigs` models both.
- internal/config/accesslog.go repeats the defaulting of
  internal/config/accessLog.go word for word, so `AccessLogConfigs` models
  both.
- internal/config/config.go validates its log section with the validator of
  pkg/proxy/config/log.go, since internal/config/log.go has none.
- Its route sections are those of internals/config/route.go.
- The older proxy (internal/proxy/handler.go) looks up routes through a router
  that is not part of this model. `HostRouter` stands in for it.
- The deferred access log of internal/proxy/handler.go:80-84 calls a
  three-parameter `logAccess` with four arguments. It is modelled with the
  `logAccess` of internal/proxy/accessLog.go, whose status and size are fixed.

I/O and foreign code become parameters of the members that use them:

| Go code | parameter |
|---|---|
| `net.ParseIP` followed by `String` | `parseIP` |
| bcrypt's comparison | a match predicate |
| the gzip encoder | a byte transformer |
| `uuid.New` | `generated` |
| `path.Join` | `join` |
| `url.Parse` | `parse` |
| `filesize.Parse` | a size parser |
| the token bucket's `Allow` | `allow` |
| the backend's reply | a result value |
| `cleanenv.ReadConfig` | `readErr` |
| the request-creation error | `createErr` |

Time stamps are already-formatted strings. `net.SplitHostPort`, standard
base64 and the `strings` functions the core uses are modelled concretely.

Places where the code does less than its own comments or its other
generations suggest, and what the model does there:

- The recovery wrapper of pkg/proxy/middleware.go:29-39 does not recover.
  `Setters.RecoveryAsWritten` models it as written (see Findings), and
  `Setters.Recovery` models pkg/middleware/recovery.go:15-33.
- The rate limiter's `sync.Map` (pkg/middleware/ratelimit.go:27, 46-53) gets
  one entry per client address and nothing ever removes one. The model's
  cache is an unbounded `map`.
- The comments at pkg/middleware/compress.go:88 and 110-111 say that small
  responses are sent uncompressed. As written, a body within `minSize` still
  gets gzip framing (see Findings).
- A new route starts with preserve-host true (pkg/proxy/route.go:67), but
  cmd/rp/main.go:74 always passes the section's flag, which no `applyDefaults`
  sets. The flag is therefore false unless configured
  (`Startup.WiredRouteSettings`).
- No validator checks that a route's middleware list holds at most one entry
  per kind (internals/config/route.go:40-71). `Routes.HandleLayersDistinct`
  takes it as a precondition.

## Model

| member | source | states |
|---|---|---|
| AccessLog.NewLogger | pkg/accesslog/accesslog.go:30-43 | the logger keeps the configured format; a nil output becomes standard output, any other output is kept |
| AccessLog.BuildEntry | pkg/accesslog/accesslog.go:85-112 | the entry carries the client host (the whole remote address when it has no port), method, request URI, protocol, status and size; the user name only when basic auth parses; referer and user agent only for the combined and JSON formats, empty otherwise |
| AccessLog.Dash | pkg/accesslog/accesslog.go:114-118 | an empty field is printed as a non-empty placeholder and a non-empty one as itself |
| AccessLog.CommonLineShape | pkg/accesslog/accesslog.go:120-129 | the common-format line is the user part, the bracketed time and the request part joined by spaces, ended by one line break |
| AccessLog.CommonLineFields | pkg/accesslog/accesslog.go:114-130 | a common line ends with its line break and, split at its spaces, gives back the IP, `-`, the user, the time pieces, the quoted request line, the status and the size, whenever those fields hold no spaces |
| AccessLog.CombinedExtendsCommon | pkg/accesslog/accesslog.go:132-160 | the combined line is the common line with the quoted referer and user agent (dashes when empty) inserted before its line break |
| AccessLog.FormatJSON | pkg/accesslog/accesslog.go:162-171 | a marshalled entry gets one line break appended; a marshalling error is wrapped with `failed to marshal access log entry: ` |
| AccessLog.Log | pkg/accesslog/accesslog.go:45-69 | JSON, combined and (for any other format) common lines are chosen by format; a JSON failure is returned wrapped and nothing is written; otherwise the line is written and the output's error is returned as it is |
| AccessLog.LastStatusIsLastHeader | pkg/accesslog/writer.go:18-21 | the recorded status is the code of the last `WriteHeader` call, whatever writes follow it |
| AccessLog.WritesKeepStatus | pkg/accesslog/writer.go:11-21 | writes alone never change the recorded status |
| AccessLog.WrittenConcat | pkg/accesslog/writer.go:11-16 | the byte count of two runs of calls is the sum of their counts |
| AccessLog.CountingWriter.constructor | pkg/accesslog/middleware.go:22-26 | a fresh writer has sent nothing, counted no bytes and holds status 200 |
| AccessLog.CountingWriter.Write | pkg/accesslog/writer.go:11-16 | the data is forwarded unchanged, the count grows by what the wrapped writer reported (even with an error), that count and error are returned and the status is kept |
| AccessLog.CountingWriter.WriteHeader | pkg/accesslog/writer.go:18-21 | the code is recorded and forwarded; the count is kept |
| AccessLog.AccessLogHandler | pkg/accesslog/middleware.go:18-33 | the wrapped writer receives exactly the next handler's calls, and the request is logged once afterwards with the last status (200 without `WriteHeader`) and the byte total |
| Base64.CharOf | pkg/middleware/basicauth.go:43 | every alphabet character differs from the pad and from the line breaks the decoder skips |
| Base64.ValueOf | pkg/middleware/basicauth.go:43 | a character is decoded only to a six-bit value whose alphabet character it is |
| Base64.ValueOfCharOf | pkg/middleware/basicauth.go:43 | decoding the alphabet character of any six-bit value gives that value back |
| Base64.Encode | pkg/middleware/basicauth.go:43 | an encoding is whole four-character quanta and holds no line breaks |
| Base64.SkipNewlines | pkg/middleware/basicauth.go:43 | dropping the line breaks never lengthens the text |
| Base64.SkipNewlinesOfEncoded | pkg/middleware/basicauth.go:43 | an encoding has nothing for the decoder to skip |
| Base64.NoNewlinesSkipped | pkg/middleware/basicauth.go:43 | text without line breaks is left as it is by the skipping step |
| Base64.FullQuantum | pkg/middleware/basicauth.go:43 | the four sextets of a three-byte group reassemble into the three bytes |
| Base64.DecodeOneByte | pkg/middleware/basicauth.go:43 | a quantum with two pad characters decodes to its single byte |
| Base64.DecodeTwoBytes | pkg/middleware/basicauth.go:43 | a quantum with one pad character decodes to its two bytes |
| Base64.DecodeThreeBytes | pkg/middleware/basicauth.go:43 | a full quantum decodes to its three bytes followed by the decoding of the rest |
| Base64.DecodeQuantaEncode | pkg/middleware/basicauth.go:43 | the quanta of any encoding decode back to the bytes encoded |
| Base64.DecodeEncode | pkg/middleware/basicauth.go:43 | `DecodeString` inverts standard encoding on every byte string |
| BasicAuthentication.Authenticate | pkg/middleware/basicauth.go:86-89 | the response carries exactly one challenge header naming the realm, status 401 when none was set, and `Unauthorized` and a line break appended to the body |
| BasicAuthentication.DecodeCredentials | pkg/middleware/basicauth.go:43-56 | decoded credentials split at the first colon, so the login never holds a colon |
| BasicAuthentication.Decide | pkg/middleware/basicauth.go:43-76 | undecodable or colon-less credentials are refused with no comparison; otherwise exactly one bcrypt comparison is made, against the dummy hash for an unknown user, and the request passes iff the user is known and the password matches |
| BasicAuthentication.BasicAuthHandler | pkg/middleware/basicauth.go:28-76 | a missing header or one without the `Basic` prefix is refused with the challenge; the handler panics iff the header is exactly `Basic`; otherwise the decision is made on the text after the byte following the scheme |
| BasicAuthentication.BasicAuthHandlerCorrected | pkg/middleware/basicauth.go:36-41 | with a length check the handler never panics, refuses a bare `Basic` header with the challenge and otherwise agrees with the handler as written |
| BasicAuthentication.BareSchemePanics | pkg/middleware/basicauth.go:41 | a request whose header is exactly `Basic` makes the handler as written panic and the corrected one answer with the challenge |
| BasicAuthentication.SeparatorUnchecked | pkg/middleware/basicauth.go:36-41 | the character after `Basic` is skipped whatever it is, so `Basicx<credentials>` is accepted like `Basic <credentials>` |
| BasicAuthentication.StringToBytes | pkg/middleware/basicauth.go:49 | the byte slice of a Go string converts back to the same string |
| BasicAuthentication.CredentialsRoundTrip | pkg/middleware/basicauth.go:43-56 | credentials encoded as section 2 of RFC 7617 prescribes decode back to the login and password, whenever the login has no colon |
| BasicAuthentication.ValidCredentialsPass | pkg/middleware/basicauth.go:25-84 | a well-formed header with a known login and the matching password is let through after exactly one comparison, against that user's stored hash |
| Compression.SanitizedLevel | pkg/middleware/compress.go:143-150 | the level afterwards is always one of no compression, best speed, best compression or the default, and it is unchanged iff it already was one of those four |
| Compression.CompressConfig.constructor | pkg/middleware/compress.go:86-104 | the configuration holds the given minimum size, level and types |
| Compression.CompressConfig.ValidateLevel | pkg/middleware/compress.go:143-150 | the level is replaced by its sanitised value in place and the minimum size and types are untouched |
| Compression.CompressMiddleware | pkg/middleware/compress.go:112-141 | after construction the stored level is sanitised, every writer is built from the configuration as it now is, and its level is one the gzip library accepts |
| Compression.WriteHeaderStep | pkg/middleware/compress.go:26-38 | compression is chosen iff the Content-Type's text before the first `;` is an allowed type; if so the encoding and `Vary` headers are set and no other header changes, otherwise the headers are untouched; the status always reaches the underlying writer |
| Compression.GzipResponseWriter.constructor | pkg/middleware/compress.go:123-128 | a fresh writer wraps the response with the configured level, minimum size and types and has buffered nothing |
| Compression.GzipResponseWriter.Header | pkg/middleware/compress.go:14-24 | setting a header acts on the underlying response's headers |
| Compression.GzipResponseWriter.WriteHeader | pkg/middleware/compress.go:26-38 | the writer's new state is the header step of its old state |
| Compression.GzipResponseWriter.Write | pkg/middleware/compress.go:40-63 | the writer's new state is the write step of its old state, and the whole slice is reported written |
| Compression.GzipResponseWriter.Close | pkg/middleware/compress.go:65-84 | the writer's new state is the close step of its old state |
| Compression.RunHandler | pkg/middleware/compress.go:129 | running the handler's calls on the writer leaves it in the state the calls, folded in order, give |
| Compression.RunPlain | pkg/middleware/compress.go:118-119 | the same calls on the plain writer give the plain run's response |
| Compression.Compress | pkg/middleware/compress.go:115-135 | without `gzip` in Accept-Encoding the handler runs on the plain writer; otherwise on a fresh gzip writer that is closed after the handler returns |
| Compression.Writes | pkg/middleware/compress.go:40-63 | a script of writes holds one write call per piece, in order |
| Compression.CompressingWritesBuffer | pkg/middleware/compress.go:40-63 | while compressing, writes never reach the underlying writer, `size` counts every byte written, the raw buffer followed by what the gzip writer received is everything written in order, and nothing reaches the gzip writer until `minSize` is exceeded |
| Compression.PassThrough | pkg/middleware/compress.go:41-42 | without compression a write goes to the underlying writer unchanged and `Close` does nothing |
| Compression.WriteBeforeHeader | pkg/middleware/compress.go:26-42 | a write before `WriteHeader` passes through and commits 200, so the later `WriteHeader` sends no other status |
| Compression.BufferedWrite | pkg/middleware/compress.go:44-63 | one more compressing write keeps the underlying writer untouched, adds its length to `size` and appends its bytes to the buffered-then-gzip sequence |
| Compression.CloseWithoutWrites | pkg/middleware/compress.go:65-76 | a writer that never received a write emits nothing on `Close` |
| Compression.RunAppend | pkg/middleware/compress.go:129 | running two call sequences one after the other is running their concatenation |
| Compression.ScriptHeader | pkg/middleware/compress.go:26-38 | after an allowed Content-Type and `WriteHeader` the writer compresses, carries exactly one `Content-Encoding: gzip` and has written no body |
| Compression.CompressedClose | pkg/middleware/compress.go:78-83 | with an open gzip writer, `Close` keeps the headers and sends the buffer followed by the end of the gzip stream |
| Compression.ScriptBody | pkg/middleware/compress.go:40-84 | a compressed response's body is the raw buffered part followed by the gzip stream of whatever came after the threshold, and the two parts together are all that was written |
| Compression.MixedBodyAsWritten | pkg/middleware/compress.go:57-62 | a first write within `minSize` and a second past it give a body of the raw first write followed by the gzip stream of the second, labelled gzip, which is not a gzip stream |
| Compression.SmallBodyAsWritten | pkg/middleware/compress.go:45-84 | a body that never exceeds `minSize` is still labelled gzip and followed by an empty gzip stream's framing |
| CompressionCorrected.HeldWritesAccumulate | pkg/middleware/compress.go:110-111 | with the corrected writer, writes while compressing only accumulate and send nothing |
| CompressionCorrected.HeldRunAppend | pkg/middleware/compress.go:110-111 | the corrected writer's run over two call sequences is its run over their concatenation |
| CompressionCorrected.HeldScriptHeader | pkg/middleware/compress.go:110-111 | with the corrected writer an allowed Content-Type holds the status back, buffers nothing yet and leaves the response with only the Content-Type set |
| CompressionCorrected.CorrectedBody | pkg/middleware/compress.go:106-111 | as documented: a compressible response is labelled gzip iff its whole body exceeds `minSize`, the body is then one gzip stream of everything written and otherwise everything as written, and the handler's status is the one sent |
| CompressionCorrected.CorrectedTwoWrites | pkg/middleware/compress.go:57-62 | the two writes that give a mixed body as written come out as a single gzip stream of both |
| ServerConfigs.ValidateListen | internal/config/server.go:40-58 | nil iff there is an address and the read, write, idle and shutdown timeouts are non-negative |
| ServerConfigs.ListenChecksOrder | internal/config/server.go:40-58 | each error is reported exactly when every earlier check holds and its own fails: the missing address first, then the timeouts in the order read, write, idle, shutdown |
| ServerConfigs.DefaultedServer | internals/config/server.go:18-38 | the address and every non-zero field are kept; a zero read or write timeout becomes 15s, idle 60s, shutdown 30s, header bytes 1 MiB and request body 10 MiB |
| ServerConfigs.ServerDefaultValues | internals/config/server.go:18-38 | an all-zero section gets 15s read and write timeouts, 60s idle, 30s shutdown, 1 MiB of headers and 10 MiB of body |
| ServerConfigs.ServerDefaultsIdempotent | internals/config/server.go:18-38 | defaulting a section twice gives what defaulting it once gives |
| ServerConfigs.ValidateServer | internals/config/server.go:40-64 | nil iff the common checks hold and both byte sizes are non-negative; an empty address is always the error reported; a failing common check is reported first, then `max_header_bytes can't be negative` exactly when the common checks pass and the header size is negative, then `max_request_body can't be negative` exactly when those pass and the body size is negative |
| ServerConfigs.DefaultedServerValidIff | internals/config/server.go:18-64 | a defaulted section is valid iff it has an address and no field was negative before defaulting |
| ServerConfigs.ServerConfig.constructor | internals/config/server.go:8-16 | the object holds the given fields |
| ServerConfigs.ServerConfig.ApplyDefaults | internals/config/server.go:18-38 | the fields become the defaulted fields of the old ones |
| ServerConfigs.DefaultedTextServer | internal/config/server.go:18-38 | the address and every non-zero duration and non-empty size are kept; a zero read or write timeout becomes 15s, idle 60s, shutdown 30s, and empty sizes become `1MB` and `10MB` |
| ServerConfigs.ValidateTextServer | internal/config/server.go:40-58 | nil iff the address is set and the four timeouts are non-negative |
| ServerConfigs.TextSizesUnchecked | internal/config/server.go:40-58 | the size texts never affect validation |
| ServerConfigs.TextServerDefaultValues | internal/config/server.go:18-38 | an all-zero section gets the four duration defaults and the sizes `1MB` and `10MB` |
| ServerConfigs.TextServerDefaultsIdempotent | internal/config/server.go:18-38 | defaulting twice is defaulting once |
| ServerConfigs.TextServerConfig.constructor | internal/config/server.go:8-16 | the object holds the given fields |
| ServerConfigs.TextServerConfig.ApplyDefaults | internal/config/server.go:18-38 | the fields become the defaulted fields of the old ones |
| ServerConfigs.ValidateProxyServer | pkg/proxy/config/server.go:18-36 | nil iff the address is set and the four timeouts are non-negative |
| ServerConfigs.ProxySizesUnchecked | pkg/proxy/config/server.go:8-36 | the byte sizes are never looked at, negative ones included |
| LogConfigs.IsValidLevel | pkg/proxy/config/log.go:37-40 | true exactly for `debug`, `info`, `warn` and `error` |
| LogConfigs.IsValidFormat | pkg/proxy/config/log.go:42-45 | true exactly for `json` and `text` |
| LogConfigs.ValidateLog | pkg/proxy/config/log.go:26-35 | nil iff level and format are valid; an invalid level is reported first with its message, then an invalid format with its own |
| LogConfigs.CaseSensitive | pkg/proxy/config/log.go:37-45 | upper-case `INFO` and `JSON` are rejected |
| LogConfigs.DefaultedLog | internal/config/log.go:10-17 | non-empty fields are kept, an empty level becomes `info` and an empty format `text` |
| LogConfigs.LogConfig.constructor | internal/config/log.go:5-8 | the object holds the given fields |
| LogConfigs.LogConfig.ApplyDefaults | internal/config/log.go:10-17 | the fields become the defaulted fields of the old ones |
| LogConfigs.LogDefaultValues | internal/config/log.go:10-17 | an empty section becomes level `info` and format `text` |
| LogConfigs.LogDefaultsIdempotent | internal/config/log.go:10-17 | defaulting twice is defaulting once |
| LogConfigs.DefaultedLogValidIff | internal/config/log.go:10-17 | a defaulted section validates iff each field was empty or valid |
| AccessLogConfigs.IsValidAccessLogFormat | internal/config/accessLog.go:38-41 | true exactly for `common`, `json` and `combined` |
| AccessLogConfigs.ValidateAccessLog | internal/config/accessLog.go:28-36 | a nil section is valid; a present one is valid iff its format is one of the three, and otherwise fails with the format named in the message |
| AccessLogConfigs.FormatCaseSensitive | pkg/proxy/config/accesslog.go:24-32 | `JSON` and `Common` are rejected |
| AccessLogConfigs.AccessLogConfig.constructor | internal/config/accessLog.go:16-18 | the object holds the given format |
| AccessLogConfigs.DefaultedAccessLog | internal/config/accessLog.go:20-26 | a nil section stays nil and a present one stays present; a non-empty format is kept, an empty one becomes `common`, and the result's format is never empty |
| AccessLogConfigs.AccessLogDefaultsIdempotent | internal/config/accessLog.go:20-26 | defaulting twice is defaulting once |
| AccessLogConfigs.ApplyDefaults | internal/config/accessLog.go:20-26 | a nil receiver is left alone; an empty format becomes `common` and any other is kept |
| AccessLogConfigs.DefaultedFormatValidIff | internal/config/accessLog.go:20-36 | a defaulted present section validates iff its format was empty or one of the three |
| ProxyConfigs.ValidateSections | pkg/proxy/config/config.go:13-27 | nil iff server, log and access-log sections all validate; otherwise the first failing section's error, in that order, wrapped with the section's name |
| ProxyConfigs.NilAccessLogAccepted | pkg/proxy/config/config.go:13-27 | a nil access-log section validates like `common`, whatever the server's byte sizes |
| RouteConfigs.DefaultedRoute | internals/config/route.go:21-38 | backend and preserve-host are kept and non-zero transport fields are kept; a zero dial timeout becomes 10s, response-header timeout 30s, idle-connection timeout 90s and pool size 100; every middleware entry is defaulted |
| RouteConfigs.RouteDefaultValues | internals/config/route.go:21-38 | a route with only a backend gets 10s to dial, 30s to the response header, 90s idle and a pool of 100, and preserve-host stays false |
| RouteConfigs.RouteDefaultsIdempotent | internals/config/route.go:21-38 | defaulting twice is defaulting once |
| RouteConfigs.IsUrl | internals/config/route.go:73-75 | a URL starts with `http` and is at least seven characters long |
| RouteConfigs.IsUrlExamples | internals/config/route.go:73-75 | `http://…` and a bare `https://` pass; upper-case `HTTP://`, no scheme and `ftp://` fail |
| RouteConfigs.CheckFields | internals/config/route.go:40-62 | nil iff the backend is set and a URL and the four transport values are non-negative; a missing backend and a non-URL backend give their own messages |
| RouteConfigs.DefaultedRouteValidIff | internals/config/route.go:21-71 | a defaulted route is valid iff its backend is a URL, no transport value was negative and every defaulted middleware entry is valid |
| RouteConfigs.RouteConfig.constructor | internals/config/route.go:11-19 | the object holds the given fields |
| RouteConfigs.RouteConfig.ApplyDefaults | internals/config/route.go:21-38 | the fields become the defaulted fields of the old ones |
| RouteConfigs.RouteConfig.Validate | internals/config/route.go:40-71 | nil iff the route is valid; otherwise the first failing field check's error or the first invalid middleware entry's wrapped error |
| RouteConfigs.ValidateRoute | internals/config/route.go:40-71 | on a route's contents: nil iff the route is valid, otherwise one of the errors the route may give |
| MiddlewareConfigs.Defaulted | internal/config/middleware.go:71-126 | the type is kept; only the entry's own kind's zero fields get defaults (realm `Restricted`; GET and POST and 24h for CORS; 1024 bytes, level 5 and nine media types for compress; `X-Request-ID`; four security headers, the permissions policy excepted); every other field is kept |
| MiddlewareConfigs.DefaultsIdempotent | internal/config/middleware.go:71-126 | defaulting an entry twice is defaulting it once |
| MiddlewareConfigs.DefaultsSkipOtherKinds | internal/config/middleware.go:71-126 | an entry of `rate_limit`, `headers` or an unknown type is left exactly as it is |
| MiddlewareConfigs.IsBcryptHash | internal/config/middleware.go:183-187 | true iff the hash starts with `$2a`, `$2b` or `$2y` |
| MiddlewareConfigs.FindBadHash | internal/config/middleware.go:157-161 | no user is found iff every stored hash has a bcrypt prefix; a user found is one whose hash has none |
| MiddlewareConfigs.Validate | internal/config/middleware.go:128-181 | nil exactly for a valid entry (a listed type, and for rate_limit, basic_auth, cors and compress settings that pass their checks); otherwise an error of the entry's first failing check |
| MiddlewareConfigs.RejectsOnlyInvalid | internal/config/middleware.go:128-181 | an entry that may give an error is not valid |
| MiddlewareConfigs.InternalKindsRejected | internal/config/middleware.go:129-138 | the proxy's own `max_request_body` and `recovery` kinds are refused as unknown types |
| MiddlewareConfigs.UncheckedKindsValid | internal/config/middleware.go:140-178 | `headers`, `request_id` and `security_headers` entries always validate, nil header rules included |
| MiddlewareConfigs.DefaultsPreserveValidity | internal/config/middleware.go:71-181 | defaulting never makes a valid entry invalid, and a compress entry whose level was left unset validates after defaulting |
| MiddlewareConfigs.DefaultedAll | internal/config/config.go:53-55 | the list keeps its length and each entry is defaulted in place |
| MiddlewareConfigs.DefaultedAllIdempotent | internal/config/config.go:53-55 | defaulting a list twice is defaulting it once |
| MiddlewareConfigs.ApplyDefaultsEach | internal/config/config.go:53-55 | the loop leaves the list each of whose entries is defaulted |
| MiddlewareConfigs.ValidateList | internal/config/config.go:81-85 | nil iff every entry is valid; otherwise the first invalid entry's error prefixed with `failed to validate middleware ` and its type |
| MiddlewareConfigs.Build | internal/config/middleware.go:189-252 | a built instance carries the entry's own kind; building fails iff the type is not one of the seven, with `unknow middleware type: `; it panics iff a `headers` entry lacks request or response rules; basic_auth, cors and compress settings are copied into the instance |
| MiddlewareConfigs.ValidBuildsUnlessRulesMissing | internal/config/middleware.go:128-252 | a validated entry always builds, except a `headers` entry with missing rules, which panics |
| MiddlewareConfigs.RequestRulesOnlyPanics | internal/config/middleware.go:214-226 | a `headers` entry with only request rules passes validation, panics when built as written and builds with the correction |
| MiddlewareConfigs.BuildCorrected | internal/config/middleware.go:214-226 | with nil rules read as empty rules, building never panics, succeeds iff the type is one of the seven, always succeeds for a valid entry and otherwise agrees with `Build` |
| Configs.DefaultedRoutes | internal/config/config.go:49-51 | the hosts are unchanged and every route section is defaulted |
| Configs.DefaultedConfig | internal/config/config.go:34-56 | server and log sections are always present afterwards (a nil one becomes a defaulted zero section); the access-log section stays nil or is defaulted; every route and global entry is defaulted and the hosts are unchanged |
| Configs.ConfigDefaultsIdempotent | internal/config/config.go:34-56 | applying the defaults twice gives what applying them once gives |
| Configs.NoRoutesRejected | internal/config/config.go:71-73 | a configuration without routes is never accepted, whatever its sections default to |
| Configs.Config.constructor | internal/config/config.go:10-16 | the object holds the given sections, routes and entries |
| Configs.Config.DefaultSections | internal/config/config.go:35-47 | the server and log sections exist and are defaulted (an existing object is defaulted in place), a present access-log section is defaulted, and routes and entries are untouched |
| Configs.Config.DefaultRoutesAndEntries | internal/config/config.go:49-55 | every route is defaulted, in any host order, then every global entry; the sections are untouched |
| Configs.Config.ApplyDefaults | internal/config/config.go:34-56 | the configuration's contents become their defaulted form; server and log exist afterwards, existing section objects are kept and the access-log reference is untouched |
| Configs.Config.Validate | internal/config/config.go:58-88 | nil iff server, log and access log validate, there is a route, every route is valid and every global entry is valid; otherwise the error of the first failing stage, wrapped with its stage's message and, for a route, the host |
| Configs.Config.Load | internal/config/config.go:18-32 | a read error is returned wrapped; otherwise the contents are defaulted, and the result is nil iff the defaulted configuration is valid, else its validation error wrapped with `failed to validate config: ` |
| Startup.BuildFailure | cmd/rp/main.go:170-174 | a build error is wrapped with `failed to build middleware ` and the type; a panic passes through with its reason |
| Startup.BuildMiddlewares | cmd/rp/main.go:167-180 | every entry builds iff the result is built, and then the instances are the entries' builds in order; otherwise the result is the report of the first entry that did not build |
| Startup.ValidatedListBuilds | cmd/rp/main.go:167-180 | a list that passed validation builds completely when every `headers` entry has both rule sets |
| Startup.UnknownTypeReport | cmd/rp/main.go:170-174 | an unknown type is reported as `failed to build middleware <t>: unknow middleware type: <t>` |
| Startup.AcceptedConfigBuilds | cmd/rp/main.go:58-69 | every global and every route list of an accepted configuration builds when no `headers` entry misses a rule set |
| Startup.BuiltList | cmd/rp/main.go:167-180 | the instances of an all-building list are the entries' builds in order |
| Startup.Wrapped | cmd/rp/main.go:58-69 | a build error gets `run`'s prefix; a panic passes through with its reason |
| Startup.BuildAll | cmd/rp/main.go:58-69 | everything builds iff the global list and each route's list build, and then each host gets its own list's instances; otherwise the first unbuilt global entry's report, or some host's first unbuilt entry's report, wrapped with the global or the host's prefix |
| Startup.MapConfig | cmd/rp/main.go:93-142 | the result is a configuration iff both sizes parse, with the header size's error reported first and each wrapped with its field's name; the server fields are copied with the parsed sizes, log, access log and routes are copied and the global entries are not |
| Startup.WiredRouteSettings | cmd/rp/main.go:71-80 | a route registered with the six options has exactly its section's preserve-host flag, timeouts, pool size, dial timeout and middlewares, every default of a new route overridden |
| GoMath.TruncDiv | pkg/middleware/cors.go:85 | the quotient's magnitude is the largest whose multiple of the divisor stays within the dividend's magnitude, and its sign is positive iff the operands' signs agree: Go's division truncating toward zero |
| GoMath.TruncDivExamples | pkg/middleware/cors.go:85 | Go's and Dafny's divisions agree on non-negative operands and differ on an inexact negative one |
| CrossOrigin.MaxAgeSeconds | pkg/middleware/cors.go:85 | a non-negative maximum age is sent as the decimal of its whole seconds; one less than a second back is sent as `0`; one at least a second back as `-` and the decimal of its whole seconds |
| CrossOrigin.SetOriginHeaders | pkg/middleware/cors.go:73-81 | the origin is echoed verbatim, `true` is set iff credentials are allowed, the exposed headers' comma join only when it is not empty; no other header changes |
| CrossOrigin.SetPreflightHeaders | pkg/middleware/cors.go:84-89 | the methods' join is set even when empty, the maximum age in seconds always, the allowed headers only when their join is not empty; no other header changes |
| CrossOrigin.CorsHandler | pkg/middleware/cors.go:55-97 | a request without `Origin` goes on untouched; an origin not exactly in the list gets 403 with its message; an allowed one gets the origin headers and nothing else changed, and then a preflight gets the preflight headers and 204 without the next handler while any other method goes on to the next handler |
| CrossOrigin.CredentialsIff | pkg/middleware/cors.go:75-77 | the credentials header is sent, as `true`, iff credentials are configured |
| CrossOrigin.MaxAgeExamples | pkg/middleware/cors.go:85 | ninety and a half seconds are sent as 90 and minus half a second as 0 |
| Forwarding.AddAllSpec | pkg/proxy/route.go:96-100 | afterwards a key is present iff it was in the destination or has values in the source, and each key's values are the destination's followed by the source's |
| Forwarding.AddAll | pkg/proxy/route.go:96-100 | the copy loop, keys in any order, gives exactly the appended header |
| Forwarding.SameValues | pkg/proxy/route.go:96-100 | two headers with the same keys and the same values per key are one header, so the key order of the copy loop does not matter |
| Forwarding.AddValues | pkg/proxy/route.go:97-99 | adding the values of one key appends them in order to that key and changes no other key |
| Forwarding.ForwardedHeaders | pkg/proxy/route.go:193-204 | `X-Forwarded-For` holds one value, the prior one, a comma and the client host, or the client host alone; `X-Forwarded-Host` is the original host and `X-Forwarded-Proto` is `http`; every other key is unchanged |
| Forwarding.ForwardedForAppendsHop | pkg/proxy/route.go:196-201 | the last comma-separated element of the new `X-Forwarded-For` is the client host this hop saw |
| Forwarding.LastComma | pkg/proxy/route.go:198 | in `prior,client` with no comma in the client the last comma is the joining one and the client follows it |
| Forwarding.BackendUrl | pkg/proxy/route.go:86-88 | the backend URL keeps the backend's scheme and host, joins the backend path and the inbound path, and copies the inbound query verbatim |
| Forwarding.OutgoingRequest | pkg/proxy/route.go:90 | a new request carries the inbound method and body, the backend URL, no headers and the URL's host |
| Forwarding.BuildBackendRequest | pkg/proxy/route.go:86-108 | the built request is the specified one: header copy, forwarded headers, then the Host |
| Forwarding.BackendRequestProperties | pkg/proxy/route.go:86-108 | the backend request keeps method and body, combines the URLs, takes the original Host iff the route preserves it, and carries every inbound header value except the three forwarded ones, which are rewritten |
| Forwarding.Relay | pkg/proxy/route.go:110-130 | the base handler answers as specified: 502 on a transport error, otherwise the backend's headers added, its status written and its body copied |
| Forwarding.RelayProperties | pkg/proxy/route.go:110-130 | a transport error gives 502 when no status was written before; a backend answer gives its status (when none was written before), its body appended and every header value added after the existing ones |
| Http.CanonicalKey | pkg/middleware/requestID.go:31-37 | a name keeps its length, and a name with a non-token character is kept as it is |
| Http.CanonicalKeyIdempotent | pkg/middleware/requestID.go:31-37 | canonicalising a canonical name changes nothing, so a name read back from the header is found again |
| Http.CanonicalKeyFrom | pkg/middleware/requestID.go:31-37 | a token name becomes the name with its first letter and each letter after a `-` in upper case and every other letter in lower case |
| Http.CanonicalRequestId | pkg/middleware/requestID.go:31-37 | the default request-ID name `X-Request-ID` is stored as `X-Request-Id` |
| Http.CanonicalLowerRequestId | pkg/middleware/requestID.go:31-37 | a configured `x-request-id` names the same header, `X-Request-Id` |
| Http.CanonicalAuthenticate | pkg/middleware/basicauth.go:87 | the challenge header `WWW-Authenticate` is stored as `Www-Authenticate` |
| Http.CanonicalXssProtection | pkg/middleware/securityHeaders.go:61 | the header `X-XSS-Protection` is stored as `X-Xss-Protection` |
| Http.NonTokenKept | pkg/middleware/requestID.go:31-37 | a name holding a space is used as it is |
| Http.Get | pkg/proxy/route.go:196 | a key with values yields its first value, and a missing key or one without values yields ""; so a non-empty result is always the key's first value |
| Http.Set | pkg/proxy/route.go:201-203 | the key holds exactly the one value and no other key changes |
| Http.Add | pkg/proxy/route.go:98 | the value is appended after the key's existing values and no other key changes |
| Http.Del | pkg/middleware/headers.go:73-75 | the key is gone and no other key changes |
| Http.WriteHeader | pkg/proxy/route.go:124 | only the first call sets the status, and none after a write committed one; header and body are untouched |
| Http.Write | pkg/proxy/route.go:126 | the bytes are appended to the body and the header is untouched; a write before any status commits 200, and otherwise the status stays |
| Http.WriteCommitsStatus | pkg/proxy/route.go:114-126 | after a write that committed 200, neither `WriteHeader` nor `http.Error` changes the status, and `http.Error`'s text follows the written bytes; `Write`, `WriteHeader` and `Error` all leave a response whose body is only present with a status |
| Http.Error | pkg/proxy/route.go:114 | `http.Error` drops Content-Length, sets a plain-text Content-Type and `nosniff`, sets the status when none was sent, keeps a status already sent, and appends the message and a line break |
| Http.SplitHostPort | pkg/proxy/route.go:206-213 | a split port never holds a colon |
| Http.SplitJoinedHostPort | pkg/proxy/route.go:206-213 | `host:port` without colons or brackets in either part splits back into host and port |
| Http.ClientHost | pkg/proxy/route.go:206-213 | the client host is the remote address without its port, or the whole address when it cannot be split |
| Http.BytesToString | pkg/middleware/basicauth.go:49 | the string has one character per byte, of the byte's value |
| Http.BasicAuthOf | pkg/accesslog/accesslog.go:102-104 | credentials are found only when the header starts with `basic ` in any letter case |
| HeaderRewrite.RewrittenUnique | pkg/middleware/headers.go:64-76 | the rewrite is determined by the header and the rules, whatever order the map loops visit keys in |
| HeaderRewrite.EmptyRulesKeepHeader | pkg/middleware/headers.go:64-76 | empty rules leave the header as it was |
| HeaderRewrite.AddRules | pkg/middleware/headers.go:65-67 | each added key gets its value after its existing ones; every other key is unchanged |
| HeaderRewrite.SetRules | pkg/middleware/headers.go:69-71 | each set key holds exactly its value; every other key is unchanged |
| HeaderRewrite.RemoveRules | pkg/middleware/headers.go:73-75 | each listed name is absent; every other key is unchanged |
| HeaderRewrite.ApplyHeaders | pkg/middleware/headers.go:64-76 | after add, set and remove, removed names are absent, set keys hold their value, only-added keys get their value appended and every other key is unchanged |
| HeaderRewrite.HeadersHandler | pkg/middleware/headers.go:50-62 | the next handler always runs once; a side with rules gets its header rewritten and a side with a nil rule set is left alone; nothing else in request or response changes |
| LegacyProxies.LegacyLayersShape | internal/proxy/handler.go:86-92 | the older chain is the global middleware in order, then max-body with the configured limit, then recovery, then the route's middleware, and no longer than those parts together |
| LegacyProxies.BothInstancesKept | internal/proxy/handler.go:88-90 | a kind present both globally and on the route keeps both instances in the older chain, the global one outside the route's |
| LegacyProxies.LegacyProxy.constructor | internal/proxy/proxy.go:20-40 | a new proxy has an empty router, no global middleware and the configured body limit and access-log format |
| LegacyProxies.LegacyProxy.Use | internal/proxy/proxy.go:72-74 | the global list becomes the old list followed by the given middleware |
| LegacyProxies.LegacyProxy.Route | internal/proxy/proxy.go:60-70 | a fresh route whose backend is the parse of the URL (nil on failure) and whose settings are the defaults with the options applied in order, registered under the prepared host in the table its pattern selects, the other table unchanged |
| LegacyProxies.LegacyProxy.ServeHTTP | internal/proxy/handler.go:16-94 | an empty Host gets 400 and a host without a route 404; a routed request gets the exact route or some matching wildcard route and is handled through the older chain; the access log is written iff the chain ran and an access log is configured, with the older line format |
| LegacyProxies.LegacyProxy.ServeRoute | internal/proxy/handler.go:28-93 | once a route is found: a nil backend panics, a failed backend request is answered 500, and otherwise the backend request is built and the older chain assembled; the access log is written iff that chain runs and an access log is configured |
| Merge.RouteByType | pkg/proxy/route.go:160-163 | the map holds exactly the route's kinds, each mapped to a route instance of that kind |
| Merge.RouteByTypeLast | pkg/proxy/route.go:160-163 | each kind maps to the route's last instance of it |
| Merge.Override | pkg/proxy/route.go:165-174 | the replacement pass yields a list as long as the global one |
| Merge.OverrideShape | pkg/proxy/route.go:165-174 | every position keeps its kind, and exactly the route kinds the global list lacks are left in the map |
| Merge.OverridePositions | pkg/proxy/route.go:167-174 | with distinct global kinds, each position holds the route's instance of its kind if there is one and the global instance otherwise |
| Merge.OverrideTags | pkg/proxy/route.go:165-174 | the replacement pass keeps the global list's set of kinds |
| Merge.KeepIn | pkg/proxy/route.go:176-180 | the final pass keeps only route instances of kinds still in the map |
| Merge.KeepInTags | pkg/proxy/route.go:176-180 | the kept instances' kinds are the route's kinds still in the map |
| Merge.KeepInDistinct | pkg/proxy/route.go:176-180 | keeping instances never introduces a repeated kind |
| Merge.KeepInLength | pkg/proxy/route.go:176-180 | with distinct kinds one instance is kept per kind still in the map |
| Merge.MergeMiddlewares | pkg/proxy/route.go:155-183 | the three loops compute the merge, and a route without middleware gets the global list unchanged |
| Merge.MergePositions | pkg/proxy/route.go:155-183 | with distinct kinds each global position is kept, holding the route's instance of its kind when there is one, and the route instances of kinds the global list lacks follow in route order |
| Merge.MergeTags | pkg/proxy/route.go:155-183 | the merge holds exactly the kinds of both lists |
| Merge.MergeDistinct | pkg/proxy/route.go:155-183 | with distinct kinds on both sides the merge repeats no kind and is as long as the global list plus the route kinds it lacks |
| Merge.MergeExample | pkg/proxy/route.go:155-183 | global `[A, B]` merged with route `[B']` gives `[A, B']` |
| Middlewares.Parse | pkg/middleware/middleware.go:10-20 | a string maps to a kind only when it is that kind's configuration name |
| Middlewares.ParseName | pkg/middleware/middleware.go:10-20 | every one of the nine kinds' names parses back to that kind, so the names are distinct |
| Middlewares.DistinctConcat | pkg/proxy/route.go:165-180 | two lists without repeated kinds and without a shared kind join into a list without repeated kinds |
| Middlewares.ChainOf | pkg/middleware/middleware.go:22-24 | the handler built from a list has exactly that list as its layers, first outermost |
| Middlewares.LayersInjective | pkg/middleware/middleware.go:22-24 | two handlers with the same layers are the same handler |
| Middlewares.ApplyMiddlewares | pkg/proxy/route.go:185-191 | wrapping from the last element down to the first puts the list, in its own order, in front of the handler's existing layers |
| Proxies.Proxy.constructor | pkg/proxy/proxy.go:21-41 | a new proxy has a fresh empty router (no exact and no wildcard hosts) and no global middleware |
| Proxies.Proxy.Use | pkg/proxy/proxy.go:88-90 | the global list becomes the old list followed by the given middleware |
| Proxies.Proxy.Route | pkg/proxy/proxy.go:76-86 | a fresh route whose backend is the parse of the URL (nil on failure) and whose settings are the defaults with the options applied in order, registered under the prepared host in the wildcard table for a `*` pattern and in the exact table otherwise, the other table unchanged |
| Proxies.Proxy.ServeHTTP | pkg/proxy/proxy.go:43-56 | an empty Host is answered 400 "Missing Host header"; a host matching no exact entry and no wildcard is answered 404 "No route found for host"; otherwise the exact entry, or else some matching wildcard's route, handles the request with the global middleware list |
| Proxies.UseTwice | pkg/proxy/proxy.go:88-90 | two `Use` calls leave the first call's middleware before (outside) the second's |
| ProxyAccessLog.UserField | pkg/proxy/accesslog.go:84-87 | the user field is the basic-auth user name whenever the header parses, even an empty name, and `-` when it does not |
| ProxyAccessLog.LogAccess | pkg/proxy/accesslog.go:63-115 | a text line is printed exactly when the format is not `json`, and it ends in a line break |
| ProxyAccessLog.SplitFields | pkg/proxy/accesslog.go:89-114 | joining space-free fields around a time stamp with single spaces and splitting the result at spaces gives the fields back, the stamp in its own pieces |
| ProxyAccessLog.LogAccessFields | pkg/proxy/accesslog.go:84-114 | read back at its spaces, a text line gives client host, user, time, method, URI, protocol, status and length in that order, then the referer and user-agent field only for `combined` |
| ProxyAccessLog.CombinedAppendsReferer | pkg/proxy/accesslog.go:99-112 | the `combined` line is the `common` line with the quoted referer and user agent appended before the line break |
| ProxyAccessLog.LegacyLogAccess | internal/proxy/accessLog.go:44-88 | the older proxy prints a text line exactly when the format is not `json` |
| ProxyAccessLog.LegacyLineIsStubbed | internal/proxy/accessLog.go:70 | the older line is the newer line for status 200 and size 123, whatever the response was |
| RateLimits.GetIP | pkg/middleware/ratelimit.go:70-97 | a last `X-Forwarded-For` element that parses as an IP is returned; otherwise a `RemoteAddr` without a port is an error, a host that does not parse is an error naming it, `::1` becomes `127.0.0.1` and any other parsed host is returned |
| RateLimits.ForwardedIgnoresRemoteAddr | pkg/middleware/ratelimit.go:71-79 | once the last forwarded element parses, the result does not depend on `RemoteAddr` |
| RateLimits.LoopbackMappedOnlyFromRemoteAddr | pkg/middleware/ratelimit.go:75-90 | a forwarded `::1` is reported as `::1`; the loopback mapping only applies to `RemoteAddr` |
| RateLimits.NextHopSeesClient | pkg/middleware/ratelimit.go:70-79 | behind a hop of this proxy, the next limiter keys on the client address the hop appended to `X-Forwarded-For` |
| RateLimits.UntrimmedElementFallsBack | pkg/middleware/ratelimit.go:72-86 | for `1.1.1.1, 2.2.2.2` the untrimmed last element does not parse, so the address comes from `RemoteAddr` |
| RateLimits.UntrimmedLastElement | pkg/middleware/ratelimit.go:72-75 | the last element of `1.1.1.1, 2.2.2.2` keeps its leading space |
| RateLimits.LastElementAfterComma | pkg/middleware/ratelimit.go:72-75 | the last element of a header `a,b` with no comma in `b` is `b` |
| RateLimits.ExampleRemoteAddr | pkg/middleware/ratelimit.go:81 | `10.0.0.1:4000` splits into host `10.0.0.1` and port `4000` |
| RateLimits.Interval | pkg/middleware/ratelimit.go:51 | the refill interval is `Window / Requests` truncated toward zero, and there is none (a panic) when `Requests` is zero |
| RateLimits.RateLimitConfig.constructor | pkg/middleware/ratelimit.go:16-28 | the configured numbers are kept and the limiter cache starts empty |
| RateLimits.RateLimitConfig.Handle | pkg/middleware/ratelimit.go:36-62 | a failed `getIP` answers 500 and caches nothing; a cached IP gets 429 without a token and the next handler with one; a new IP panics on a zero `Requests`, or else has its limiter stored and still panics on the nil local limiter |
| RateLimits.RateLimitConfig.HandleCorrected | pkg/middleware/ratelimit.go:36-62 | with the stored limiter used on a miss: never a panic, the next handler exactly when the IP resolves and a token is granted, 500 or 429 otherwise, and a new IP's limiter cached |
| RateLimits.FirstRequestPanics | pkg/middleware/ratelimit.go:46-55 | a client's first request panics as written even when a token would be granted, and reaches the next handler once corrected |
| Routes.OptionsCompose | pkg/proxy/route.go:76-78 | applying two option lists one after the other is applying their concatenation |
| Routes.OptionChangesOwnField | pkg/proxy/route.go:28-62 | each option changes only the field it names and leaves every other setting alone |
| Routes.PreserveHostLastWins | pkg/proxy/route.go:28-32 | the last `WithPreserveHost` in the list decides the flag |
| Routes.PreserveHostKept | pkg/proxy/route.go:64-78 | without any `WithPreserveHost` the flag keeps its starting value (true for a new route) |
| Routes.IdleConnTimeoutLastWins | pkg/proxy/route.go:34-38 | the last `WithIdleConnTimeout` in the list decides the idle timeout |
| Routes.OptionMiddlewaresSnoc | pkg/proxy/route.go:58-62 | one more option adds its middleware, when it is `WithMiddlewares`, after those of the earlier options |
| Routes.MiddlewaresAccumulate | pkg/proxy/route.go:58-62 | `WithMiddlewares` appends and never replaces: the route's list is its starting list followed by every option's middleware in call order |
| Routes.Prepare | pkg/proxy/route.go:86-110 | a nil backend panics; a failed request creation answers 500 with the error; otherwise the backend request is the forwarded one and the chain has exactly the given layers |
| Routes.HandleLayersShape | pkg/proxy/route.go:142-151 | recovery is the innermost layer with the body limit, at the configured size, just outside it, and the chain holds every kind of the global and route lists |
| Routes.HandleLayersDistinct | pkg/proxy/route.go:142-151 | no kind is repeated in the chain when neither list repeats one and neither already holds a body limit or recovery |
| Routes.Route.constructor | pkg/proxy/route.go:64-81 | a new route keeps its backend and has the defaults (host preserved, 30s, 90s, 100 connections, no middleware) with the options applied in order |
| Routes.Route.Apply | pkg/proxy/route.go:26-62 | running an option closure changes the route as that option specifies |
| Routes.Route.Handle | pkg/proxy/route.go:83-152 | the outcome is `Prepare` of the route's backend and flag with the merged global and route lists followed by body limit and recovery, the chain built by the wrapping loop |
| HostRouter.PrepareHost | pkg/proxy/router.go:59-67 | the prepared host has no colon, is a prefix of the lower-cased host, and is cut exactly at the host's first colon when shorter |
| HostRouter.PreparedIsLower | pkg/proxy/router.go:60 | a prepared host has no upper-case letter left |
| HostRouter.PrepareHostIdempotent | pkg/proxy/router.go:59-67 | preparing a prepared host changes nothing, so keys stored by `add` are found by `lookup` |
| HostRouter.PrepareHostNoColon | pkg/proxy/router.go:59-67 | a host without a colon is only lower-cased |
| HostRouter.PrepareHostCutsPort | pkg/proxy/router.go:62-64 | everything from the first colon on, a port included, is dropped |
| HostRouter.MatchWildcard | pkg/proxy/router.go:69-76 | only a `*`-prefixed pattern can match |
| HostRouter.MatchWildcardIff | pkg/proxy/router.go:69-76 | `*S` matches a host exactly when the host ends with `S` |
| HostRouter.WildcardExamples | pkg/proxy/router.go:69-76 | `*.example.com` matches subdomains at any depth but not `example.com` itself |
| HostRouter.Router.constructor | pkg/proxy/proxy.go:31-34 | a new router has empty exact and wildcard maps |
| HostRouter.Router.Add | pkg/proxy/router.go:14-25 | the route is stored under the prepared host, replacing an earlier one, in the wildcard map for a `*` pattern and in the exact map otherwise, the other map unchanged; stored keys stay prepared |
| HostRouter.Router.Remove | pkg/proxy/router.go:27-38 | the prepared host is deleted from the map its form selects and the other map is unchanged |
| HostRouter.Router.Lookup | pkg/proxy/router.go:40-57 | an exact entry for the prepared host wins; otherwise some matching wildcard's route, in no particular order; nothing only when no wildcard matches |
| HostRouter.LookupWithPort | pkg/proxy/router.go:40-67 | a route added under a lower-case host is found for that host in any letter case and with any port appended |
| Setters.LimitBody | pkg/middleware/maxRequestBody.go:11-26 | the next handler runs once with the original writer; the body is wrapped with the ceiling iff it is positive and the request is otherwise unchanged (also internal/middleware/maxRequestBody.go:5-15 and pkg/proxy/middleware.go:18-25) |
| Setters.RecoveryAsWritten | pkg/proxy/middleware.go:29-39 | the wrapper that only defers returns exactly what the next handler does, so a panic from it goes through |
| Setters.Recovery | pkg/middleware/recovery.go:15-33 | recovery always completes; a completed next handler's response is kept; after a panic the `Internal Server Error` text follows what the next handler wrote, with status 500 when no status had been sent and the status already sent otherwise |
| Setters.RecoveryAfterPartialWrite | pkg/middleware/recovery.go:18-25 | a next handler that wrote `partial` without `WriteHeader` and then panicked leaves status 200 and the body `partial` followed by the error text |
| Setters.RecoveryAsWrittenDoesNotRecover | pkg/proxy/middleware.go:29-39 | for a next handler that panics, the wrapper as written still panics while the recovery middleware answers 500 |
| Setters.SetIfConfigured | pkg/middleware/securityHeaders.go:52-54 | a non-empty value becomes the header's only value, an empty one leaves the header as it was, and no other header changes |
| Setters.SecureHeaders | pkg/middleware/securityHeaders.go:50-74 | the next handler runs once with the request unchanged; each of the five headers is set to its configured value when that is non-empty and left alone otherwise; no other header changes, and an all-empty configuration changes nothing (also internal/middleware/securityHeaders.go:5-31) |
| Setters.RequestId | pkg/middleware/requestID.go:28-47 | the configured name is used in its canonical form; the ID is the inbound header value when non-empty and a generated one otherwise; request and response then hold exactly that ID under that name, nothing else changes, and the next handler runs once |
| Setters.DefaultNameReusesInbound | pkg/middleware/requestID.go:31-37 | with the default name `X-Request-ID`, an inbound `X-Request-Id` header that is non-empty is the ID used |
| Strings.ContainsIffOccurs | pkg/middleware/compress.go:118 | a string contains another exactly when the other occurs at some index |
| Strings.IndexOf | pkg/proxy/router.go:62 | the index is -1 iff the character is absent, and otherwise the position of its first occurrence |
| Strings.LastIndexOf | pkg/middleware/ratelimit.go:72-75 | the index is -1 iff the character is absent, and otherwise the position of its last occurrence |
| Strings.ToLower | pkg/proxy/router.go:60 | the result has the same length and each character lower-cased |
| Strings.ToLowerIdempotent | pkg/proxy/router.go:60 | lower-casing twice is lower-casing once |
| Strings.Split | pkg/middleware/ratelimit.go:72 | splitting gives at least one piece and no piece holds the separator |
| Strings.JoinSplit | pkg/middleware/ratelimit.go:72 | joining the pieces of a split with the separator gives the string back |
| Strings.SplitFree | pkg/middleware/ratelimit.go:72 | a string splits into itself alone exactly when it holds no separator |
| Strings.SplitConcat | pkg/proxy/accesslog.go:114 | splitting text around one separator gives the pieces of the text before it followed by those of the text after it |
| Strings.SplitJoin | pkg/proxy/accesslog.go:114 | splitting a join of separator-free fields gives the fields back |
| Strings.JoinSnoc | pkg/proxy/accesslog.go:111-114 | joining a list with one more field appends the separator and that field |
| Strings.LastOfSplit | pkg/middleware/ratelimit.go:72-75 | the last piece of a split is the text after the last separator |
| Strings.Cut | pkg/middleware/basicauth.go:49 | no result iff the separator is absent; otherwise a separator-free head and a tail that rebuild the string around the first separator |
| Strings.NatToDecimal | pkg/proxy/accesslog.go:95-96 | the decimal form of a number is non-empty and all digits |
| Strings.DecimalRoundTrip | pkg/proxy/accesslog.go:95-96 | reading the decimal form of a number back gives the number |

## Left out

- Network and server I/O are not modelled. This covers `Run` (pkg/proxy/proxy.go:58-74), `ListenAndServe` and `Shutdown`, and the signal, flag and version handling of `main` (cmd/rp/main.go:21-46, 83-88). Of internal/proxy/proxy.go, `New`, `Route` and `Use` are modelled and `Run` is not.
- Http.Get/Set/Add/Del: Go passes the name argument through `textproto.CanonicalMIMEHeaderKey`. The model compares names exactly and takes its name arguments as already canonical. That canonical form is `Http.CanonicalKey`. The literals the core uses are written in it (`Www-Authenticate`, `X-Xss-Protection`), and the configured request-ID name goes through it in `Setters.RequestId`. `HeaderRewrite` rule names are taken as canonical as configured. So two rule names that differ only in letter case are two keys in the model, where Go would act on one key.
- Http.Write: Go also freezes the header map when the status is committed, by `WriteHeader` or by the first write. The model keeps the map writable, so a header set later (by `Http.Error` after a partial write, or by `Compression.WriteHeaderStep` after a pass-through write) is in the model's map although Go would not send it.
- The backend call is not modelled. `http.Client.Do`, transport pooling, dial timeouts and `io.Copy` streaming are replaced by a result value that is either a response or a transport error.
- Concurrency is not modelled. The router's `sync.RWMutex` and the limiter's `sync.Map` are sequential state here. The shared-array `append` of internal/proxy/handler.go:88 cannot race in a sequential model.
- The limiter is not modelled. The token bucket of `golang.org/x/time/rate` (floating-point tokens, wall clock) is the `allow` parameter, and `RateLimits.Limiter` only holds its two settings.
- The timing of bcrypt is not modelled. The equal-time dummy comparison at pkg/middleware/basicauth.go:58-69 is only counted as one comparison; timing cannot be expressed.
- gzip and DEFLATE are a byte transformer parameter. UUIDs, `path.Join`, `url.Parse`, `net.ParseIP` and `filesize.Parse` are parameters too.
- `http.MaxBytesReader` is a body tag, `Limited(body, n)`. The 413 it causes while the body is read is not modelled.
- Go's `panic` and `recover` are not modelled. A panic is a `Panic` step or `Panicking` run, carrying the message the Go run time would give. Only the call order of the recovery wrappers is modelled.
- JSON encoding is not modelled. The slog JSON handler (pkg/accesslog/jsonhandler.go), the JSON branches of pkg/proxy/accesslog.go:69-82 and internal/proxy/accessLog.go:50-63, and `json.Marshal` in pkg/accesslog/accesslog.go are a marshal parameter or `None`.
- `setupLogger` (cmd/rp/main.go:144-165) is not modelled, because it only configures slog.
- Clocks are not modelled. `time.Now`, `time.Format` and the entry's `DurationMs` need one, so a time stamp is a formatted string passed in and the duration is a parameter.
- Reading the configuration file (`cleanenv.ReadConfig`, internal/config/config.go:21) is the `readErr` parameter.
- `run` (cmd/rp/main.go:48-91) is modelled in parts: the builds of every middleware list and the six options a route is registered with. Its `p.Use` and `p.Route` calls and its prefix on `MapConfig`'s error (`failed to map yaml config to proxy one: `) are not modelled.
- `Strings.ToLower`: only ASCII letters are lowered. Go's `strings.ToLower` maps all of Unicode.
- `RateLimits.GetIP`: the error of a `RemoteAddr` without a port is `invalid RemoteAddr`, without the wrapped `net` error text after it.
- `AccessLog.CountingWriter`: the status Go writes when a first `Write` comes without `WriteHeader` goes to the underlying writer. The wrapper's own recorded status starts at 200, which the model keeps.
- Integers are unbounded. The source's `int64` and `int` widths play no part in any decision the core makes.
- `CrossOrigin.MaxAgeSeconds`: `MaxAge.Seconds()` is a float64 truncated by `int(...)`. The model divides the nanoseconds by 10^9 and truncates toward zero, which gives the same whole seconds except where float64 rounding intervenes.
- Route sections of the configuration are values. The pointer aliasing of `*RouteConfig` map entries is not modelled.
- Header maps are passed as values into and out of handler steps. Go's map aliasing between a request and its copies is not modelled.
- `Routes.Route.Handle` stops once the backend request and the handler chain are built; running the chain is `Forwarding.Relay` and the middleware models. The deferred access log (pkg/proxy/route.go:132-140) is `AccessLog.AccessLogHandler` and is not composed with `Handle`, because the `*AccessLogger` parameter of `handle` is never passed by its caller (pkg/proxy/proxy.go:55).

## Findings

| source | as written | input that shows it | evidently intended | confidence | as-written member | corrected member |
|---|---|---|---|---|---|---|
| pkg/middleware/ratelimit.go:46-55 | on a cache miss the new limiter is stored, but `Allow` is called on the local `limiter`, which is still nil | the first request from any client address, with `Requests` 10, `Window` 60s and `Burst` 5 | call `Allow` on the limiter just created | high (not executed) | `RateLimits.RateLimitConfig.Handle`, `RateLimits.FirstRequestPanics` | `RateLimits.RateLimitConfig.HandleCorrected` |
| pkg/proxy/middleware.go:29-39 | the recovery wrapper's body only defers; `recover()` runs before `next`, and a panic from `next` escapes | a next handler that panics before writing | call `next` in the body and recover in the deferred function, as pkg/middleware/recovery.go does | high (not executed) | `Setters.RecoveryAsWritten`, `Setters.RecoveryAsWrittenDoesNotRecover` | `Setters.Recovery` |
| pkg/middleware/basicauth.go:41 | `auth[len("Basic "):]` is taken after only checking the prefix `Basic`, so a shorter header slices out of range | an `Authorization` header of exactly `Basic` | refuse a header shorter than `Basic ` with the challenge | high (not executed) | `BasicAuthentication.BasicAuthHandler`, `BasicAuthentication.BareSchemePanics` | `BasicAuthentication.BasicAuthHandlerCorrected` |
| pkg/middleware/compress.go:45-84 | bytes written while the total is within `minSize` go raw into the buffer, later ones go through gzip into the same buffer, and `Close` always closes the gzip writer; a body labelled `gzip` is either raw bytes followed by a gzip stream, or a small raw body followed by empty gzip framing | a compressible response written as 10 bytes then 2000 bytes with `minSize` 1024; or a single 10-byte write | buffer the body and decide at `Close`: one gzip stream of everything past `minSize`, the plain body otherwise, as the doc comment at pkg/middleware/compress.go:106-111 says | high (not executed) | `Compression.MixedBodyAsWritten`, `Compression.SmallBodyAsWritten` | `CompressionCorrected.CorrectedBody`, `CompressionCorrected.CorrectedTwoWrites` |
| internal/config/middleware.go:214-226 | `Build` for `headers` dereferences both `Request` and `Response`, which `Validate` never requires | a `headers` entry with request rules and no response rules | build with the rule sets that exist and leave a nil side alone, as the headers middleware itself does | medium (not executed) | `MiddlewareConfigs.Build`, `MiddlewareConfigs.RequestRulesOnlyPanics` | `MiddlewareConfigs.BuildCorrected` |
