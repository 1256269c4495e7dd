/** A middleware entry of the YAML configuration (internal/config/middleware.go,
    and internals/middleware/config.go, whose defaulting and validation are the
    same): the type string and the inline settings of every kind, the defaults
    a kind's zero settings get, the checks a kind's settings must pass, and the
    middleware instance the entry builds. */
module MiddlewareConfigs {
  import opened Wrappers
  import opened Strings
  import opened GoMath
  import opened ZeroValues
  import Middlewares
  import HeaderRewrite
  import Setters
  import CrossOrigin
  import BasicAuthentication

  /** `time.Hour` in nanoseconds. */
  const Hour := 3600 * Second

  /** The media types a `compress` entry compresses when it lists none. */
  const DefaultTypes: seq<string> := [
    "text/html", "text/css", "text/javascript", "application/javascript", "application/json",
    "text/xml", "application/xml", "application/rss+xml", "image/svg+xml"]

  /** The seven type strings a configuration may use. */
  const ConfigurableTypes: set<string> :=
    {"basic_auth", "cors", "compress", "headers", "rate_limit", "request_id", "security_headers"}

  /** `MiddlewareConfig`: every kind's fields inline; only those of `typ`
      mean anything. A nil header-rules pointer is `None`. */
  datatype MiddlewareConfig = MiddlewareConfig(
    typ: string,
    requests: int, window: int, burst: int,                                // rate_limit
    users: map<string, string>, realm: string,                             // basic_auth
    allowedOrigins: seq<string>, allowedMethods: seq<string>,              // cors
    allowedHeaders: seq<string>, exposedHeaders: seq<string>,
    allowCredentials: bool, maxAge: int,
    request: Option<HeaderRewrite.HeaderRules>,                            // headers
    response: Option<HeaderRewrite.HeaderRules>,
    headerName: string,                                                    // request_id
    contentTypeOptions: string, frameOptions: string, xssProtection: string, // security_headers
    referrerPolicy: string, permissionsPolicy: string,
    minSize: int, level: int, types: seq<string>)                          // compress

  /** An entry of the given type with every other field at its zero value. */
  function Zero(typ: string): MiddlewareConfig {
    MiddlewareConfig(typ, 0, 0, 0, map[], "", [], [], [], [], false, 0, None, None, "", "", "", "", "", "", 0, 0, [])
  }

  /** `ApplyDefaults`: the zero fields of the entry's own kind get their
      defaults; every non-zero field and every field of another kind is kept. */
  function Defaulted(c: MiddlewareConfig): (d: MiddlewareConfig)
    ensures d.typ == c.typ
    // basic_auth
    ensures d.realm == (if c.typ == "basic_auth" && c.realm == "" then "Restricted" else c.realm)
    // cors
    ensures d.allowedMethods == (if c.typ == "cors" && |c.allowedMethods| == 0 then ["GET", "POST"] else c.allowedMethods)
    ensures d.maxAge == (if c.typ == "cors" && c.maxAge == 0 then 24 * Hour else c.maxAge)
    ensures d.allowedOrigins == c.allowedOrigins && d.allowedHeaders == c.allowedHeaders
    ensures d.exposedHeaders == c.exposedHeaders && d.allowCredentials == c.allowCredentials
    // compress
    ensures d.minSize == (if c.typ == "compress" && c.minSize == 0 then 1024 else c.minSize)
    ensures d.level == (if c.typ == "compress" && c.level == 0 then 5 else c.level)
    ensures d.types == (if c.typ == "compress" && |c.types| == 0 then DefaultTypes else c.types)
    // request_id
    ensures d.headerName == (if c.typ == "request_id" && c.headerName == "" then "X-Request-ID" else c.headerName)
    // security_headers; the permissions policy has no default
    ensures d.contentTypeOptions == (if c.typ == "security_headers" && c.contentTypeOptions == "" then "nosniff" else c.contentTypeOptions)
    ensures d.frameOptions == (if c.typ == "security_headers" && c.frameOptions == "" then "DENY" else c.frameOptions)
    ensures d.xssProtection == (if c.typ == "security_headers" && c.xssProtection == "" then "1; mode=block" else c.xssProtection)
    ensures d.referrerPolicy == (if c.typ == "security_headers" && c.referrerPolicy == "" then "strict-origin-when-cross-origin" else c.referrerPolicy)
    ensures d.permissionsPolicy == c.permissionsPolicy
    // never defaulted
    ensures d.requests == c.requests && d.window == c.window && d.burst == c.burst && d.users == c.users
    ensures d.request == c.request && d.response == c.response
  {
    match c.typ
    case "basic_auth" =>
      c.(realm := OrDefault(c.realm, "Restricted"))
    case "cors" =>
      c.(allowedMethods := if |c.allowedMethods| == 0 then ["GET", "POST"] else c.allowedMethods,
         maxAge := OrDefaultInt(c.maxAge, 24 * Hour))
    case "compress" =>
      c.(minSize := OrDefaultInt(c.minSize, 1024), level := OrDefaultInt(c.level, 5),
         types := if |c.types| == 0 then DefaultTypes else c.types)
    case "request_id" =>
      c.(headerName := OrDefault(c.headerName, "X-Request-ID"))
    case "security_headers" =>
      c.(contentTypeOptions := OrDefault(c.contentTypeOptions, "nosniff"),
         frameOptions := OrDefault(c.frameOptions, "DENY"),
         xssProtection := OrDefault(c.xssProtection, "1; mode=block"),
         referrerPolicy := OrDefault(c.referrerPolicy, "strict-origin-when-cross-origin"))
    case _ => c
  }

  /** Defaulting twice is defaulting once. */
  lemma DefaultsIdempotent(c: MiddlewareConfig)
    ensures Defaulted(Defaulted(c)) == Defaulted(c)
  {
  }

  /** An entry of a kind without defaults (`rate_limit`, `headers`, or an
      unknown type) is left exactly as it is. */
  lemma DefaultsSkipOtherKinds(c: MiddlewareConfig)
    requires c.typ !in {"basic_auth", "cors", "compress", "request_id", "security_headers"}
    ensures Defaulted(c) == c
  {
  }

  /** Whether a stored password hash carries a bcrypt version prefix:
      `$2a`, `$2b` or `$2y`. */
  function IsBcryptHash(hash: string): (r: bool)
    ensures r <==> |hash| >= 3 && hash[0] == '$' && hash[1] == '2' && hash[2] in "aby"
  {
    HasPrefix(hash, "$2a") || HasPrefix(hash, "$2b") || HasPrefix(hash, "$2y")
  }

  /** What `Validate` accepts: a listed type, and for the four kinds with
      checks, settings that pass them. */
  predicate Valid(c: MiddlewareConfig) {
    && c.typ in ConfigurableTypes
    && (c.typ == "rate_limit" ==> c.requests > 0 && c.window > 0 && c.burst >= 0)
    && (c.typ == "basic_auth" ==> |c.users| > 0 && forall u :: u in c.users ==> IsBcryptHash(c.users[u]))
    && (c.typ == "cors" ==> |c.allowedOrigins| > 0 && c.maxAge >= 0)
    && (c.typ == "compress" ==> c.minSize >= 0 && 1 <= c.level <= 9)
  }

  function BadHashError(user: string): string {
    "basic_auth invalid bcrypt hash for user `" + user + "`"
  }

  /** The errors `Validate` may return for an entry: the first failing check
      of its kind; for a bad hash, the user of any bad hash, since the users
      map is visited in no particular order. */
  predicate Rejects(c: MiddlewareConfig, e: string) {
    if c.typ !in ConfigurableTypes then e == "unknown type of middleware: " + c.typ
    else if c.typ == "rate_limit" then
      if c.requests <= 0 then e == "rate_limit requests must be greater then 0"
      else if c.window <= 0 then e == "rate_limit window must be greater then 0"
      else c.burst < 0 && e == "rate_limit burst can't be negative"
    else if c.typ == "basic_auth" then
      if |c.users| == 0 then e == "basic_auth users is required"
      else exists u :: u in c.users && !IsBcryptHash(c.users[u]) && e == BadHashError(u)
    else if c.typ == "cors" then
      if |c.allowedOrigins| == 0 then e == "cors allowed_origins is required"
      else c.maxAge < 0 && e == "cors max_age can't be negative"
    else if c.typ == "compress" then
      if c.minSize < 0 then e == "compress min_size can't be negative"
      else (c.level < 1 || c.level > 9) && e == "compress level must be between 1 and 9"
    else false
  }

  /** The `for user, hash := range c.Users` loop: some user whose hash has no
      bcrypt prefix, or none when every hash has one. */
  method FindBadHash(users: map<string, string>) returns (bad: Option<string>)
    ensures bad.None? <==> forall u :: u in users ==> IsBcryptHash(users[u])
    ensures bad.Some? ==> bad.value in users && !IsBcryptHash(users[bad.value])
  {
    var todo := users.Keys;
    while todo != {}
      invariant todo <= users.Keys
      invariant forall u :: u in users && u !in todo ==> IsBcryptHash(users[u])
      decreases todo
    {
      var u :| u in todo;
      if !IsBcryptHash(users[u]) {
        return Some(u);
      }
      todo := todo - {u};
    }
    return None;
  }

  /** `Validate`: nil exactly for a valid entry, otherwise one of the errors
      the entry's first failing check gives. */
  method Validate(c: MiddlewareConfig) returns (o: Outcome)
    ensures o.Pass? <==> Valid(c)
    ensures o.Fail? ==> Rejects(c, o.error)
  {
    if c.typ !in ConfigurableTypes {
      return Fail("unknown type of middleware: " + c.typ);
    }
    if c.typ == "rate_limit" {
      if c.requests <= 0 {
        return Fail("rate_limit requests must be greater then 0");
      }
      if c.window <= 0 {
        return Fail("rate_limit window must be greater then 0");
      }
      if c.burst < 0 {
        return Fail("rate_limit burst can't be negative");
      }
    } else if c.typ == "basic_auth" {
      if |c.users| == 0 {
        return Fail("basic_auth users is required");
      }
      var bad := FindBadHash(c.users);
      if bad.Some? {
        return Fail(BadHashError(bad.value));
      }
    } else if c.typ == "cors" {
      if |c.allowedOrigins| == 0 {
        return Fail("cors allowed_origins is required");
      }
      if c.maxAge < 0 {
        return Fail("cors max_age can't be negative");
      }
    } else if c.typ == "compress" {
      if c.minSize < 0 {
        return Fail("compress min_size can't be negative");
      }
      if c.level < 1 || c.level > 9 {
        return Fail("compress level must be between 1 and 9");
      }
    }
    return Pass;
  }

  /** Every error names a failed check: no valid entry has one. */
  lemma RejectsOnlyInvalid(c: MiddlewareConfig, e: string)
    requires Rejects(c, e)
    ensures !Valid(c)
  {
  }

  /** The kinds the proxy adds by itself cannot be configured. */
  lemma InternalKindsRejected(c: MiddlewareConfig)
    requires c.typ == Middlewares.Name(Middlewares.MaxRequestBody) || c.typ == Middlewares.Name(Middlewares.Recovery)
    ensures !Valid(c) && Rejects(c, "unknown type of middleware: " + c.typ)
  {
  }

  /** `headers`, `request_id` and `security_headers` entries always pass,
      whatever their settings, nil header rules included. */
  lemma UncheckedKindsValid(c: MiddlewareConfig)
    requires c.typ in {"headers", "request_id", "security_headers"}
    ensures Valid(c)
  {
  }

  /** Defaulting never makes a valid entry invalid, and it repairs a
      `compress` entry whose only fault was the unset (zero) level. */
  lemma DefaultsPreserveValidity(c: MiddlewareConfig)
    ensures Valid(c) ==> Valid(Defaulted(c))
    ensures c.typ == "compress" && c.minSize >= 0 && (c.level == 0 || 1 <= c.level <= 9) ==> Valid(Defaulted(c))
  {
  }

  /** Every entry of a list defaulted, in place. */
  function DefaultedAll(mws: seq<MiddlewareConfig>): (r: seq<MiddlewareConfig>)
    ensures |r| == |mws| && forall i :: 0 <= i < |mws| ==> r[i] == Defaulted(mws[i])
  {
    seq(|mws|, i requires 0 <= i < |mws| => Defaulted(mws[i]))
  }

  /** Defaulting a list twice is defaulting it once. */
  lemma DefaultedAllIdempotent(mws: seq<MiddlewareConfig>)
    ensures DefaultedAll(DefaultedAll(mws)) == DefaultedAll(mws)
  {
    forall i | 0 <= i < |mws| ensures DefaultedAll(DefaultedAll(mws))[i] == DefaultedAll(mws)[i] {
      DefaultsIdempotent(mws[i]);
    }
  }

  /** `for i := range mws { mws[i].ApplyDefaults() }`. */
  method ApplyDefaultsEach(mws: seq<MiddlewareConfig>) returns (r: seq<MiddlewareConfig>)
    ensures r == DefaultedAll(mws)
  {
    r := mws;
    for i := 0 to |r|
      invariant |r| == |mws|
      invariant forall j :: 0 <= j < i ==> r[j] == Defaulted(mws[j])
      invariant forall j :: i <= j < |r| ==> r[j] == mws[j]
    {
      r := r[i := Defaulted(r[i])];
    }
  }

  function ListError(m: MiddlewareConfig, e: string): string {
    "failed to validate middleware " + m.typ + ": " + e
  }

  /** The errors validating a list may give: an error of its first invalid
      entry, prefixed with that entry's type. */
  ghost predicate ListRejects(mws: seq<MiddlewareConfig>, e: string) {
    exists i :: 0 <= i < |mws| && (forall j :: 0 <= j < i ==> Valid(mws[j]))
                && exists inner :: Rejects(mws[i], inner) && e == ListError(mws[i], inner)
  }

  /** The `for _, mw := range mws { mw.Validate() }` loop of the route and
      global sections: nil iff every entry is valid, otherwise stopping at
      the first invalid entry. */
  method ValidateList(mws: seq<MiddlewareConfig>) returns (o: Outcome)
    ensures o.Pass? <==> forall i :: 0 <= i < |mws| ==> Valid(mws[i])
    ensures o.Fail? ==> ListRejects(mws, o.error)
  {
    for i := 0 to |mws|
      invariant forall j :: 0 <= j < i ==> Valid(mws[j])
    {
      var r := Validate(mws[i]);
      if r.Fail? {
        return Fail(ListError(mws[i], r.error));
      }
    }
    return Pass;
  }

  /** A built middleware: the kind's own configuration, copied out of the entry. */
  datatype Instance =
    | RateLimitInstance(requests: int, window: int, burst: int)
    | BasicAuthInstance(auth: BasicAuthentication.BasicAuthConfig)
    | CorsInstance(cors: CrossOrigin.CorsConfig)
    | HeadersInstance(rules: HeaderRewrite.HeadersConfig)
    | RequestIdInstance(headerName: string)
    | SecurityHeadersInstance(security: Setters.SecurityHeadersConfig)
    | CompressInstance(minSize: int, level: int, types: seq<string>)

  /** The tag of a built middleware (its `Type()`). */
  function Kind(m: Instance): Middlewares.Type {
    match m
    case RateLimitInstance(_, _, _) => Middlewares.RateLimit
    case BasicAuthInstance(_) => Middlewares.BasicAuth
    case CorsInstance(_) => Middlewares.Cors
    case HeadersInstance(_) => Middlewares.Headers
    case RequestIdInstance(_) => Middlewares.RequestId
    case SecurityHeadersInstance(_) => Middlewares.SecurityHeaders
    case CompressInstance(_, _, _) => Middlewares.Compress
  }

  /** A construction that returns a value, returns an error or panics. */
  datatype Built<+T> = Built(value: T) | Failed(error: string) | Panicked(reason: string)

  const NilDereference := "invalid memory address or nil pointer dereference"

  /** `Build` as written: one instance per listed type, tagged with that
      type, and an error for any other type. A `headers` entry copies its
      rules through both pointers, so one without request or without
      response rules panics. */
  function Build(c: MiddlewareConfig): (r: Built<Instance>)
    ensures r.Built? ==> Middlewares.Name(Kind(r.value)) == c.typ
    ensures r.Failed? <==> c.typ !in ConfigurableTypes
    ensures r.Failed? ==> r.error == "unknow middleware type: " + c.typ
    ensures r.Panicked? <==> c.typ == "headers" && (c.request.None? || c.response.None?)
    ensures c.typ == "basic_auth" ==> r == Built(BasicAuthInstance(BasicAuthentication.BasicAuthConfig(c.users, c.realm)))
    ensures c.typ == "cors" ==> r.Built? && r.value.cors.allowedOrigins == c.allowedOrigins && r.value.cors.maxAge == c.maxAge
    ensures c.typ == "compress" ==> r == Built(CompressInstance(c.minSize, c.level, c.types))
  {
    match c.typ
    case "rate_limit" => Built(RateLimitInstance(c.requests, c.window, c.burst))
    case "basic_auth" => Built(BasicAuthInstance(BasicAuthentication.BasicAuthConfig(c.users, c.realm)))
    case "cors" =>
      Built(CorsInstance(CrossOrigin.CorsConfig(c.allowedOrigins, c.allowedMethods, c.allowedHeaders,
                                                c.exposedHeaders, c.allowCredentials, c.maxAge)))
    case "headers" =>
      if c.request.None? || c.response.None? then Panicked(NilDereference)
      else Built(HeadersInstance(HeaderRewrite.HeadersConfig(Some(c.request.value), Some(c.response.value))))
    case "request_id" => Built(RequestIdInstance(c.headerName))
    case "security_headers" =>
      Built(SecurityHeadersInstance(Setters.SecurityHeadersConfig(c.contentTypeOptions, c.frameOptions,
                                                                  c.xssProtection, c.referrerPolicy, c.permissionsPolicy)))
    case "compress" => Built(CompressInstance(c.minSize, c.level, c.types))
    case _ => Failed("unknow middleware type: " + c.typ)
  }

  /** The only way a validated entry fails to build is the nil rules of a
      `headers` entry, which validation never looks at. */
  lemma ValidBuildsUnlessRulesMissing(c: MiddlewareConfig)
    requires Valid(c)
    ensures Build(c).Built? || (c.typ == "headers" && Build(c).Panicked?)
  {
  }

  /** A `headers` entry that only rewrites request headers. */
  function RequestRulesOnly(): MiddlewareConfig {
    Zero("headers").(request := Some(HeaderRewrite.HeaderRules(map["X-Env" := "prod"], map[], [])))
  }

  /** Such an entry passes validation and then panics when built; with nil
      rules read as empty rules it builds. */
  lemma RequestRulesOnlyPanics()
    ensures Valid(RequestRulesOnly())
    ensures Build(RequestRulesOnly()).Panicked?
    ensures BuildCorrected(RequestRulesOnly()).Built?
  {
  }

  /** Rules of a nil pointer read as no rules at all. */
  function RulesOrEmpty(rules: Option<HeaderRewrite.HeaderRules>): HeaderRewrite.HeaderRules {
    if rules.Some? then rules.value else HeaderRewrite.HeaderRules(map[], map[], [])
  }

  /** `Build` as evidently intended: missing rules are empty rules, so every
      valid entry builds, and every entry of a listed type builds into an
      instance of that type; otherwise the same as `Build`. */
  function BuildCorrected(c: MiddlewareConfig): (r: Built<Instance>)
    ensures !r.Panicked?
    ensures r.Built? <==> c.typ in ConfigurableTypes
    ensures r.Built? ==> Middlewares.Name(Kind(r.value)) == c.typ
    ensures Valid(c) ==> r.Built?
    ensures !Build(c).Panicked? ==> r == Build(c)
  {
    if c.typ == "headers" then
      Built(HeadersInstance(HeaderRewrite.HeadersConfig(Some(RulesOrEmpty(c.request)), Some(RulesOrEmpty(c.response)))))
    else Build(c)
  }
}
