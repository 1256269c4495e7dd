/** The basic-authentication middleware of pkg/middleware/basicauth.go: the
    `Basic` scheme of section 2 of RFC 7617 over the base64 of section 4 of
    RFC 4648, checked against a table of bcrypt hashes.

    `bcrypt.CompareHashAndPassword` is the parameter `matches`: whether a
    password matches a hash. Which comparisons the handler makes is part of
    its result, so that "one comparison per attempt" can be stated. */
module BasicAuthentication {
  import opened Wrappers
  import opened Strings
  import opened Http
  import Base64

  const Schema := "Basic"

  /** The hash compared against when the user is unknown. */
  const DummyHash := "$2a$10$dummy.hash.to.prevent.timing.attack"

  /** `BasicAuthConfig`: bcrypt hash per user name, and the realm. */
  datatype BasicAuthConfig = BasicAuthConfig(users: map<string, string>, realm: string)

  /** The handler's run: its step and the (hash, password) pairs it compared. */
  datatype AuthRun = AuthRun(step: Step, compared: seq<(string, string)>)

  /** `authenticate`: the challenge header, replacing any earlier one, then
      `http.Error` with 401 "Unauthorized". `Set` stores the name
      `WWW-Authenticate` in its canonical form (`Http.CanonicalAuthenticate`). */
  function Authenticate(resp: Response, realm: string): (r: Response)
    ensures Values(r.header, "Www-Authenticate") == ["Basic realm=\"" + realm + "\""]
    ensures resp.status.None? ==> r.status == Some(401)
    ensures r.body == resp.body + "Unauthorized\n"
  {
    Error(resp.(header := Set(resp.header, "Www-Authenticate", "Basic realm=\"" + realm + "\"")), "Unauthorized", 401)
  }

  /** What the text after the scheme decodes to: a login before the first
      colon and a password after it, which may hold further colons. */
  function DecodeCredentials(raw: string): (r: Option<(string, string)>)
    ensures r.Some? ==> ':' !in r.value.0
  {
    match Base64.Decode(raw)
    case None => None
    case Some(bytes) => Cut(BytesToString(bytes), ':')
  }

  /** The decision once the credentials text is cut out of the header: bad
      base64 or no colon is refused; an unknown user costs one comparison
      with the dummy hash and is refused; a known one is let through iff the
      password matches the stored hash. */
  function Decide(cfg: BasicAuthConfig, raw: string, req: Request, resp: Response,
                  matches: (string, string) -> bool): (r: AuthRun)
    ensures r.step.Next? || r.step == Reply(Authenticate(resp, cfg.realm))
    ensures DecodeCredentials(raw).None? ==> r == AuthRun(Reply(Authenticate(resp, cfg.realm)), [])
    ensures DecodeCredentials(raw).Some? ==>
      var (login, password) := DecodeCredentials(raw).value;
      var hash := if login in cfg.users then cfg.users[login] else DummyHash;
      && r.compared == [(hash, password)]
      && (r.step.Next? <==> login in cfg.users && matches(hash, password))
    ensures r.step.Next? ==> r.step == Next(req, resp)
  {
    match DecodeCredentials(raw)
    case None => AuthRun(Reply(Authenticate(resp, cfg.realm)), [])
    case Some((login, password)) =>
      if login !in cfg.users then AuthRun(Reply(Authenticate(resp, cfg.realm)), [(DummyHash, password)])
      else
        var hash := cfg.users[login];
        if !matches(hash, password) then AuthRun(Reply(Authenticate(resp, cfg.realm)), [(hash, password)])
        else AuthRun(Next(req, resp), [(hash, password)])
  }

  /** The handler as written: no header or one not starting with the
      case-sensitive `Basic` is refused; the credentials are read from byte 6
      on, skipping one character that is never checked, so a header of
      exactly `Basic` slices out of range and panics. */
  function BasicAuthHandler(cfg: BasicAuthConfig, req: Request, resp: Response,
                            matches: (string, string) -> bool): (r: AuthRun)
    ensures r.step.Panic? <==> Get(req.header, "Authorization") == Schema
    ensures r.step.Next? || r.step.Panic? || r.step == Reply(Authenticate(resp, cfg.realm))
    ensures r.step.Next? ==> r.step == Next(req, resp)
    ensures var auth := Get(req.header, "Authorization");
      (auth == "" || !HasPrefix(auth, Schema)) ==> r == AuthRun(Reply(Authenticate(resp, cfg.realm)), [])
    ensures var auth := Get(req.header, "Authorization");
      HasPrefix(auth, Schema) && |auth| > |Schema| ==> r == Decide(cfg, auth[|Schema| + 1..], req, resp, matches)
  {
    var auth := Get(req.header, "Authorization");
    if auth == "" then AuthRun(Reply(Authenticate(resp, cfg.realm)), [])
    else if !HasPrefix(auth, Schema) then AuthRun(Reply(Authenticate(resp, cfg.realm)), [])
    else if |auth| < |Schema| + 1 then AuthRun(Panic("runtime error: slice bounds out of range [6:5]"), [])
    else Decide(cfg, auth[|Schema| + 1..], req, resp, matches)
  }

  /** The handler with the bounds check it evidently needs: a header of
      exactly `Basic` is refused like any other malformed one, so the handler
      never panics and refuses every failure with the same challenge. */
  function BasicAuthHandlerCorrected(cfg: BasicAuthConfig, req: Request, resp: Response,
                                     matches: (string, string) -> bool): (r: AuthRun)
    ensures !r.step.Panic?
    ensures r.step == Next(req, resp) || r.step == Reply(Authenticate(resp, cfg.realm))
    ensures Get(req.header, "Authorization") == Schema ==> r == AuthRun(Reply(Authenticate(resp, cfg.realm)), [])
    ensures Get(req.header, "Authorization") != Schema ==> r == BasicAuthHandler(cfg, req, resp, matches)
  {
    var auth := Get(req.header, "Authorization");
    if auth == "" || !HasPrefix(auth, Schema) || |auth| < |Schema| + 1 then AuthRun(Reply(Authenticate(resp, cfg.realm)), [])
    else Decide(cfg, auth[|Schema| + 1..], req, resp, matches)
  }

  /** A request whose `Authorization` header is exactly `Basic`. */
  function BareSchemeRequest(): Request {
    Request("GET", "example.com", Url("http", "example.com", "/", ""), "/", "HTTP/1.1", "10.0.0.1:4000",
            map["Authorization" := ["Basic"]], Original)
  }

  /** The header `Basic` makes the handler as written panic; corrected, it
      answers 401. */
  lemma BareSchemePanics(cfg: BasicAuthConfig, matches: (string, string) -> bool)
    ensures BasicAuthHandler(cfg, BareSchemeRequest(), EmptyResponse, matches).step.Panic?
    ensures BasicAuthHandlerCorrected(cfg, BareSchemeRequest(), EmptyResponse, matches).step
            == Reply(Authenticate(EmptyResponse, cfg.realm))
  {
    assert Get(BareSchemeRequest().header, "Authorization") == Schema;
  }

  /** The character after `Basic` is never looked at. */
  lemma SeparatorUnchecked(cfg: BasicAuthConfig, req: Request, resp: Response,
                           matches: (string, string) -> bool, c: char, raw: string)
    requires Get(req.header, "Authorization") == Schema + [c] + raw
    ensures BasicAuthHandler(cfg, req, resp, matches) == Decide(cfg, raw, req, resp, matches)
  {
    var auth := Schema + [c] + raw;
    assert auth[..|Schema|] == Schema;
    assert auth[|Schema| + 1..] == raw;
  }

  /** A Go string of bytes as the byte slice `[]byte(s)`. */
  function StringToBytes(s: string): (b: seq<Base64.byte>)
    requires forall i :: 0 <= i < |s| ==> s[i] as int < 256
    ensures BytesToString(b) == s
  {
    seq(|s|, i requires 0 <= i < |s| => s[i] as int)
  }

  /** Credentials a client sends as section 2 of RFC 7617 says, "Basic ",
      then the base64 of `login:password`, decode to that login and password
      whenever the login has no colon. */
  lemma {:induction false} CredentialsRoundTrip(login: string, password: string)
    requires ':' !in login
    requires forall i :: 0 <= i < |login + ":" + password| ==> (login + ":" + password)[i] as int < 256
    ensures DecodeCredentials(Base64.Encode(StringToBytes(login + ":" + password))) == Some((login, password))
  {
    var text := login + ":" + password;
    var bytes := StringToBytes(text);
    Base64.DecodeEncode(bytes);
    assert text[|login|] == ':';
    assert text[..|login|] == login && text[|login| + 1..] == password;
    IndexOfUnique(text, ':', |login|);
  }

  /** A well-formed header with a known user and the right password is let
      through after exactly one comparison, against that user's hash. */
  lemma {:induction false} ValidCredentialsPass(cfg: BasicAuthConfig, req: Request, resp: Response,
                                                matches: (string, string) -> bool, login: string, password: string)
    requires ':' !in login
    requires forall i :: 0 <= i < |login + ":" + password| ==> (login + ":" + password)[i] as int < 256
    requires Get(req.header, "Authorization") == "Basic " + Base64.Encode(StringToBytes(login + ":" + password))
    requires login in cfg.users && matches(cfg.users[login], password)
    ensures BasicAuthHandler(cfg, req, resp, matches) == AuthRun(Next(req, resp), [(cfg.users[login], password)])
  {
    CredentialsRoundTrip(login, password);
    SeparatorUnchecked(cfg, req, resp, matches, ' ', Base64.Encode(StringToBytes(login + ":" + password)));
  }
}
