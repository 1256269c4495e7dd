/** The text access-log lines of the two proxy generations: `logAccess` of
    pkg/proxy/accesslog.go, which reports the counting writer's status and
    length, and `logAccess` of internal/proxy/accessLog.go, which has no
    writer to read and prints fixed numbers. Both print the fields joined by
    single spaces, then a line break; the JSON record is not modelled and is
    `None` here. */
module ProxyAccessLog {
  import opened Wrappers
  import opened Strings
  import opened Http
  import AccessLog

  /** The user field: the basic-auth user name when the header parses, even
      an empty one, and `-` when it does not. */
  function UserField(h: Header): (r: string)
    ensures BasicAuthOf(h).None? ==> r == "-"
    ensures BasicAuthOf(h).Some? ==> r == BasicAuthOf(h).value.0
  {
    match BasicAuthOf(h)
    case None => "-"
    case Some((user, _)) => user
  }

  /** The field the combined format adds: the quoted referer and user agent,
      `-` for an empty one. */
  function CombinedField(h: Header): string {
    "\"" + AccessLog.Dash(Referer(h)) + "\" \"" + AccessLog.Dash(UserAgent(h)) + "\""
  }

  /** `logAccess` of pkg/proxy/accesslog.go, text path. */
  function LogAccess(format: string, req: Request, statusCode: int, contentLength: int, time: string): (r: Option<string>)
    ensures r.None? <==> format == "json"
    ensures r.Some? ==> |r.value| > 0 && r.value[|r.value| - 1] == '\n'
  {
    if format == "json" then None
    else
      var logLine := [ClientHost(req.remoteAddr), UserField(req.header), "[" + time + "]",
                      req.verb, req.requestURI, req.proto, Itoa(statusCode), Itoa(contentLength)];
      var logLine := if format == "combined" then logLine + [CombinedField(req.header)] else logLine;
      Some(Join(logLine, " ") + "\n")
  }

  /** The fields such a line is read back into at its spaces. */
  function TextFields(format: string, req: Request, statusCode: int, contentLength: int, time: string): seq<string> {
    [ClientHost(req.remoteAddr), UserField(req.header)] + Split("[" + time + "]", ' ')
      + [req.verb, req.requestURI, req.proto, Itoa(statusCode), Itoa(contentLength)]
      + (if format == "combined" then Split(CombinedField(req.header), ' ') else [])
  }

  /** Splitting the join of free fields around a time stamp and before
      extra fields. */
  lemma {:induction false} SplitFields(users: seq<string>, stamp: string, rest: seq<string>, extra: seq<string>)
    requires |users| >= 1
    requires forall i :: 0 <= i < |users| ==> ' ' !in users[i]
    requires forall i :: 0 <= i < |rest| ==> ' ' !in rest[i]
    ensures Split(Join(users + [stamp] + rest + extra, [' ']), ' ') == users + Split(stamp, ' ') + rest + SplitEach(extra, ' ')
  {
    SplitOfJoin(users + [stamp] + rest + extra, ' ');
    SplitEachConcat(users + [stamp] + rest, extra, ' ');
    SplitEachConcat(users + [stamp], rest, ' ');
    SplitEachConcat(users, [stamp], ' ');
    SplitEachFree(users, ' ');
    SplitEachFree(rest, ' ');
    assert SplitEach([stamp], ' ') == Split(stamp, ' ') + SplitEach([], ' ');
  }

  /** Read back at its spaces, a text line gives the client host, the user,
      the pieces of the time, the request line, the status and the length, in
      that order, then the pieces of the referer field in the combined format
      only, whenever host, user and request line have no spaces. */
  lemma LogAccessFields(format: string, req: Request, statusCode: int, contentLength: int, time: string)
    requires format != "json"
    requires ' ' !in ClientHost(req.remoteAddr) && ' ' !in UserField(req.header)
    requires ' ' !in req.verb && ' ' !in req.requestURI && ' ' !in req.proto
    ensures var line := LogAccess(format, req, statusCode, contentLength, time).value;
      Split(line[..|line| - 1], ' ') == TextFields(format, req, statusCode, contentLength, time)
  {
    var line := LogAccess(format, req, statusCode, contentLength, time).value;
    var users := [ClientHost(req.remoteAddr), UserField(req.header)];
    var rest := [req.verb, req.requestURI, req.proto, Itoa(statusCode), Itoa(contentLength)];
    var extra := if format == "combined" then [CombinedField(req.header)] else [];
    var logLine := users + ["[" + time + "]"] + rest + extra;
    var base := [ClientHost(req.remoteAddr), UserField(req.header), "[" + time + "]",
                 req.verb, req.requestURI, req.proto, Itoa(statusCode), Itoa(contentLength)];
    assert logLine == base + extra;
    assert " " == [' '];
    if format == "combined" {
      assert line == Join(base + [CombinedField(req.header)], " ") + "\n";
    } else {
      assert base + extra == base;
      assert line == Join(base, " ") + "\n";
    }
    assert line == Join(logLine, [' ']) + "\n";
    assert line[..|line| - 1] == Join(logLine, [' ']);
    AccessLog.ItoaNoSpace(statusCode);
    AccessLog.ItoaNoSpace(contentLength);
    SplitFields(users, "[" + time + "]", rest, extra);
    assert SplitEach(extra, ' ') == if format == "combined" then Split(CombinedField(req.header), ' ') else [] by {
      if format == "combined" {
        assert SplitEach(extra, ' ') == Split(CombinedField(req.header), ' ') + SplitEach([], ' ');
      }
    }
  }

  /** The combined line is the other text line with the referer field
      appended before the line break. */
  lemma CombinedAppendsReferer(req: Request, statusCode: int, contentLength: int, time: string)
    ensures var common := LogAccess("common", req, statusCode, contentLength, time).value;
      LogAccess("combined", req, statusCode, contentLength, time).value
        == common[..|common| - 1] + " " + CombinedField(req.header) + "\n"
  {
    var fields := [ClientHost(req.remoteAddr), UserField(req.header), "[" + time + "]",
                   req.verb, req.requestURI, req.proto, Itoa(statusCode), Itoa(contentLength)];
    JoinSnoc(fields, CombinedField(req.header), " ");
    var common := Join(fields, " ") + "\n";
    assert common[..|common| - 1] == Join(fields, " ");
  }

  /** `logAccess` of internal/proxy/accessLog.go, text path: the status is
      always written as 200 and the size as 123. */
  function LegacyLogAccess(format: string, r: Request, time: string): (line: Option<string>)
    ensures line.None? <==> format == "json"
  {
    if format == "json" then None
    else
      var logLine := [ClientHost(r.remoteAddr), UserField(r.header), "[" + time + "]", r.verb, r.requestURI, r.proto, "200", "123"];
      var logLine := if format == "combined" then logLine + [CombinedField(r.header)] else logLine;
      Some(Join(logLine, " ") + "\n")
  }

  /** The older line is the newer one for a response of status 200 and 123
      bytes, whatever the actual response was. */
  lemma LegacyLineIsStubbed(format: string, r: Request, time: string)
    ensures LegacyLogAccess(format, r, time) == LogAccess(format, r, 200, 123, time)
  {
    assert Itoa(200) == "200" by {
      assert NatToDecimal(2) == "2";
      assert NatToDecimal(20) == NatToDecimal(2) + "0";
      assert NatToDecimal(200) == NatToDecimal(20) + "0";
    }
    assert Itoa(123) == "123" by {
      assert NatToDecimal(1) == "1";
      assert NatToDecimal(12) == NatToDecimal(1) + "2";
      assert NatToDecimal(123) == NatToDecimal(12) + "3";
    }
  }
}
