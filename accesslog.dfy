/** The access log of pkg/accesslog: a logger with a format and an output, the
    entry it builds from a request and the counting writer, the
    Common Log Format line and the combined format that extends it, and the
    middleware that counts what the next handler writes and logs once it has
    returned.

    `json.Marshal` is the parameter `marshal`, the output's `Write` error the
    parameter `writeErr`, and the start time is passed already formatted. */
module AccessLog {
  import opened Wrappers
  import opened Strings
  import opened Http

  const CommonFormat := "common"
  const JSONFormat := "json"
  const CombinedFormat := "combined"

  /** An output writer: standard output or some other one. */
  datatype Output = Stdout | Sink(name: string)

  /** `AccessLogConfig`; `None` is a nil `Output`. */
  datatype AccessLogConfig = AccessLogConfig(format: string, output: Option<Output>)

  /** The logger's own copy of its configuration, whose output is always set. */
  datatype AccessLogger = AccessLogger(format: string, output: Output)

  /** `NewLogger`: the format is copied and a missing output becomes standard
      output. */
  function NewLogger(cfg: AccessLogConfig): (l: AccessLogger)
    ensures l.format == cfg.format
    ensures l.output == if cfg.output.Some? then cfg.output.value else Stdout
  {
    AccessLogger(cfg.format, if cfg.output == None then Stdout else cfg.output.value)
  }

  /** `Entry`, without the duration, which needs a clock. */
  datatype Entry = Entry(
    time: string, verb: string, path: string, protocol: string,
    status: int, size: int, ip: string, username: string, referer: string, userAgent: string)

  /** `buildEntry`: the request line, status and size from the writer, the
      client host, the basic-auth user name when the header parses, and the
      referer and user agent only for the combined and JSON formats. */
  function BuildEntry(format: string, req: Request, status: int, size: int, time: string): (e: Entry)
    ensures e.ip == ClientHost(req.remoteAddr)
    ensures e.time == time && e.verb == req.verb && e.path == req.requestURI && e.protocol == req.proto
    ensures e.status == status && e.size == size
    ensures e.username == if BasicAuthOf(req.header).Some? then BasicAuthOf(req.header).value.0 else ""
    ensures format == CombinedFormat || format == JSONFormat ==>
              e.referer == Referer(req.header) && e.userAgent == UserAgent(req.header)
    ensures format != CombinedFormat && format != JSONFormat ==> e.referer == "" && e.userAgent == ""
  {
    var entry := Entry(time, req.verb, req.requestURI, req.proto, status, size, ClientHost(req.remoteAddr), "", "", "");
    var entry := if BasicAuthOf(req.header).Some? then entry.(username := BasicAuthOf(req.header).value.0) else entry;
    if format == CombinedFormat || format == JSONFormat then
      entry.(referer := Referer(req.header), userAgent := UserAgent(req.header))
    else entry
  }

  /** An empty field is written as `-`. */
  function Dash(s: string): (r: string)
    ensures r != ""
    ensures s != "" ==> r == s
  {
    if s == "" then "-" else s
  }

  /** `formatCommon`: `ip - user [time] "method path protocol" status size`. */
  function FormatCommon(e: Entry): string {
    e.ip + " - " + Dash(e.username) + " [" + e.time + "] \"" + e.verb + " " + e.path + " " + e.protocol + "\" "
      + Itoa(e.status) + " " + Itoa(e.size) + "\n"
  }

  /** `formatCombined`: the common line with the quoted referer and user agent. */
  function FormatCombined(e: Entry): string {
    e.ip + " - " + Dash(e.username) + " [" + e.time + "] \"" + e.verb + " " + e.path + " " + e.protocol + "\" "
      + Itoa(e.status) + " " + Itoa(e.size) + " \"" + Dash(e.referer) + "\" \"" + Dash(e.userAgent) + "\"\n"
  }

  /** The space-separated fields of a common line, the time given as the
      pieces of its bracketed form (Go's layout has one space in it). */
  function CommonFields(e: Entry): seq<string> {
    [e.ip, "-", Dash(e.username)] + Split("[" + e.time + "]", ' ')
      + ["\"" + e.verb, e.path, e.protocol + "\"", Itoa(e.status), Itoa(e.size)]
  }

  lemma ItoaNoSpace(n: int)
    ensures ' ' !in Itoa(n)
  {
    ItoaChars(n);
  }

  /** The common line without its line break: the user part, the bracketed
      time and the request part, joined by spaces. */
  lemma CommonLineShape(ip: string, user: string, time: string, verb: string, path: string, proto: string,
                        status: string, size: string)
    ensures ip + " - " + user + " [" + time + "] \"" + verb + " " + path + " " + proto + "\" " + status + " " + size + "\n"
         == Join([ip, "-", user], " ") + [' '] + ("[" + time + "]" + [' ']
            + Join(["\"" + verb, path, proto + "\"", status, size], " ")) + "\n"
  {
    Join3(ip, "-", user, " ");
    Join5("\"" + verb, path, proto + "\"", status, size, " ");
  }

  /** Splitting text joined around a middle piece that may hold separators. */
  lemma SplitAround(first: seq<string>, middle: string, last: seq<string>)
    requires |first| >= 1 && |last| >= 1
    requires forall i :: 0 <= i < |first| ==> ' ' !in first[i]
    requires forall i :: 0 <= i < |last| ==> ' ' !in last[i]
    ensures Split(Join(first, " ") + [' '] + (middle + [' '] + Join(last, " ")), ' ')
            == first + Split(middle, ' ') + last
  {
    var a := Join(first, [' ']);
    var b := Join(last, [' ']);
    assert " " == [' '];
    assert a == Join(first, " ") && b == Join(last, " ");
    SplitsOfThree(a, middle, b);
    SplitJoin(first, ' ');
    SplitJoin(last, ' ');
  }
  /** Splitting at two separators splits the three texts around them. */
  lemma SplitsOfThree(a: string, m: string, b: string)
    ensures Split(a + [' '] + (m + [' '] + b), ' ') == Split(a, ' ') + Split(m, ' ') + Split(b, ' ')
  {
    SplitConcat(a, m + [' '] + b, ' ');
    SplitConcat(m, b, ' ');
  }

  /** Read back at its spaces, a common line gives its fields back, the
      status and the size last, whenever the request line and the names have
      no spaces; its only line break ends it. */
  lemma CommonLineFields(e: Entry)
    requires ' ' !in e.ip && ' ' !in Dash(e.username)
    requires ' ' !in e.verb && ' ' !in e.path && ' ' !in e.protocol
    ensures var line := FormatCommon(e);
      && line[|line| - 1] == '\n'
      && Split(line[..|line| - 1], ' ') == CommonFields(e)
  {
    var line := FormatCommon(e);
    var users := [e.ip, "-", Dash(e.username)];
    var tail := ["\"" + e.verb, e.path, e.protocol + "\"", Itoa(e.status), Itoa(e.size)];
    var body := Join(users, " ") + [' '] + ("[" + e.time + "]" + [' '] + Join(tail, " "));
    ItoaNoSpace(e.status);
    ItoaNoSpace(e.size);
    assert ' ' !in "\"" + e.verb && ' ' !in e.protocol + "\"";
    CommonLineShape(e.ip, Dash(e.username), e.time, e.verb, e.path, e.protocol, Itoa(e.status), Itoa(e.size));
    assert line == body + "\n";
    assert line[..|line| - 1] == body;
    SplitAround(users, "[" + e.time + "]", tail);
  }

  /** The combined line is the common line with the quoted referer and user
      agent before its line break. */
  lemma CombinedExtendsCommon(e: Entry)
    ensures var common := FormatCommon(e);
      FormatCombined(e) == common[..|common| - 1] + " \"" + Dash(e.referer) + "\" \"" + Dash(e.userAgent) + "\"\n"
  {
    var body := e.ip + " - " + Dash(e.username) + " [" + e.time + "] \"" + e.verb + " " + e.path + " " + e.protocol + "\" "
      + Itoa(e.status) + " " + Itoa(e.size);
    assert FormatCommon(e) == body + "\n";
    assert (body + "\n")[..|body|] == body;
  }

  /** `formatJSON`: the marshalled entry and a line break, or the marshalling
      error wrapped. */
  function FormatJSON(e: Entry, marshal: Entry -> Result<string>): (r: Result<string>)
    ensures marshal(e).Ok? ==> r == Ok(marshal(e).value + "\n")
    ensures marshal(e).Err? ==> r == Err("failed to marshal access log entry: " + marshal(e).error)
  {
    match marshal(e)
    case Ok(data) => Ok(data + "\n")
    case Err(err) => Err("failed to marshal access log entry: " + err)
  }

  /** What `Log` did: the line it gave the output, if it got that far, and
      the error it returned. */
  datatype Logged = Logged(written: Option<string>, err: Option<string>)

  /** `Log`: the entry in the logger's format (`json`, `combined`, and the
      common format for every other value), written to the output. A JSON
      failure is returned wrapped without writing; a write error is returned
      as it is. */
  function Log(l: AccessLogger, req: Request, status: int, size: int, time: string,
               marshal: Entry -> Result<string>, writeErr: Option<string>): (r: Logged)
    ensures var e := BuildEntry(l.format, req, status, size, time);
      && (l.format == JSONFormat && FormatJSON(e, marshal).Err? ==>
            r == Logged(None, Some("failed to format accessLog to JSON: " + FormatJSON(e, marshal).error)))
      && (l.format == JSONFormat && FormatJSON(e, marshal).Ok? ==> r.written == Some(FormatJSON(e, marshal).value))
      && (l.format == CombinedFormat ==> r.written == Some(FormatCombined(e)))
      && (l.format != JSONFormat && l.format != CombinedFormat ==> r.written == Some(FormatCommon(e)))
    ensures r.written.Some? ==> r.err == writeErr
  {
    var e := BuildEntry(l.format, req, status, size, time);
    var line :=
      if l.format == JSONFormat then FormatJSON(e, marshal)
      else if l.format == CombinedFormat then Ok(FormatCombined(e))
      else Ok(FormatCommon(e));
    match line
    case Err(err) => Logged(None, Some("failed to format accessLog to JSON: " + err))
    case Ok(text) => Logged(Some(text), writeErr)
  }

  /** A call the next handler makes on its writer, with what the wrapped
      writer's `Write` returns for it. */
  datatype Call = CallWrite(data: string, n: int, err: Option<string>) | CallWriteHeader(code: int)

  /** A call as it reaches the wrapped writer. */
  datatype Forward = Wrote(data: string) | WroteHeader(code: int)

  /** The calls as the wrapped writer receives them. */
  function Forwarded(calls: seq<Call>): seq<Forward>
    decreases |calls|
  {
    if |calls| == 0 then []
    else
      var last := calls[|calls| - 1];
      Forwarded(calls[..|calls| - 1]) + [if last.CallWrite? then Wrote(last.data) else WroteHeader(last.code)]
  }

  /** The byte counts the wrapped writer reported, added up. */
  function Written(calls: seq<Call>): int
    decreases |calls|
  {
    if |calls| == 0 then 0
    else
      var last := calls[|calls| - 1];
      Written(calls[..|calls| - 1]) + (if last.CallWrite? then last.n else 0)
  }

  /** The status of the last `WriteHeader`, or `initial`. */
  function LastStatus(calls: seq<Call>, initial: int): int
    decreases |calls|
  {
    if |calls| == 0 then initial
    else
      var last := calls[|calls| - 1];
      if last.CallWriteHeader? then last.code else LastStatus(calls[..|calls| - 1], initial)
  }

  /** The status is the code of the last `WriteHeader` call, and writes alone
      leave it where it started. */
  lemma {:induction false} LastStatusIsLastHeader(calls: seq<Call>, initial: int, i: int)
    requires 0 <= i < |calls| && calls[i].CallWriteHeader?
    requires forall j :: i < j < |calls| ==> calls[j].CallWrite?
    ensures LastStatus(calls, initial) == calls[i].code
    decreases |calls|
  {
    if i < |calls| - 1 {
      LastStatusIsLastHeader(calls[..|calls| - 1], initial, i);
    }
  }

  lemma {:induction false} WritesKeepStatus(calls: seq<Call>, initial: int)
    requires forall j :: 0 <= j < |calls| ==> calls[j].CallWrite?
    ensures LastStatus(calls, initial) == initial
    decreases |calls|
  {
    if |calls| > 0 {
      WritesKeepStatus(calls[..|calls| - 1], initial);
    }
  }

  /** The counts of two runs of calls add up. */
  lemma {:induction false} WrittenConcat(a: seq<Call>, b: seq<Call>)
    ensures Written(a + b) == Written(a) + Written(b)
    decreases |b|
  {
    if |b| == 0 {
      assert a + b == a;
    } else {
      assert (a + b)[..|a + b| - 1] == a + b[..|b| - 1];
      WrittenConcat(a, b[..|b| - 1]);
    }
  }

  /** The counting writer of pkg/accesslog/writer.go, which is also
      `AccessLogResponseWriter` of pkg/accesslog/responsewriter.go and of
      pkg/proxy/accesslog.go: it forwards every call and keeps the bytes
      written and the last status. `sent` is what the wrapped writer got. */
  class CountingWriter {
    var sent: seq<Forward>
    var contentLength: int
    var statusCode: int

    /** A fresh writer: nothing sent, no bytes, status 200. */
    constructor()
      ensures sent == [] && contentLength == 0 && statusCode == 200
    {
      sent := [];
      contentLength := 0;
      statusCode := 200;
    }

    /** `Write`: forwards the data unchanged, counts the bytes the wrapped
        writer reports, even on error, and returns them with its error. */
    method Write(data: string, wrapped: int, wrappedErr: Option<string>) returns (n: int, err: Option<string>)
      modifies this
      ensures n == wrapped && err == wrappedErr
      ensures sent == old(sent) + [Wrote(data)]
      ensures contentLength == old(contentLength) + wrapped
      ensures statusCode == old(statusCode)
    {
      sent := sent + [Wrote(data)];
      n, err := wrapped, wrappedErr;
      contentLength := contentLength + n;
    }

    /** `WriteHeader`: records the code and forwards it. */
    method WriteHeader(code: int)
      modifies this
      ensures statusCode == code
      ensures sent == old(sent) + [WroteHeader(code)]
      ensures contentLength == old(contentLength)
    {
      statusCode := code;
      sent := sent + [WroteHeader(code)];
    }
  }

  /** `Middleware.Handler`: the next handler gets a fresh counting writer and
      makes `calls` on it; once it returns the request is logged once, with
      the last status (200 without `WriteHeader`) and the bytes counted. The
      response is what the calls sent, whatever the logging outcome. */
  method AccessLogHandler(logger: AccessLogger, req: Request, calls: seq<Call>, time: string,
                          marshal: Entry -> Result<string>, writeErr: Option<string>)
    returns (sent: seq<Forward>, logged: Logged)
    ensures sent == Forwarded(calls)
    ensures logged == Log(logger, req, LastStatus(calls, 200), Written(calls), time, marshal, writeErr)
  {
    var rw := new CountingWriter();
    for i := 0 to |calls|
      invariant rw.sent == Forwarded(calls[..i])
      invariant rw.contentLength == Written(calls[..i])
      invariant rw.statusCode == LastStatus(calls[..i], 200)
    {
      assert calls[..i + 1][..i] == calls[..i];
      match calls[i]
      case CallWrite(data, n, err) =>
        var _, _ := rw.Write(data, n, err);
      case CallWriteHeader(code) =>
        rw.WriteHeader(code);
    }
    assert calls[..|calls|] == calls;
    sent := rw.sent;
    logged := Log(logger, req, rw.statusCode, rw.contentLength, time, marshal, writeErr);
  }
}
