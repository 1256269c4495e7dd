/** The gzip writer as its documentation describes it: small responses are
    sent uncompressed, and a response is labelled `Content-Encoding: gzip` only
    when its whole body is one gzip stream. The writer holds the status and
    every byte back until `Close`, where the size decides. */
module CompressionCorrected {
  import opened Wrappers
  import opened Http
  import opened Compression

  /** The underlying writer's state, the status held back while compressing,
      the bytes held back, and the decision `WriteHeader` made. */
  datatype HeldState = HeldState(out: Response, pending: Option<int>, held: string, shouldCompress: bool)

  function HeldInitial(resp: Response): HeldState {
    HeldState(resp, None, "", false)
  }

  /** The media type decides as before; a compressible response keeps its
      status back, any other goes through at once. */
  function HeldWriteHeader(c: GzConfig, s: HeldState, code: int): HeldState {
    var should := MediaType(Get(s.out.header, "Content-Type")) in c.types;
    if should then s.(shouldCompress := true, pending := if s.pending.None? then Some(code) else s.pending)
    else s.(shouldCompress := false, out := WriteHeader(s.out, code))
  }

  function HeldWrite(s: HeldState, b: string): HeldState {
    if s.shouldCompress then s.(held := s.held + b) else s.(out := Write(s.out, b))
  }

  /** The decision at `Close`: more than `minSize` bytes are sent as one gzip
      stream with the encoding headers, anything less as they are. */
  function HeldClose(c: GzConfig, s: HeldState, gzip: (int, string) -> string): HeldState {
    if !s.shouldCompress then s
    else
      var o := if |s.held| > c.minSize
               then s.out.(header := Set(Set(s.out.header, "Content-Encoding", "gzip"), "Vary", "Accept-Encoding"))
               else s.out;
      var o := if s.pending.Some? then WriteHeader(o, s.pending.value) else o;
      var body := if |s.held| > c.minSize then gzip(c.level, s.held) else s.held;
      s.(out := Write(o, body), held := "")
  }

  function HeldStep(c: GzConfig, s: HeldState, op: WriterOp): HeldState {
    match op
    case SetHeader(k, v) => s.(out := s.out.(header := Set(s.out.header, k, v)))
    case DoWriteHeader(code) => HeldWriteHeader(c, s, code)
    case DoWrite(b) => HeldWrite(s, b)
  }

  function HeldRun(c: GzConfig, s: HeldState, ops: seq<WriterOp>): HeldState
    decreases |ops|
  {
    if |ops| == 0 then s else HeldStep(c, HeldRun(c, s, ops[..|ops| - 1]), ops[|ops| - 1])
  }

  /** The middleware with the corrected writer. */
  function CorrectedCompressSpec(c: GzConfig, req: Request, resp: Response, ops: seq<WriterOp>, gzip: (int, string) -> string): Response {
    if !Strings.Contains(Get(req.header, "Accept-Encoding"), "gzip") then PlainRun(resp, ops)
    else HeldClose(c, HeldRun(c, HeldInitial(resp), ops), gzip).out
  }

  /** While compressing, writes only accumulate. */
  lemma {:induction false} HeldWritesAccumulate(c: GzConfig, s: HeldState, bs: seq<string>)
    requires s.shouldCompress
    ensures var r := HeldRun(c, s, Writes(bs));
      r.out == s.out && r.pending == s.pending && r.shouldCompress && r.held == s.held + Concat(bs)
    decreases |bs|
  {
    if |bs| == 0 {
      assert s.held + Concat(bs) == s.held;
    } else {
      var n := |bs| - 1;
      assert Writes(bs)[..n] == Writes(bs[..n]);
      HeldWritesAccumulate(c, s, bs[..n]);
      assert s.held + Concat(bs) == (s.held + Concat(bs[..n])) + bs[n];
    }
  }

  lemma {:induction false} HeldRunAppend(c: GzConfig, s: HeldState, a: seq<WriterOp>, b: seq<WriterOp>)
    ensures HeldRun(c, s, a + b) == HeldRun(c, HeldRun(c, s, a), b)
    decreases |b|
  {
    if |b| == 0 {
      assert a + b == a;
    } else {
      var n := |b| - 1;
      assert (a + b)[..|a + b| - 1] == a + b[..n];
      HeldRunAppend(c, s, a, b[..n]);
    }
  }

  lemma HeldScriptHeader(c: GzConfig, resp: Response, contentType: string, code: int)
    requires MediaType(contentType) in c.types
    ensures var s := HeldRun(c, HeldInitial(resp), [SetHeader("Content-Type", contentType), DoWriteHeader(code)]);
      && s.shouldCompress && s.held == "" && s.pending == Some(code)
      && s.out == resp.(header := Set(resp.header, "Content-Type", contentType))
  {
    var ops := [SetHeader("Content-Type", contentType), DoWriteHeader(code)];
    var s0 := HeldInitial(resp);
    var s1 := HeldStep(c, s0, SetHeader("Content-Type", contentType));
    assert ops[..1] == [SetHeader("Content-Type", contentType)];
    assert ops[..1][..0] == [];
    assert HeldRun(c, s0, ops[..1]) == s1;
    assert HeldRun(c, s0, ops) == HeldWriteHeader(c, s1, code);
  }

  /** The intended behaviour: a compressible response is labelled gzip
      exactly when its whole body exceeds `minSize`; then the body is the gzip
      stream of everything written, otherwise everything written as it was.
      Either way the handler's status is the one sent. */
  lemma CorrectedBody(c: GzConfig, resp: Response, contentType: string, code: int, bs: seq<string>, gzip: (int, string) -> string)
    requires MediaType(contentType) in c.types
    requires "Content-Encoding" !in resp.header && resp.status.None?
    ensures var r := HeldClose(c, HeldRun(c, HeldInitial(resp), Script(contentType, code, bs)), gzip).out;
      var all := Concat(bs);
      && ("Content-Encoding" in r.header <==> |all| > c.minSize)
      && (|all| > c.minSize ==> Values(r.header, "Content-Encoding") == ["gzip"] && r.body == resp.body + gzip(c.level, all))
      && (|all| <= c.minSize ==> r.body == resp.body + all)
      && r.status == Some(code)
  {
    var head := [SetHeader("Content-Type", contentType), DoWriteHeader(code)];
    HeldRunAppend(c, HeldInitial(resp), head, Writes(bs));
    HeldScriptHeader(c, resp, contentType, code);
    var s0 := HeldRun(c, HeldInitial(resp), head);
    HeldWritesAccumulate(c, s0, bs);
    assert "" + Concat(bs) == Concat(bs);
  }

  /** With the corrected writer the mixed body of the as-written one cannot
      arise: the two writes come out as a single gzip stream. */
  lemma CorrectedTwoWrites(c: GzConfig, resp: Response, contentType: string, code: int,
                           x: string, y: string, gzip: (int, string) -> string)
    requires MediaType(contentType) in c.types
    requires "Content-Encoding" !in resp.header && resp.status.None? && resp.body == ""
    requires 0 < |x| <= c.minSize < |x| + |y|
    ensures var r := HeldClose(c, HeldRun(c, HeldInitial(resp), Script(contentType, code, [x, y])), gzip).out;
      Values(r.header, "Content-Encoding") == ["gzip"] && r.body == gzip(c.level, x + y)
  {
    CorrectedBody(c, resp, contentType, code, [x, y], gzip);
    assert [x, y][..1] == [x] && [x][..0] == [];
    assert Concat([x, y]) == Concat([x]) + y;
    assert Concat([x]) == "" + x;
    assert "" + x == x;
  }
}
