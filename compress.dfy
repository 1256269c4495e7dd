/** The gzip middleware of pkg/middleware/compress.go as written: a response
    writer that decides at `WriteHeader` whether to compress, keeps everything
    it is given in a buffer (small writes raw, later writes through a gzip
    writer that also targets the buffer) and emits the buffer on `Close`.

    The handler behind the middleware is a script of calls on its writer.
    DEFLATE itself is the parameter `gzip`: `gzip(level, x)` is the complete
    stream a gzip writer emits for the input `x`, header and trailer included. */
module Compression {
  import opened Wrappers
  import opened Strings
  import opened Http

  /** The levels `validateLevel` accepts: no compression, best speed, best
      compression and the library default. */
  predicate AcceptedLevel(level: int) {
    level == 0 || level == 1 || level == 9 || level == -1
  }

  /** `validateLevel`: an accepted level is kept, any other becomes -1, so the
      configured default 5 and every level from 2 to 8 become -1. */
  function SanitizedLevel(level: int): (r: int)
    ensures AcceptedLevel(r)
    ensures AcceptedLevel(level) <==> r == level
  {
    if AcceptedLevel(level) then level else -1
  }

  /** `CompressConfig`, whose level `Compress` sanitises in place. */
  class CompressConfig {
    var minSize: int
    var level: int
    var types: seq<string>

    constructor(minSize: int, level: int, types: seq<string>)
      ensures this.minSize == minSize && this.level == level && this.types == types
    {
      this.minSize := minSize;
      this.level := level;
      this.types := types;
    }

    method ValidateLevel()
      modifies this
      ensures level == SanitizedLevel(old(level))
      ensures minSize == old(minSize) && types == old(types)
    {
      if !(level == 0 || level == 1 || level == 9 || level == -1) {
        level := -1;
      }
    }
  }

  /** What a writer copies out of the sanitised configuration. */
  datatype GzConfig = GzConfig(level: int, minSize: int, types: seq<string>)

  /** `gzip.NewWriterLevel` refuses levels outside -2 (Huffman only) to 9. */
  predicate NewWriterFails(level: int) {
    level < -2 || level > 9
  }

  /** `Compress`: the configuration's level is sanitised in place, then every
      writer the middleware creates uses the configuration as it now is. */
  method CompressMiddleware(cfg: CompressConfig) returns (c: GzConfig)
    modifies cfg
    ensures cfg.level == SanitizedLevel(old(cfg.level))
    ensures c == GzConfig(cfg.level, old(cfg.minSize), old(cfg.types))
    ensures !NewWriterFails(c.level)
  {
    cfg.ValidateLevel();
    c := GzConfig(cfg.level, cfg.minSize, cfg.types);
  }

  /** The writer's fields: the underlying writer's state, whether `gw` is set
      and what it was given, the raw contents of `buf` (`None` while `buf` is
      nil), `size`, `contentType` and `shouldCompress`. */
  datatype GzState = GzState(
    out: Response,
    gzOpen: bool,
    gzIn: string,
    buf: Option<string>,
    size: int,
    contentType: string,
    shouldCompress: bool)

  function Initial(resp: Response): GzState {
    GzState(resp, false, "", None, 0, "", false)
  }

  function BufBytes(buf: Option<string>): string {
    if buf.Some? then buf.value else ""
  }

  /** The media type of a Content-Type value: the text before its first `;`. */
  function MediaType(contentType: string): string {
    Split(contentType, ';')[0]
  }

  /** `WriteHeader`: compression is chosen iff the media type is one of the
      allowed types, exactly; only then are Content-Encoding and Vary set; the
      status goes to the underlying writer in every case. */
  function WriteHeaderStep(c: GzConfig, s: GzState, code: int): (r: GzState)
    ensures r.shouldCompress <==> MediaType(Get(s.out.header, "Content-Type")) in c.types
    ensures r.contentType == Get(s.out.header, "Content-Type")
    ensures r.shouldCompress ==>
              Values(r.out.header, "Content-Encoding") == ["gzip"] && Values(r.out.header, "Vary") == ["Accept-Encoding"]
    ensures forall k :: k != "Content-Encoding" && k != "Vary" ==> Values(r.out.header, k) == Values(s.out.header, k)
    ensures !r.shouldCompress ==> r.out.header == s.out.header
    ensures r.out.status == WriteHeader(s.out, code).status && r.out.body == s.out.body
    ensures r.gzOpen == s.gzOpen && r.gzIn == s.gzIn && r.buf == s.buf && r.size == s.size
  {
    var ct := Get(s.out.header, "Content-Type");
    var should := MediaType(ct) in c.types;
    var h := if should then Set(Set(s.out.header, "Content-Encoding", "gzip"), "Vary", "Accept-Encoding") else s.out.header;
    s.(contentType := ct, shouldCompress := should, out := WriteHeader(s.out.(header := h), code))
  }

  /** `Write`: without compression the bytes go straight to the underlying
      writer. With it, the first write (while `size` is 0) creates `buf` and
      `gw`; when that fails the bytes go to the underlying writer; otherwise
      `size` grows by the write, which goes raw into `buf` while `size` stays
      at most `minSize` and to `gw` once it exceeds it. */
  function WriteStep(c: GzConfig, s: GzState, b: string): GzState {
    if !s.shouldCompress then s.(out := Http.Write(s.out, b))
    else
      var s1 := if s.size == 0 then s.(buf := Some(""), gzOpen := !NewWriterFails(c.level), gzIn := "") else s;
      if s.size == 0 && NewWriterFails(c.level) then s1.(out := Http.Write(s1.out, b))
      else
        var s2 := s1.(size := s1.size + |b|);
        if s2.size > c.minSize then s2.(gzIn := s2.gzIn + b)
        else s2.(buf := Some(BufBytes(s2.buf) + b))
  }

  /** `Close`: nothing without compression; the raw buffer when there is no
      gzip writer; otherwise the gzip writer is closed, which completes its
      stream in `buf`, and the whole buffer goes to the underlying writer. */
  function CloseStep(c: GzConfig, s: GzState, gzip: (int, string) -> string): GzState {
    if !s.shouldCompress then s
    else if !s.gzOpen then
      if s.buf.Some? then s.(out := Http.Write(s.out, s.buf.value)) else s
    else s.(out := Http.Write(s.out, BufBytes(s.buf) + gzip(c.level, s.gzIn)))
  }

  /** What the handler behind the middleware does with its writer. */
  datatype WriterOp =
    | SetHeader(key: string, value: string)   // w.Header().Set(key, value)
    | DoWriteHeader(code: int)                // w.WriteHeader(code)
    | DoWrite(data: string)                   // w.Write(data)

  function OpStep(c: GzConfig, s: GzState, op: WriterOp): GzState {
    match op
    case SetHeader(k, v) => s.(out := s.out.(header := Set(s.out.header, k, v)))
    case DoWriteHeader(code) => WriteHeaderStep(c, s, code)
    case DoWrite(b) => WriteStep(c, s, b)
  }

  /** The writer's state after the handler's calls, in order. */
  function Run(c: GzConfig, s: GzState, ops: seq<WriterOp>): GzState
    decreases |ops|
  {
    if |ops| == 0 then s else OpStep(c, Run(c, s, ops[..|ops| - 1]), ops[|ops| - 1])
  }

  /** The same calls on the original, plain writer. */
  function PlainStep(resp: Response, op: WriterOp): Response {
    match op
    case SetHeader(k, v) => resp.(header := Set(resp.header, k, v))
    case DoWriteHeader(code) => WriteHeader(resp, code)
    case DoWrite(b) => Http.Write(resp, b)
  }

  function PlainRun(resp: Response, ops: seq<WriterOp>): Response
    decreases |ops|
  {
    if |ops| == 0 then resp else PlainStep(PlainRun(resp, ops[..|ops| - 1]), ops[|ops| - 1])
  }

  /** The middleware's effect on the response: without "gzip" anywhere in
      Accept-Encoding the handler writes to the original writer; otherwise to a
      fresh gzip writer that is closed once the handler returns. */
  function CompressSpec(c: GzConfig, req: Request, resp: Response, ops: seq<WriterOp>, gzip: (int, string) -> string): Response {
    if !Contains(Get(req.header, "Accept-Encoding"), "gzip") then PlainRun(resp, ops)
    else CloseStep(c, Run(c, Initial(resp), ops), gzip).out
  }

  class GzipResponseWriter {
    var out: Response
    var gzOpen: bool
    var gzIn: string
    var buf: Option<string>
    var size: int
    const level: int
    const minSize: int
    var contentType: string
    var shouldCompress: bool
    const allowedTypes: seq<string>

    function Config(): GzConfig {
      GzConfig(level, minSize, allowedTypes)
    }

    function State(): GzState
      reads this
    {
      GzState(out, gzOpen, gzIn, buf, size, contentType, shouldCompress)
    }

    constructor(resp: Response, level: int, minSize: int, allowedTypes: seq<string>)
      ensures State() == Initial(resp)
      ensures Config() == GzConfig(level, minSize, allowedTypes)
    {
      out := resp;
      gzOpen := false;
      gzIn := "";
      buf := None;
      size := 0;
      this.level := level;
      this.minSize := minSize;
      contentType := "";
      shouldCompress := false;
      this.allowedTypes := allowedTypes;
    }

    method Header(key: string, value: string)
      modifies this
      ensures State() == OpStep(Config(), old(State()), SetHeader(key, value))
    {
      out := out.(header := Set(out.header, key, value));
    }

    method WriteHeader(code: int)
      modifies this
      ensures State() == WriteHeaderStep(Config(), old(State()), code)
    {
      contentType := Get(out.header, "Content-Type");
      var base := Split(contentType, ';')[0];
      shouldCompress := base in allowedTypes;
      if shouldCompress {
        out := out.(header := Set(Set(out.header, "Content-Encoding", "gzip"), "Vary", "Accept-Encoding"));
      }
      out := Http.WriteHeader(out, code);
    }

    /** Returns the byte count every target of the write reports, all of
        which accept the whole slice. */
    method Write(b: string) returns (n: int)
      modifies this
      ensures State() == WriteStep(Config(), old(State()), b)
      ensures n == |b|
    {
      n := |b|;
      if !shouldCompress {
        out := Http.Write(out, b);
        return;
      }
      if size == 0 {
        buf := Some("");
        gzIn := "";
        if level < -2 || level > 9 {
          gzOpen := false;
          out := Http.Write(out, b);
          return;
        }
        gzOpen := true;
      }
      size := size + |b|;
      if size > minSize {
        gzIn := gzIn + b;
      } else {
        buf := Some(BufBytes(buf) + b);
      }
    }

    method Close(gzip: (int, string) -> string)
      modifies this
      ensures State() == CloseStep(Config(), old(State()), gzip)
    {
      if !shouldCompress {
        return;
      }
      if !gzOpen {
        if buf.Some? {
          out := Http.Write(out, buf.value);
        }
        return;
      }
      out := Http.Write(out, BufBytes(buf) + gzip(level, gzIn));
    }
  }

  /** The handler behind a writer: each call in order. */
  method RunHandler(w: GzipResponseWriter, ops: seq<WriterOp>)
    modifies w
    ensures w.State() == Run(w.Config(), old(w.State()), ops)
  {
    ghost var s0 := w.State();
    for i := 0 to |ops|
      invariant w.State() == Run(w.Config(), s0, ops[..i])
    {
      assert ops[..i + 1][..i] == ops[..i];
      match ops[i]
      case SetHeader(k, v) => w.Header(k, v);
      case DoWriteHeader(code) => w.WriteHeader(code);
      case DoWrite(b) => var _ := w.Write(b);
    }
    assert ops[..|ops|] == ops;
  }

  /** The same handler on the plain writer. */
  method RunPlain(resp: Response, ops: seq<WriterOp>) returns (out: Response)
    ensures out == PlainRun(resp, ops)
  {
    out := resp;
    for i := 0 to |ops|
      invariant out == PlainRun(resp, ops[..i])
    {
      assert ops[..i + 1][..i] == ops[..i];
      out := PlainStep(out, ops[i]);
    }
    assert ops[..|ops|] == ops;
  }

  /** The middleware's handler. */
  method Compress(c: GzConfig, req: Request, resp: Response, ops: seq<WriterOp>, gzip: (int, string) -> string)
    returns (out: Response)
    ensures out == CompressSpec(c, req, resp, ops, gzip)
  {
    if !Contains(Get(req.header, "Accept-Encoding"), "gzip") {
      out := RunPlain(resp, ops);
      return;
    }
    var w := new GzipResponseWriter(resp, c.level, c.minSize, c.types);
    RunHandler(w, ops);
    w.Close(gzip);
    out := w.out;
  }

  /** The writes of a script, concatenated. */
  function Concat(bs: seq<string>): string
    decreases |bs|
  {
    if |bs| == 0 then "" else Concat(bs[..|bs| - 1]) + bs[|bs| - 1]
  }

  function Writes(bs: seq<string>): (ops: seq<WriterOp>)
    ensures |ops| == |bs| && forall i :: 0 <= i < |bs| ==> ops[i] == DoWrite(bs[i])
  {
    seq(|bs|, i requires 0 <= i < |bs| => DoWrite(bs[i]))
  }

  /** The state of a compressing writer that was given `all`: the
      underlying writer untouched, `size` counting every byte, and `buf`'s raw
      part followed by what the gzip writer received being all of it. */
  predicate Buffered(c: GzConfig, s0: GzState, r: GzState, all: string) {
    && r.out == s0.out && r.shouldCompress
    && r.size == |all|
    && BufBytes(r.buf) + r.gzIn == all
    && (r.size > 0 ==> r.gzOpen && r.buf.Some?)
    && (r.size <= c.minSize ==> r.gzIn == "")
  }

  /** One more write keeps `Buffered`, with the write appended. */
  lemma BufferedWrite(c: GzConfig, s0: GzState, p: GzState, all: string, b: string)
    requires !NewWriterFails(c.level)
    requires Buffered(c, s0, p, all)
    ensures Buffered(c, s0, WriteStep(c, p, b), all + b)
  {
    if p.size == 0 {
      assert all == "";
    } else if p.size + |b| > c.minSize {
      assert BufBytes(p.buf) + (p.gzIn + b) == (BufBytes(p.buf) + p.gzIn) + b;
    }
  }

  /** While compressing with a level the gzip writer accepts, writes never
      reach the underlying writer, `size` counts every byte given to `Write`,
      and `buf`'s raw part followed by what the gzip writer received is all of
      it, in order. */
  lemma {:induction false} CompressingWritesBuffer(c: GzConfig, s: GzState, bs: seq<string>)
    requires s.shouldCompress && !NewWriterFails(c.level)
    requires s.size == 0 && s.buf.None? && s.gzIn == "" && !s.gzOpen
    ensures var r := Run(c, s, Writes(bs));
      && r.out == s.out && r.shouldCompress
      && r.size == |Concat(bs)|
      && BufBytes(r.buf) + r.gzIn == Concat(bs)
      && (r.size > 0 ==> r.gzOpen && r.buf.Some?)
      && (r.size <= c.minSize ==> r.gzIn == "")
    decreases |bs|
  {
    if |bs| > 0 {
      var n := |bs| - 1;
      CompressingWritesBuffer(c, s, bs[..n]);
      assert Writes(bs)[..n] == Writes(bs[..n]);
      var p := Run(c, s, Writes(bs[..n]));
      assert Run(c, s, Writes(bs)) == WriteStep(c, p, bs[n]);
      BufferedWrite(c, s, p, Concat(bs[..n]), bs[n]);
    }
  }

  /** Without compression chosen, a write goes unchanged to the underlying
      writer and `Close` adds nothing. */
  lemma PassThrough(c: GzConfig, s: GzState, b: string, gzip: (int, string) -> string)
    requires !s.shouldCompress
    ensures WriteStep(c, s, b) == s.(out := Http.Write(s.out, b))
    ensures CloseStep(c, s, gzip) == s
  {
  }

  /** A handler that writes before calling `WriteHeader` has committed 200
      through the underlying writer, so the later call sends no status. */
  lemma WriteBeforeHeader(c: GzConfig, s: GzState, b: string, code: int)
    requires !s.shouldCompress && s.out.status.None?
    ensures WriteHeaderStep(c, WriteStep(c, s, b), code).out.status == Some(200)
    ensures WriteHeaderStep(c, WriteStep(c, s, b), code).out.body == s.out.body + b
  {
  }

  /** A writer that was never written to emits nothing on `Close`. */
  lemma CloseWithoutWrites(c: GzConfig, s: GzState, gzip: (int, string) -> string)
    requires s.buf.None? && !s.gzOpen
    ensures CloseStep(c, s, gzip).out == s.out
  {
  }

  /** The script of a handler that sets a Content-Type, writes the header and
      then the given bytes. */
  function Script(contentType: string, code: int, bs: seq<string>): seq<WriterOp> {
    [SetHeader("Content-Type", contentType), DoWriteHeader(code)] + Writes(bs)
  }

  lemma {:induction false} RunAppend(c: GzConfig, s: GzState, a: seq<WriterOp>, b: seq<WriterOp>)
    ensures Run(c, s, a + b) == Run(c, Run(c, s, a), b)
    decreases |b|
  {
    if |b| == 0 {
      assert a + b == a;
    } else {
      var n := |b| - 1;
      assert (a + b)[..|a + b| - 1] == a + b[..n];
      RunAppend(c, s, a, b[..n]);
    }
  }

  /** After the header of a script with an allowed media type the writer
      compresses, holds the encoding headers and has touched nothing else. */
  lemma ScriptHeader(c: GzConfig, resp: Response, contentType: string, code: int)
    requires MediaType(contentType) in c.types
    ensures var s := Run(c, Initial(resp), [SetHeader("Content-Type", contentType), DoWriteHeader(code)]);
      && s.shouldCompress && s.size == 0 && s.buf.None? && s.gzIn == "" && !s.gzOpen
      && Values(s.out.header, "Content-Encoding") == ["gzip"]
      && s.out.body == resp.body
  {
    var ops := [SetHeader("Content-Type", contentType), DoWriteHeader(code)];
    var s0 := Initial(resp);
    var s1 := OpStep(c, s0, SetHeader("Content-Type", contentType));
    assert ops[..1] == [SetHeader("Content-Type", contentType)];
    assert ops[..1][..0] == [];
    assert Run(c, s0, ops[..1]) == s1;
    assert Get(s1.out.header, "Content-Type") == contentType;
    assert Run(c, s0, ops) == WriteHeaderStep(c, s1, code);
  }

  /** The emitted body of a compressed script: the raw part of the buffer,
      then the complete gzip stream of what followed the threshold. */
  lemma ScriptBody(c: GzConfig, resp: Response, contentType: string, code: int, bs: seq<string>, gzip: (int, string) -> string)
    requires MediaType(contentType) in c.types && !NewWriterFails(c.level)
    ensures var s := Run(c, Initial(resp), Script(contentType, code, bs));
      var r := CloseStep(c, s, gzip);
      && Values(r.out.header, "Content-Encoding") == ["gzip"]
      && (|Concat(bs)| > 0 ==> r.out.body == resp.body + BufBytes(s.buf) + gzip(c.level, s.gzIn))
      && BufBytes(s.buf) + s.gzIn == Concat(bs)
  {
    var head := [SetHeader("Content-Type", contentType), DoWriteHeader(code)];
    RunAppend(c, Initial(resp), head, Writes(bs));
    ScriptHeader(c, resp, contentType, code);
    CompressingWritesBuffer(c, Run(c, Initial(resp), head), bs);
    if |Concat(bs)| > 0 {
      CompressedClose(c, Run(c, Initial(resp), Script(contentType, code, bs)), gzip);
    }
  }

  /** `Close` of a writer with an open gzip writer: the headers are kept and
      the buffer, then the end of the gzip stream, are sent. */
  lemma CompressedClose(c: GzConfig, s: GzState, gzip: (int, string) -> string)
    requires s.shouldCompress && s.gzOpen
    ensures CloseStep(c, s, gzip).out.header == s.out.header
    ensures CloseStep(c, s, gzip).out.body == s.out.body + BufBytes(s.buf) + gzip(c.level, s.gzIn)
  {
    assert s.out.body + (BufBytes(s.buf) + gzip(c.level, s.gzIn)) == s.out.body + BufBytes(s.buf) + gzip(c.level, s.gzIn);
  }

  /** The first two bytes of every gzip stream (section 2.3.1 of RFC 1952). */
  predicate IsGzipStream(body: string) {
    |body| >= 2 && body[0] == 0x1f as char && body[1] == 0x8b as char
  }

  /** As written, a first write of at most `minSize` bytes stays raw at the
      front of the body while later bytes are gzip-compressed behind it, and
      the response is still labelled `Content-Encoding: gzip`: a body that
      does not start with the gzip magic bytes is not a gzip stream. */
  lemma MixedBodyAsWritten(c: GzConfig, resp: Response, contentType: string, code: int,
                           x: string, y: string, gzip: (int, string) -> string)
    requires MediaType(contentType) in c.types && !NewWriterFails(c.level)
    requires 0 < |x| <= c.minSize < |x| + |y|
    requires resp.body == "" && x[0] != 0x1f as char
    ensures var r := CloseStep(c, Run(c, Initial(resp), Script(contentType, code, [x, y])), gzip);
      && Values(r.out.header, "Content-Encoding") == ["gzip"]
      && r.out.body == x + gzip(c.level, y)
      && !IsGzipStream(r.out.body)
  {
    var head := [SetHeader("Content-Type", contentType), DoWriteHeader(code)];
    var s0 := Run(c, Initial(resp), head);
    ScriptHeader(c, resp, contentType, code);
    RunAppend(c, Initial(resp), head, Writes([x, y]));
    assert Writes([x]) == [DoWrite(x)] && Writes([x, y]) == [DoWrite(x), DoWrite(y)];
    assert Writes([x, y])[..1] == Writes([x]) && Writes([x])[..0] == [];
    var s1 := Run(c, s0, Writes([x]));
    assert Run(c, s0, []) == s0;
    assert s1 == WriteStep(c, s0, x);
    assert BufBytes(Some("")) + x == x;
    assert s1.buf == Some(x) && s1.size == |x| && s1.gzOpen && s1.gzIn == "";
    var s2 := Run(c, s0, Writes([x, y]));
    assert s2 == WriteStep(c, s1, y);
    assert s2.buf == Some(x) && s2.gzIn == y;
  }

  /** As written, a body that never exceeds `minSize` is not sent plain: the
      gzip writer created by the first write still appends an empty stream's
      framing after the raw bytes, under `Content-Encoding: gzip`. */
  lemma SmallBodyAsWritten(c: GzConfig, resp: Response, contentType: string, code: int,
                           x: string, gzip: (int, string) -> string)
    requires MediaType(contentType) in c.types && !NewWriterFails(c.level)
    requires 0 < |x| <= c.minSize
    ensures var r := CloseStep(c, Run(c, Initial(resp), Script(contentType, code, [x])), gzip);
      && Values(r.out.header, "Content-Encoding") == ["gzip"]
      && r.out.body == resp.body + x + gzip(c.level, "")
  {
    var head := [SetHeader("Content-Type", contentType), DoWriteHeader(code)];
    var s0 := Run(c, Initial(resp), head);
    ScriptHeader(c, resp, contentType, code);
    RunAppend(c, Initial(resp), head, Writes([x]));
    assert Writes([x]) == [DoWrite(x)] && Writes([x])[..0] == [];
    var s1 := Run(c, s0, Writes([x]));
    assert Run(c, s0, []) == s0;
    assert s1 == WriteStep(c, s0, x);
    assert BufBytes(Some("")) + x == x;
    assert s1.buf == Some(x) && s1.gzOpen && s1.gzIn == "";
  }
}
