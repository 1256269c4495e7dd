/** The "base64" encoding of section 4 of RFC 4648 (standard alphabet, `=`
    padding), with the decoding rules of Go's `base64.StdEncoding.DecodeString`:
    carriage returns and line feeds are skipped, the input must consist of whole
    four-character quanta, padding may only end the last quantum, and unused
    trailing bits are not checked. */
module Base64 {
  import opened Wrappers

  type byte = x: int | 0 <= x < 256

  /** The character that encodes the six-bit value `v` (Table 1 of RFC 4648). */
  function CharOf(v: int): (c: char)
    requires 0 <= v < 64
    ensures c != '=' && c != '\r' && c != '\n'
  {
    if v < 26 then ('A' as int + v) as char
    else if v < 52 then ('a' as int + v - 26) as char
    else if v < 62 then ('0' as int + v - 52) as char
    else if v == 62 then '+'
    else '/'
  }

  /** The six-bit value a character encodes, if it is in the alphabet. */
  function ValueOf(c: char): (r: Option<int>)
    ensures r.Some? ==> 0 <= r.value < 64 && CharOf(r.value) == c
  {
    if 'A' <= c <= 'Z' then Some(c as int - 'A' as int)
    else if 'a' <= c <= 'z' then Some(c as int - 'a' as int + 26)
    else if '0' <= c <= '9' then Some(c as int - '0' as int + 52)
    else if c == '+' then Some(62)
    else if c == '/' then Some(63)
    else None
  }

  lemma ValueOfCharOf(v: int)
    requires 0 <= v < 64
    ensures ValueOf(CharOf(v)) == Some(v)
  {
  }

  /** Encoding: every three bytes become four characters; a final group of one
      or two bytes is padded with `=` to four characters. */
  function Encode(b: seq<byte>): (r: string)
    ensures |r| % 4 == 0
    ensures forall i :: 0 <= i < |r| ==> r[i] != '\r' && r[i] != '\n'
    decreases |b|
  {
    if |b| == 0 then ""
    else if |b| == 1 then
      [CharOf(b[0] / 4), CharOf((b[0] % 4) * 16), '=', '=']
    else if |b| == 2 then
      [CharOf(b[0] / 4), CharOf((b[0] % 4) * 16 + b[1] / 16), CharOf((b[1] % 16) * 4), '=']
    else
      [CharOf(b[0] / 4), CharOf((b[0] % 4) * 16 + b[1] / 16),
       CharOf((b[1] % 16) * 4 + b[2] / 64), CharOf(b[2] % 64)] + Encode(b[3..])
  }

  /** The input with every `\r` and `\n` removed. */
  function SkipNewlines(s: string): (r: string)
    ensures |r| <= |s|
    decreases |s|
  {
    if |s| == 0 then ""
    else if s[0] == '\r' || s[0] == '\n' then SkipNewlines(s[1..])
    else [s[0]] + SkipNewlines(s[1..])
  }

  /** Decoding of whole quanta; `None` on any malformed input. */
  function DecodeQuanta(t: string): Option<seq<byte>>
    decreases |t|
  {
    if |t| == 0 then Some([])
    else if |t| < 4 then None
    else
      var a, b, c, d := ValueOf(t[0]), ValueOf(t[1]), ValueOf(t[2]), ValueOf(t[3]);
      if a.None? || b.None? then None
      else if t[2] == '=' then
        if t[3] == '=' && |t| == 4 then Some([a.value * 4 + b.value / 16]) else None
      else if c.None? then None
      else if t[3] == '=' then
        if |t| == 4 then Some([a.value * 4 + b.value / 16, (b.value % 16) * 16 + c.value / 4])
        else None
      else if d.None? then None
      else
        var rest := DecodeQuanta(t[4..]);
        if rest.None? then None
        else
          Some([a.value * 4 + b.value / 16, (b.value % 16) * 16 + c.value / 4,
                (c.value % 4) * 64 + d.value] + rest.value)
  }

  /** `base64.StdEncoding.DecodeString`. */
  function Decode(s: string): Option<seq<byte>> {
    DecodeQuanta(SkipNewlines(s))
  }

  lemma SkipNewlinesOfEncoded(b: seq<byte>)
    ensures SkipNewlines(Encode(b)) == Encode(b)
  {
    NoNewlinesSkipped(Encode(b));
  }

  lemma {:induction false} NoNewlinesSkipped(s: string)
    requires forall i :: 0 <= i < |s| ==> s[i] != '\r' && s[i] != '\n'
    ensures SkipNewlines(s) == s
    decreases |s|
  {
    if |s| > 0 {
      NoNewlinesSkipped(s[1..]);
    }
  }

  /** The arithmetic of one full quantum: the four sextets give back the bytes. */
  lemma FullQuantum(x: byte, y: byte, z: byte)
    ensures var a, b, c, d := x / 4, (x % 4) * 16 + y / 16, (y % 16) * 4 + z / 64, z % 64;
      a * 4 + b / 16 == x && (b % 16) * 16 + c / 4 == y && (c % 4) * 64 + d == z
  {
  }

  /** Decoding what `Encode` produced gives back the bytes. */
  lemma {:induction false} DecodeEncode(b: seq<byte>)
    ensures Decode(Encode(b)) == Some(b)
  {
    SkipNewlinesOfEncoded(b);
    DecodeQuantaEncode(b);
  }

  lemma DecodeOneByte(b: seq<byte>)
    requires |b| == 1
    ensures DecodeQuanta(Encode(b)) == Some(b)
  {
    DecodeOne(b[0]);
    OneOf(b);
  }

  lemma DecodeOne(x: byte)
    ensures DecodeQuanta([CharOf(x / 4), CharOf((x % 4) * 16), '=', '=']) == Some([x])
  {
    ValueOfCharOf(x / 4);
    ValueOfCharOf((x % 4) * 16);
  }

  lemma DecodeTwoBytes(b: seq<byte>)
    requires |b| == 2
    ensures DecodeQuanta(Encode(b)) == Some(b)
  {
    DecodeTwo(b[0], b[1]);
    TwoOf(b);
  }

  lemma DecodeTwo(x: byte, y: byte)
    ensures DecodeQuanta([CharOf(x / 4), CharOf((x % 4) * 16 + y / 16), CharOf((y % 16) * 4), '='])
         == Some([x, y])
  {
    ValueOfCharOf(x / 4);
    ValueOfCharOf((x % 4) * 16 + y / 16);
    ValueOfCharOf((y % 16) * 4);
    FullQuantum(x, y, 0);
  }

  lemma OneOf<T>(b: seq<T>)
    requires |b| == 1
    ensures b == [b[0]]
  {
  }

  lemma TwoOf<T>(b: seq<T>)
    requires |b| == 2
    ensures b == [b[0], b[1]]
  {
  }

  lemma DecodeThreeBytes(t: string, x: byte, y: byte, z: byte, rest: string)
    requires t == [CharOf(x / 4), CharOf((x % 4) * 16 + y / 16),
                   CharOf((y % 16) * 4 + z / 64), CharOf(z % 64)] + rest
    ensures DecodeQuanta(t) == if DecodeQuanta(rest).Some? then Some([x, y, z] + DecodeQuanta(rest).value) else None
  {
    var a, b, c, d := x / 4, (x % 4) * 16 + y / 16, (y % 16) * 4 + z / 64, z % 64;
    ValueOfCharOf(a);
    ValueOfCharOf(b);
    ValueOfCharOf(c);
    ValueOfCharOf(d);
    FullQuantum(x, y, z);
    assert t[0] == CharOf(a) && t[1] == CharOf(b) && t[2] == CharOf(c) && t[3] == CharOf(d);
    assert t[4..] == rest;
  }

  /** One full quantum in front of a remainder that decodes back. */
  lemma DecodeQuantum(b: seq<byte>)
    requires |b| >= 3 && DecodeQuanta(Encode(b[3..])) == Some(b[3..])
    ensures DecodeQuanta(Encode(b)) == Some(b)
  {
    DecodeHead(b);
    FirstThree(b);
    SplitAtThree(b);
  }

  /** Decoding an encoding of three bytes or more: the first three bytes,
      then the decoding of the rest's encoding. */
  lemma DecodeHead(b: seq<byte>)
    requires |b| >= 3
    ensures DecodeQuanta(Encode(b)) ==
      if DecodeQuanta(Encode(b[3..])).Some? then Some([b[0], b[1], b[2]] + DecodeQuanta(Encode(b[3..])).value) else None
  {
    EncodeQuantum(b);
    DecodeThreeBytes(Encode(b), b[0], b[1], b[2], Encode(b[3..]));
  }

  /** `Encode` of three bytes or more: one quantum, then the rest. */
  lemma EncodeQuantum(b: seq<byte>)
    requires |b| >= 3
    ensures Encode(b) == [CharOf(b[0] / 4), CharOf((b[0] % 4) * 16 + b[1] / 16),
                          CharOf((b[1] % 16) * 4 + b[2] / 64), CharOf(b[2] % 64)] + Encode(b[3..])
  {
  }

  lemma SplitAtThree<T>(b: seq<T>)
    requires |b| >= 3
    ensures b == b[..3] + b[3..]
  {
  }

  lemma FirstThree<T>(b: seq<T>)
    requires |b| >= 3
    ensures b[..3] == [b[0], b[1], b[2]]
  {
  }

  lemma {:induction false} DecodeQuantaEncode(b: seq<byte>)
    ensures DecodeQuanta(Encode(b)) == Some(b)
    decreases |b|
  {
    if |b| == 1 {
      DecodeOneByte(b);
    } else if |b| == 2 {
      DecodeTwoBytes(b);
    } else if |b| >= 3 {
      DecodeQuantaEncode(b[3..]);
      DecodeQuantum(b);
    }
  }
}
