/** The parts of Go's `strings` and `strconv` packages that the proxy relies on,
    over `seq<char>`. */
module Strings {
  import opened Wrappers

  predicate HasPrefix(s: string, p: string) {
    |p| <= |s| && s[..|p|] == p
  }

  predicate HasSuffix(s: string, t: string) {
    |t| <= |s| && s[|s| - |t|..] == t
  }

  /** `sub` occurs in `s` at offset `i`. */
  predicate OccursAt(s: string, sub: string, i: int) {
    0 <= i <= |s| - |sub| && s[i..i + |sub|] == sub
  }

  /** `strings.Contains`: `sub` occurs somewhere in `s`. */
  predicate Contains(s: string, sub: string)
    decreases |s|
  {
    HasPrefix(s, sub) || (|s| > 0 && Contains(s[1..], sub))
  }

  /** `Contains` holds exactly when `sub` occurs at some offset of `s`. */
  lemma {:induction false} ContainsIffOccurs(s: string, sub: string)
    ensures Contains(s, sub) <==> exists i :: OccursAt(s, sub, i)
    decreases |s|
  {
    if |s| > 0 {
      ContainsIffOccurs(s[1..], sub);
      if exists i :: OccursAt(s, sub, i) {
        var i :| OccursAt(s, sub, i);
        if i > 0 {
          assert s[1..][i - 1..i - 1 + |sub|] == s[i..i + |sub|];
          assert OccursAt(s[1..], sub, i - 1);
        } else {
          assert HasPrefix(s, sub);
        }
      }
      if Contains(s[1..], sub) {
        var i :| OccursAt(s[1..], sub, i);
        assert s[i + 1..i + 1 + |sub|] == s[1..][i..i + |sub|];
        assert OccursAt(s, sub, i + 1);
      }
      if HasPrefix(s, sub) {
        assert OccursAt(s, sub, 0);
      }
    } else {
      if HasPrefix(s, sub) {
        assert OccursAt(s, sub, 0);
      }
    }
  }

  /** `strings.Index` / `strings.IndexByte` for a one-character needle. */
  function IndexOf(s: string, c: char): (r: int)
    ensures -1 <= r < |s|
    ensures r >= 0 ==> s[r] == c
    ensures forall i :: 0 <= i < |s| && (r < 0 || i < r) ==> s[i] != c
    ensures r == -1 <==> c !in s
    ensures r >= 0 ==> c !in s[..r]
    decreases |s|
  {
    if |s| == 0 then -1
    else if s[0] == c then 0
    else
      var k := IndexOf(s[1..], c);
      if k == -1 then -1 else k + 1
  }

  /** `strings.LastIndexByte`. */
  function LastIndexOf(s: string, c: char): (r: int)
    ensures -1 <= r < |s|
    ensures r >= 0 ==> s[r] == c
    ensures forall i :: r < i < |s| ==> s[i] != c
    ensures r == -1 <==> c !in s
    ensures r >= 0 ==> c !in s[r + 1..]
    decreases |s|
  {
    if |s| == 0 then -1
    else if s[|s| - 1] == c then |s| - 1
    else LastIndexOf(s[..|s| - 1], c)
  }

  /** The first occurrence is the only index holding `c` with none before it. */
  lemma IndexOfUnique(s: string, c: char, k: int)
    requires 0 <= k < |s| && s[k] == c && c !in s[..k]
    ensures IndexOf(s, c) == k
  {
    var r := IndexOf(s, c);
    assert s[k] in s;
    forall i | 0 <= i < k ensures s[i] != c {
      assert s[i] == s[..k][i];
    }
    forall i | 0 <= i < r ensures s[i] != c {
      assert s[i] == s[..r][i];
    }
  }

  /** The last occurrence is the only index holding `c` with none after it. */
  lemma LastIndexOfUnique(s: string, c: char, k: int)
    requires 0 <= k < |s| && s[k] == c && c !in s[k + 1..]
    ensures LastIndexOf(s, c) == k
  {
    var r := LastIndexOf(s, c);
    assert s[k] in s;
    forall i | k < i < |s| ensures s[i] != c {
      assert s[i] == s[k + 1..][i - k - 1];
    }
    forall i | r < i < |s| ensures s[i] != c {
      assert s[i] == s[r + 1..][i - r - 1];
    }
  }

  /** ASCII case mapping of one character, as `unicode.ToLower` does for ASCII. */
  function LowerChar(c: char): char {
    if 'A' <= c <= 'Z' then (c as int + 32) as char else c
  }

  /** `strings.ToLower`, restricted to the ASCII letters. */
  function ToLower(s: string): (r: string)
    ensures |r| == |s|
    ensures forall i :: 0 <= i < |s| ==> r[i] == LowerChar(s[i])
  {
    seq(|s|, i requires 0 <= i < |s| => LowerChar(s[i]))
  }

  lemma ToLowerIdempotent(s: string)
    ensures ToLower(ToLower(s)) == ToLower(s)
  {
  }

  /** `strings.Join(parts, sep)`. */
  function Join(parts: seq<string>, sep: string): string
    decreases |parts|
  {
    if |parts| == 0 then ""
    else if |parts| == 1 then parts[0]
    else parts[0] + sep + Join(parts[1..], sep)
  }

  lemma Join3(a: string, b: string, c: string, sep: string)
    ensures Join([a, b, c], sep) == a + sep + b + sep + c
  {
    assert [a, b, c][1..] == [b, c];
    assert [b, c][1..] == [c];
    assert Join([b, c], sep) == b + sep + c;
  }

  lemma Join5(a: string, b: string, c: string, d: string, f: string, sep: string)
    ensures Join([a, b, c, d, f], sep) == a + sep + b + sep + c + sep + d + sep + f
  {
    assert [a, b, c, d, f][1..] == [b, c, d, f];
    assert [b, c, d, f][1..] == [c, d, f];
    Join3(c, d, f, sep);
  }

  /** Joining one more string appends it after a separator. */
  lemma {:induction false} JoinSnoc(parts: seq<string>, last: string, sep: string)
    requires |parts| >= 1
    ensures Join(parts + [last], sep) == Join(parts, sep) + sep + last
    decreases |parts|
  {
    if |parts| == 1 {
      assert (parts + [last])[1..] == [last];
    } else {
      assert (parts + [last])[1..] == parts[1..] + [last];
      JoinSnoc(parts[1..], last, sep);
    }
  }

  /** `strings.Split(s, string(sep))`: the pieces between occurrences of `sep`,
      read from the front one character at a time. There is always at least
      one piece and no piece contains `sep`. */
  function Split(s: string, sep: char): (r: seq<string>)
    ensures |r| >= 1
    ensures forall i :: 0 <= i < |r| ==> sep !in r[i]
    decreases |s|
  {
    if |s| == 0 then [""]
    else
      var rest := Split(s[1..], sep);
      if s[0] == sep then [""] + rest else PrependFirst(s[0], rest)
  }

  /** The pieces `q` with `c` put in front of the first one. */
  function PrependFirst(c: char, q: seq<string>): (r: seq<string>)
    requires |q| >= 1
    ensures |r| == |q| && r[0] == [c] + q[0]
    ensures forall i :: 1 <= i < |r| ==> r[i] == q[i]
  {
    [[c] + q[0]] + q[1..]
  }

  /** Joining the pieces of `Split` with the separator gives back the string. */
  lemma {:induction false} JoinSplit(s: string, sep: char)
    ensures Join(Split(s, sep), [sep]) == s
    decreases |s|
  {
    if |s| > 0 {
      var t := s[1..];
      JoinSplit(t, sep);
      assert s == [s[0]] + t;
      if s[0] == sep {
        JoinCons("", Split(t, sep), [sep]);
      } else {
        JoinPrependFirst(s[0], Split(t, sep), [sep]);
      }
    }
  }

  /** Joining a string in front of a non-empty list puts a separator between. */
  lemma JoinCons(a: string, rest: seq<string>, sep: string)
    requires |rest| >= 1
    ensures Join([a] + rest, sep) == a + sep + Join(rest, sep)
  {
    assert ([a] + rest)[1..] == rest;
  }

  /** A character put in front of the first piece comes first in the join. */
  lemma JoinPrependFirst(c: char, q: seq<string>, sep: string)
    requires |q| >= 1
    ensures Join(PrependFirst(c, q), sep) == [c] + Join(q, sep)
  {
    var r := PrependFirst(c, q);
    if |q| > 1 {
      assert r[1..] == q[1..];
      ConcatAssoc([c], q[0], sep + Join(q[1..], sep));
      ConcatAssoc([c] + q[0], sep, Join(q[1..], sep));
      ConcatAssoc(q[0], sep, Join(q[1..], sep));
    }
  }

  /** A string without the separator is a single piece, and only such a
      string is. */
  lemma {:induction false} SplitFree(s: string, sep: char)
    ensures sep !in s <==> Split(s, sep) == [s]
  {
    var r := Split(s, sep);
    if sep in s {
      assert sep !in r[0];
    } else if |s| > 0 {
      var t := s[1..];
      SplitFree(t, sep);
      assert s == [s[0]] + t;
    }
  }

  /** Splitting at a separator splits the text on either side of it. */
  lemma {:induction false} SplitConcat(x: string, y: string, sep: char)
    ensures Split(x + [sep] + y, sep) == Split(x, sep) + Split(y, sep)
    decreases |x|
  {
    var s := x + [sep] + y;
    if |x| == 0 {
      assert s[0] == sep && s[1..] == y;
    } else {
      var t := x[1..];
      SplitConcat(t, y, sep);
      assert s[0] == x[0] && s[1..] == t + [sep] + y;
      if x[0] == sep {
        ConcatAssoc([""], Split(t, sep), Split(y, sep));
      } else {
        PrependFirstConcat(x[0], Split(t, sep), Split(y, sep));
      }
    }
  }

  /** Putting a character in front of the first piece commutes with
      appending pieces. */
  lemma PrependFirstConcat(c: char, p: seq<string>, q: seq<string>)
    requires |p| >= 1
    ensures PrependFirst(c, p + q) == PrependFirst(c, p) + q
  {
    assert (p + q)[1..] == p[1..] + q;
    ConcatAssoc([[c] + p[0]], p[1..], q);
  }

  lemma ConcatAssoc<T>(a: seq<T>, b: seq<T>, c: seq<T>)
    ensures a + (b + c) == (a + b) + c
  {
  }

  /** The pieces of each string, one string after the other. */
  function SplitEach(parts: seq<string>, sep: char): seq<string>
    decreases |parts|
  {
    if |parts| == 0 then [] else Split(parts[0], sep) + SplitEach(parts[1..], sep)
  }

  /** Splitting a join splits each joined string. */
  lemma {:induction false} SplitOfJoin(parts: seq<string>, sep: char)
    requires |parts| >= 1
    ensures Split(Join(parts, [sep]), sep) == SplitEach(parts, sep)
    decreases |parts|
  {
    if |parts| == 1 {
      assert SplitEach(parts[1..], sep) == [];
    } else {
      SplitConcat(parts[0], Join(parts[1..], [sep]), sep);
      SplitOfJoin(parts[1..], sep);
    }
  }

  lemma {:induction false} SplitEachConcat(a: seq<string>, b: seq<string>, sep: char)
    ensures SplitEach(a + b, sep) == SplitEach(a, sep) + SplitEach(b, sep)
    decreases |a|
  {
    if |a| == 0 {
      assert a + b == b;
    } else {
      assert (a + b)[1..] == a[1..] + b;
      SplitEachConcat(a[1..], b, sep);
    }
  }

  /** Splitting a join of strings that hold no separator gives them back. */
  lemma {:induction false} SplitEachFree(parts: seq<string>, sep: char)
    requires forall i :: 0 <= i < |parts| ==> sep !in parts[i]
    ensures SplitEach(parts, sep) == parts
    decreases |parts|
  {
    if |parts| > 0 {
      SplitEachFree(parts[1..], sep);
      SplitFree(parts[0], sep);
      assert parts == [parts[0]] + parts[1..];
    }
  }

  /** Pieces that hold no separator come back out of their join. */
  lemma SplitJoin(parts: seq<string>, sep: char)
    requires |parts| >= 1
    requires forall i :: 0 <= i < |parts| ==> sep !in parts[i]
    ensures Split(Join(parts, [sep]), sep) == parts
  {
    SplitOfJoin(parts, sep);
    SplitEachFree(parts, sep);
  }

  /** The last piece of `Split` is what follows the last separator. */
  lemma {:induction false} LastOfSplit(s: string, sep: char)
    ensures var r := Split(s, sep); r[|r| - 1] == s[LastIndexOf(s, sep) + 1..]
    decreases |s|
  {
    if |s| == 0 {
      assert s[0..] == s;
    } else {
      LastOfSplit(s[1..], sep);
      if s[0] == sep || sep in s[1..] {
        LastPieceStep(s, sep);
        TailAfterLast(s, sep);
      } else {
        LastOfFree(s, sep);
      }
    }
  }

  /** When there is a separator at the front or further on, `s` and `s`
      without its first character have the same last piece. */
  lemma LastPieceStep(s: string, sep: char)
    requires |s| >= 1 && (s[0] == sep || sep in s[1..])
    ensures var r := Split(s, sep); var q := Split(s[1..], sep); r[|r| - 1] == q[|q| - 1]
  {
    var q := Split(s[1..], sep);
    if s[0] == sep {
      LastOfCons(Split(s, sep), "", q);
    } else {
      JoinSplit(s[1..], sep);
      assert |q| > 1;
    }
  }

  /** Putting an element in front keeps the last element. */
  lemma LastOfCons<T>(r: seq<T>, a: T, q: seq<T>)
    requires r == [a] + q && |q| >= 1
    ensures r[|r| - 1] == q[|q| - 1]
  {
  }

  /** Without a separator the last piece is the whole string. */
  lemma LastOfFree(s: string, sep: char)
    requires sep !in s
    ensures var r := Split(s, sep); r[|r| - 1] == s[LastIndexOf(s, sep) + 1..]
  {
    SplitFree(s, sep);
    assert s[0..] == s;
  }

  /** When there is a separator at the front or further on, the text after
      the last one is the same in `s` and in `s` without its first character. */
  lemma TailAfterLast(s: string, sep: char)
    requires |s| >= 1 && (s[0] == sep || sep in s[1..])
    ensures var t := s[1..]; s[LastIndexOf(s, sep) + 1..] == t[LastIndexOf(t, sep) + 1..]
  {
    if sep in s[1..] {
      TailAfterLaterLast(s, sep);
    } else {
      LastIndexOfUnique(s, sep, 0);
      assert s[1..] == s[1..][0..];
    }
  }

  /** The last separator after the first character of `s` is the last one
      of `s`. */
  lemma TailAfterLaterLast(s: string, sep: char)
    requires |s| >= 1 && sep in s[1..]
    ensures var t := s[1..]; LastIndexOf(s, sep) == LastIndexOf(t, sep) + 1
  {
    var t := s[1..];
    var j := LastIndexOf(t, sep);
    assert s[j + 2..] == t[j + 1..];
    LastIndexOfUnique(s, sep, j + 1);
  }

  /** `strings.Cut(s, string(sep))` and `strings.SplitN(s, string(sep), 2)` with
      two pieces: the text before and after the first `sep`, if there is one. */
  function Cut(s: string, sep: char): (r: Option<(string, string)>)
    ensures r.None? <==> sep !in s
    ensures r.Some? ==> sep !in r.value.0 && r.value.0 + [sep] + r.value.1 == s
  {
    var k := IndexOf(s, sep);
    if k < 0 then None
    else
      assert s == s[..k] + [sep] + s[k + 1..];
      Some((s[..k], s[k + 1..]))
  }

  function DigitChar(d: int): char
    requires 0 <= d < 10
  {
    ('0' as int + d) as char
  }

  /** The decimal digits of a natural number, most significant first. */
  function NatToDecimal(n: nat): (r: string)
    ensures |r| >= 1
    ensures forall i :: 0 <= i < |r| ==> '0' <= r[i] <= '9'
    decreases n
  {
    if n < 10 then [DigitChar(n)] else NatToDecimal(n / 10) + [DigitChar(n % 10)]
  }

  /** `strconv.Itoa(n)` and the `%d` verb of `fmt`. */
  function Itoa(n: int): string {
    if n < 0 then "-" + NatToDecimal(-n) else NatToDecimal(n)
  }

  /** The decimal text of an integer is digits after an optional minus sign. */
  lemma ItoaChars(n: int)
    ensures forall i :: 0 <= i < |Itoa(n)| ==> '0' <= Itoa(n)[i] <= '9' || Itoa(n)[i] == '-'
  {
  }

  /** The value of a string of decimal digits. */
  function DecimalValue(s: string): int
    requires forall i :: 0 <= i < |s| ==> '0' <= s[i] <= '9'
    decreases |s|
  {
    if |s| == 0 then 0 else DecimalValue(s[..|s| - 1]) * 10 + (s[|s| - 1] as int - '0' as int)
  }

  /** `Itoa` of a natural number can be read back. */
  lemma {:induction false} DecimalRoundTrip(n: nat)
    ensures DecimalValue(NatToDecimal(n)) == n
    decreases n
  {
    if n >= 10 {
      DecimalRoundTrip(n / 10);
      var r := NatToDecimal(n);
      assert r[..|r| - 1] == NatToDecimal(n / 10);
    }
  }
}
