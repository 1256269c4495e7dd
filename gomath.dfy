/** Go's integer division, which truncates toward zero, unlike Dafny's
    Euclidean `/`, and the unit of Go's durations. */
module GoMath {
  /** `time.Second`: a `time.Duration` counts nanoseconds. */
  const Second := 1_000_000_000

  function Abs(x: int): nat {
    if x < 0 then -x else x
  }

  /** `a / b` on Go integers: the quotient of the magnitudes, negated when
      the signs differ. */
  function TruncDiv(a: int, b: int): (q: int)
    requires b != 0
    ensures Abs(q) * Abs(b) <= Abs(a) < (Abs(q) + 1) * Abs(b)
    ensures q != 0 ==> ((q > 0) <==> ((a > 0) == (b > 0)))
  {
    var x, y := Abs(a), Abs(b);
    var m := x / y;
    DivBounds(x, y);
    if (a < 0) == (b < 0) then m else -m
  }

  lemma DivBounds(x: nat, y: nat)
    requires y > 0
    ensures (x / y) * y <= x < (x / y + 1) * y
    ensures x / y > 0 ==> x > 0
  {
    assert x == (x / y) * y + x % y && 0 <= x % y < y;
    assert (x / y + 1) * y == (x / y) * y + y;
  }

  /** On non-negative operands Go and Dafny divide alike; with one negative
      operand they differ whenever the division is inexact. */
  lemma TruncDivExamples()
    ensures TruncDiv(7, 2) == 7 / 2 == 3
    ensures TruncDiv(-7, 2) == -3 && -7 / 2 == -4
  {
  }
}
