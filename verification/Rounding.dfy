/** Python's round() on exact values: to the nearest integer, ties to the even one. */
module Rounding {

  function RoundHalfEven(x: real): (r: int)
    ensures -0.5 <= x - r as real <= 0.5
    ensures x - r as real == 0.5 || x - r as real == -0.5 ==> r % 2 == 0
  {
    var f := x.Floor;
    var d := x - f as real;
    if d < 0.5 then f
    else if d > 0.5 then f + 1
    else if f % 2 == 0 then f else f + 1
  }

  /** The two postconditions determine the result. */
  lemma RoundIsUnique(x: real, r: int)
    requires -0.5 <= x - r as real <= 0.5
    requires x - r as real == 0.5 || x - r as real == -0.5 ==> r % 2 == 0
    ensures RoundHalfEven(x) == r
  {
    var q := RoundHalfEven(x);
    assert -1.0 <= q as real - r as real <= 1.0;
  }

  lemma RoundMonotone(x: real, y: real)
    requires x <= y
    ensures RoundHalfEven(x) <= RoundHalfEven(y)
  {
  }

  lemma RoundOfInt(n: int)
    ensures RoundHalfEven(n as real) == n
  {
  }
}
