/**
 * Python's built-in `round(x)` for a single argument: the nearest integer,
 * ties going to the even neighbour ("banker's rounding"). It is applied here
 * to the exact real value; binary floating-point drift is not modelled.
 */
module Rounding {

  /** `n` is a nearest integer to `x`, and on a tie it is the even one. */
  ghost predicate IsRoundHalfEven(x: real, n: int) {
    && -0.5 <= x - n as real <= 0.5
    && ((x - n as real == 0.5 || x - n as real == -0.5) ==> n % 2 == 0)
  }

  function RoundHalfEven(x: real): (n: int)
    ensures IsRoundHalfEven(x, n)
  {
    var f := x.Floor;
    var frac := x - f as real;
    if frac < 0.5 then f
    else if frac > 0.5 then f + 1
    else if f % 2 == 0 then f
    else f + 1
  }

  /** The characterisation determines the result: there is one such integer. */
  lemma RoundHalfEvenUnique(x: real, m: int)
    requires IsRoundHalfEven(x, m)
    ensures m == RoundHalfEven(x)
  {
  }

  /** No integer is strictly closer to `x` than the rounded value. */
  lemma RoundHalfEvenNearest(x: real, m: int)
    ensures var n := RoundHalfEven(x);
            Abs(x - n as real) <= Abs(x - m as real)
  {
    var n := RoundHalfEven(x);
    if m < n {
      assert m as real <= n as real - 1.0;
      assert x - m as real >= 0.5;
    } else if m > n {
      assert m as real >= n as real + 1.0;
      assert m as real - x >= 0.5;
    }
  }

  /** Rounding never reverses the order of its arguments. */
  lemma RoundHalfEvenMonotone(x: real, y: real)
    requires x <= y
    ensures RoundHalfEven(x) <= RoundHalfEven(y)
  {
  }

  /** Integers are fixed points of rounding. */
  lemma RoundHalfEvenOfInt(k: int)
    ensures RoundHalfEven(k as real) == k
  {
    RoundHalfEvenUnique(k as real, k);
  }

  function Abs(x: real): real {
    if x < 0.0 then -x else x
  }
}
