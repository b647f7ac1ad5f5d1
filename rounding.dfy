/**
 * Python's built-in round, on exact values.  round(y) gives the integer
 * nearest y and, when y lies exactly halfway between two integers, the even
 * one; round(x, 1) does the same with multiples of one tenth.
 */
module Rounding {

  /** Absolute value of a real. */
  function Abs(x: real): (a: real)
    ensures a >= 0.0
    ensures a == x || a == -x
  {
    if x < 0.0 then -x else x
  }

  /** round(y): the integer nearest y, the even one of two equally near. */
  function RoundHalfEven(y: real): (n: int)
    ensures Abs(n as real - y) <= 0.5
    ensures Abs(n as real - y) == 0.5 ==> n % 2 == 0
  {
    var f := y.Floor;
    var frac := y - f as real;
    if frac < 0.5 then f
    else if frac > 0.5 then f + 1
    else if f % 2 == 0 then f
    else f + 1
  }

  /** No integer is nearer to y than round(y). */
  lemma RoundHalfEvenIsNearest(y: real, k: int)
    ensures Abs(RoundHalfEven(y) as real - y) <= Abs(k as real - y)
  {
    var n := RoundHalfEven(y);
    if k < n {
      assert y - k as real >= 0.5;
    } else if k > n {
      assert k as real - y >= 0.5;
    }
  }

  /** An integer strictly within one half of y is round(y). */
  lemma RoundHalfEvenUnique(y: real, k: int)
    requires Abs(k as real - y) < 0.5
    ensures RoundHalfEven(y) == k
  {
    var n := RoundHalfEven(y);
    assert -1.0 < n as real - k as real < 1.0;
  }

  /** At a tie the even neighbour is chosen. */
  lemma RoundHalfEvenTie(y: real, k: int)
    requires Abs(k as real - y) == 0.5
    requires k % 2 == 0
    ensures RoundHalfEven(y) == k
  {
    var n := RoundHalfEven(y);
    assert -1.0 <= n as real - k as real <= 1.0;
  }

  /** round is monotone. */
  lemma RoundHalfEvenMonotone(y1: real, y2: real)
    requires y1 <= y2
    ensures RoundHalfEven(y1) <= RoundHalfEven(y2)
  {
    var n1, n2 := RoundHalfEven(y1), RoundHalfEven(y2);
    assert n1 as real - 0.5 <= y1 && y2 <= n2 as real + 0.5;
  }

  /** round(x, 1): the multiple of 0.1 nearest x, the even tenth of two equally near. */
  function RoundTenth(x: real): (r: real)
    ensures Abs(r - x) <= 0.05
    ensures (r * 10.0).Floor as real == r * 10.0
    ensures Abs(r - x) == 0.05 ==> (r * 10.0).Floor % 2 == 0
  {
    var n := RoundHalfEven(x * 10.0);
    TenthScaling(n, x);
    n as real / 10.0
  }

  /** Scaling a tenth and its distance to x by ten. */
  lemma TenthScaling(n: int, x: real)
    ensures (n as real / 10.0 * 10.0).Floor == n
    ensures n as real / 10.0 * 10.0 == n as real
    ensures Abs(n as real / 10.0 - x) * 10.0 == Abs(n as real - x * 10.0)
  {
  }

  /** No multiple of 0.1 is nearer to x than round(x, 1). */
  lemma RoundTenthIsNearest(x: real, k: int)
    ensures Abs(RoundTenth(x) - x) <= Abs(k as real / 10.0 - x)
  {
    RoundHalfEvenIsNearest(x * 10.0, k);
    var n := RoundHalfEven(x * 10.0);
    assert Abs(n as real - x * 10.0) == 10.0 * Abs(RoundTenth(x) - x);
    assert Abs(k as real - x * 10.0) == 10.0 * Abs(k as real / 10.0 - x);
  }

  /** A value that already has one decimal is left unchanged. */
  lemma RoundTenthOfTenth(k: int)
    ensures RoundTenth(k as real / 10.0) == k as real / 10.0
  {
    RoundHalfEvenUnique(k as real / 10.0 * 10.0, k);
  }
}
