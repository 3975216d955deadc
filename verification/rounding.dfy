/** The two integer conversions the projection applies to real numbers:
    Python's `int(x)` on a float, which truncates toward zero, and Python 3's
    built-in `round(x)`, which rounds to the nearest integer and breaks ties
    towards the even neighbour ("banker's rounding"). */
module Rounding {

  /** `int(x)`: drops the fractional part, moving toward zero. */
  function Trunc(x: real): (n: int)
    ensures 0.0 <= x ==> 0 <= n && n as real <= x < n as real + 1.0
    ensures x < 0.0 ==> n <= 0 && n as real - 1.0 < x <= n as real
  {
    if 0.0 <= x then x.Floor else -((-x).Floor)
  }

  /** True when `x` lies exactly half-way between two integers. */
  predicate IsTie(x: real) {
    x - x.Floor as real == 0.5
  }

  /** `round(x)`: the nearest integer; a tie goes to the even neighbour. */
  function Round(x: real): (n: int)
    ensures -0.5 <= x - n as real <= 0.5
    ensures IsTie(x) ==> n % 2 == 0
    ensures !IsTie(x) ==> -0.5 < x - n as real < 0.5
  {
    var f := x.Floor;
    var d := x - f as real;
    if d < 0.5 then f
    else if d > 0.5 then f + 1
    else if f % 2 == 0 then f
    else f + 1
  }

  /** The contract of `Round` pins its result down: any integer within one
      half of `x` that is even whenever `x` is a tie IS `Round(x)`. */
  lemma RoundUnique(x: real, n: int)
    requires -0.5 <= x - n as real <= 0.5
    requires IsTie(x) ==> n % 2 == 0
    ensures n == Round(x)
  {
    var f := x.Floor;
    var r := Round(x);
    assert f == n || f + 1 == n || f - 1 == n;
    if IsTie(x) {
      assert n == f || n == f + 1;
      assert r == f || r == f + 1;
    } else {
      assert -0.5 < x - n as real < 0.5;
    }
  }

  /** Whole numbers are left unchanged by rounding. */
  lemma RoundWhole(k: int)
    ensures Round(k as real) == k
  {
    RoundUnique(k as real, k);
  }
}
