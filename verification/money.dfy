/**
 Rounding of amounts to two decimal places. The record builder takes the
 rounding as a parameter so that its properties hold for any rounding that
 behaves like `round(x, 2)`; `RoundHalfEven2` is the exact-real reading of
 that call (nearest cent, ties to the even cent).
 */
module Money {

  /** What every use of `round(x, 2)` in the generator relies on. */
  ghost predicate IsRounding(round2: real -> real) {
    && round2(0.0) == 0.0
    && (forall x :: -1.0 / 200.0 <= round2(x) - x <= 1.0 / 200.0)
    && (forall x, y :: x <= y ==> round2(x) <= round2(y))
  }

  lemma RoundingMonotone(round2: real -> real, x: real, y: real)
    requires IsRounding(round2)
    requires x <= y
    ensures round2(x) <= round2(y)
  {
  }

  lemma RoundingError(round2: real -> real, x: real)
    requires IsRounding(round2)
    ensures -1.0 / 200.0 <= round2(x) - x <= 1.0 / 200.0
  {
  }

  /** Nearest integer to `y`, ties going to the even neighbour. */
  function RoundToInt(y: real): (n: int)
    ensures -1.0 / 2.0 <= n as real - y <= 1.0 / 2.0
    ensures n as real - y == 1.0 / 2.0 || y - n as real == 1.0 / 2.0 ==> n % 2 == 0
  {
    var f := y.Floor;
    var frac := y - f as real;
    if frac < 1.0 / 2.0 then f
    else if frac > 1.0 / 2.0 then f + 1
    else if f % 2 == 0 then f
    else f + 1
  }

  lemma {:induction false} RoundToIntMonotone(y1: real, y2: real)
    requires y1 <= y2
    ensures RoundToInt(y1) <= RoundToInt(y2)
  {
    var f1, f2 := y1.Floor, y2.Floor;
    if f1 < f2 {
      assert RoundToInt(y1) <= f1 + 1 <= f2 <= RoundToInt(y2);
    }
  }

  /** `x` rounded to a whole number of cents, ties to the even cent. */
  function RoundHalfEven2(x: real): (r: real)
    ensures (r * 100.0).Floor as real == r * 100.0
    ensures -1.0 / 200.0 <= r - x <= 1.0 / 200.0
  {
    RoundToInt(x * 100.0) as real / 100.0
  }

  lemma HalfEvenIsRounding()
    ensures IsRounding(RoundHalfEven2)
  {
    forall x, y | x <= y
      ensures RoundHalfEven2(x) <= RoundHalfEven2(y)
    {
      RoundToIntMonotone(x * 100.0, y * 100.0);
    }
  }
}
