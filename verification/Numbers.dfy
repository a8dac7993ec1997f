/**
 Decimal arithmetic.  Addition, subtraction and comparison of decimals are exact, so a
 decimal is a real.  Division is the one rounding operation: it keeps sixteen
 fractional digits and rounds half away from zero.
 */
module Numbers {

  const SCALE: real := 10000000000000000.0

  function RoundHalfAway(x: real): int {
    if x >= 0.0 then (x + 0.5).Floor else -((-x + 0.5).Floor)
  }

  function Round16(x: real): real {
    RoundHalfAway(x * SCALE) as real / SCALE
  }

  function Div(a: real, b: real): (q: real)
    requires b != 0.0
    ensures a <= 0.0 < b ==> q <= 0.0
    ensures a >= 0.0 && b > 0.0 ==> q >= 0.0
  {
    QuotientSign(a, b);
    Round16(a / b)
  }

  lemma QuotientSign(a: real, b: real)
    requires b != 0.0
    ensures a <= 0.0 < b ==> a / b <= 0.0
    ensures a >= 0.0 && b > 0.0 ==> a / b >= 0.0
  {
    var q := a / b;
    assert q * b == a;
  }

  /** Rounding moves a quotient by at most half a unit of the sixteenth digit. */
  lemma DivError(a: real, b: real)
    requires b != 0.0
    ensures -0.5 / SCALE <= Div(a, b) - a / b <= 0.5 / SCALE
  {
    var q := a / b;
    var n := RoundHalfAway(q * SCALE) as real;
    assert -0.5 <= n - q * SCALE <= 0.5;
    assert n / SCALE - q == (n - q * SCALE) / SCALE;
  }

  /** Integer part, truncated toward zero. */
  function IntPart(x: real): int {
    if x >= 0.0 then x.Floor else -((-x).Floor)
  }

  function Min(a: real, b: real): (r: real)
    ensures r <= a && r <= b && (r == a || r == b)
  {
    if a < b then a else b
  }

  function MinInt(a: int, b: int): int { if a < b then a else b }

  function MaxInt(a: int, b: int): int { if a > b then a else b }
}
