/** Decimal arithmetic shared by the costing and reporting modules. Java
    `BigDecimal` and Python `float` amounts are modelled as exact `real`s;
    the only rounding the core performs, `divide(x, scale, HALF_UP)` and
    `setScale(scale, HALF_UP)`, is defined here once. */
module Decimal {

  function Pow10(n: nat): (p: nat)
    ensures p >= 1
  {
    if n == 0 then 1 else 10 * Pow10(n - 1)
  }

  /** The integer nearest to `y`, ties away from zero (`RoundingMode.HALF_UP`). */
  function RoundHalfUpInt(y: real): (t: int)
    ensures y - 0.5 <= t as real <= y + 0.5
    ensures y >= 0.0 ==> t >= 0
    ensures y <= 0.0 ==> t <= 0
  {
    if y >= 0.0 then (y + 0.5).Floor else -((-y + 0.5).Floor)
  }

  /** `x` rounded to `scale` fractional digits with `HALF_UP`: the nearest
      multiple of 10^-scale, ties away from zero. */
  function RoundHalfUp(x: real, scale: nat): (r: real)
    ensures -0.5 / Pow10(scale) as real <= r - x <= 0.5 / Pow10(scale) as real
  {
    RoundToBound(x, Pow10(scale));
    RoundTo(x, Pow10(scale))
  }

  /** `x` rounded to the nearest multiple of 1/`p`, ties away from zero. */
  function RoundTo(x: real, p: nat): real
    requires p >= 1
  {
    RoundHalfUpInt(x * p as real) as real / p as real
  }

  /** `a.divide(b, scale, HALF_UP)`; Java throws for a zero divisor, which
      every caller in the core rules out first. */
  function Divide(a: real, b: real, scale: nat): (r: real)
    requires b != 0.0
    ensures -0.5 / Pow10(scale) as real <= r - a / b <= 0.5 / Pow10(scale) as real
  {
    RoundHalfUp(a / b, scale)
  }

  /** HALF_UP rounding to a multiple of 1/`p` moves a value by at most
      half of 1/`p`. */
  lemma RoundToBound(x: real, p: nat)
    requires p >= 1
    ensures -0.5 / p as real <= RoundTo(x, p) - x <= 0.5 / p as real
  {
    assert RoundTo(x, p) == RoundHalfUpInt(x * p as real) as real / p as real;
    RoundError(x * p as real, RoundHalfUpInt(x * p as real) as real, p as real);
  }

  /** Dividing a rounding error of at most one half by `q`. */
  lemma RoundError(y: real, t: real, q: real)
    requires q >= 1.0 && y - 0.5 <= t <= y + 0.5
    ensures -0.5 / q <= t / q - y / q <= 0.5 / q
  {
    assert t / q - y / q == (t - y) / q;
  }

  /** A multiple of 1/`p` is left unchanged by HALF_UP rounding. */
  lemma RoundToExact(n: int, p: nat)
    requires p >= 1
    ensures RoundTo(n as real / p as real, p) == n as real / p as real
  {
    RoundToMultiple(n as real / p as real, n, p);
  }

  lemma RoundToMultiple(x: real, n: int, p: nat)
    requires p >= 1 && x == n as real / p as real
    ensures RoundTo(x, p) == x
  {
    RoundToUnfold(x, p);
    var y := x * p as real;
    assert y == n as real;
    RoundIntegral(n);
    assert RoundHalfUpInt(y) == n;
  }

  lemma RoundToUnfold(x: real, p: nat)
    requires p >= 1
    ensures RoundTo(x, p) == RoundHalfUpInt(x * p as real) as real / p as real
  {
  }

  lemma RoundIntegral(n: int)
    ensures RoundHalfUpInt(n as real) == n
  {
    var t := RoundHalfUpInt(n as real);
    assert n as real - 0.5 <= t as real <= n as real + 0.5;
  }
}
