/** Vocabulary shared by every component: options, integer and real rounding, signs. */
module Prelude {

  datatype Option<+T> = None | Some(value: T)

  function Max(a: int, b: int): int { if a >= b then a else b }

  function Min(a: int, b: int): int { if a <= b then a else b }

  function Abs(a: int): nat { if a >= 0 then a else -a }

  function Sign(a: int): int { if a > 0 then 1 else if a < 0 then -1 else 0 }

  function MaxR(a: real, b: real): real { if a >= b then a else b }

  function MinR(a: real, b: real): real { if a <= b then a else b }

  /** The slack the candle checks allow a wick. */
  const EPS := 0.000000001

  const DAY_MS := 86400000

  lemma ScaleInt(a: int, b: int, n: int)
    requires a <= b && n >= 0
    ensures a * n <= b * n
  {
  }

  /** JavaScript's `Math.round`: the nearest integer, halves towards plus infinity. */
  function Round(x: real): int { (x + 0.5).Floor }

  /** `Math.round(n / d)` for integers. */
  function RoundDiv(n: int, d: int): (q: int)
    requires d > 0
    ensures -d < 2 * (q * d - n) <= d
  {
    RoundDivBounds(n, d);
    (2 * n + d) / (2 * d)
  }

  lemma RoundDivBounds(n: int, d: int)
    requires d > 0
    ensures var q := (2 * n + d) / (2 * d); -d < 2 * (q * d - n) <= d
  {
    var q, r := (2 * n + d) / (2 * d), (2 * n + d) % (2 * d);
    assert 2 * n + d == q * (2 * d) + r;
    assert q * (2 * d) == 2 * (q * d);
  }
}
