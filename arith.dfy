/** Integer forms of the arithmetic the views do on JavaScript numbers. Dafny's `/`
    with a positive divisor rounds down, like `Math.floor(n / d)`. */
module Arith {

  /** `Math.round(n / d)` for a positive divisor: the nearest integer, a half rounded up. */
  function RoundDiv(n: int, d: int): (r: int)
    requires d > 0
    ensures 2 * d * r <= 2 * n + d < 2 * d * (r + 1)
  {
    var q := (2 * n + d) / (2 * d);
    assert 2 * n + d == (2 * d) * q + (2 * n + d) % (2 * d);
    q
  }

  /** `Math.round(n / d)` for any non-zero divisor: the nearest integer to the
      quotient, a half rounded up. */
  function RoundRatio(n: int, d: int): (r: int)
    requires d != 0
    ensures d > 0 ==> 2 * d * r <= 2 * n + d < 2 * d * (r + 1)
    ensures d < 0 ==> -2 * d * r <= -2 * n - d < -2 * d * (r + 1)
  {
    if d > 0 then RoundDiv(n, d) else RoundDiv(-n, -d)
  }

  /** `Math.round((n / d) * 100)` for a positive divisor. */
  function Percent(n: int, d: int): (r: int)
    requires d > 0
    ensures 2 * d * r <= 200 * n + d < 2 * d * (r + 1)
  {
    RoundDiv(100 * n, d)
  }

  /** A share of a whole, as a rounded percentage, lies between 0 and 100. */
  lemma PercentBounds(n: int, d: int)
    requires 0 <= n <= d && d > 0
    ensures 0 <= Percent(n, d) <= 100
  {
    var r := Percent(n, d);
    if r > 100 {
      assert 2 * d * r >= 2 * d * 101 by { MulMono(2 * d, 101, r); }
    }
    if r < 0 {
      assert 2 * d * (r + 1) <= 0 by { MulMono(2 * d, r + 1, 0); }
    }
  }

  /** A part at least as large as the whole is at least 100 percent of it. */
  lemma PercentOfNotMore(n: int, d: int)
    requires d > 0 && n >= d
    ensures Percent(n, d) >= 100
  {
    var r := Percent(n, d);
    if r < 100 {
      assert 2 * d * (r + 1) <= 2 * d * 100 by { MulMono(2 * d, r + 1, 100); }
    }
  }

  lemma MulMono(c: int, a: int, b: int)
    requires c >= 0 && a <= b
    ensures c * a <= c * b
  {
  }

  /** `Math.ceil(n / d)` for a positive divisor. */
  function CeilDiv(n: int, d: int): (r: int)
    requires d > 0
    ensures d * (r - 1) < n <= d * r
  {
    var q := (-n) / d;
    assert -n == d * q + (-n) % d;
    -q
  }

  function Max(a: int, b: int): (r: int)
    ensures r >= a && r >= b && (r == a || r == b)
  {
    if a >= b then a else b
  }

  function Min(a: int, b: int): (r: int)
    ensures r <= a && r <= b && (r == a || r == b)
  {
    if a <= b then a else b
  }

  /** A JavaScript number as far as the views need one: an integer, or `NaN`. */
  datatype JsNumber = Num(value: int) | NaN
}
