/**
 * `Math.round(p / q * 100)` and the `"<n>%"` text both statistics reducers
 * publish. Numbers are exact rationals here: `Math.round` rounds half up, and
 * the model takes that at exact halves, which binary floating point may miss.
 */
module Percent {
  import opened Text

  /** `Math.round(p / q * 100)` for non-negative `p` and positive `q`. */
  function RoundPercent(p: nat, q: nat): (r: nat)
    requires q > 0
    ensures 2 * q * r <= 200 * p + q < 2 * q * r + 2 * q
  {
    (200 * p + q) / (2 * q)
  }

  /** Only one integer lies within one half of `100 * p / q` from below and above. */
  lemma RoundPercentUnique(p: nat, q: nat, r: int)
    requires q > 0
    requires 2 * q * r <= 200 * p + q < 2 * q * r + 2 * q
    ensures r == RoundPercent(p, q)
  {
    var t := RoundPercent(p, q);
    assert 2 * q * r < 2 * q * (t + 1);
    assert 2 * q * t < 2 * q * (r + 1);
    MulCancel(2 * q, r, t + 1);
    MulCancel(2 * q, t, r + 1);
  }

  lemma MulMono(k: nat, a: int, b: int)
    requires a <= b
    ensures k * a <= k * b
  {
  }

  lemma MulStrict(k: nat, a: int, b: int)
    requires k > 0 && a < b
    ensures k * a < k * b
  {
    MulMono(k, a + 1, b);
  }

  lemma MulCancel(k: nat, a: int, b: int)
    requires k * a < k * b
    ensures a < b
  {
    if a >= b {
      MulMono(k, b, a);
      assert false;
    }
  }

  /** Integer division keeps the order of fractions: `a/b <= c/d` when `a*d <= c*b`. */
  lemma DivMono(a: nat, b: nat, c: nat, d: nat)
    requires b > 0 && d > 0
    requires a * d <= c * b
    ensures a / b <= c / d
  {
    var x, y := a / b, c / d;
    assert x * b <= a;
    MulMono(d, x * b, a);
    assert (x * d) * b <= c * b;
    assert c < (y + 1) * d;
    MulStrict(b, c, (y + 1) * d);
    assert b * (x * d) < b * ((y + 1) * d);
    MulCancel(b, x * d, (y + 1) * d);
    assert d * x < d * (y + 1);
    MulCancel(d, x, y + 1);
  }

  /** The text `${n}%`. */
  function RateText(n: nat): (t: string)
    ensures |t| >= 2 && t[|t| - 1] == '%'
    ensures AllDigits(t[..|t| - 1]) && DecimalValue(t[..|t| - 1]) == n
    ensures |t| > 2 ==> t[0] != '0'
  {
    var t := DecimalText(n) + "%";
    assert t[..|t| - 1] == DecimalText(n);
    DecimalRoundTrip(n);
    t
  }
}
