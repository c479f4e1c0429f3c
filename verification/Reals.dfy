/** Powers of reals and bounds on errors: the references the integer code is compared with. */
module Reals {
  import opened Int128

  const UNIT: real := 1_000_000_000_000_000_000.0

  /** The exact power of a real base. */
  ghost function Power(x: real, n: nat): real {
    if n == 0 then 1.0 else x * Power(x, n - 1)
  }

  ghost predicate Within(a: real, b: real, e: real) { -e <= a - b <= e }

  lemma {:induction false} TruncationError(a: int, b: int)
    requires b > 0
    ensures Within(TruncDiv(a, b) as real, a as real / b as real, 1.0)
  {
    var q := TruncDiv(a, b);
    TruncDivRemainder(a, b);
    assert (q * b) as real == q as real * b as real;
    RemainderError(a as real, b as real, q as real);
  }

  lemma {:induction false} RemainderError(a: real, b: real, q: real)
    requires b > 0.0 && -b <= a - q * b <= b
    ensures Within(q, a / b, 1.0)
  {
    var y := a / b;
    assert y * b == a;
    assert (y - q) * b == a - q * b;
    QuotientWithin(y - q, b, 1.0, a - q * b, b);
  }

  /** A number whose multiple by w > 0 is within e * w of zero is itself within e. */
  lemma {:induction false} QuotientWithin(d: real, w: real, e: real, product: real, bound: real)
    requires w > 0.0 && product == d * w && bound == e * w
    requires -bound <= product <= bound
    ensures -e <= d <= e
  {
    if d > e {
      Positive(d - e, w);
    } else if d < -e {
      Positive(-e - d, w);
    }
  }

  lemma {:induction false} Positive(a: real, b: real)
    requires a > 0.0 && b > 0.0
    ensures a * b > 0.0
  {
  }

  lemma {:induction false} NonNegative(a: real, b: real)
    requires a >= 0.0 && b >= 0.0
    ensures a * b >= 0.0
  {
  }

  /** |e| <= m and |u| <= c bound the product. */
  lemma {:induction false} ProductWithin(e: real, u: real, m: real, c: real)
    requires -m <= e <= m && -c <= u <= c
    ensures -(m * c) <= e * u <= m * c
  {
    NonNegative(m - e, c + u);
    NonNegative(m + e, c - u);
    NonNegative(m - e, c - u);
    NonNegative(m + e, c + u);
  }

  lemma {:induction false} ErrorsAdd(a: real, b: real, c: real, e: real, f: real)
    requires Within(a, b, e) && Within(b, c, f)
    ensures Within(a, c, e + f)
  {
  }

  lemma {:induction false} RatioOfProduct(a: real, b: real, c: real)
    requires c > 0.0
    ensures (a * b) / c == a * (b / c)
  {
    var u := b / c;
    assert u * c == b;
    assert (a * u) * c == a * b;
  }

  lemma {:induction false} ProductBetween(a: real, b: real, maxA: real, maxB: real)
    requires 0.0 <= a <= maxA && 0.0 <= b <= maxB
    ensures 0.0 <= a * b <= maxA * maxB
  {
    NonNegative(a, b);
    NonNegative(maxA - a, b);
    NonNegative(maxA, maxB - b);
    assert maxA * maxB - a * b == (maxA - a) * b + maxA * (maxB - b);
  }

  lemma {:induction false} PowerOfTwoMore(y: real, n: nat)
    ensures Power(y, n + 2) == Power(y, n) * (y * y)
  {
    var p := Power(y, n);
    assert Power(y, n + 2) == y * (y * p);
    assert y * (y * p) == p * (y * y);
  }

  lemma {:induction false} FirstPower(y: real)
    ensures Power(y, 1) == y
  {
    assert Power(y, 1) == y * Power(y, 0);
  }
}
