/** Range-reduced Taylor exponential (stellax-math/src/advanced.rs, `exp_fixed`). */
module Exponential {
  import opened Int128
  import opened FixedPoint
  import opened Reals

  const LN2: int := 693_147_180_559_945_309
  const HALF_LN2: int := LN2 / 2
  const UNDERFLOW: int := -41_446_531_673_892_822_312
  const OVERFLOW: int := 46_000_000_000_000_000_000
  const TERMS: nat := 25

  // ----- range reduction -----

  /** k, the integer nearest to x / ln 2 as the code rounds it. */
  function Exponent(x: int): int {
    var k := TruncDiv(x, LN2);
    var rem := x - k * LN2;
    if rem > HALF_LN2 then k + 1 else if rem < -HALF_LN2 then k - 1 else k
  }

  function Residue(x: int): int { x - Exponent(x) * LN2 }

  /** The residue is at most half of ln 2, and the exponent has the sign of x and at most 66 doublings. */
  lemma {:induction false} RangeReduction(x: int)
    ensures Abs(Residue(x)) <= HALF_LN2
    ensures x == Exponent(x) * LN2 + Residue(x)
    ensures x <= 0 ==> Exponent(x) <= 0
    ensures x >= 0 ==> Exponent(x) >= 0
    ensures Exponent(x) == 0 ==> Residue(x) == x
    ensures UNDERFLOW < x < OVERFLOW ==> -60 <= Exponent(x) <= 66
  {
    TruncDivRemainder(x, LN2);
  }

  // ----- the truncating Taylor loop -----

  function NextTerm(t: int, r: int, n: nat): int
    requires n > 0
  {
    TruncDiv(TruncDiv(t * r, PRECISION), n)
  }

  function Term(r: int, n: nat): int {
    if n == 0 then PRECISION else NextTerm(Term(r, n - 1), r, n)
  }

  function TaylorSum(r: int, n: nat): int {
    if n == 0 then PRECISION else TaylorSum(r, n - 1) + Term(r, n)
  }

  lemma {:induction false} ZeroTermsStayZero(r: int, n: nat, m: nat)
    requires n <= m && Term(r, n) == 0
    ensures Term(r, m) == 0 && TaylorSum(r, m) == TaylorSum(r, n)
  {
    if n < m {
      ZeroTermsStayZero(r, n, m - 1);
      assert NextTerm(0, r, m) == 0 by {
        assert 0 * r == 0;
        DivUnique(0, PRECISION, 0);
        DivUnique(0, m, 0);
      }
    }
  }

  /** Each term is at most half of the one before. */
  lemma {:induction false} TermHalves(t: int, r: int, n: nat)
    requires Abs(r) <= HALF_LN2 && n > 0
    ensures 2 * Abs(NextTerm(t, r, n)) <= Abs(t)
  {
    var y := TruncDiv(t * r, PRECISION);
    MagnitudeOfProduct(t, r);
    TruncDivRemainder(t * r, PRECISION);
    TruncDivRemainder(y, n);
    HalfProduct(Abs(t), Abs(r), Abs(t) * Abs(r));
    QuotientShrinks(Abs(y), n);
  }

  lemma {:induction false} HalfProduct(a: nat, b: nat, product: nat)
    requires b <= HALF_LN2 && product == a * b
    ensures 2 * (product / PRECISION) <= a
  {
    MulMonotone(a, b, a, HALF_LN2);
    DivBounds(product, PRECISION);
  }

  lemma {:induction false} QuotientShrinks(a: nat, n: nat)
    requires n > 0
    ensures a / n <= a
  {
    MulMonotone(a + 1, 1, a + 1, n);
    QuotientAbove(a, n, a);
  }

  /** The tail after the linear term never outweighs the linear term. */
  lemma {:induction false} SumBracketed(r: int, n: nat)
    requires Abs(r) <= HALF_LN2 && n >= 1
    ensures Abs(TaylorSum(r, n) - (PRECISION + r)) + Abs(Term(r, n)) <= Abs(r)
    ensures Abs(Term(r, n)) <= PRECISION
  {
    if n == 1 {
      FirstTerm(r);
    } else {
      SumBracketed(r, n - 1);
      TermHalves(Term(r, n - 1), r, n);
    }
  }

  lemma {:induction false} FirstTerm(r: int)
    ensures Term(r, 1) == r && TaylorSum(r, 1) == PRECISION + r
  {
    assert Term(r, 0) == PRECISION;
    ExactQuotient(r);
    TruncDivUnique(r, 1, r);
  }

  lemma {:induction false} ExactQuotient(r: int)
    ensures TruncDiv(PRECISION * r, PRECISION) == r
  {
    TruncDivUnique(PRECISION * r, PRECISION, r);
  }

  lemma {:induction false} ProductFits(t: int, r: int)
    requires Abs(t) <= PRECISION && Abs(r) <= HALF_LN2
    ensures MulPrecision(t, r) == Some(TruncDiv(t * r, PRECISION))
  {
    var y := t * r;
    MagnitudeOfProduct(t, r);
    MulMonotone(Abs(t), Abs(r), PRECISION, HALF_LN2);
    TruncDivRemainder(y, PRECISION);
    DivBounds(Abs(y), PRECISION);
  }

  /** The loop of the source with its early exit: exact on i128, so no product or sum overflows. */
  method Taylor(r: int) returns (sum: i128)
    requires Abs(r) <= HALF_LN2
    ensures sum == TaylorSum(r, TERMS)
  {
    var term: i128 := PRECISION;
    sum := PRECISION;
    var n := 1;
    while n <= TERMS
      invariant 1 <= n <= TERMS + 1
      invariant term == Term(r, n - 1) && sum == TaylorSum(r, n - 1)
    {
      SumBracketed(r, n);
      if n > 1 { SumBracketed(r, n - 1); }
      ProductFits(term, r);
      var product := MulPrecision(term, r);
      term := TruncDiv(product.value, n);
      sum := sum + term;
      if term == 0 {
        ZeroTermsStayZero(r, n, TERMS);
        return;
      }
      n := n + 1;
    }
  }

  // ----- accuracy against the exact 25-term sum -----

  ghost function ExactTerm(r: int, n: nat): real {
    if n == 0 then PRECISION as real else NextExact(ExactTerm(r, n - 1), r, n)
  }

  ghost function NextExact(t: real, r: int, n: nat): real
    requires n > 0
  {
    t * (r as real / PRECISION as real) / n as real
  }

  ghost function ExactSum(r: int, n: nat): real {
    if n == 0 then PRECISION as real else ExactSum(r, n - 1) + ExactTerm(r, n)
  }

  /** An error of 2 units shrinks to 0.7 through the factor r, gains one truncation, is divided by n >= 2 and
      gains another: still at most 2. */
  lemma {:induction false} NextTermError(t: int, exact: real, r: int, n: nat)
    requires Abs(r) <= HALF_LN2 && n >= 2
    requires Within(t as real, exact, 2.0)
    ensures Within(NextTerm(t, r, n) as real, NextExact(exact, r, n), 2.0)
  {
    var z := exact * (r as real / PRECISION as real);
    var y := TruncDiv(t * r, PRECISION);
    assert Within(y as real, z, 1.7) by {
      TruncationError(t * r, PRECISION);
      ScaledError(t, exact, r);
      ErrorsAdd(y as real, (t * r) as real / PRECISION as real, z, 1.0, 0.7);
    }
    assert Within(TruncDiv(y, n) as real, y as real / n as real, 1.0) by {
      TruncationError(y, n);
    }
    HalvedError(y as real, z, n as real);
    ErrorsAdd(TruncDiv(y, n) as real, y as real / n as real, z / n as real, 1.0, 0.85);
  }

  lemma {:induction false} ScaledError(t: int, exact: real, r: int)
    requires Abs(r) <= HALF_LN2 && Within(t as real, exact, 2.0)
    ensures Within((t * r) as real / PRECISION as real, exact * (r as real / PRECISION as real), 0.7)
  {
    var u := r as real / PRECISION as real;
    var e := t as real - exact;
    assert (t * r) as real == t as real * r as real;
    RatioOfProduct(t as real, r as real, PRECISION as real);
    assert t as real * u - exact * u == e * u;
    SmallRatio(r);
    ProductWithin(e, u, 2.0, 0.35);
  }

  lemma {:induction false} SmallRatio(r: int)
    requires Abs(r) <= HALF_LN2
    ensures -0.35 <= r as real / PRECISION as real <= 0.35
  {
  }

  lemma {:induction false} HalvedError(y: real, z: real, n: real)
    requires n >= 2.0 && Within(y, z, 1.7)
    ensures Within(y / n, z / n, 0.85)
  {
    var w := y / n - z / n;
    assert w * n == y - z by {
      assert (y / n) * n == y && (z / n) * n == z;
    }
    QuotientWithin(w, n, 0.85, y - z, 0.85 * n);
  }

  /** Every computed term is within 2 units of the exact one, so the 25-term sum is within 48. */
  lemma {:induction false} TaylorAccuracy(r: int, n: nat)
    requires Abs(r) <= HALF_LN2 && n >= 1
    ensures Within(Term(r, n) as real, ExactTerm(r, n), 2.0)
    ensures Within(TaylorSum(r, n) as real, ExactSum(r, n), 2.0 * (n - 1) as real)
  {
    if n == 1 {
      FirstTerm(r);
      assert ExactTerm(r, 0) == PRECISION as real;
      assert ExactTerm(r, 1) == r as real;
      assert ExactSum(r, 1) == ExactSum(r, 0) + r as real;
    } else {
      TaylorAccuracy(r, n - 1);
      var t, exact := Term(r, n - 1), ExactTerm(r, n - 1);
      assert Term(r, n) == NextTerm(t, r, n) && ExactTerm(r, n) == NextExact(exact, r, n);
      NextTermError(t, exact, r, n);
      ErrorsSum(TaylorSum(r, n - 1) as real, ExactSum(r, n - 1), Term(r, n) as real, ExactTerm(r, n), (n - 1) as real);
    }
  }

  lemma {:induction false} ErrorsSum(a: real, b: real, t: real, exact: real, n: real)
    requires Within(a, b, 2.0 * (n - 1.0)) && Within(t, exact, 2.0)
    ensures Within(a + t, b + exact, 2.0 * n)
  {
  }

  // ----- exp_fixed -----

  /** The final shift by k. The right shift is arithmetic, a floor. */
  function Shifted(sum: int, k: int): Option<int> {
    if k >= 127 then None
    else if k >= 0 then Some(Wrap(sum * Pow2(k)))
    else if k <= -127 then Some(0)
    else Some(sum / Pow2(-k))
  }

  /** `exp_fixed`; None is its overflow panic. */
  function Exp(x: i128): Option<int> {
    if x <= UNDERFLOW then Some(0)
    else if x >= OVERFLOW then None
    else Shifted(TaylorSum(Residue(x), TERMS), Exponent(x))
  }

  method ExpFixed(x: i128) returns (r: Option<i128>)
    ensures r == Exp(x)
  {
    if x <= UNDERFLOW {
      return Some(0);
    }
    if x >= OVERFLOW {
      return None;
    }
    var k := TruncDiv(x, LN2);
    var rem := x - k * LN2;
    if rem > HALF_LN2 {
      k := k + 1;
    } else if rem < -HALF_LN2 {
      k := k - 1;
    }
    assert k == Exponent(x);
    RangeReduction(x);
    var sum := Taylor(x - k * LN2);
    var shifted := Shifted(sum, k);
    ExpBounds(x);
    return shifted;
  }

  /** On its whole domain the exponential exists, is non-negative and loses no bit in the final left
      shift; for x <= 0 it lies in [0, 1]. */
  lemma {:induction false} ExpBounds(x: i128)
    ensures Exp(x).Some? <==> x < 46_000_000_000_000_000_000
    ensures x <= -41_446_531_673_892_822_312 ==> Exp(x) == Some(0)
    ensures x < OVERFLOW ==> 0 <= Exp(x).value <= I128_MAX
    ensures UNDERFLOW < x < OVERFLOW && Exponent(x) >= 0 ==>
              Exp(x).value == TaylorSum(Residue(x), TERMS) * Pow2(Exponent(x))
    ensures x <= 0 ==> Exp(x).value <= PRECISION
  {
    if UNDERFLOW < x < OVERFLOW {
      RangeReduction(x);
      assert PRECISION - LN2 <= TaylorSum(Residue(x), TERMS) <= PRECISION + LN2 by {
        SumBracketed(Residue(x), TERMS);
      }
      assert Exponent(x) == 0 ==> TaylorSum(Residue(x), TERMS) <= PRECISION || x > 0 by {
        SumBracketed(Residue(x), TERMS);
      }
      ShiftBounds(TaylorSum(Residue(x), TERMS), Exponent(x));
    }
  }

  lemma {:induction false} ShiftBounds(sum: nat, k: int)
    requires sum <= PRECISION + LN2 && k <= 66
    ensures k >= 0 ==> 0 <= sum * Pow2(k) <= I128_MAX && Wrap(sum * Pow2(k)) == sum * Pow2(k)
    ensures k == 0 ==> sum * Pow2(k) == sum
    ensures k < 0 ==> 0 <= sum / Pow2(-k) <= PRECISION
  {
    if k >= 0 {
      LeftShiftFits(sum, k);
      if k == 0 {
        assert sum * 1 == sum;
      }
    } else {
      RightShiftShrinks(sum, -k);
    }
  }

  lemma {:induction false} LeftShiftFits(sum: nat, k: nat)
    requires sum <= PRECISION + LN2 && k <= 66
    ensures 0 <= sum * Pow2(k) <= I128_MAX
  {
    var n := 66;
    Pow2Monotone(k, n);
    Pow2Words(8);
    assert Pow2(n) == 2 * Pow2(n - 1) == 4 * Pow2(n - 2);
    MulMonotone(sum, Pow2(k), PRECISION + LN2, Pow2(n));
  }

  lemma {:induction false} RightShiftShrinks(sum: nat, k: nat)
    requires sum <= PRECISION + LN2 && k >= 1
    ensures 0 <= sum / Pow2(k) <= PRECISION
  {
    var p := Pow2(k);
    Pow2Monotone(1, k);
    assert Pow2(1) == 2;
    MulMonotone(PRECISION + 1, 2, PRECISION + 1, p);
    QuotientAbove(sum, p, PRECISION);
    QuotientBelow(sum, p, 0);
  }

  /** v against exact * 2^k: 48 units per doubling for k >= 0, 48 halved k times and one more for k < 0. */
  ghost predicate ScaledWithin(v: int, exact: real, k: int) {
    if k >= 0 then Within(v as real, exact * Pow2(k) as real, 48.0 * Pow2(k) as real)
    else Within(v as real, exact / Pow2(-k) as real, 48.0 / Pow2(-k) as real + 1.0)
  }

  lemma {:induction false} ExpAccuracy(x: i128)
    requires -41_446_531_673_892_822_312 < x < 46_000_000_000_000_000_000
    ensures ScaledWithin(Exp(x).value, ExactSum(Residue(x), TERMS), Exponent(x))
  {
    RangeReduction(x);
    var k, r := Exponent(x), Residue(x);
    assert Within(TaylorSum(r, TERMS) as real, ExactSum(r, TERMS), 48.0) by {
      TaylorAccuracy(r, TERMS);
    }
    var v := Exp(x).value;
    assert v == if k >= 0 then TaylorSum(r, TERMS) * Pow2(k) else TaylorSum(r, TERMS) / Pow2(-k) by {
      ExpBounds(x);
    }
    assert TaylorSum(r, TERMS) >= 0 by {
      SumBracketed(r, TERMS);
    }
    ShiftError(TaylorSum(r, TERMS), ExactSum(r, TERMS), k, v);
  }

  lemma {:induction false} ShiftError(sum: nat, exact: real, k: int, v: int)
    requires Within(sum as real, exact, 48.0)
    requires v == if k >= 0 then sum * Pow2(k) else sum / Pow2(-k)
    ensures ScaledWithin(v, exact, k)
  {
    if k >= 0 {
      ScaleError(sum, exact, Pow2(k));
    } else {
      ShrinkError(sum, exact, Pow2(-k));
    }
  }

  lemma {:induction false} ScaleError(sum: int, exact: real, p: nat)
    requires p > 0 && Within(sum as real, exact, 48.0)
    ensures Within((sum * p) as real, exact * p as real, 48.0 * p as real)
  {
    var e, q := sum as real - exact, p as real;
    assert (sum * p) as real == sum as real * q;
    assert sum as real * q - exact * q == e * q;
    NonNegative(48.0 - e, q);
    NonNegative(48.0 + e, q);
  }

  lemma {:induction false} ShrinkError(sum: nat, exact: real, p: nat)
    requires p > 0 && Within(sum as real, exact, 48.0)
    ensures Within((sum / p) as real, exact / p as real, 48.0 / p as real + 1.0)
  {
    TruncationError(sum, p);
    RatiosWithin(sum as real, exact, p as real, 48.0);
    ErrorsAdd((sum / p) as real, sum as real / p as real, exact / p as real, 1.0, 48.0 / p as real);
  }

  lemma {:induction false} RatiosWithin(a: real, b: real, q: real, e: real)
    requires q > 0.0 && Within(a, b, e)
    ensures Within(a / q, b / q, e / q)
  {
    var w := a / q - b / q;
    assert w * q == a - b by {
      assert (a / q) * q == a && (b / q) * q == b;
    }
    assert (e / q) * q == e;
    QuotientWithin(w, q, e / q, a - b, e);
  }

  lemma {:induction false} ExpOfZero(x: i128)
    requires x == 0
    ensures Exp(x) == Some(PRECISION)
  {
    RangeReduction(x);
    assert Exponent(x) == 0 && Residue(x) == x;
    FirstTerm(x);
    ZeroTermsStayZero(x, 1, TERMS);
    ShiftBounds(PRECISION, 0);
    assert Pow2(0) == 1;
  }

  // ----- the exact sum of a real argument -----

  ghost function NextReal(t: real, u: real, n: nat): real
    requires n > 0
  {
    t * u / n as real
  }

  /** r^n / n!. */
  ghost function ExpTerm(r: real, n: nat): real {
    if n == 0 then 1.0 else NextReal(ExpTerm(r, n - 1), r, n)
  }

  /** 1 + r + r^2 / 2! + ... + r^n / n!. */
  ghost function ExpSum(r: real, n: nat): real {
    if n == 0 then 1.0 else ExpSum(r, n - 1) + ExpTerm(r, n)
  }

  lemma {:induction false} ExactIsScaled(r: int, n: nat)
    ensures ExactTerm(r, n) == UNIT * ExpTerm(r as real / UNIT, n)
    ensures ExactSum(r, n) == UNIT * ExpSum(r as real / UNIT, n)
  {
    if n > 0 {
      ExactIsScaled(r, n - 1);
      ScaledStep(ExpTerm(r as real / UNIT, n - 1), r, n, ExactTerm(r, n - 1));
    }
  }

  lemma {:induction false} ScaledStep(t: real, r: int, n: nat, scaled: real)
    requires n > 0 && scaled == UNIT * t
    ensures NextExact(scaled, r, n) == UNIT * NextReal(t, r as real / UNIT, n)
  {
    var u := r as real / UNIT;
    assert scaled * u == UNIT * (t * u);
    RatioOfProduct(UNIT, t * u, n as real);
  }

  /** Dividing by at least m divides the bound by m. */
  lemma {:induction false} DividedWithin(a: real, n: real, bound: real, m: real)
    requires -bound <= a <= bound && n >= m > 0.0 && bound >= 0.0
    ensures -(bound / m) <= a / n <= bound / m
  {
    var q, b := a / n, bound / m;
    assert q * n == a && b * m == bound;
    NonNegative(b, n - m);
    QuotientWithin(q, n, b, a, b * n);
  }

  lemma {:induction false} SmallStep(t: real, r: real, n: nat, h: real)
    requires n > 0 && -0.36 <= r <= 0.36 && -h <= t <= h
    ensures -(h / 2.0) <= NextReal(t, r, n) <= h / 2.0
  {
    ProductWithin(t, r, h, 0.36);
    DividedWithin(t * r, n as real, 0.36 * h, 1.0);
  }

  /** d over 2^n. */
  ghost function Shrunk(d: real, n: nat): real {
    if n == 0 then d else Shrunk(d, n - 1) / 2.0
  }

  lemma {:induction false} TermSmall(r: real, n: nat)
    requires -0.36 <= r <= 0.36
    ensures -Shrunk(1.0, n) <= ExpTerm(r, n) <= Shrunk(1.0, n)
  {
    if n > 0 {
      TermSmall(r, n - 1);
      SmallStep(ExpTerm(r, n - 1), r, n, Shrunk(1.0, n - 1));
    }
  }

  lemma {:induction false} ShrunkScales(d: real, n: nat)
    ensures Shrunk(d, n) == d * Shrunk(1.0, n)
  {
    if n > 0 {
      ShrunkScales(d, n - 1);
    }
  }

  /** Close arguments have close terms, the closer the later the term. */
  lemma {:induction false} TermsClose(r: real, s: real, d: real, n: nat)
    requires -0.36 <= r <= 0.36 && -0.36 <= s <= 0.36 && Within(r, s, d) && n > 0
    ensures Within(ExpTerm(r, n), ExpTerm(s, n), Shrunk(2.0 * d, n))
  {
    if n == 1 {
      FirstTerms(r, s);
      assert Shrunk(2.0 * d, 0) == 2.0 * d;
    } else {
      TermsClose(r, s, d, n - 1);
      TermSmall(s, n - 1);
      ShrunkScales(2.0 * d, n - 1);
      var h := Shrunk(1.0, n - 1);
      assert Shrunk(2.0 * d, n - 1) == 2.0 * (d * h);
      TermsCloseStep(ExpTerm(r, n - 1), ExpTerm(s, n - 1), r, s, d, n, h);
    }
  }

  lemma {:induction false} FirstTerms(r: real, s: real)
    ensures ExpTerm(r, 1) == r && ExpTerm(s, 1) == s
  {
    assert ExpTerm(r, 0) == 1.0 && ExpTerm(s, 0) == 1.0;
    assert NextReal(1.0, r, 1) == r && NextReal(1.0, s, 1) == s;
  }

  lemma {:induction false} TermsCloseStep(t: real, u: real, r: real, s: real, d: real, n: nat, h: real)
    requires -0.36 <= r <= 0.36 && Within(r, s, d) && n >= 2
    requires Within(t, u, 2.0 * (d * h)) && -h <= u <= h
    ensures Within(NextReal(t, r, n), NextReal(u, s, n), d * h)
  {
    var e, g := t * r - u * s, d * h;
    assert e == (t - u) * r + u * (r - s);
    ProductWithin(t - u, r, 2.0 * g, 0.36);
    ProductWithin(u, r - s, h, d);
    NonNegative(d, h);
    DividedWithin(e, n as real, 2.0 * g, 2.0);
    assert t * r / n as real - u * s / n as real == e / n as real;
  }

  /** Arguments at most d apart have sums at most 2 d apart. */
  lemma {:induction false} SumsClose(r: real, s: real, d: real, n: nat)
    requires -0.36 <= r <= 0.36 && -0.36 <= s <= 0.36 && Within(r, s, d)
    ensures Within(ExpSum(r, n), ExpSum(s, n), 2.0 * d - Shrunk(2.0 * d, n))
    ensures Shrunk(2.0 * d, n) >= 0.0
  {
    if n > 0 {
      SumsClose(r, s, d, n - 1);
      TermsClose(r, s, d, n);
    }
  }
}
