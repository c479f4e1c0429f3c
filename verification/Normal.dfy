/** The normal CDF: the rational approximation 26.2.17 of Abramowitz and Stegun on the Taylor exponential
    (stellax-math/src/advanced.rs, `normal_cdf`). */
module Normal {
  import opened Int128
  import opened FixedPoint
  import opened Reals
  import opened Exponential

  const A1: int := 319_381_530_000_000_000
  const A2: int := -356_563_782_000_000_000
  const A3: int := 1_781_477_937_000_000_000
  const A4: int := -1_821_255_978_000_000_000
  const A5: int := 1_330_274_429_000_000_000
  const P_COEF: int := 231_641_900_000_000_000
  const INV_SQRT_2PI: int := 398_942_280_401_432_677

  /** The density: exp(-x^2 / 2) / sqrt(2 pi). None is a panic of one of its steps. */
  function Density(absX: i128): Option<i128> {
    var x2 :- MulPrecision(absX, absX);
    var e :- Exp(TruncDiv(-x2, 2));
    var small :- Checked(e);
    MulPrecision(INV_SQRT_2PI, small)
  }

  /** 1 / (1 + 0.2316419 |x|). */
  function Weight(absX: i128): Option<i128> {
    var scaled :- MulPrecision(P_COEF, absX);
    var den :- Checked(PRECISION + scaled);
    MulDiv(PRECISION, PRECISION, den)
  }

  /** One Horner step: a + poly * k. */
  function Horner(a: i128, poly: i128, k: i128): Option<i128> {
    var product :- MulPrecision(poly, k);
    Checked(a + product)
  }

  /** The coefficients in the order the steps use them. */
  function Coefficient(n: nat): i128 {
    if n == 0 then A5 else if n == 1 then A4 else if n == 2 then A3 else if n == 3 then A2 else A1
  }

  /** The variable poly of the source after n of its steps. */
  function HornerSum(k: i128, n: nat): Option<i128>
    decreases n, k
  {
    if n == 0 then Some(A5)
    else
      var poly :- HornerSum(k, n - 1);
      Horner(Coefficient(n), poly, k)
  }

  function Polynomial(k: i128): Option<i128> {
    var p0 :- HornerSum(k, 4);
    MulPrecision(p0, k)
  }

  /** The formula for an absolute value: one less the density times the polynomial. */
  function Upper(absX: i128): Option<i128> {
    var phi :- Density(absX);
    var k :- Weight(absX);
    var poly :- Polynomial(k);
    var tail :- MulPrecision(phi, poly);
    Checked(PRECISION - tail)
  }

  /** `normal_cdf`. `x.abs()` has no value for i128::MIN. */
  function Cdf(x: i128): Option<i128> {
    if x == I128_MIN then None
    else if Abs(x) > 8 * PRECISION then Some(if x > 0 then PRECISION else 0)
    else
      var upper :- Upper(Abs(x));
      Some(if x >= 0 then upper else PRECISION - upper)
  }

  /** A probability for every input whose absolute value exists. The two tails add up to one exactly when x is not
      zero: at zero both are the same tail, which the formula puts above one half. */
  lemma {:induction false} CdfIsProbability(x: i128)
    ensures Cdf(x).Some? <==> x != I128_MIN
    ensures x != I128_MIN ==> 0 <= Cdf(x).value <= PRECISION
    ensures x != I128_MIN ==> (Cdf(x).value + Cdf(-x).value == PRECISION <==> x != 0)
  {
    if x == 0 {
      CdfAtZero(x);
    } else if x != I128_MIN && Abs(x) <= 8 * PRECISION {
      UpperBounds(Abs(x));
    }
  }

  lemma {:induction false} UpperBounds(absX: i128)
    requires 0 <= absX <= 8 * PRECISION
    ensures Upper(absX).Some? && 0 <= Upper(absX).value <= PRECISION
  {
    DensityBounds(absX);
    WeightBounds(absX);
    var phi, k := Density(absX).value, Weight(absX).value;
    PolynomialBounds(k);
    var poly := Polynomial(k).value;
    MulMonotone(phi, poly, INV_SQRT_2PI, 2 * PRECISION);
    MulMonotone(0, 0, phi, poly);
    DivBounds(phi * poly, PRECISION);
  }

  /** The value at zero is 524,808,672 units above one half, so twice it is above one. */
  lemma {:induction false} CdfAtZero(x: i128)
    requires x == 0
    ensures Cdf(x) == Some(500_000_000_524_808_672)
  {
    assert TruncDiv(0, 2) == 0 && MulPrecision(x, x) == Some(0);
    ExpOfZero(x);
    assert Density(x) == Some(INV_SQRT_2PI) by { TimesOne(INV_SQRT_2PI); }
    assert Weight(x) == Some(PRECISION) by { WeightAtZero(x); }
    PolynomialAtOne(PRECISION);
    LiteralTail(INV_SQRT_2PI, 1_253_314_136_000_000_000);
  }

  lemma {:induction false} WeightAtZero(x: i128)
    requires x == 0
    ensures Weight(x) == Some(PRECISION)
  {
    TruncDivUnique(P_COEF * x, PRECISION, 0);
    TimesOne(PRECISION);
  }

  lemma {:induction false} LiteralTail(phi: i128, poly: i128)
    requires phi == INV_SQRT_2PI && poly == 1_253_314_136_000_000_000
    ensures MulPrecision(phi, poly) == Some(499_999_999_475_191_328)
  {
    DivUnique(phi * poly, PRECISION, 499_999_999_475_191_328);
  }

  lemma {:induction false} PolynomialAtOne(one: i128)
    requires one == PRECISION
    ensures Polynomial(one) == Some(1_253_314_136_000_000_000)
  {
    SumAtOne(one, A5, 1);
    SumAtOne(one, A4 + A5, 2);
    SumAtOne(one, A3 + A4 + A5, 3);
    SumAtOne(one, A2 + A3 + A4 + A5, 4);
    TimesOne(A1 + A2 + A3 + A4 + A5);
  }

  lemma {:induction false} SumAtOne(one: i128, before: i128, n: nat)
    requires one == PRECISION && 0 < n && HornerSum(one, n - 1) == Some(before)
    ensures HornerSum(one, n) == Checked(Coefficient(n) + before)
  {
    TimesOne(before);
  }

  lemma {:induction false} TimesOne(a: i128)
    ensures MulPrecision(a, PRECISION) == Some(a)
  {
    TruncDivUnique(a * PRECISION, PRECISION, a);
  }

  lemma {:induction false} DensityBounds(absX: i128)
    requires 0 <= absX <= 8 * PRECISION
    ensures Density(absX).Some? && 0 <= Density(absX).value <= INV_SQRT_2PI
  {
    MulPrecisionBounds(absX, absX, 8 * PRECISION, 8 * PRECISION);
    var half := TruncDiv(-(absX * absX / PRECISION), 2);
    TruncDivRemainder(-(absX * absX / PRECISION), 2);
    ExpBounds(half);
    MulPrecisionBounds(INV_SQRT_2PI, Exp(half).value, INV_SQRT_2PI, PRECISION);
  }

  lemma {:induction false} WeightBounds(absX: i128)
    requires 0 <= absX <= 8 * PRECISION
    ensures Weight(absX).Some? && 35 * PRECISION <= 100 * Weight(absX).value <= 100 * PRECISION
  {
    DivBounds(P_COEF * absX, PRECISION);
    var den := PRECISION + P_COEF * absX / PRECISION;
    MulMonotone(PRECISION, PRECISION, PRECISION, den);
    QuotientAbove(PRECISION * PRECISION, den, PRECISION);
    MulMonotone(35 * PRECISION / 100, den, 35 * PRECISION / 100, 2_853_135_200_000_000_000);
    QuotientBelow(PRECISION * PRECISION, den, 35 * PRECISION / 100);
  }

  /** Multiplying by a weight in [0.35, 1] keeps the sign and between 35% and 100% of the magnitude. */
  lemma {:induction false} WeightedBounds(a: i128, k: i128)
    requires 35 * PRECISION <= 100 * k <= 100 * PRECISION
    ensures MulPrecision(a, k).Some?
    ensures a >= 0 ==> 35 * a - 100 <= 100 * MulPrecision(a, k).value <= 100 * a && MulPrecision(a, k).value >= 0
    ensures a <= 0 ==> 100 * a <= 100 * MulPrecision(a, k).value <= 35 * a + 100 && MulPrecision(a, k).value <= 0
  {
    MagnitudeOfProduct(a, k);
    TruncDivRemainder(a * k, PRECISION);
    WeightedMagnitude(Abs(a), k);
  }

  lemma {:induction false} WeightedMagnitude(n: nat, k: nat)
    requires 35 * PRECISION <= 100 * k <= 100 * PRECISION
    ensures 35 * n - 100 <= 100 * (n * k / PRECISION) <= 100 * n
    ensures n * k / PRECISION >= 0
  {
    var m := n * k;
    MulMonotone(n, k, n, PRECISION);
    MulMonotone(n, 35 * PRECISION / 100, n, k);
    DivBounds(m, PRECISION);
  }

  /** Between which values the variable poly stays after each step. */
  predicate HornerWithin(n: nat, poly: int) {
    var percent := PRECISION / 100;
    if n == 0 then poly == A5
    else if n == 1 then -136 * percent <= poly <= -49 * percent
    else if n == 2 then 42 * percent <= poly <= 162 * percent
    else if n == 3 then -22 * percent <= poly <= 127 * percent
    else 9 * percent <= poly <= 160 * percent
  }

  lemma {:induction false} HornerBounds(k: i128, n: nat)
    requires 35 * PRECISION <= 100 * k <= 100 * PRECISION && n <= 4
    ensures HornerSum(k, n).Some? && HornerWithin(n, HornerSum(k, n).value)
    decreases n
  {
    if n > 0 {
      HornerBounds(k, n - 1);
      WeightedBounds(HornerSum(k, n - 1).value, k);
    }
  }

  lemma {:induction false} PolynomialBounds(k: i128)
    requires 35 * PRECISION <= 100 * k <= 100 * PRECISION
    ensures Polynomial(k).Some? && 0 <= Polynomial(k).value <= 2 * PRECISION
  {
    HornerBounds(k, 4);
    WeightedBounds(HornerSum(k, 4).value, k);
  }

  // ----- accuracy against the formula on reals -----

  /** 0.31938153 t - 0.356563782 t^2 + 1.781477937 t^3 - 1.821255978 t^4 + 1.330274429 t^5. */
  ghost function Quintic(t: real): real {
    0.319381530 * Power(t, 1) - 0.356563782 * Power(t, 2) + 1.781477937 * Power(t, 3) - 1.821255978 * Power(t, 4)
      + 1.330274429 * Power(t, 5)
  }

  /** exp(-u^2 / 2) as 2^-k times the 25-term sum at -u^2 / 2 + k ln 2. */
  ghost function Gauss(u: real, k: nat): real {
    ExpSum(Reduced(u, k), 25) / Pow2(k) as real
  }

  ghost function Reduced(u: real, k: nat): real { k as real * 0.693147180559945309 - u * u / 2.0 }

  /** The upper tail at |x|: density times the quintic in 1 / (1 + 0.2316419 |x|). */
  ghost function Tail(absX: nat, k: nat): real {
    var u := absX as real / UNIT;
    0.398942280401432677 * Gauss(u, k) * Quintic(1.0 / (1.0 + 0.2316419 * u))
  }

  /** The formula at x. */
  ghost function Formula(x: int, k: nat): real {
    UNIT * if x >= 0 then 1.0 - Tail(Abs(x), k) else Tail(Abs(x), k)
  }

  /** v is within 50 units of the formula at x, with k halvings that bring its exponent next to zero. */
  ghost predicate NearCdf(v: int, x: int, k: nat) {
    -0.35 <= Reduced(Abs(x) as real / UNIT, k) <= 0.35 && Within(v as real, Formula(x, k), 50.0)
  }

  lemma {:induction false} ProductError(
    a: real, x: real, b: real, y: real, ea: real, sizeB: real, sizeX: real, eb: real)
    requires Within(a, x, ea) && Within(b, y, eb) && -sizeB <= b <= sizeB && -sizeX <= x <= sizeX
    ensures Within(a * b, x * y, ea * sizeB + sizeX * eb)
  {
    var d, g := a - x, b - y;
    ProductWithin(d, b, ea, sizeB);
    ProductWithin(x, g, sizeX, eb);
    assert a * b - x * y == d * b + x * g;
  }

  /** A truncated product of two approximations: the error of each factor times the size of the other, and one. */
  lemma {:induction false} TruncatedProduct(
    a: int, x: real, b: int, y: real, ea: real, sizeB: real, sizeX: real, eb: real, e: real, exact: real)
    requires Within(a as real, x, ea) && Within(b as real, y, eb)
    requires -sizeB <= b as real <= sizeB && -sizeX <= x <= sizeX
    requires ea * sizeB + sizeX * eb <= (e - 1.0) * UNIT && exact * UNIT == x * y
    ensures Within(TruncDiv(a * b, PRECISION) as real, exact, e)
  {
    ProductError(a as real, x, b as real, y, ea, sizeB, sizeX, eb);
    assert (a * b) as real == a as real * b as real;
    QuotientError(a * b, x * y, e, exact);
  }

  lemma {:induction false} QuotientError(n: int, product: real, e: real, exact: real)
    requires Within(n as real, product, (e - 1.0) * UNIT) && exact * UNIT == product
    ensures Within(TruncDiv(n, PRECISION) as real, exact, e)
  {
    TruncationError(n, PRECISION);
  }

  // ----- the density -----

  lemma {:induction false} SquareClose(absX: nat, square: nat, u: real, half: real)
    requires square == absX * absX && u == absX as real / UNIT && half == u * u / 2.0
    ensures Within(TruncDiv(square, PRECISION) as real, 2.0 * UNIT * half, 1.0)
  {
    var w, exact := absX as real, 2.0 * UNIT * half;
    assert square as real == w * w;
    assert w == u * UNIT;
    assert exact * UNIT == w * w;
    QuotientError(square, w * w, 1.0, exact);
  }

  /** Truncating the half costs at most another half. */
  lemma {:induction false} HalfClose(x2: int, half: real)
    requires x2 >= 0 && Within(x2 as real, 2.0 * UNIT * half, 1.0)
    ensures Within(TruncDiv(-x2, 2) as real, -(UNIT * half), 1.0)
  {
    TruncDivRemainder(-x2, 2);
  }

  lemma {:induction false} ReducedClose(h: int, k: nat, u: real, half: real)
    requires half == u * u / 2.0 && Within(h as real, -(UNIT * half), 1.0) && Abs(h + k * LN2) <= HALF_LN2
    ensures Within((h + k * LN2) as real / UNIT, Reduced(u, k), 1.0 / UNIT)
    ensures -0.35 <= Reduced(u, k) <= 0.35
    ensures -0.35 <= (h + k * LN2) as real / UNIT <= 0.35
  {
    assert Reduced(u, k) == k as real * 0.693147180559945309 - half;
    assert (h + k * LN2) as real / UNIT == h as real / UNIT + k as real * 0.693147180559945309;
  }

  /** 48 units, or half of them and one, from the exact sum at the truncated argument, and two from there. */
  lemma {:induction false} GaussClose(e: int, r: int, k: nat, u: real)
    requires Within(r as real / UNIT, Reduced(u, k), 1.0 / UNIT)
    requires -0.35 <= Reduced(u, k) <= 0.35 && -0.35 <= r as real / UNIT <= 0.35
    requires ScaledWithin(e, ExactSum(r, TERMS), Neg(k))
    ensures Within(e as real, UNIT * Gauss(u, k), 50.0)
  {
    var p := Pow2(k) as real;
    var sum, exact := ExactSum(r, TERMS), ExpSum(Reduced(u, k), 25);
    ExactIsScaled(r, TERMS);
    SumsClose(r as real / UNIT, Reduced(u, k), 1.0 / UNIT, TERMS);
    assert Within(sum, UNIT * exact, 2.0);
    SumOverPower(e, sum, UNIT * exact, k);
    RatioOfProduct(UNIT, exact, p);
  }

  lemma {:induction false} SumOverPower(e: int, sum: real, exact: real, k: nat)
    requires Within(sum, exact, 2.0) && ScaledWithin(e, sum, Neg(k))
    ensures Within(e as real, exact / Pow2(k) as real, 50.0)
  {
    var p := Pow2(k) as real;
    if k == 0 {
      assert p == 1.0;
    } else {
      Pow2Monotone(1, k);
      assert Pow2(1) == 2 * Pow2(0);
      DividedWithin(48.0, p, 48.0, 2.0);
      DividedWithin(sum - exact, p, 2.0, 2.0);
      assert sum / p - exact / p == (sum - exact) / p;
    }
  }

  /** The exponential at the argument the code computes. */
  lemma {:induction false} ExponentialAccuracy(h: i128, u: real, half: real) returns (k: nat)
    requires half == u * u / 2.0 && Within(h as real, -(UNIT * half), 1.0) && -33 * PRECISION <= h <= 0
    ensures -0.35 <= Reduced(u, k) <= 0.35
    ensures Within(Exp(h).value as real, UNIT * Gauss(u, k), 50.0)
  {
    RangeReduction(h);
    k := -Exponent(h);
    ReducedClose(h, k, u, half);
    ExpAccuracy(h);
    GaussClose(Exp(h).value, Residue(h), k, u);
  }

  lemma {:induction false} DensityAccuracy(absX: i128, u: real) returns (k: nat)
    requires 0 <= absX <= 8 * PRECISION && u == absX as real / UNIT
    ensures -0.35 <= Reduced(u, k) <= 0.35
    ensures Density(absX).Some?
    ensures Within(Density(absX).value as real, UNIT * (0.398942280401432677 * Gauss(u, k)), 21.0)
  {
    var half := u * u / 2.0;
    var x2 := SquareTerm(absX, u, half);
    var h := HalfTerm(x2, half);
    k := ExponentialAccuracy(h, u, half);
    DensityFactor(Exp(h).value, Gauss(u, k));
    DensityIs(absX, x2, h);
  }

  lemma {:induction false} DensityIs(absX: i128, x2: i128, h: i128)
    requires MulPrecision(absX, absX) == Some(x2) && h == TruncDiv(-x2, 2) && Exp(h).Some? && InI128(Exp(h).value)
    ensures Density(absX) == MulPrecision(INV_SQRT_2PI, Exp(h).value)
  {
  }

  lemma {:induction false} SquareTerm(absX: i128, u: real, half: real) returns (x2: i128)
    requires 0 <= absX <= 8 * PRECISION && u == absX as real / UNIT && half == u * u / 2.0
    ensures MulPrecision(absX, absX) == Some(x2) && 0 <= x2 <= 64 * PRECISION
    ensures Within(x2 as real, 2.0 * UNIT * half, 1.0)
  {
    MulPrecisionBounds(absX, absX, 8 * PRECISION, 8 * PRECISION);
    x2 := MulPrecision(absX, absX).value;
    SquareClose(absX, absX * absX, u, half);
  }

  lemma {:induction false} HalfTerm(x2: i128, half: real) returns (h: i128)
    requires 0 <= x2 <= 64 * PRECISION && Within(x2 as real, 2.0 * UNIT * half, 1.0)
    ensures h == TruncDiv(-x2, 2) && -33 * PRECISION <= h <= 0 && Within(h as real, -(UNIT * half), 1.0)
    ensures Exp(h).Some? && 0 <= Exp(h).value <= PRECISION
  {
    HalfClose(x2, half);
    TruncDivRemainder(-x2, 2);
    h := TruncDiv(-x2, 2);
    ExpBounds(h);
  }

  lemma {:induction false} DensityFactor(e: i128, exact: real)
    requires Within(e as real, UNIT * exact, 50.0) && 0 <= e <= PRECISION
    ensures MulPrecision(INV_SQRT_2PI, e).Some?
    ensures Within(MulPrecision(INV_SQRT_2PI, e).value as real, UNIT * (0.398942280401432677 * exact), 21.0)
  {
    var c := INV_SQRT_2PI as real;
    MulPrecisionBounds(INV_SQRT_2PI, e, INV_SQRT_2PI, PRECISION);
    TruncatedProduct(
      INV_SQRT_2PI, c, e, UNIT * exact, 0.0, UNIT, 0.4 * UNIT, 50.0, 21.0, UNIT * (0.398942280401432677 * exact));
  }

  // ----- the weight -----

  lemma {:induction false} WeightAccuracy(absX: i128, u: real)
    requires 0 <= absX <= 8 * PRECISION && u == absX as real / UNIT
    ensures Weight(absX).Some?
    ensures Within(Weight(absX).value as real, UNIT * (1.0 / (1.0 + 0.2316419 * u)), 1.0)
  {
    WeightBounds(absX);
    var scaled := P_COEF * absX / PRECISION;
    MulMonotone(0, 0, P_COEF, absX);
    QuotientError(P_COEF * absX, P_COEF as real * absX as real, 1.0, UNIT * (0.2316419 * u));
    DivBounds(P_COEF * absX, PRECISION);
    Reciprocal(PRECISION + scaled, 1.0 + 0.2316419 * u);
  }

  /** A denominator at most one unit short puts the quotient at most one unit off. */
  lemma {:induction false} Reciprocal(den: int, exact: real)
    requires den >= PRECISION && exact >= 1.0 && 0.0 <= UNIT * exact - den as real <= 1.0
    ensures Within(TruncDiv(PRECISION * PRECISION, den) as real, UNIT * (1.0 / exact), 1.0)
  {
    var q, v := TruncDiv(PRECISION * PRECISION, den), UNIT / exact;
    TruncDivRemainder(PRECISION * PRECISION, den);
    DivBounds(PRECISION * PRECISION, den);
    assert (q * den) as real == q as real * den as real;
    assert v * exact == UNIT;
    assert v == UNIT * (1.0 / exact) by { RatioOfProduct(UNIT, 1.0, exact); }
    RealQuotient(q as real, v, den as real, UNIT * exact);
  }

  lemma {:induction false} RealQuotient(q: real, v: real, den: real, exact: real)
    requires den >= UNIT && 0.0 <= exact - den <= 1.0 && v * exact == UNIT * UNIT
    requires q * den <= UNIT * UNIT < (q + 1.0) * den
    ensures Within(q, v, 1.0)
  {
    AtMostUnit(v, exact);
    var gap := exact - den;
    ProductBetween(v, gap, UNIT, 1.0);
    var a, b := q * den, v * den;
    assert v * exact == b + v * gap;
    assert (q + 1.0) * den == a + den;
    assert (q - v) * den == a - b;
    QuotientWithin(q - v, den, 1.0, a - b, den);
  }

  lemma {:induction false} AtMostUnit(v: real, exact: real)
    requires exact >= UNIT && v * exact == UNIT * UNIT
    ensures 0.0 <= v <= UNIT
  {
    if v < 0.0 {
      Positive(-v, exact);
    } else if v > UNIT {
      Positive(v - UNIT, exact);
      NonNegative(UNIT, exact - UNIT);
    }
  }

  // ----- the quintic -----

  ghost function ExactCoefficient(n: nat): real {
    if n == 0 then 1.330274429
    else if n == 1 then -1.821255978
    else if n == 2 then 1.781477937
    else if n == 3 then -0.356563782
    else 0.319381530
  }

  ghost function ExactHorner(t: real, n: nat): real {
    if n == 0 then ExactCoefficient(0) else ExactCoefficient(n) + ExactHorner(t, n - 1) * t
  }

  lemma {:induction false} NestedIsQuintic(t: real)
    ensures ExactHorner(t, 4) * t == Quintic(t)
  {
    var t2 := t * t;
    var t3 := t2 * t;
    var t4 := t3 * t;
    var t5 := t4 * t;
    FivePowers(t);
    assert ExactHorner(t, 0) == 1.330274429;
    assert ExactHorner(t, 1) == -1.821255978 + 1.330274429 * t;
    assert ExactHorner(t, 2) == 1.781477937 + (-1.821255978 * t + 1.330274429 * t2);
    assert ExactHorner(t, 3) == -0.356563782 + (1.781477937 * t - 1.821255978 * t2 + 1.330274429 * t3);
    assert ExactHorner(t, 4)
        == 0.319381530 + (-0.356563782 * t + 1.781477937 * t2 - 1.821255978 * t3 + 1.330274429 * t4);
  }

  lemma {:induction false} FivePowers(t: real)
    ensures Power(t, 1) == t && Power(t, 2) == t * t && Power(t, 3) == t * t * t
    ensures Power(t, 4) == t * t * t * t && Power(t, 5) == t * t * t * t * t
  {
    assert Power(t, 0) == 1.0;
    assert Power(t, 1) == t;
    assert Power(t, 2) == t * t;
    assert Power(t, 3) == t * (t * t);
    assert Power(t, 4) == t * (t * (t * t));
    assert Power(t, 5) == t * (t * (t * (t * t)));
  }

  /** Every step of Horner's rule adds at most three units. */
  lemma {:induction false} HornerAccuracy(k: i128, t: real, n: nat)
    requires 35 * PRECISION <= 100 * k <= 100 * PRECISION && 0.0 <= t <= 1.0 && n <= 4
    requires Within(k as real, UNIT * t, 1.0)
    ensures HornerSum(k, n).Some?
    ensures Within(HornerSum(k, n).value as real, UNIT * ExactHorner(t, n), 3.0 * n as real)
    decreases n
  {
    if n > 0 {
      HornerAccuracy(k, t, n - 1);
      var poly, product, next := HornerUnfolds(k, n);
      var exact, nextExact := ExactUnfolds(t, n);
      HornerStep(n, poly, k, t, exact, 3.0 * (n - 1) as real, product, next, nextExact);
    }
  }

  lemma {:induction false} HornerUnfolds(k: i128, n: nat) returns (poly: i128, product: i128, next: i128)
    requires 35 * PRECISION <= 100 * k <= 100 * PRECISION && 0 < n <= 4
    ensures HornerSum(k, n - 1) == Some(poly) && MulPrecision(poly, k) == Some(product) && Abs(poly) <= 2 * PRECISION
    ensures HornerSum(k, n) == Some(next) && next == Coefficient(n) + product
  {
    HornerBounds(k, n - 1);
    HornerBounds(k, n);
    poly := HornerSum(k, n - 1).value;
    product := MulPrecision(poly, k).value;
    next := HornerSum(k, n).value;
  }

  lemma {:induction false} ExactUnfolds(t: real, n: nat) returns (exact: real, next: real)
    requires n > 0
    ensures exact == ExactHorner(t, n - 1) && next == ExactHorner(t, n) && next == ExactCoefficient(n) + exact * t
  {
    exact, next := ExactHorner(t, n - 1), ExactHorner(t, n);
  }

  lemma {:induction false} HornerStep(
    n: nat, poly: i128, k: i128, t: real, exact: real, e: real, product: i128, next: int, nextExact: real)
    requires Within(k as real, UNIT * t, 1.0) && Within(poly as real, UNIT * exact, e)
    requires 0.0 <= t <= 1.0 && Abs(poly) <= 2 * PRECISION && e >= 0.0 && MulPrecision(poly, k) == Some(product)
    requires next == Coefficient(n) + product && nextExact == ExactCoefficient(n) + exact * t
    ensures Within(next as real, UNIT * nextExact, e + 3.0)
  {
    HornerFactor(poly, k, t, exact, e, product, exact * t);
    ScaledCoefficient(n);
    AddedCoefficient(Coefficient(n), product, ExactCoefficient(n), exact * t, e + 3.0);
  }

  lemma {:induction false} ScaledCoefficient(n: nat)
    ensures Coefficient(n) as real == UNIT * ExactCoefficient(n)
  {
  }

  lemma {:induction false} AddedCoefficient(a: int, product: int, c: real, exact: real, e: real)
    requires a as real == UNIT * c && Within(product as real, UNIT * exact, e)
    ensures Within((a + product) as real, UNIT * (c + exact), e)
  {
  }

  lemma {:induction false} HornerFactor(
    poly: i128, k: i128, t: real, exact: real, e: real, product: i128, exactProduct: real)
    requires Within(k as real, UNIT * t, 1.0) && Within(poly as real, UNIT * exact, e)
    requires 0.0 <= t <= 1.0 && Abs(poly) <= 2 * PRECISION && e >= 0.0
    requires MulPrecision(poly, k) == Some(product) && exactProduct == exact * t
    ensures Within(product as real, UNIT * exactProduct, e + 3.0)
  {
    assert poly * k == k * poly;
    TruncatedProduct(
      k, UNIT * t, poly, UNIT * exact, 1.0, 2.0 * UNIT, UNIT, e, e + 3.0, UNIT * exactProduct);
  }

  lemma {:induction false} PolynomialUnfolds(k: i128) returns (p0: i128, product: i128)
    requires 35 * PRECISION <= 100 * k <= 100 * PRECISION
    ensures HornerSum(k, 4) == Some(p0) && HornerWithin(4, p0) && MulPrecision(p0, k) == Some(product)
    ensures Polynomial(k) == Some(product)
  {
    PolynomialBounds(k);
    HornerBounds(k, 4);
    p0 := HornerSum(k, 4).value;
    product := MulPrecision(p0, k).value;
  }

  lemma {:induction false} PolynomialAccuracy(k: i128, t: real) returns (poly: i128)
    requires 35 * PRECISION <= 100 * k <= 100 * PRECISION && 0.0 <= t <= 1.0
    requires Within(k as real, UNIT * t, 1.0)
    ensures Polynomial(k) == Some(poly) && Within(poly as real, UNIT * Quintic(t), 15.0)
  {
    var p0;
    p0, poly := PolynomialUnfolds(k);
    HornerAccuracy(k, t, 4);
    NestedIsQuintic(t);
    HornerFactor(p0, k, t, ExactHorner(t, 4), 12.0, poly, Quintic(t));
  }

  // ----- the CDF -----

  lemma {:induction false} UpperClose(phi: i128, poly: i128, density: real, quintic: real, tail: real, upper: int)
    requires Within(phi as real, UNIT * density, 21.0) && 0 <= phi <= INV_SQRT_2PI
    requires Within(poly as real, UNIT * quintic, 15.0) && 0 <= poly <= 2 * PRECISION
    requires tail == density * quintic && upper == PRECISION - TruncDiv(phi * poly, PRECISION)
    ensures Within(upper as real, UNIT * (1.0 - tail), 50.0)
  {
    TailClose(phi, poly, density, quintic, tail);
  }

  lemma {:induction false} TailClose(phi: i128, poly: i128, density: real, quintic: real, tail: real)
    requires Within(phi as real, UNIT * density, 21.0) && 0 <= phi <= INV_SQRT_2PI
    requires Within(poly as real, UNIT * quintic, 15.0) && 0 <= poly <= 2 * PRECISION && tail == density * quintic
    ensures Within(TruncDiv(phi * poly, PRECISION) as real, UNIT * tail, 50.0)
  {
    TruncatedProduct(
      phi, UNIT * density, poly, UNIT * quintic, 21.0, 2.0 * UNIT, 0.41 * UNIT, 15.0, 50.0, UNIT * tail);
  }

  lemma {:induction false} UpperIs(absX: i128, phi: i128, k: i128, poly: i128) returns (upper: i128)
    requires 0 <= absX <= 8 * PRECISION
    requires Density(absX) == Some(phi) && Weight(absX) == Some(k) && Polynomial(k) == Some(poly)
    ensures Upper(absX) == Some(upper) && upper == PRECISION - TruncDiv(phi * poly, PRECISION)
  {
    UpperBounds(absX);
    upper := Upper(absX).value;
  }

  lemma {:induction false} WeightAt(absX: i128, u: real, t: real) returns (k: i128)
    requires 0 <= absX <= 8 * PRECISION && u == absX as real / UNIT && t * (1.0 + 0.2316419 * u) == 1.0
    ensures Weight(absX) == Some(k) && 35 * PRECISION <= 100 * k <= 100 * PRECISION
    ensures Within(k as real, UNIT * t, 1.0) && 0.0 <= t <= 1.0
  {
    WeightBounds(absX);
    WeightAccuracy(absX, u);
    UnitFraction(1.0 + 0.2316419 * u, t);
    k := Weight(absX).value;
  }

  lemma {:induction false} UnitFraction(d: real, t: real)
    requires d >= 1.0 && t * d == 1.0
    ensures 0.0 <= t <= 1.0 && t == 1.0 / d
  {
  }

  lemma {:induction false} TailParts(absX: i128, u: real, t: real)
    returns (k: nat, phi: i128, w: i128, poly: i128, density: real, quintic: real)
    requires 0 <= absX <= 8 * PRECISION && u == absX as real / UNIT && t * (1.0 + 0.2316419 * u) == 1.0
    ensures -0.35 <= Reduced(u, k) <= 0.35
    ensures Density(absX) == Some(phi) && Weight(absX) == Some(w) && Polynomial(w) == Some(poly)
    ensures Within(phi as real, UNIT * density, 21.0) && 0 <= phi <= INV_SQRT_2PI
    ensures Within(poly as real, UNIT * quintic, 15.0) && 0 <= poly <= 2 * PRECISION
    ensures density == 0.398942280401432677 * Gauss(u, k) && quintic == Quintic(t)
  {
    k := DensityAccuracy(absX, u);
    DensityBounds(absX);
    phi := Density(absX).value;
    w := WeightAt(absX, u, t);
    poly := PolynomialAccuracy(w, t);
    PolynomialBounds(w);
    density, quintic := 0.398942280401432677 * Gauss(u, k), Quintic(t);
  }

  lemma {:induction false} TailIs(absX: nat, k: nat, u: real, t: real, density: real, quintic: real)
    requires u == absX as real / UNIT && t == 1.0 / (1.0 + 0.2316419 * u)
    requires density == 0.398942280401432677 * Gauss(u, k) && quintic == Quintic(t)
    ensures Tail(absX, k) == density * quintic
  {
  }

  lemma {:induction false} TailAccuracy(absX: i128) returns (k: nat, upper: i128)
    requires 0 <= absX <= 8 * PRECISION
    ensures -0.35 <= Reduced(absX as real / UNIT, k) <= 0.35
    ensures Upper(absX) == Some(upper) && Within(upper as real, UNIT * (1.0 - Tail(absX, k)), 50.0)
  {
    var u := absX as real / UNIT;
    var t := 1.0 / (1.0 + 0.2316419 * u);
    var phi, w, poly, density, quintic;
    k, phi, w, poly, density, quintic := TailParts(absX, u, t);
    TailIs(absX, k, u, t, density, quintic);
    upper := UpperIs(absX, phi, w, poly);
    UpperClose(phi, poly, density, quintic, Tail(absX, k), upper);
  }

  /** Up to eight the CDF is within 50 units of the formula on reals; beyond, it is zero or one. */
  lemma {:induction false} CdfAccuracy(x: i128) returns (k: nat)
    requires x != I128_MIN
    ensures Cdf(x).Some?
    ensures Abs(x) <= 8_000_000_000_000_000_000 ==> NearCdf(Cdf(x).value, x, k)
    ensures x > 8_000_000_000_000_000_000 ==> Cdf(x) == Some(1_000_000_000_000_000_000)
    ensures x < -8_000_000_000_000_000_000 ==> Cdf(x) == Some(0)
  {
    k := 0;
    if Abs(x) <= 8 * PRECISION {
      var upper;
      k, upper := TailAccuracy(Abs(x));
      CdfIs(x, upper);
      ByTail(x, upper, Tail(Abs(x), k), Cdf(x).value, Formula(x, k));
    }
  }

  lemma {:induction false} CdfIs(x: i128, upper: i128)
    requires Abs(x) <= 8 * PRECISION && Upper(Abs(x)) == Some(upper)
    ensures Cdf(x) == Some(if x >= 0 then upper else PRECISION - upper)
  {
    UpperBounds(Abs(x));
  }

  /** Below zero the code subtracts from one. */
  lemma {:induction false} ByTail(x: int, upper: int, tail: real, v: int, exact: real)
    requires v == if x >= 0 then upper else PRECISION - upper
    requires Within(upper as real, UNIT * (1.0 - tail), 50.0) && exact == UNIT * if x >= 0 then 1.0 - tail else tail
    ensures Within(v as real, exact, 50.0)
  {
  }
}
