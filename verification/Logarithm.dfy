/** Range-reduced atanh-series logarithm (stellax-math/src/advanced.rs, `ln_fixed`). */
module Logarithm {
  import opened Int128
  import opened FixedPoint
  import opened Reals

  const LN2: int := 693_147_180_559_945_309
  const LAST: nat := 39

  // ----- range reduction to [1, 2) -----

  /** Halve until below two; the count of halvings. */
  function Halved(m: nat): (nat, nat)
    decreases m
  {
    if m >= 2 * PRECISION then
      var r := Halved(m / 2);
      (r.0, r.1 + 1)
    else (m, 0)
  }

  /** Double until at least one; the count of doublings. */
  function Doubled(m: nat): (nat, nat)
    requires m > 0
    decreases 2 * PRECISION - m
  {
    if m < PRECISION then
      var r := Doubled(2 * m);
      (r.0, r.1 + 1)
    else (m, 0)
  }

  function Mantissa(x: nat): nat
    requires x > 0
  {
    if x < PRECISION then Doubled(x).0 else Halved(x).0
  }

  function Exponent(x: nat): int
    requires x > 0
  {
    if x < PRECISION then Neg(Doubled(x).1) else Halved(x).1
  }

  lemma {:induction false} HalvedRange(m: nat)
    requires m >= PRECISION
    ensures PRECISION <= Halved(m).0 < 2 * PRECISION
  {
    if m >= 2 * PRECISION {
      HalvedRange(m / 2);
    }
  }

  lemma {:induction false} DoubledRange(m: nat)
    requires 0 < m < 2 * PRECISION
    ensures PRECISION <= Doubled(m).0 < 2 * PRECISION
    decreases 2 * PRECISION - m
  {
    if m < PRECISION {
      DoubledRange(2 * m);
    }
  }

  /** Order by octave first, then inside the octave. */
  ghost predicate Ordered(m: nat, k: int, m': nat, k': int) {
    k < k' || (k == k' && m <= m')
  }

  lemma {:induction false} HalvedOrdered(x: nat, y: nat)
    requires x <= y
    ensures Ordered(Halved(x).0, Halved(x).1, Halved(y).0, Halved(y).1)
    decreases y
  {
    if x >= 2 * PRECISION {
      HalvedOrdered(x / 2, y / 2);
    }
  }

  lemma {:induction false} DoubledOrdered(x: nat, y: nat)
    requires 0 < x <= y
    ensures Ordered(Doubled(x).0, Neg(Doubled(x).1), Doubled(y).0, Neg(Doubled(y).1))
    decreases 2 * PRECISION - x
  {
    if y < PRECISION {
      DoubledOrdered(2 * x, 2 * y);
    }
  }

  lemma {:induction false} ReductionOrdered(x: nat, y: nat)
    requires 0 < x <= y
    ensures Ordered(Mantissa(x), Exponent(x), Mantissa(y), Exponent(y))
    ensures PRECISION <= Mantissa(x) < 2 * PRECISION
  {
    if x < PRECISION {
      DoubledRange(x);
    } else {
      HalvedRange(x);
    }
    if y < PRECISION {
      DoubledOrdered(x, y);
    } else if x >= PRECISION {
      HalvedOrdered(x, y);
    }
  }

  // ----- the truncated series -----

  function Ratio(m: nat): nat
    requires m >= PRECISION
  {
    (m - PRECISION) * PRECISION / (m + PRECISION)
  }

  function Square(z: nat): nat { z * z / PRECISION }

  function NextTerm(t: nat, z2: nat): nat { t * z2 / PRECISION }

  function Share(t: nat, i: nat): nat { t / (2 * i + 1) }

  /** z^(2i + 1), truncated at each multiplication by z^2. */
  function Term(z: nat, i: nat): nat {
    if i == 0 then z else NextTerm(Term(z, i - 1), Square(z))
  }

  function Series(z: nat, i: nat): nat {
    if i == 0 then z else Series(z, i - 1) + Share(Term(z, i), i)
  }

  lemma {:induction false} ZeroTermsStayZero(z: nat, i: nat, j: nat)
    requires i <= j && Term(z, i) == 0
    ensures Term(z, j) == 0 && Series(z, j) == Series(z, i)
  {
    if i < j {
      ZeroTermsStayZero(z, i, j - 1);
      assert 0 * Square(z) == 0;
      DivUnique(0, PRECISION, 0);
      DivUnique(0, 2 * j + 1, 0);
    }
  }

  lemma {:induction false} SeriesMonotone(z: nat, y: nat, i: nat)
    requires z <= y
    ensures Term(z, i) <= Term(y, i) && Series(z, i) <= Series(y, i)
  {
    if i > 0 {
      SeriesMonotone(z, y, i - 1);
      SquareMonotone(z, y);
      NextTermMonotone(Term(z, i - 1), Square(z), Term(y, i - 1), Square(y));
      ShareMonotone(Term(z, i), Term(y, i), i);
    }
  }

  lemma {:induction false} NextTermMonotone(t: nat, z2: nat, u: nat, y2: nat)
    requires t <= u && z2 <= y2
    ensures NextTerm(t, z2) <= NextTerm(u, y2)
  {
    MulMonotone(t, z2, u, y2);
    DivMonotone(t * z2, u * y2, PRECISION);
  }

  lemma {:induction false} ShareMonotone(t: nat, u: nat, i: nat)
    requires t <= u
    ensures Share(t, i) <= Share(u, i)
  {
    DivMonotone(t, u, 2 * i + 1);
  }

  lemma {:induction false} SquareMonotone(z: nat, y: nat)
    requires z <= y
    ensures Square(z) <= Square(y)
  {
    MulMonotone(z, z, y, y);
    DivMonotone(z * z, y * y, PRECISION);
  }

  lemma {:induction false} RatioMonotone(m: nat, n: nat)
    requires PRECISION <= m <= n
    ensures Ratio(m) <= Ratio(n)
  {
    var q := Ratio(m);
    DivBounds((m - PRECISION) * PRECISION, m + PRECISION);
    assert q <= PRECISION by {
      MulMonotone(m - PRECISION, PRECISION, m + PRECISION, PRECISION);
      QuotientAbove((m - PRECISION) * PRECISION, m + PRECISION, PRECISION);
      assert (PRECISION + 1) * (m + PRECISION) == PRECISION * (m + PRECISION) + m + PRECISION;
    }
    assert q * (n + PRECISION) == q * (m + PRECISION) + q * (n - m);
    MulMonotone(q, n - m, PRECISION, n - m);
    QuotientBelow((n - PRECISION) * PRECISION, n + PRECISION, q);
  }

  const THIRD: nat := 333_333_333_333_333_333
  const THIRD_SQUARED: nat := 111_111_111_111_111_110

  lemma {:induction false} RatioBelowThird(m: nat)
    requires PRECISION <= m < 2 * PRECISION
    ensures Ratio(m) <= THIRD
  {
    RatioMonotone(m, 2 * PRECISION - 1);
    assert Ratio(2 * PRECISION - 1) == THIRD;
  }

  /** Terms and partial sums at the top of an octave; the last term is zero. */
  const TABLE: seq<(nat, nat)> := [
    (333_333_333_333_333_333, 333_333_333_333_333_333),
    (37_037_037_037_037_036, 345_679_012_345_679_011),
    (4_115_226_337_448_559, 346_502_057_613_168_722),
    (457_247_370_827_617, 346_567_378_666_144_095),
    (50_805_263_425_290, 346_573_023_695_413_571),
    (5_645_029_269_476, 346_573_536_879_892_614),
    (627_225_474_386, 346_573_585_128_006_028),
    (69_691_719_376, 346_573_589_774_120_653),
    (7_743_524_375, 346_573_590_229_622_086),
    (860_391_597, 346_573_590_274_905_854),
    (95_599_066, 346_573_590_279_458_190),
    (10_622_118, 346_573_590_279_920_021),
    (1_180_235, 346_573_590_279_967_230),
    (131_137, 346_573_590_279_972_086),
    (14_570, 346_573_590_279_972_588),
    (1_618, 346_573_590_279_972_640),
    (179, 346_573_590_279_972_645),
    (19, 346_573_590_279_972_645),
    (2, 346_573_590_279_972_645),
    (0, 346_573_590_279_972_645)
  ]

  /** Row i + 1 follows from row i: both quotients are checked by their products. */
  ghost predicate RowFollows(i: nat)
    requires i + 1 < |TABLE|
  {
    var (t, s) := TABLE[i];
    var (next, sum) := TABLE[i + 1];
    && s <= sum
    && next * PRECISION <= t * THIRD_SQUARED < (next + 1) * PRECISION
    && (sum - s) * (2 * i + 3) <= next < (sum - s + 1) * (2 * i + 3)
  }

  lemma {:induction false} TableRows(i: nat)
    requires i + 1 < |TABLE|
    ensures RowFollows(i)
  {
  }

  lemma {:induction false} TableIsSeries(third: nat, i: nat)
    requires third == THIRD && i < |TABLE|
    ensures Term(third, i) == TABLE[i].0 && Series(third, i) == TABLE[i].1
  {
    if i > 0 {
      TableIsSeries(third, i - 1);
      TableRows(i - 1);
      SeriesStep(third, i, TABLE[i - 1].0, TABLE[i - 1].1, TABLE[i].0, TABLE[i].1);
    }
  }

  lemma {:induction false} SeriesStep(third: nat, i: nat, t: nat, s: nat, next: nat, sum: nat)
    requires third == THIRD && i > 0 && s <= sum
    requires Term(third, i - 1) == t && Series(third, i - 1) == s
    requires next * PRECISION <= t * THIRD_SQUARED < (next + 1) * PRECISION
    requires (sum - s) * (2 * i + 1) <= next < (sum - s + 1) * (2 * i + 1)
    ensures Term(third, i) == next && Series(third, i) == sum
  {
    assert Square(THIRD) == THIRD_SQUARED;
    DivUnique(t * THIRD_SQUARED, PRECISION, next);
    DivUnique(next, 2 * i + 1, sum - s);
  }

  lemma {:induction false} TopOfOctave(z: nat)
    requires z <= THIRD
    ensures 2 * Series(z, LAST) <= LN2
  {
    var third, n := THIRD, 19;
    SeriesMonotone(z, third, LAST);
    TableIsSeries(third, n);
    ZeroTermsStayZero(third, n, LAST);
  }

  // ----- ln_fixed -----

  function LnMantissa(m: nat): nat
    requires m >= PRECISION
  {
    2 * Series(Ratio(m), LAST)
  }

  /** The value `ln_fixed` returns for x > 0. */
  function Ln(x: nat): int
    requires x > 0
  {
    ReductionOrdered(x, x);
    LnMantissa(Mantissa(x)) + Exponent(x) * LN2
  }

  /** Monotone over all positive inputs: inside an octave because every truncated step is, and across
      octaves because the series never exceeds ln 2. */
  lemma {:induction false} LnMonotone(x: nat, y: nat)
    requires 0 < x <= y
    ensures Ln(x) <= Ln(y)
  {
    ReductionOrdered(x, y);
    ReductionOrdered(y, y);
    var m, n := Mantissa(x), Mantissa(y);
    if Exponent(x) == Exponent(y) {
      RatioMonotone(m, n);
      SeriesMonotone(Ratio(m), Ratio(n), LAST);
    } else {
      RatioBelowThird(m);
      TopOfOctave(Ratio(m));
      assert (Exponent(x) + 1) * LN2 <= Exponent(y) * LN2;
    }
  }

  /** Doubling the argument adds exactly the constant LN2. */
  lemma {:induction false} LnDoubling(x: nat)
    requires x > 0
    ensures Ln(2 * x) == Ln(x) + LN2
  {
    if x >= PRECISION {
      assert (2 * x) / 2 == x;
      assert Halved(2 * x) == (Halved(x).0, Halved(x).1 + 1);
    } else {
      assert Doubled(x) == (Doubled(2 * x).0, Doubled(2 * x).1 + 1);
      if 2 * x >= PRECISION {
        assert Doubled(2 * x) == Halved(2 * x) == (2 * x, 0);
      }
    }
    ReductionOrdered(x, x);
  }

  lemma {:induction false} LnOfOne()
    ensures Ln(PRECISION) == 0
  {
    assert Ratio(PRECISION) == 0;
    assert Term(0, 0) == 0;
    ZeroTermsStayZero(0, 0, LAST);
  }

  // ----- what the reduction and the series stand for -----

  /** x is m * 2^k, cut down to a whole m when it was halved, with m between one and two. */
  ghost predicate Reduces(x: nat, m: nat, k: int) {
    && PRECISION <= m < 2 * PRECISION
    && if k >= 0 then m * Pow2(k) <= x < (m + 1) * Pow2(k) else m == x * Pow2(-k)
  }

  lemma {:induction false} HalvedIsQuotient(m: nat)
    ensures Halved(m).0 * Pow2(Halved(m).1) <= m < (Halved(m).0 + 1) * Pow2(Halved(m).1)
  {
    if m >= 2 * PRECISION {
      HalvedIsQuotient(m / 2);
      var (h, k) := Halved(m / 2);
      HalvedOnce(m, h, Pow2(k));
    }
  }

  lemma {:induction false} HalvedOnce(m: nat, h: nat, p: nat)
    requires h * p <= m / 2 < (h + 1) * p
    ensures h * (2 * p) <= m < (h + 1) * (2 * p)
  {
    assert h * (2 * p) == 2 * (h * p) && (h + 1) * (2 * p) == 2 * ((h + 1) * p);
  }

  lemma {:induction false} DoubledIsProduct(m: nat)
    requires m > 0
    ensures Doubled(m).0 == m * Pow2(Doubled(m).1)
    decreases 2 * PRECISION - m
  {
    if m < PRECISION {
      DoubledIsProduct(2 * m);
      var p := Pow2(Doubled(2 * m).1);
      assert (2 * m) * p == m * (2 * p);
    }
  }

  lemma {:induction false} ReductionIsExact(x: nat)
    requires x > 0
    ensures Reduces(x, Mantissa(x), Exponent(x))
  {
    ReductionOrdered(x, x);
    if x < PRECISION {
      DoubledIsProduct(x);
    } else {
      HalvedIsQuotient(x);
    }
  }

  /** y + y^3 / 3 + y^5 / 5 + ... up to y^(2n + 1) / (2n + 1), which tends to half of ln((1 + y) / (1 - y)). */
  ghost function ArtanhSum(y: real, n: nat): real {
    if n == 0 then y else ArtanhSum(y, n - 1) + Power(y, 2 * n + 1) / (2 * n + 1) as real
  }

  /** v is at most lag units below the exact value, and never above it. */
  ghost predicate Short(v: int, exact: real, lag: real) { 0.0 <= exact - v as real <= lag }

  lemma {:induction false} FloorShort(a: nat, b: nat)
    requires b > 0
    ensures Short(a / b, a as real / b as real, 1.0)
  {
    var q, x := a / b, a as real / b as real;
    DivBounds(a, b);
    assert x * b as real == a as real;
    assert (q * b) as real == q as real * b as real;
    assert ((q + 1) * b) as real == (q as real + 1.0) * b as real;
    if x < q as real {
      Positive(q as real - x, b as real);
    } else if x > q as real + 1.0 {
      Positive(x - (q as real + 1.0), b as real);
    }
  }

  ghost function ExactRatio(m: nat): real { (m - PRECISION) as real / (m + PRECISION) as real }

  lemma {:induction false} AtMostThird(a: real, b: real)
    requires 0.0 <= a && 3.0 * a <= b && b > 0.0
    ensures 0.0 <= a / b <= 1.0 / 3.0
  {
    var y := a / b;
    assert y * b == a;
  }

  lemma {:induction false} RatioShort(m: nat)
    requires PRECISION <= m < 2 * PRECISION
    ensures 0.0 <= ExactRatio(m) <= 1.0 / 3.0
    ensures Short(Ratio(m), UNIT * ExactRatio(m), 1.0)
  {
    var n, d := m - PRECISION, m + PRECISION;
    AtMostThird(n as real, d as real);
    FloorShort(n * PRECISION, d);
    ScaledQuotient(n, d, n as real);
  }

  lemma {:induction false} ScaledQuotient(n: nat, d: nat, a: real)
    requires d > 0 && a == n as real
    ensures (n * PRECISION) as real / d as real == UNIT * (a / d as real)
  {
    assert (n * PRECISION) as real == UNIT * a;
    RatioOfProduct(UNIT, a, d as real);
  }

  /** A lag of one unit below a third becomes two thirds of a unit in the square. */
  lemma {:induction false} SquareLag(z: real, w: real)
    requires 0.0 <= z <= w <= UNIT / 3.0 && w - z <= 1.0
    ensures 0.0 <= w * w / UNIT - z * z / UNIT <= 2.0 / 3.0
  {
    var a, b := w - z, w + z;
    ProductBetween(a, b, 1.0, 2.0 * UNIT / 3.0);
    var d := a * b;
    assert w * w - z * z == d;
    assert w * w / UNIT - z * z / UNIT == d / UNIT;
  }

  lemma {:induction false} SquareShort(z: nat, y: real, q: real)
    requires 0.0 <= y <= 1.0 / 3.0 && Short(z, UNIT * y, 1.0) && q == y * y
    ensures 0.0 <= q <= 1.0 / 9.0 && Short(Square(z), UNIT * q, 5.0 / 3.0)
  {
    var w := UNIT * y;
    SquareLag(z as real, w);
    FloorShort(z * z, PRECISION);
    assert (z * z) as real == z as real * z as real;
    assert w * w == UNIT * (UNIT * q);
    ProductBetween(y, y, 1.0 / 3.0, 1.0 / 3.0);
  }

  /** A lag of two units in the term and 5/3 in the square leave at most 0.8 in the product of the two. */
  lemma {:induction false} ProductLag(t: real, e: real, s: real, q: real)
    requires 0.0 <= t <= e <= UNIT / 3.0 && e - t <= 2.0
    requires 0.0 <= s <= q <= UNIT / 9.0 && q - s <= 5.0 / 3.0
    ensures 0.0 <= e * q / UNIT - t * s / UNIT <= 0.8
  {
    assert e * q - t * s == (e - t) * q + t * (q - s);
    ProductBetween(e - t, q, 2.0, UNIT / 9.0);
    ProductBetween(t, q - s, UNIT / 3.0, 5.0 / 3.0);
  }

  lemma {:induction false} OddPowers(y: real, i: nat)
    requires 0.0 <= y <= 1.0 / 3.0
    ensures 0.0 <= Power(y, 2 * i + 1) <= 1.0 / 3.0
  {
    if i == 0 {
      FirstPower(y);
    } else {
      OddPowers(y, i - 1);
      PowerOfTwoMore(y, 2 * i - 1);
      ProductBetween(y, y, 1.0 / 3.0, 1.0 / 3.0);
      ProductBetween(Power(y, 2 * i - 1), y * y, 1.0 / 3.0, 1.0 / 9.0);
    }
  }

  /** Every term is at most two units below the exact power. */
  lemma {:induction false} TermShort(z: nat, y: real, i: nat)
    requires 0.0 <= y <= 1.0 / 3.0 && Short(z, UNIT * y, 1.0)
    ensures Short(Term(z, i), UNIT * Power(y, 2 * i + 1), 2.0)
  {
    if i == 0 {
      FirstPower(y);
    } else {
      var p, q, pq := OddPowerStep(y, i);
      TermShort(z, y, i - 1);
      SquareShort(z, y, q);
      NextTermShort(Term(z, i - 1), p, Square(z), q, Term(z, i), pq);
    }
  }

  lemma {:induction false} OddPowerStep(y: real, i: nat) returns (p: real, q: real, pq: real)
    requires i > 0 && 0.0 <= y <= 1.0 / 3.0
    ensures q == y * y && p == Power(y, 2 * (i - 1) + 1) && pq == Power(y, 2 * i + 1)
    ensures pq == p * q && 0.0 <= p <= 1.0 / 3.0
  {
    OddPowers(y, i - 1);
    PowerOfTwoMore(y, 2 * i - 1);
    p, q, pq := Power(y, 2 * (i - 1) + 1), y * y, Power(y, 2 * i + 1);
  }

  lemma {:induction false} NextTermShort(t: nat, p: real, s: nat, q: real, next: nat, pq: real)
    requires 0.0 <= p <= 1.0 / 3.0 && Short(t, UNIT * p, 2.0)
    requires 0.0 <= q <= 1.0 / 9.0 && Short(s, UNIT * q, 5.0 / 3.0)
    requires next == NextTerm(t, s) && pq == p * q
    ensures Short(next, UNIT * pq, 2.0)
  {
    ProductLag(t as real, UNIT * p, s as real, UNIT * q);
    FloorShort(t * s, PRECISION);
    assert (t * s) as real == t as real * s as real;
    assert (UNIT * p) * (UNIT * q) == UNIT * (UNIT * pq);
  }

  lemma {:induction false} ShareShort(t: nat, exact: real, i: nat)
    requires i > 0 && Short(t, exact, 2.0)
    ensures Short(Share(t, i), exact / (2 * i + 1) as real, 5.0 / 3.0)
  {
    FloorShort(t, 2 * i + 1);
    DividedLag(exact, t as real, (2 * i + 1) as real);
  }

  lemma {:induction false} DividedLag(exact: real, t: real, n: real)
    requires n >= 3.0 && 0.0 <= exact - t <= 2.0
    ensures 0.0 <= exact / n - t / n <= 2.0 / 3.0
  {
    var d := exact / n - t / n;
    assert (exact / n) * n == exact && (t / n) * n == t;
    assert d * n == exact - t;
    if d < 0.0 {
      Positive(-d, n);
    } else if d > 2.0 / 3.0 {
      NonNegative(d - 2.0 / 3.0, n - 3.0);
    }
  }

  /** The truncated series is below the exact one, by at most 5/3 units for each term after the first. */
  lemma {:induction false} SeriesShort(z: nat, y: real, i: nat)
    requires 0.0 <= y <= 1.0 / 3.0 && Short(z, UNIT * y, 1.0)
    ensures Short(Series(z, i), UNIT * ArtanhSum(y, i), 1.0 + (5 * i) as real / 3.0)
  {
    if i > 0 {
      SeriesShort(z, y, i - 1);
      TermShort(z, y, i);
      ShareShort(Term(z, i), UNIT * Power(y, 2 * i + 1), i);
      RatioOfProduct(UNIT, Power(y, 2 * i + 1), (2 * i + 1) as real);
    }
  }

  /** v is at most 132 units below the 40-term series for ln m, in 18 decimals, and k times ln 2. */
  ghost predicate NearLog(v: int, m: nat, k: int)
    requires m + PRECISION != 0
  {
    var y := (m - PRECISION) as real / (m + PRECISION) as real;
    Short(v, PRECISION as real * (2.0 * ArtanhSum(y, 39)) + (k * 693_147_180_559_945_309) as real, 132.0)
  }

  /** The result for any x > 0, against the exact series of its reduced argument. */
  lemma {:induction false} LnAccuracy(x: nat)
    requires x > 0
    ensures Reduces(x, Mantissa(x), Exponent(x)) && NearLog(Ln(x), Mantissa(x), Exponent(x))
  {
    ReductionIsExact(x);
    var m := Mantissa(x);
    RatioShort(m);
    SeriesShort(Ratio(m), ExactRatio(m), LAST);
  }

  lemma {:induction false} HalvedCount(m: nat, b: nat)
    requires m < Pow2(b)
    ensures Halved(m).1 <= b
  {
    if m >= 2 * PRECISION {
      HalvedCount(m / 2, b - 1);
    }
  }

  lemma {:induction false} DoubledCount(m: nat, b: nat)
    requires m > 0 && PRECISION <= m * Pow2(b)
    ensures Doubled(m).1 <= b
    decreases b
  {
    if m < PRECISION {
      assert b > 0 by {
        assert b == 0 ==> m * Pow2(b) == m;
      }
      assert m * Pow2(b) == (2 * m) * Pow2(b - 1);
      DoubledCount(2 * m, b - 1);
    }
  }

  /** At most 127 halvings or 64 doublings: the result fits i128. */
  lemma {:induction false} LnFits(x: i128)
    requires x > 0
    ensures -64 <= Exponent(x) <= 127
    ensures Mantissa(x) >= PRECISION && 0 <= LnMantissa(Mantissa(x)) <= LN2 && InI128(Ln(x))
  {
    Pow2Words(8);
    if x < PRECISION {
      MulMonotone(1, TWO_64, x, TWO_64);
      DoubledCount(x, 8 * 8);
    } else {
      HalvedCount(x, 16 * 8 - 1);
    }
    ReductionOrdered(x, x);
    RatioBelowThird(Mantissa(x));
    TopOfOctave(Ratio(Mantissa(x)));
  }

  /** The three loops of the source, with the early exit of the series; None is the panic for x <= 0. */
  method LnFixed(x: i128) returns (r: Option<i128>)
    ensures x <= 0 ==> r == None
    ensures x > 0 ==> r == Some(Ln(x))
    ensures x > 0 ==> exists m: nat, k: int :: Reduces(x, m, k) && NearLog(r.value, m, k)
  {
    if x <= 0 {
      return None;
    }
    if x == PRECISION {
      LnOfOne();
      LnAccuracy(x);
      return Some(0);
    }
    LnFits(x);
    LnAccuracy(x);
    var m, k := Reduce(x);
    assert Ratio(m) <= THIRD by {
      ReductionOrdered(x, x);
      RatioBelowThird(m);
    }
    var sum := AtanhSeries(Ratio(m));
    var ln := 2 * sum + k * LN2;
    assert ln == Ln(x);
    return Some(ln);
  }

  method Reduce(x: i128) returns (m: nat, k: int)
    requires x > 0
    ensures m == Mantissa(x) && k == Exponent(x)
  {
    m, k := x, 0;
    while m >= 2 * PRECISION
      invariant x >= PRECISION ==> m >= PRECISION
      invariant x >= PRECISION ==> Halved(x).0 == Halved(m).0 && Halved(x).1 == k + Halved(m).1
      invariant x < PRECISION ==> m == x && k == 0
    {
      m := m / 2;
      k := k + 1;
    }
    while m < PRECISION
      invariant x >= PRECISION ==> m == Mantissa(x) && k == Exponent(x) && m >= PRECISION
      invariant x < PRECISION ==> 0 < m && Doubled(x).0 == Doubled(m).0 && Doubled(x).1 == Doubled(m).1 - k
      decreases 2 * PRECISION - m
    {
      m := m * 2;
      k := k - 1;
    }
  }

  method AtanhSeries(z: nat) returns (sum: nat)
    requires z <= THIRD
    ensures sum == Series(z, LAST)
  {
    var z2, term := Square(z), z;
    sum := z;
    var i := 1;
    while i <= LAST
      invariant 1 <= i <= LAST + 1
      invariant term == Term(z, i - 1) && sum == Series(z, i - 1)
    {
      term := NextTerm(term, z2);
      sum := sum + Share(term, i);
      if term == 0 {
        ZeroTermsStayZero(z, i, LAST);
        return;
      }
      i := i + 1;
    }
  }
}
