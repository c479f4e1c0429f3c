/** Exponentiation by squaring in 18-decimal fixed point (stellax-math/src/advanced.rs, `pow`). */
module PowFixed {
  import opened Int128
  import opened FixedPoint
  import opened Reals

  /** The value of n in 18-decimal fixed point. */
  ghost function Exact(base: int, n: nat): real {
    UNIT * Power(base as real / UNIT, n)
  }

  ghost function Lag(n: nat): real {
    if n == 0 then 0.0 else (n - 1) as real
  }

  /** v approximates base^n from below. */
  ghost predicate Below(v: int, base: int, n: nat) {
    0 <= v && v as real <= Exact(base, n)
  }

  /** v is at most n - 1 units short of base^n (and exact for n = 0). */
  ghost predicate Close(v: int, base: int, n: nat) {
    Exact(base, n) - Lag(n) <= v as real
  }

  lemma {:induction false} PowerAdd(x: real, a: nat, b: nat)
    ensures Power(x, a + b) == Power(x, a) * Power(x, b)
  {
    if a > 0 {
      PowerAdd(x, a - 1, b);
      var p, q := Power(x, a - 1), Power(x, b);
      assert x * (p * q) == (x * p) * q;
    }
  }

  lemma {:induction false} PowerUnitInterval(x: real, n: nat)
    requires 0.0 <= x
    ensures 0.0 <= Power(x, n)
    ensures x <= 1.0 ==> Power(x, n) <= 1.0
  {
    if n > 0 {
      PowerUnitInterval(x, n - 1);
      var p := Power(x, n - 1);
      RealProduct(x, p);
    }
  }

  lemma {:induction false} RealProduct(x: real, y: real)
    requires 0.0 <= x && 0.0 <= y
    ensures 0.0 <= x * y
    ensures x <= 1.0 ==> x * y <= y
    ensures y <= 1.0 ==> x * y <= x
  {
    assert x <= 1.0 ==> (1.0 - x) * y >= 0.0;
    assert y <= 1.0 ==> (1.0 - y) * x >= 0.0;
  }

  /** Multiplying lower bounds: the shortfalls add, because both factors are at most one. */
  lemma {:induction false} ShortfallsAdd(x: real, y: real, a: real, b: real, ea: real, eb: real)
    requires 0.0 <= a <= x && 0.0 <= b <= y
    ensures 0.0 <= a * b <= x * y
    ensures x <= 1.0 && y <= 1.0 && x - ea <= a && y - eb <= b ==> x * y - a * b <= ea + eb
  {
    var c, d := y - b, x - a;
    RealProduct(x, c);
    RealProduct(b, d);
    RealProduct(a, b);
    var e, f := x * c, b * d;
    assert x * y - a * b == e + f;
  }

  /** One truncating `mul_precision` of two approximations. */
  lemma {:induction false} ProductApproximates(a: nat, b: nat, base: nat, j: nat, m: nat, q: nat)
    requires m > 0 && Below(a, base, j) && Below(b, base, m)
    requires j == 0 ==> a == PRECISION
    requires q == a * b / PRECISION
    ensures Below(q, base, j + m)
    ensures base <= PRECISION && Close(a, base, j) && Close(b, base, m) ==> Close(q, base, j + m)
  {
    if j == 0 {
      assert q == b by { DivUnique(a * b, PRECISION, b); }
    } else {
      DivBounds(a * b, PRECISION);
      PowersMultiply(a, b, base, j, m, q);
    }
  }

  lemma {:induction false} PowersMultiply(a: nat, b: nat, base: nat, j: nat, m: nat, q: nat)
    requires j > 0 && m > 0 && Below(a, base, j) && Below(b, base, m)
    requires q * PRECISION <= a * b < (q + 1) * PRECISION
    ensures Below(q, base, j + m)
    ensures base <= PRECISION && Close(a, base, j) && Close(b, base, m) ==> Close(q, base, j + m)
  {
    var x := base as real / UNIT;
    assert base <= PRECISION ==> x <= 1.0;
    var u, v := Power(x, j), Power(x, m);
    PowerUnitInterval(x, j);
    PowerUnitInterval(x, m);
    LagAdds(j, m);
    assert Exact(base, j + m) == UNIT * (u * v) by { PowerAdd(x, j, m); }
    ApproximateProduct(u, v, a, b, q, Lag(j), Lag(m));
  }

  lemma {:induction false} LagAdds(j: nat, m: nat)
    requires j > 0 && m > 0
    ensures Lag(j + m) == Lag(j) + Lag(m) + 1.0
  {
  }

  lemma {:induction false} ApproximateProduct(u: real, v: real, a: nat, b: nat, q: nat, ea: real, eb: real)
    requires 0.0 <= a as real <= UNIT * u && 0.0 <= b as real <= UNIT * v
    requires q * PRECISION <= a * b < (q + 1) * PRECISION
    ensures q as real <= UNIT * (u * v)
    ensures u <= 1.0 && v <= 1.0 && UNIT * u - ea <= a as real && UNIT * v - eb <= b as real ==>
              UNIT * (u * v) - (ea + eb + 1.0) <= q as real
  {
    var ra, rb := a as real / UNIT, b as real / UNIT;
    ShortfallsAdd(u, v, ra, rb, ea / UNIT, eb / UNIT);
    ScaledProduct(a, b, q);
  }

  lemma {:induction false} ScaledProduct(a: nat, b: nat, q: nat)
    requires q * PRECISION <= a * b < (q + 1) * PRECISION
    ensures q as real <= UNIT * ((a as real / UNIT) * (b as real / UNIT)) < q as real + 1.0
  {
    var ra, rb := a as real / UNIT, b as real / UNIT;
    assert ra * UNIT == a as real && rb * UNIT == b as real;
    assert (a * b) as real == a as real * b as real;
    assert a as real * b as real == UNIT * (UNIT * (ra * rb));
  }

  /** v tracks base^n: below it for base >= 0, and close to it for base <= 1. */
  ghost predicate Tracks(v: int, base: int, n: nat) {
    && (base >= 0 ==> Below(v, base, n))
    && (0 <= base <= PRECISION ==> Close(v, base, n))
    && (n == 0 ==> v == PRECISION)
  }

  lemma {:induction false} FirstPowers(base: i128)
    ensures Tracks(PRECISION, base, 0) && Tracks(base, base, 1)
  {
    var x := base as real / UNIT;
    assert Power(x, 0) == 1.0 && Power(x, 1) == x * 1.0;
    assert x * UNIT == base as real;
  }

  lemma {:induction false} TrackedProduct(a: i128, b: i128, base: i128, j: nat, m: nat)
    requires m > 0 && Tracks(a, base, j) && Tracks(b, base, m)
    ensures MulPrecision(a, b).Some? ==> Tracks(MulPrecision(a, b).value, base, j + m)
    ensures 0 <= base <= PRECISION ==> MulPrecision(a, b).Some?
  {
    if base >= 0 {
      MulMonotone(0, 0, a, b);
      ProductApproximates(a, b, base, j, m, a * b / PRECISION);
      if base <= PRECISION {
        PowerUnitInterval(base as real / UNIT, j + m);
      }
    }
  }

  /** The truncated products of squaring and multiplying, from the low bit of the exponent up. */
  function Squared(result: i128, acc: i128, exp: nat): Option<i128>
    decreases exp
  {
    if exp == 0 then Some(result)
    else
      var product :- if exp % 2 == 1 then MulPrecision(result, acc) else Some(result);
      if exp / 2 == 0 then Some(product)
      else
        var square :- MulPrecision(acc, acc);
        Squared(product, square, exp / 2)
  }

  lemma {:induction false} Regroup(x: real, p: real)
    ensures x * p == (x - 1.0) * p + p
  {
  }

  /** Powers of a base of at least one grow. */
  lemma {:induction false} ExactGrows(base: int, n: nat, m: nat)
    requires base >= PRECISION && n <= m
    ensures Exact(base, n) <= Exact(base, m)
  {
    if n < m {
      ExactGrows(base, n, m - 1);
      var x := base as real / UNIT;
      var p := Power(x, m - 1);
      PowerUnitInterval(x, m - 1);
      RealProduct(x - 1.0, p);
      Regroup(x, p);
      assert Power(x, m) == x * p;
    }
  }

  /** A product of two approximations overflows only when the power they lead to does not fit either. */
  lemma {:induction false} OverflowIsReal(a: i128, b: i128, base: i128, j: nat, m: nat, exponent: nat)
    requires base >= 0 && m > 0 && Tracks(a, base, j) && Tracks(b, base, m) && j + m <= exponent
    requires MulPrecision(a, b).None?
    ensures base > PRECISION && Exact(base, exponent) > I128_MAX as real
  {
    if base <= PRECISION {
      TrackedProduct(a, b, base, j, m);
    } else {
      MulMonotone(0, 0, a, b);
      ProductApproximates(a, b, base, j, m, a * b / PRECISION);
      ExactGrows(base, j + m, exponent);
    }
  }

  /** The loop invariant: result tracks base^j, acc tracks base^m, and exp copies of acc are still to be used. */
  ghost predicate Reached(result: i128, acc: i128, exp: nat, j: nat, m: nat, base: i128, exponent: nat) {
    m > 0 && exponent == j + m * exp && Tracks(result, base, j) && Tracks(acc, base, m)
  }

  /** A low bit of one moves one copy of acc into the result. */
  lemma {:induction false} TakeLowBit(result: i128, acc: i128, half: nat, j: nat, m: nat, base: i128, exponent: nat)
    requires Reached(result, acc, 2 * half + 1, j, m, base, exponent)
    ensures var product := MulPrecision(result, acc);
            if product.Some? then Reached(product.value, acc, 2 * half, j + m, m, base, exponent)
            else Overflows(base, exponent)
  {
    assert m * (2 * half + 1) == m * (2 * half) + m;
    MulMonotone(m, 0, m, 2 * half);
    TrackedProduct(result, acc, base, j, m);
    if MulPrecision(result, acc).None? && base >= 0 {
      OverflowIsReal(result, acc, base, j, m, exponent);
    }
  }

  /** Squaring acc halves the number of copies. */
  lemma {:induction false} SquareStep(result: i128, acc: i128, half: nat, j: nat, m: nat, base: i128, exponent: nat)
    requires Reached(result, acc, 2 * half, j, m, base, exponent) && half > 0
    ensures var square := MulPrecision(acc, acc);
            if square.Some? then Reached(result, square.value, half, j, 2 * m, base, exponent)
            else Overflows(base, exponent)
  {
    assert m * (2 * half) == (2 * m) * half;
    MulMonotone(m, 2, m, 2 * half);
    TrackedProduct(acc, acc, base, m, m);
    if MulPrecision(acc, acc).None? && base >= 0 {
      OverflowIsReal(acc, acc, base, m, m, exponent);
    }
  }

  /** What an overflow says of a non-negative base: it is above one, and its power does not fit i128. */
  ghost predicate Overflows(base: i128, exponent: nat) {
    base >= 0 ==> base > PRECISION && Exact(base, exponent) > I128_MAX as real
  }

  /** For any base >= 0 the result never exceeds base^n, and fails only when base^n does not fit i128; for
      0 <= base <= 1 it exists and is short of base^n by at most n - 1 units. None is the panic of an
      overflowing product. */
  method Pow(base: i128, exponent: u32) returns (r: Option<i128>)
    ensures r.Some? ==> Tracks(r.value, base, exponent)
    ensures r.None? ==> Overflows(base, exponent)
    ensures r == Squared(PRECISION, base, exponent)
  {
    FirstPowers(base);
    if exponent == 0 {
      return Some(PRECISION);
    }
    var result: i128, acc: i128, exp: nat := PRECISION, base, exponent;
    ghost var j: nat, m: nat := 0, 1;
    while exp > 0
      invariant Reached(result, acc, exp, j, m, base, exponent)
      invariant Squared(result, acc, exp) == Squared(PRECISION, base, exponent)
    {
      ghost var half := exp / 2;
      assert exp == if exp % 2 == 1 then 2 * half + 1 else 2 * half;
      if exp % 2 == 1 {
        TakeLowBit(result, acc, half, j, m, base, exponent);
        var product := MulPrecision(result, acc);
        if product.None? {
          return None;
        }
        result := product.value;
        j := j + m;
      }
      exp := exp / 2;
      if exp > 0 {
        SquareStep(result, acc, half, j, m, base, exponent);
        var square := MulPrecision(acc, acc);
        if square.None? {
          return None;
        }
        acc := square.value;
        m := 2 * m;
      }
    }
    return Some(result);
  }
}
