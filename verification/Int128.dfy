/** Machine integers of the contracts: widths, checked arithmetic, truncating division. */
module Int128 {

  const TWO_32: int := 0x1_0000_0000
  const TWO_64: int := 0x1_0000_0000_0000_0000
  const TWO_127: int := 0x8000_0000_0000_0000_0000_0000_0000_0000
  const TWO_128: int := 0x1_0000_0000_0000_0000_0000_0000_0000_0000
  const I128_MIN: int := -TWO_127
  const I128_MAX: int := TWO_127 - 1

  type u8 = x: int | 0 <= x < 0x100
  type u32 = x: int | 0 <= x < TWO_32
  type u64 = x: int | 0 <= x < TWO_64
  type u128 = x: int | 0 <= x < TWO_128
  type i128 = x: int | I128_MIN <= x <= I128_MAX

  /** One unit of an 18-decimal fixed-point number (constants.rs). */
  const PRECISION: int := 1_000_000_000_000_000_000
  const BPS_DENOMINATOR: int := 10_000

  datatype Option<+T> = None | Some(value: T) {
    predicate IsFailure() { None? }
    function PropagateFailure<U>(): Option<U> requires None? { None }
    function Extract(): T requires Some? { value }
  }

  predicate InI128(x: int) { I128_MIN <= x <= I128_MAX }

  /** `checked_add`, `checked_sub`, `checked_mul`: the exact value when it fits, nothing otherwise. */
  function Checked(x: int): Option<i128> {
    if InI128(x) then Some(x) else None
  }

  function Abs(x: int): nat { if x < 0 then -x else x }

  function Neg(x: int): int { -x }

  function Min(a: int, b: int): int { if a <= b then a else b }

  function Max(a: int, b: int): int { if a >= b then a else b }

  /** The two's complement value of x kept in 128 bits: what a left shift of an i128 leaves. */
  function Wrap(x: int): i128 { (x + TWO_127) % TWO_128 - TWO_127 }

  /** A saturating operation on i128. */
  function Saturate(x: int): i128 { Max(I128_MIN, Min(I128_MAX, x)) }

  /** A saturating operation on u32. */
  function SaturateU32(x: nat): u32 { Min(TWO_32 - 1, x) }

  /** Rust's `/` on signed integers: the quotient rounds toward zero. */
  function TruncDiv(a: int, b: int): int
    requires b != 0
  {
    if (a < 0) == (b < 0) then Abs(a) / Abs(b) else -(Abs(a) / Abs(b))
  }

  /** Truncated division is the one integer of the right sign whose magnitude is the floor of |a|/|b|. */
  lemma {:induction false} TruncDivUnique(a: int, b: int, q: int)
    requires b != 0
    ensures q == TruncDiv(a, b) <==>
            && Abs(q) * Abs(b) <= Abs(a) < (Abs(q) + 1) * Abs(b)
            && (q > 0 ==> (a < 0) == (b < 0))
            && (q < 0 ==> (a < 0) != (b < 0))
  {
    var n, d, m := Abs(a), Abs(b), Abs(q);
    QuotientBelow(n, d, m);
    QuotientAbove(n, d, m);
  }

  lemma {:induction false} MulMonotone(a: nat, b: nat, c: nat, d: nat)
    requires a <= c && b <= d
    ensures a * b <= c * d
  {
    assert c * b == a * b + (c - a) * b;
    assert c * d == c * b + c * (d - b);
  }

  lemma {:induction false} DivBounds(n: nat, d: nat)
    requires d > 0
    ensures (n / d) * d <= n < (n / d + 1) * d
  {
    var q, m := n / d, n % d;
    assert n == q * d + m;
    assert (q + 1) * d == q * d + d;
  }

  /** What truncated division leaves has the sign of the dividend and is smaller than the divisor. */
  lemma {:induction false} TruncDivRemainder(a: int, b: int)
    requires b > 0
    ensures Abs(a - TruncDiv(a, b) * b) < b
    ensures a >= 0 ==> a - TruncDiv(a, b) * b >= 0
    ensures a <= 0 ==> a - TruncDiv(a, b) * b <= 0
    ensures Abs(TruncDiv(a, b)) == Abs(a) / b
  {
    var q := Abs(a) / b;
    DivBounds(Abs(a), b);
    QuotientBelow(Abs(a), b, 0);
    assert (q + 1) * b == q * b + b;
    assert (-q) * b == -(q * b);
  }

  lemma {:induction false} DivUnique(n: nat, d: nat, q: nat)
    requires q * d <= n < (q + 1) * d
    ensures d > 0 && n / d == q
  {
    assert (q + 1) * d == q * d + d;
    QuotientBelow(n, d, q);
    QuotientAbove(n, d, q);
  }

  /** `n / d < q` exactly when `n < q * d`: comparing a floor with an integer needs no division. */
  lemma {:induction false} QuotientBelow(n: nat, d: nat, q: nat)
    requires d > 0
    ensures n / d >= q <==> q * d <= n
  {
    DivBounds(n, d);
    if n / d >= q {
      MulMonotone(q, d, n / d, d);
    } else {
      MulMonotone(n / d + 1, d, q, d);
    }
  }

  lemma {:induction false} QuotientAbove(n: nat, d: nat, q: nat)
    requires d > 0
    ensures n / d <= q <==> n < (q + 1) * d
  {
    QuotientBelow(n, d, q + 1);
  }

  lemma {:induction false} RemainderUnique(v: int, d: nat, q: int, r: nat)
    requires d > 0 && v == q * d + r && r < d
    ensures v / d == q && v % d == r
  {
    var q', r' := v / d, v % d;
    assert v == q' * d + r';
    assert (q - q') * d == r' - r;
    assert q - q' >= 1 ==> (q - q') * d >= d;
    assert q' - q >= 1 ==> (q' - q) * d >= d;
    assert (q' - q) * d == -((q - q') * d);
  }

  lemma {:induction false} DivMonotone(a: nat, b: nat, d: nat)
    requires a <= b && d > 0
    ensures a / d <= b / d
  {
    var q := a / d;
    assert q * d <= b by { DivBounds(a, d); }
    QuotientBelow(b, d, q);
  }

  function Pow2(n: nat): (p: nat)
    ensures p >= 1
  {
    if n == 0 then 1 else 2 * Pow2(n - 1)
  }

  lemma {:induction false} Pow2Add(a: nat, b: nat)
    ensures Pow2(a + b) == Pow2(a) * Pow2(b)
  {
    if a > 0 {
      Pow2Add(a - 1, b);
      assert a + b - 1 == (a - 1) + b;
    }
  }

  lemma {:induction false} Pow2Monotone(a: nat, b: nat)
    requires a <= b
    ensures Pow2(a) <= Pow2(b)
  {
    if a < b {
      Pow2Monotone(a, b - 1);
    }
  }

  lemma {:induction false} Pow2Square(n: nat, v: nat)
    requires Pow2(n) == v
    ensures Pow2(n + n) == v * v
  {
    Pow2Add(n, n);
  }

  lemma {:induction false} Pow2Words(n: nat)
    requires n == 8
    ensures Pow2(4 * n) == TWO_32 && Pow2(8 * n) == TWO_64
    ensures Pow2(16 * n) == TWO_128 && Pow2(16 * n - 1) == TWO_127
  {
    assert Pow2(n) == 256;
    Pow2Square(n, 256);
    Pow2Square(2 * n, 0x1_0000);
    Pow2Square(4 * n, TWO_32);
    Pow2Square(8 * n, TWO_64);
    assert Pow2(16 * n) == 2 * Pow2(16 * n - 1);
  }
}
