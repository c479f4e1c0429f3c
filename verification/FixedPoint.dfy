/** The 256-bit multiply-divide at the bottom of every price, margin and share computation
    (stellax-math/src/fixed.rs). */
module FixedPoint {
  import opened Int128

  /** What `mul_div_checked` promises: a * b / d rounded toward zero, when d is not zero and the result fits. */
  function MulDiv(a: int, b: int, d: int): Option<i128> {
    if d == 0 then None else Checked(TruncDiv(a * b, d))
  }

  function MulPrecision(a: int, b: int): Option<i128> { MulDiv(a, b, PRECISION) }

  /** A non-negative product scaled down stays in the bounds of its factors. */
  lemma {:induction false} MulPrecisionBounds(a: i128, b: i128, maxA: nat, maxB: nat)
    requires 0 <= a <= maxA && 0 <= b <= maxB && maxA * maxB < TWO_127 * PRECISION
    ensures MulPrecision(a, b) == Some(a * b / PRECISION)
    ensures 0 <= a * b / PRECISION <= maxA * maxB / PRECISION
    ensures b <= PRECISION ==> a * b / PRECISION <= a
  {
    MulMonotone(a, b, maxA, maxB);
    MulMonotone(0, 0, a, b);
    DivMonotone(a * b, maxA * maxB, PRECISION);
    QuotientBelow(a * b, PRECISION, 0);
    QuotientAbove(maxA * maxB, PRECISION, I128_MAX);
    if b <= PRECISION {
      MulMonotone(a, b, a, PRECISION);
      QuotientAbove(a * b, PRECISION, a);
    }
  }

  function DivPrecision(a: int, b: int): Option<i128> { MulDiv(a, PRECISION, b) }

  function ApplyBps(value: int, bps: nat): Option<i128> { MulDiv(value, bps, BPS_DENOMINATOR) }

  // ----- 128 x 128 -> 256 multiplication -----

  /** The schoolbook product of two 64-bit halves. Each intermediate sum is declared u128, so it is
      proved not to overflow; the shift that drops high bits is the `% TWO_64` in `lo`. */
  function UMul(a: u128, b: u128): (p: (u128, u128))
    ensures p.0 * TWO_128 + p.1 == a * b
  {
    var aLo, aHi := a % TWO_64, a / TWO_64;
    var bLo, bHi := b % TWO_64, b / TWO_64;
    LimbProduct(aLo, bLo);
    LimbProduct(aLo, bHi);
    LimbProduct(aHi, bLo);
    LimbProduct(aHi, bHi);
    LimbExpansion(a, b);
    var ll: u128 := aLo * bLo;
    var lh: u128 := aLo * bHi;
    var hl: u128 := aHi * bLo;
    var hh: u128 := aHi * bHi;
    HighWord(a, b, ll, lh, hl, hh);
    var mid: u128 := ll / TWO_64 + lh % TWO_64 + hl % TWO_64;
    var lo: u128 := ll % TWO_64 + (mid % TWO_64) * TWO_64;
    var hi: u128 := hh + lh / TWO_64 + hl / TWO_64 + mid / TWO_64;
    (hi, lo)
  }

  lemma {:induction false} LimbProduct(x: u64, y: u64)
    ensures 0 <= x * y <= (TWO_64 - 1) * (TWO_64 - 1)
  {
    MulMonotone(x, y, TWO_64 - 1, TWO_64 - 1);
  }

  lemma {:induction false} LimbExpansion(a: u128, b: u128)
    ensures a * b == (a / TWO_64) * (b / TWO_64) * TWO_128
                     + ((a % TWO_64) * (b / TWO_64) + (a / TWO_64) * (b % TWO_64)) * TWO_64
                     + (a % TWO_64) * (b % TWO_64)
  {
    var ah, al, bh, bl := a / TWO_64, a % TWO_64, b / TWO_64, b % TWO_64;
    assert a == ah * TWO_64 + al && b == bh * TWO_64 + bl;
    calc {
      a * b;
      (ah * TWO_64 + al) * b;
      ah * TWO_64 * b + al * b;
      ah * b * TWO_64 + al * b;
      { assert ah * b == ah * (bh * TWO_64 + bl) == ah * bh * TWO_64 + ah * bl; }
      (ah * bh * TWO_64 + ah * bl) * TWO_64 + al * b;
      { assert al * b == al * (bh * TWO_64 + bl) == al * bh * TWO_64 + al * bl; }
      (ah * bh * TWO_64 + ah * bl) * TWO_64 + (al * bh * TWO_64 + al * bl);
    }
  }

  /** The high word holds: it is the quotient of a * b by 2^128, which is below 2^128. */
  lemma {:induction false} HighWord(a: u128, b: u128, ll: u128, lh: u128, hl: u128, hh: u128)
    requires a * b == hh * TWO_128 + (lh + hl) * TWO_64 + ll
    ensures var mid := ll / TWO_64 + lh % TWO_64 + hl % TWO_64;
            var lo := ll % TWO_64 + (mid % TWO_64) * TWO_64;
            var hi := hh + lh / TWO_64 + hl / TWO_64 + mid / TWO_64;
            hi * TWO_128 + lo == a * b && 0 <= hi < TWO_128 && 0 <= lo < TWO_128
  {
    MulMonotone(a, b, TWO_128 - 1, TWO_128 - 1);
  }

  // ----- 256 / 128 -> 128 shift-subtract division -----

  const BITS: nat := 128

  datatype DivState = DivState(remHi: u128, remLo: u128, quotient: u128)

  /** A left shift by one in u128: the top bit is dropped. */
  function Shl1(x: u128): u128 { (2 * x) % TWO_128 }

  /** `(x << 1) | bit`: the shifted number is even, so joining one bit adds it. */
  function ShiftIn(x: u128, bit: nat): u128
    requires bit <= 1
  {
    Shl1(x) + bit
  }

  function TopBit(x: u128): (bit: nat)
    ensures bit <= 1
  {
    x / TWO_127
  }

  /** One of the 128 iterations. */
  function DivStep(s: DivState, d: u128): DivState {
    var hi := ShiftIn(s.remHi, TopBit(s.remLo));
    if hi >= d then DivState(hi - d, Shl1(s.remLo), ShiftIn(s.quotient, 1))
    else DivState(hi, Shl1(s.remLo), ShiftIn(s.quotient, 0))
  }

  function DivSteps(s: DivState, d: u128, n: nat): DivState {
    if n == 0 then s else DivStep(DivSteps(s, d, n - 1), d)
  }

  /** The value `udiv_256_128` returns, for every divisor. */
  function UDivCode(hi: u128, lo: u128, d: u128): Option<u128> {
    if d == 0 then None
    else if hi == 0 then Some(lo / d)
    else if hi >= d then None
    else Some(DivSteps(DivState(hi, lo, 0), d, BITS).quotient)
  }

  /** What its documentation promises: the 256-bit quotient, or nothing when that needs more than 128 bits. */
  function UDivSpec(hi: u128, lo: u128, d: u128): Option<int> {
    if d == 0 || hi >= d then None else Some((hi * TWO_128 + lo) / d)
  }

  method UDiv(hi: u128, lo: u128, d: u128) returns (r: Option<u128>)
    ensures r == UDivCode(hi, lo, d)
  {
    if d == 0 {
      return None;
    }
    if hi == 0 {
      return Some(lo / d);
    }
    if hi >= d {
      return None;
    }
    var q := ShiftSubtract(hi, lo, d);
    return Some(q);
  }

  method ShiftSubtract(hi: u128, lo: u128, d: u128) returns (quotient: u128)
    ensures quotient == DivSteps(DivState(hi, lo, 0), d, BITS).quotient
  {
    var remHi: u128, remLo: u128 := hi, lo;
    quotient := 0;
    for i := 0 to BITS
      invariant DivState(remHi, remLo, quotient) == DivSteps(DivState(hi, lo, 0), d, i)
    {
      remHi := ShiftIn(remHi, TopBit(remLo));
      remLo := Shl1(remLo);
      if remHi >= d {
        remHi := remHi - d;
        quotient := ShiftIn(quotient, 1);
      } else {
        quotient := ShiftIn(quotient, 0);
      }
    }
  }

  /** After n steps, with p = 2^n and h = 2^(128 - n), `rest` holds the low bits not yet brought down, and
      the quotient and remainder are those of the 128 + n high bits. */
  ghost predicate DivInvariant(s: DivState, hi: u128, lo: u128, d: u128, p: nat, h: nat, rest: nat) {
    && s.remHi < d
    && s.quotient < p
    && rest < h
    && s.remLo == rest * p
    && hi * TWO_128 + lo == (s.quotient * d + s.remHi) * h + rest
  }

  lemma {:induction false} DivStepsInvariant(hi: u128, lo: u128, d: u128, n: nat) returns (rest: nat)
    requires hi < d <= TWO_127 && n <= 128
    ensures DivInvariant(DivSteps(DivState(hi, lo, 0), d, n), hi, lo, d, Pow2(n), Pow2(128 - n), rest)
  {
    if n == 0 {
      Pow2Words(8);
      rest := lo;
    } else {
      var before := DivStepsInvariant(hi, lo, d, n - 1);
      var p, h := Pow2(n - 1), Pow2(128 - n);
      assert Pow2(129 - n) == 2 * h;
      assert p * h == TWO_127 by {
        Pow2Words(8);
        Pow2Add(n - 1, 128 - n);
      }
      rest := DivStepInvariant(DivSteps(DivState(hi, lo, 0), d, n - 1), hi, lo, d, p, h, before);
    }
  }

  lemma {:induction false} DivStepInvariant(s: DivState, hi: u128, lo: u128, d: u128, p: nat, h: nat, before: nat)
    returns (rest: nat)
    requires d <= TWO_127 && p * h == TWO_127
    requires DivInvariant(s, hi, lo, d, p, 2 * h, before)
    ensures DivInvariant(DivStep(s, d), hi, lo, d, 2 * p, h, rest)
  {
    rest := if before >= h then before - h else before;
    BringDown(s.remLo, before, p, h, rest);
    assert 0 < h && p <= TWO_127 by { FactorBounds(p, h); }
    DivStepKeeps(s, hi, lo, d, before, p, h, rest);
  }

  lemma {:induction false} FactorBounds(p: nat, h: nat)
    requires p * h == TWO_127
    ensures 0 < h && p <= TWO_127
  {
    MulMonotone(p, 1, p, h);
  }

  /** The shifted-out bit of remLo is the top bit of `before`; the rest stays aligned. */
  lemma {:induction false} BringDown(remLo: u128, before: nat, p: nat, h: nat, rest: nat)
    requires p * h == TWO_127 && before < 2 * h && remLo == before * p
    requires rest == if before >= h then before - h else before
    ensures TopBit(remLo) == (if before >= h then 1 else 0)
    ensures Shl1(remLo) == rest * (2 * p)
  {
    if before >= h {
      assert before * p == rest * p + h * p;
      assert rest * p < TWO_127 by { StrictScale(rest, h, p); }
      assert rest * (2 * p) == 2 * (rest * p);
    } else {
      assert before * p < TWO_127 by { StrictScale(before, h, p); }
      assert rest * (2 * p) == 2 * (before * p);
    }
  }

  lemma {:induction false} StrictScale(x: nat, h: nat, p: nat)
    requires x < h && p * h == TWO_127
    ensures 0 <= x * p < TWO_127
  {
    assert h * p == x * p + (h - x) * p;
    assert p > 0;
    MulMonotone(1, 1, h - x, p);
  }

  lemma {:induction false} DivStepKeeps(
    s: DivState, hi: u128, lo: u128, d: u128, before: nat, p: nat, h: nat, rest: nat)
    requires d <= TWO_127 && s.remHi < d
    requires s.quotient < p && h > 0 && p <= TWO_127
    requires hi * TWO_128 + lo == (s.quotient * d + s.remHi) * (2 * h) + before
    requires rest == if before >= h then before - h else before
    requires TopBit(s.remLo) == (if before >= h then 1 else 0)
    ensures var t := DivStep(s, d);
            && t.remHi < d && t.quotient < 2 * p
            && hi * TWO_128 + lo == (t.quotient * d + t.remHi) * h + rest
  {
    var t := DivStep(s, d);
    var sub := NoBitDropped(s, d);
    LongDivisionStep(s.quotient, s.remHi, d, h, TopBit(s.remLo), sub, t.quotient, t.remHi);
  }

  /** With d <= 2^127 both shifts keep every bit; `sub` says whether the divisor was subtracted. */
  lemma {:induction false} NoBitDropped(s: DivState, d: u128) returns (sub: nat)
    requires d <= TWO_127 && s.remHi < d && s.quotient < TWO_127
    ensures var t := DivStep(s, d);
            && t.remHi < d && sub <= 1
            && t.quotient == 2 * s.quotient + sub
            && t.remHi + (if sub == 1 then d else 0) == 2 * s.remHi + TopBit(s.remLo)
  {
    NoOverflow(s.remHi, TopBit(s.remLo));
    sub := if ShiftIn(s.remHi, TopBit(s.remLo)) >= d then 1 else 0;
    NoOverflow(s.quotient, sub);
  }

  lemma {:induction false} NoOverflow(x: u128, bit: nat)
    requires x < TWO_127 && bit <= 1
    ensures ShiftIn(x, bit) == 2 * x + bit
  {
    RemainderUnique(2 * x, TWO_128, 0, 2 * x);
  }

  lemma {:induction false} LongDivisionStep(q: nat, r: nat, d: nat, h: nat, bit: nat, sub: nat, q': nat, r': nat)
    requires sub <= 1 && q' == 2 * q + sub && r' + (if sub == 1 then d else 0) == 2 * r + bit
    ensures (q * d + r) * (2 * h) + bit * h == (q' * d + r') * h
  {
    var y := q * d;
    assert q' * d == 2 * y + sub * d;
    assert (2 * (y + r) + bit) * h == (y + r) * (2 * h) + bit * h;
  }

  /** For divisors up to 2^127 no shift ever drops a bit, and the loop is exact long division. */
  lemma {:induction false} UDivExact(hi: u128, lo: u128, d: u128)
    requires d <= TWO_127
    ensures UDivCode(hi, lo, d) == UDivSpec(hi, lo, d)
  {
    if hi != 0 && hi < d {
      var rest := DivStepsInvariant(hi, lo, d, BITS);
      var s := DivSteps(DivState(hi, lo, 0), d, BITS);
      LongDivisionDone(s.quotient, s.remHi, d, hi * TWO_128 + lo, Pow2(128 - BITS), rest);
    }
  }

  lemma {:induction false} LongDivisionDone(q: nat, r: nat, d: nat, n: nat, h: nat, rest: nat)
    requires h == 1 && rest < h && r < d
    requires n == (q * d + r) * h + rest
    ensures n / d == q
  {
    var y := q * d;
    assert (y + r) * 1 == y + r;
    assert (q + 1) * d == y + d;
    DivUnique(n, d, q);
  }

  /** A divisor is safe, for every dividend, exactly when it is at most 2^127. */
  lemma {:induction false} UDivSafeDivisors(d: u128)
    requires d > 0
    ensures (forall hi: u128, lo: u128 :: UDivCode(hi, lo, d) == UDivSpec(hi, lo, d)) <==> d <= TWO_127
  {
    if d <= TWO_127 {
      forall hi: u128, lo: u128
        ensures UDivCode(hi, lo, d) == UDivSpec(hi, lo, d)
      {
        UDivExact(hi, lo, d);
      }
    } else {
      DroppedBit(d, 128);
      assert UDivCode(TWO_127, 0, d) == Some(0);
      QuotientBelow(TWO_127 * TWO_128 + 0, d, 1);
      assert UDivCode(TWO_127, 0, d) != UDivSpec(TWO_127, 0, d);
    }
  }

  /** With a larger divisor the dividend 2^255 loses its only bit at the first shift. */
  lemma {:induction false} DroppedBit(d: u128, n: nat)
    requires d > TWO_127 && 1 <= n
    ensures DivSteps(DivState(TWO_127, 0, 0), d, n) == DivState(0, 0, 0)
  {
    if n > 1 {
      DroppedBit(d, n - 1);
    }
  }

  // ----- mul_div_checked -----

  /** `mul_div_checked` is exact on all of i128, including the results i128::MIN and the None cases. */
  method MulDivChecked(a: i128, b: i128, denominator: i128) returns (r: Option<i128>)
    ensures r == MulDiv(a, b, denominator)
  {
    if denominator == 0 {
      return None;
    }
    var neg := ((a < 0) != (b < 0)) != (denominator < 0);
    var ua: u128, ub: u128, ud: u128 := Abs(a), Abs(b), Abs(denominator);
    var p := UMul(ua, ub);
    MagnitudeOfProduct(a, b);
    var q := UDiv(p.0, p.1, ud);
    UDivExact(p.0, p.1, ud);
    SignedQuotient(a, b, denominator, p.0, p.1);
    if q == None {
      return None;
    }
    if neg {
      if q.value > I128_MAX + 1 {
        return None;
      }
      if q.value == I128_MAX + 1 {
        return Some(I128_MIN);
      }
      return Some(-q.value);
    }
    if q.value > I128_MAX {
      return None;
    }
    return Some(q.value);
  }

  lemma {:induction false} MagnitudeOfProduct(a: int, b: int)
    ensures Abs(a) * Abs(b) == Abs(a * b)
    ensures a * b != 0 ==> (a * b < 0 <==> ((a < 0) != (b < 0)))
  {
  }

  /** Folding the sign back into the unsigned quotient gives the truncated signed one. */
  lemma {:induction false} SignedQuotient(a: i128, b: i128, d: i128, hi: u128, lo: u128)
    requires d != 0 && hi * TWO_128 + lo == Abs(a * b)
    ensures UDivSpec(hi, lo, Abs(d)).None? ==> !InI128(TruncDiv(a * b, d))
    ensures UDivSpec(hi, lo, Abs(d)).Some? ==>
              var q := UDivSpec(hi, lo, Abs(d)).value;
              TruncDiv(a * b, d) == if ((a < 0) != (b < 0)) != (d < 0) then -q else q
  {
    MagnitudeOfProduct(a, b);
    var n, m: nat := Abs(a * b), Abs(d);
    if hi >= m {
      MulMonotone(m, TWO_128, hi, TWO_128);
      assert m * TWO_128 <= n;
      QuotientBelow(n, m, TWO_128);
    } else if a * b == 0 {
      DivUnique(n, m, 0);
    }
  }

  // ----- decimal conversions -----

  function Pow10(n: nat): (p: nat)
    ensures p >= 1
  {
    if n == 0 then 1 else 10 * Pow10(n - 1)
  }

  /** `pow10_checked` stops at the first product that leaves i128; larger exponents stay out. */
  method Pow10Checked(n: u32) returns (r: Option<i128>)
    ensures r == Checked(Pow10(n))
  {
    var acc: i128 := 1;
    for i := 0 to n
      invariant acc == Pow10(i)
    {
      if !InI128(acc * 10) {
        Pow10Monotone(i + 1, n);
        return None;
      }
      acc := acc * 10;
    }
    return Some(acc);
  }

  lemma {:induction false} Pow10Monotone(a: nat, b: nat)
    requires a <= b
    ensures Pow10(a) <= Pow10(b)
  {
    if a < b {
      Pow10Monotone(a, b - 1);
    }
  }

  /** `to_precision_checked`: scale up by a checked multiplication, scale down by a truncating division. */
  function ToPrecision(value: i128, fromDecimals: u32, toDecimals: u32): Option<i128> {
    if toDecimals == fromDecimals then Some(value)
    else if toDecimals > fromDecimals then
      var factor :- Checked(Pow10(toDecimals - fromDecimals));
      Checked(value * factor)
    else
      var factor :- Checked(Pow10(fromDecimals - toDecimals));
      Checked(TruncDiv(value, factor))
  }

  /** Scaling up and back down is the identity, whenever the scaled value exists. */
  lemma {:induction false} ToPrecisionRoundTrip(value: i128, low: u32, high: u32)
    requires low <= high
    requires ToPrecision(value, low, high).Some?
    ensures ToPrecision(ToPrecision(value, low, high).value, high, low) == Some(value)
  {
    if low < high {
      var f := Pow10(high - low);
      var n := Abs(value);
      MagnitudeOfProduct(value, f);
      DivUnique(n * f, f, n) by {
        assert (n + 1) * f == n * f + f;
      }
    }
  }
}
