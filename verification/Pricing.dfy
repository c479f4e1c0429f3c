/** Prices, profit and margin of one position: the pure part of stellax-perp-engine/src/lib.rs. None is the
    MathOverflow error, or the panic of an unchecked operation. */
module Pricing {
  import opened Int128
  import opened FixedPoint

  const MAX_LEVERAGE: nat := 50

  datatype SkewState = SkewState(skew: i128, skewScale: i128, makerRebateBps: u32)

  /** `unsigned_abs() as i128`, which leaves i128::MIN as it is. */
  function AbsCast(x: i128): i128 { if x == I128_MIN then x else Abs(x) }

  function MidSkew(skew: i128, size: i128, isLong: bool): Option<i128> {
    var delta :- Checked(if isLong then size else Neg(size));
    Checked(skew + TruncDiv(delta, 2))
  }

  function SkewFee(oracle: i128, mid: i128, scale: i128): Option<i128> {
    var rate :- DivPrecision(AbsCast(mid), scale);
    MulPrecision(rate, oracle)
  }

  /** `get_execution_price`: oracle price plus a fee for the mid-fill skew, or minus a maker rebate. */
  function ExecutionPrice(oracle: i128, s: SkewState, size: i128, isLong: bool): Option<i128> {
    var mid :- MidSkew(s.skew, size, isLong);
    var isMaker := (isLong && mid < 0) || (!isLong && mid > 0);
    if isMaker && s.makerRebateBps > 0 then
      var rebate :- ApplyBps(oracle, s.makerRebateBps);
      Checked(if isLong then oracle - rebate else oracle + rebate)
    else
      var fee :- SkewFee(oracle, mid, s.skewScale);
      Checked(if isLong then oracle + fee else oracle - fee)
  }

  function Notional(size: i128, price: i128): Option<i128> { MulPrecision(size, price) }

  function TradePnl(isLong: bool, size: i128, entry: i128, exit: i128): Option<i128> {
    var delta :- Checked(if isLong then exit - entry else entry - exit);
    MulPrecision(size, delta)
  }

  /** Funding owed since the checkpoint, with the sign of a profit. */
  function FundingPnl(checkpoint: i128, current: i128, size: i128): Option<i128> {
    var delta :- Checked(current - checkpoint);
    var raw :- MulPrecision(delta, size);
    Checked(Neg(raw))
  }

  /** Deviation from the oracle price in basis points. */
  function SlippageBps(entry: i128, oracle: i128): Option<i128> {
    var diff :- Checked(if entry >= oracle then entry - oracle else oracle - entry);
    var scaled :- Checked(diff * BPS_DENOMINATOR);
    if oracle == 0 then None else Checked(TruncDiv(scaled, oracle))
  }

  // ----- an immediate round trip never profits -----

  lemma {:induction false} TakerFeeIsNotNegative(oracle: i128, mid: i128, scale: i128)
    requires oracle > 0 && scale > 0 && mid > I128_MIN
    ensures SkewFee(oracle, mid, scale).Some? ==> SkewFee(oracle, mid, scale).value >= 0
  {
    var num := Abs(mid);
    QuotientBelow(num * PRECISION, scale, 0);
    if DivPrecision(num, scale).Some? {
      var rate := DivPrecision(num, scale).value;
      assert rate >= 0;
      MulMonotone(0, 0, rate, oracle);
      QuotientBelow(rate * oracle, PRECISION, 0);
    }
  }

  /** Whether a trade reduces the skew it meets and is paid for it. */
  predicate Rebated(mid: i128, isLong: bool, rebateBps: u32) {
    rebateBps > 0 && ((isLong && mid < 0) || (!isLong && mid > 0))
  }

  /** A long pays less, or a short gets more, than the oracle price exactly when the trade earns a rebate that is
      not rounded to nothing. */
  lemma {:induction false} TakerPriceSide(oracle: i128, s: SkewState, size: i128, isLong: bool)
    requires oracle > 0 && s.skewScale > 0
    requires MidSkew(s.skew, size, isLong).Some? ==> MidSkew(s.skew, size, isLong).value > I128_MIN
    ensures var price := ExecutionPrice(oracle, s, size, isLong);
            price.Some? ==>
              ((if isLong then price.value < oracle else price.value > oracle)
               <==> Rebated(MidSkew(s.skew, size, isLong).value, isLong, s.makerRebateBps)
                    && ApplyBps(oracle, s.makerRebateBps).value > 0)
  {
    if MidSkew(s.skew, size, isLong).Some? {
      TakerFeeIsNotNegative(oracle, MidSkew(s.skew, size, isLong).value, s.skewScale);
    }
  }

  /** With open interest that leaves room for the trade, the mid skew of a trade and of the one that
      undoes it is never i128::MIN. */
  lemma {:induction false} MidSkewsHaveAbs(size: i128, isLong: bool, oiLong: i128, oiShort: i128)
    requires size > 0 && oiLong >= 0 && oiShort >= 0
    requires InI128(if isLong then oiLong + size else oiShort + size)
    ensures var before, after := oiLong - oiShort, if isLong then oiLong + size - oiShort else oiLong - oiShort - size;
            && InI128(before) && InI128(after)
            && (MidSkew(before, size, isLong).Some? ==> MidSkew(before, size, isLong).value > I128_MIN)
            && (MidSkew(after, size, !isLong).Some? ==> MidSkew(after, size, !isLong).value > I128_MIN)
  {
    assert 0 <= TruncDiv(size, 2) <= size;
    assert TruncDiv(Neg(size), 2) == -TruncDiv(size, 2);
  }

  // ----- exactly when an immediate round trip profits -----

  /** The skew after a trade. */
  function SkewAfter(skew: i128, size: i128, isLong: bool): int { if isLong then skew + size else skew - size }

  /** The mid skews of a trade and of the one that undoes it: the same for an even size, one apart for an odd one. */
  function EntryMid(skew: i128, size: i128, isLong: bool): int {
    if isLong then skew + TruncDiv(size, 2) else skew - TruncDiv(size, 2)
  }

  function ExitMid(skew: i128, size: i128, isLong: bool): int {
    if isLong then skew + size - TruncDiv(size, 2) else skew - size + TruncDiv(size, 2)
  }

  lemma {:induction false} MidsOneApart(skew: i128, size: i128, isLong: bool)
    requires size > 0 && InI128(SkewAfter(skew, size, isLong))
    ensures var a, b := EntryMid(skew, size, isLong), ExitMid(skew, size, isLong);
            && InI128(a) && InI128(b)
            && MidSkew(skew, size, isLong) == Some(a)
                && MidSkew(SkewAfter(skew, size, isLong), size, !isLong) == Some(b)
            && b - a == (if isLong then size % 2 else -(size % 2))
  {
    HalfOf(size);
    HalfOf(Neg(size));
  }

  lemma {:induction false} HalfOf(x: int)
    ensures TruncDiv(x, 2) + TruncDiv(x, 2) + (if x >= 0 then Abs(x) % 2 else -(Abs(x) % 2)) == x
    ensures TruncDiv(Neg(x), 2) == Neg(TruncDiv(x, 2))
  {
  }

  function Nearer(a: int, b: int): int { if Abs(a) <= Abs(b) then a else b }

  /** What one unit gains over a round trip at one oracle price: the rebate of the leg that reduces the skew, less the
      fee of the other, which is charged at the mid skew nearer to zero; two fees when no leg earns a rebate. */
  function RoundTripGain(oracle: i128, s: SkewState, size: i128, isLong: bool): Option<int> {
    var a :- Checked(EntryMid(s.skew, size, isLong));
    var b :- Checked(ExitMid(s.skew, size, isLong));
    if s.makerRebateBps == 0 || (a == 0 && b == 0) then
      var first :- SkewFee(oracle, a, s.skewScale);
      var second :- SkewFee(oracle, b, s.skewScale);
      Some(-(first as int) - second)
    else
      var rebate :- ApplyBps(oracle, s.makerRebateBps);
      var fee :- SkewFee(oracle, Nearer(a, b), s.skewScale);
      Some((rebate as int) - fee)
  }

  /** The prices of the two legs differ by exactly the gain. */
  lemma {:induction false} RoundTripPrices(
    oracle: i128, s: SkewState, size: i128, isLong: bool, entry: i128, exit: i128)
    requires size > 0 && InI128(SkewAfter(s.skew, size, isLong))
    requires ExecutionPrice(oracle, s, size, isLong) == Some(entry)
    requires ExecutionPrice(oracle, s.(skew := SkewAfter(s.skew, size, isLong)), size, !isLong) == Some(exit)
    ensures RoundTripGain(oracle, s, size, isLong)
         == Some(if isLong then (exit as int) - entry else (entry as int) - exit)
  {
    var a, b := EntryMid(s.skew, size, isLong), ExitMid(s.skew, size, isLong);
    MidsOneApart(s.skew, size, isLong);
    if !(a == 0 && b == 0) && s.makerRebateBps > 0 {
      OneLegRebated(a, b, isLong, s.makerRebateBps);
    }
  }

  /** Exactly one leg of a round trip reduces the skew, and the other is the one nearer to no skew. */
  lemma {:induction false} OneLegRebated(a: i128, b: i128, isLong: bool, rebateBps: u32)
    requires rebateBps > 0 && !(a == 0 && b == 0)
    requires if isLong then a <= b <= a + 1 else b <= a <= b + 1
    ensures Rebated(a, isLong, rebateBps) != Rebated(b, !isLong, rebateBps)
    ensures Nearer(a, b) == if Rebated(a, isLong, rebateBps) then b else a
  {
  }

  /** The profit of a round trip at one oracle price, to the unit, for every size and rebate; and so exactly when it
      is a profit at all. */
  lemma {:induction false} RoundTripProfit(
    oracle: i128, s: SkewState, size: i128, isLong: bool, entry: i128, exit: i128)
    requires size > 0 && InI128(SkewAfter(s.skew, size, isLong))
    requires ExecutionPrice(oracle, s, size, isLong) == Some(entry)
    requires ExecutionPrice(oracle, s.(skew := SkewAfter(s.skew, size, isLong)), size, !isLong) == Some(exit)
    requires TradePnl(isLong, size, entry, exit).Some?
    ensures var gain, pnl := RoundTripGain(oracle, s, size, isLong), TradePnl(isLong, size, entry, exit).value;
            && gain.Some?
            && pnl == TruncDiv(size * gain.value, PRECISION)
            && (pnl > 0 <==> size * gain.value >= PRECISION)
  {
    RoundTripPrices(oracle, s, size, isLong, entry, exit);
    AtLeast(size * (if isLong then (exit as int) - entry else (entry as int) - exit), 1);
  }

  /** A truncated quotient reaches a positive bound exactly when the dividend reaches that many units. */
  lemma {:induction false} AtLeast(n: int, bound: nat)
    requires bound > 0
    ensures TruncDiv(n, PRECISION) >= bound <==> n >= bound * PRECISION
  {
    QuotientBelow(Abs(n), PRECISION, bound);
    QuotientBelow(Abs(n), PRECISION, 0);
  }

  /** A profit needs a rebate: from any open interest, and to any open interest. */
  lemma {:induction false} RoundTripProfitNeedsRebate(
    oracle: i128, s: SkewState, size: i128, isLong: bool, oiLong: i128, oiShort: i128, entry: i128, exit: i128)
    requires oracle > 0 && s.skewScale > 0 && size > 0 && oiLong >= 0 && oiShort >= 0 && s.skew == oiLong - oiShort
    requires InI128(if isLong then oiLong + size else oiShort + size)
    requires InI128(SkewAfter(s.skew, size, isLong))
    requires ExecutionPrice(oracle, s, size, isLong) == Some(entry)
    requires ExecutionPrice(oracle, s.(skew := SkewAfter(s.skew, size, isLong)), size, !isLong) == Some(exit)
    requires TradePnl(isLong, size, entry, exit).Some?
    ensures TradePnl(isLong, size, entry, exit).value > 0 ==> s.makerRebateBps > 0
  {
    var a, b := EntryMid(s.skew, size, isLong), ExitMid(s.skew, size, isLong);
    RoundTripProfit(oracle, s, size, isLong, entry, exit);
    MidsOneApart(s.skew, size, isLong);
    MidSkewsHaveAbs(size, isLong, oiLong, oiShort);
    if s.makerRebateBps == 0 {
      TakerFeeIsNotNegative(oracle, a, s.skewScale);
      TakerFeeIsNotNegative(oracle, b, s.skewScale);
      NoProfit(size, RoundTripGain(oracle, s, size, isLong).value);
    }
  }

  lemma {:induction false} NoProfit(size: i128, gain: int)
    requires size > 0 && gain <= 0
    ensures size * gain < PRECISION
  {
    assert size * gain <= 0;
  }

  /** A rebate of ten basis points pays a long of two for reducing a small negative skew and at once restoring it. */
  lemma {:induction false} RebatedRoundTrip(s: SkewState, size: i128)
    requires s == SkewState(-10 * PRECISION, 1_000_000 * PRECISION, 10) && size == 2 * PRECISION
    ensures RoundTripGain(PRECISION, s, size, true) == Some(991_000_000_000_000)
    ensures size * 991_000_000_000_000 >= PRECISION
  {
    assert EntryMid(s.skew, size, true) == ExitMid(s.skew, size, true) == -9 * PRECISION;
    assert DivPrecision(9 * PRECISION, 1_000_000 * PRECISION) == Some(9_000_000_000_000) by {
      DivUnique(9 * PRECISION * PRECISION, 1_000_000 * PRECISION, 9_000_000_000_000);
    }
    assert MulPrecision(9_000_000_000_000, PRECISION) == Some(9_000_000_000_000) by {
      DivUnique(9_000_000_000_000 * PRECISION, PRECISION, 9_000_000_000_000);
    }
  }
}
