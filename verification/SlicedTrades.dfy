/** The mid-skew fee is path independent: cutting a trade that grows the skew changes nothing but rounding
    (stellax-perp-engine/src/lib.rs, `get_execution_price`). */
module SlicedTrades {
  import opened Int128
  import opened FixedPoint
  import opened Pricing

  const UNIT: real := PRECISION as real

  // ----- exact arithmetic -----

  /** The exact fee is a line through the origin: slope times the magnitude of the mid-fill skew. */
  ghost function Slope(oracle: nat, scale: nat): real
    requires scale > 0
  {
    oracle as real / scale as real
  }

  ghost function ExactFee(slope: real, mid: nat): real { slope * mid as real }

  /** A trade size: what is left of i128 after the sign check. */
  type Size = x: int | 0 <= x <= I128_MAX

  /** Every slice is even and positive. */
  predicate EvenSlices(slices: seq<Size>) {
    forall i :: 0 <= i < |slices| ==> slices[i] > 0 && slices[i] % 2 == 0
  }

  function Total(slices: seq<Size>): nat {
    if slices == [] then 0 else slices[0] + Total(slices[1..])
  }

  /** The exact cost of growing the skew from the magnitude m by one trade of `size`. */
  ghost function ExactCost(slope: real, m: nat, size: nat): real { size as real * ExactFee(slope, m + size / 2) }

  ghost function ExactPathCost(slope: real, m: nat, slices: seq<Size>): real
    decreases |slices|
  {
    if slices == [] then 0.0
    else ExactCost(slope, m, slices[0]) + ExactPathCost(slope, m + slices[0], slices[1..])
  }

  /** The closed form: the area under the fee line from m to m + size. */
  ghost function Area(slope: real, m: nat, size: nat): real {
    slope * (size as real * m as real + size as real * size as real / 2.0)
  }

  lemma {:induction false} CostIsArea(slope: real, m: nat, size: nat)
    requires size % 2 == 0
    ensures ExactCost(slope, m, size) == Area(slope, m, size)
  {
    var s, k := size as real, m as real;
    assert (m + size / 2) as real == k + s / 2.0;
    var mid := k + s / 2.0;
    assert s * (slope * mid) == slope * (s * mid);
    assert s * mid == s * k + s * s / 2.0;
  }

  lemma {:induction false} AreasJoin(slope: real, m: nat, a: nat, b: nat)
    ensures Area(slope, m, a) + Area(slope, m + a, b) == Area(slope, m, a + b)
  {
    var x, y, k := a as real, b as real, m as real;
    var p, q, t := x * k + x * x / 2.0, y * (k + x) + y * y / 2.0, (x + y) * k + (x + y) * (x + y) / 2.0;
    assert (m + a) as real == k + x && (a + b) as real == x + y;
    assert p + q == t;
    assert slope * p + slope * q == slope * (p + q);
  }

  lemma {:induction false} EvenTotal(slices: seq<Size>)
    requires EvenSlices(slices)
    ensures Total(slices) % 2 == 0
  {
    if slices != [] {
      EvenTotal(slices[1..]);
    }
  }

  /** However a trade that grows the skew is cut into even slices, its exact cost is that of one trade. */
  lemma {:induction false} PathIndependence(slope: real, m: nat, slices: seq<Size>)
    requires EvenSlices(slices)
    ensures ExactPathCost(slope, m, slices) == ExactCost(slope, m, Total(slices))
    decreases |slices|
  {
    EvenTotal(slices);
    CostIsArea(slope, m, Total(slices));
    if slices == [] {
      assert 0.0 * ExactFee(slope, m) == 0.0;
    } else {
      PathIndependence(slope, m + slices[0], slices[1..]);
      EvenTotal(slices[1..]);
      CostIsArea(slope, m, slices[0]);
      CostIsArea(slope, m + slices[0], Total(slices[1..]));
      AreasJoin(slope, m, slices[0], Total(slices[1..]));
    }
  }

  // ----- the two truncations of the fee -----

  /** What the two truncations of a fee can lose: one unit of rate, scaled by the price, and one of price. */
  ghost function FeeSlack(oracle: nat): real { oracle as real / UNIT + 1.0 }

  lemma {:induction false} FeeRounding(oracle: i128, mid: i128, scale: i128, slope: real, exact: real)
    requires oracle > 0 && scale > 0 && mid > I128_MIN && SkewFee(oracle, mid, scale).Some?
    requires slope == Slope(oracle, scale) && exact == ExactFee(slope, Abs(mid))
    ensures exact - FeeSlack(oracle) < SkewFee(oracle, mid, scale).value as real <= exact
  {
    var num := Abs(mid);
    var rate := TruncatedRate(oracle, mid, scale);
    var share := num as real / scale as real;
    assert exact == oracle as real * share by {
      SlopeTimes(oracle as real, num as real, scale as real);
    }
    RateError(num, scale, rate, share);
    FeeError(oracle, share, rate, SkewFee(oracle, mid, scale).value);
  }

  lemma {:induction false} TruncatedRate(oracle: i128, mid: i128, scale: i128) returns (rate: nat)
    requires oracle > 0 && scale > 0 && mid > I128_MIN && SkewFee(oracle, mid, scale).Some?
    ensures rate * scale <= Abs(mid) * PRECISION < (rate + 1) * scale
    ensures var fee := SkewFee(oracle, mid, scale).value;
            fee >= 0 && fee * PRECISION <= rate * oracle < (fee + 1) * PRECISION
  {
    var num := Abs(mid);
    rate := Floor(num * PRECISION, scale);
    assert DivPrecision(num, scale) == Some(rate);
    MulMonotone(0, 0, rate, oracle);
    var fee := Floor(rate * oracle, PRECISION);
    assert MulPrecision(rate, oracle) == Some(fee);
  }

  lemma {:induction false} Floor(n: nat, d: nat) returns (q: nat)
    requires d > 0
    ensures q == TruncDiv(n, d) && q * d <= n < (q + 1) * d
  {
    q := n / d;
    DivBounds(n, d);
  }

  lemma {:induction false} SlopeTimes(o: real, n: real, c: real)
    requires c > 0.0
    ensures o / c * n == o * (n / c)
  {
    var x, y := o / c, n / c;
    assert o == x * c && n == y * c;
    assert x * (y * c) == (x * c) * y;
  }

  lemma {:induction false} RateError(num: nat, scale: nat, rate: nat, share: real)
    requires scale > 0 && rate * scale <= num * PRECISION < (rate + 1) * scale
    requires share == num as real / scale as real
    ensures share * UNIT - 1.0 < rate as real <= share * UNIT
  {
    var c, x := scale as real, share * UNIT;
    assert share * c == num as real;
    assert x * c == num as real * UNIT by {
      assert x * c == (share * c) * UNIT;
    }
    assert (rate * scale) as real == rate as real * c;
    assert (rate as real + 1.0) * c == rate as real * c + c;
    TruncatedWithin(rate as real, x, c, num as real * UNIT, rate as real * c);
  }

  lemma {:induction false} TruncatedWithin(rate: real, x: real, c: real, exact: real, floor: real)
    requires c > 0.0 && exact == x * c && floor == rate * c && (rate + 1.0) * c == floor + c
    requires floor <= exact < floor + c
    ensures x - 1.0 < rate <= x
  {
    Cancel(rate, x, c);
    StrictCancel(x, rate + 1.0, c);
  }

  lemma {:induction false} Cancel(a: real, b: real, c: real)
    requires c > 0.0 && a * c <= b * c
    ensures a <= b
  {
    assert a > b ==> (a - b) * c > 0.0;
  }

  lemma {:induction false} StrictCancel(a: real, b: real, c: real)
    requires c > 0.0 && a * c < b * c
    ensures a < b
  {
    assert a >= b ==> (a - b) * c >= 0.0;
  }

  lemma {:induction false} FractionOf(e: real, o: real)
    requires 0.0 <= e < 1.0 && 0.0 <= o
    ensures 0.0 <= e * o <= o
  {
    assert (1.0 - e) * o >= 0.0;
  }

  lemma {:induction false} FeeError(oracle: nat, share: real, rate: nat, fee: nat)
    requires fee * PRECISION <= rate * oracle < (fee + 1) * PRECISION
    requires share * UNIT - 1.0 < rate as real <= share * UNIT
    ensures oracle as real * share - FeeSlack(oracle) < fee as real <= oracle as real * share
  {
    var o := oracle as real;
    assert (rate * oracle) as real == rate as real * o;
    var z := PricedRate(o, share, rate as real, share * UNIT - rate as real);
    DivideThrough(o * share, o, z, fee as real, rate as real * o);
  }

  lemma {:induction false} PricedRate(o: real, share: real, rate: real, e: real) returns (z: real)
    requires 0.0 <= e < 1.0 && 0.0 <= o && rate == share * UNIT - e
    ensures 0.0 <= z <= o && rate * o == (o * share) * UNIT - z
  {
    z := e * o;
    FractionOf(e, o);
    assert share * UNIT * o == (o * share) * UNIT;
  }

  lemma {:induction false} DivideThrough(w: real, o: real, z: real, fee: real, p: real)
    requires 0.0 <= z <= o && p == w * UNIT - z
    requires fee * UNIT <= p < fee * UNIT + UNIT
    ensures w - (o / UNIT + 1.0) < fee <= w
  {
  }

  // ----- the integer code stays within the rounding bound -----

  function TradeNotional(oracle: i128, s: SkewState, size: Size, isLong: bool): Option<i128> {
    var price :- ExecutionPrice(oracle, s, size, isLong);
    Notional(size, price)
  }

  /** The notionals of the slices, each priced by the code at the skew the slices before it left. */
  function SlicedNotional(oracle: i128, s: SkewState, slices: seq<Size>, isLong: bool): Option<int>
    decreases |slices|
  {
    if slices == [] then Some(0)
    else
      var first :- TradeNotional(oracle, s, slices[0], isLong);
      var skew :- Checked(if isLong then s.skew + slices[0] else s.skew - slices[0]);
      var rest :- SlicedNotional(oracle, s.(skew := skew), slices[1..], isLong);
      Some(first + rest)
  }

  /** The skew has magnitude m on the side the trade grows. */
  predicate OnSide(s: SkewState, m: nat, isLong: bool) {
    s.skew == if isLong then m else Neg(m)
  }

  /** What the notional n falls short of the exact one with fee `cost`, in the direction that saves fees. */
  ghost function Saved(oracle: nat, size: nat, cost: real, isLong: bool, n: int): real {
    var plain := size as real * oracle as real;
    if isLong then (plain + cost) / UNIT - n as real else n as real - (plain - cost) / UNIT
  }

  ghost function Rounding(oracle: nat, size: nat): real { size as real * FeeSlack(oracle) / UNIT }

  /** The notional n lies within the rounding of so many trades of the exact notional. */
  ghost predicate Within(oracle: nat, size: nat, cost: real, isLong: bool, n: int, trades: nat) {
    -(trades as real) <= Saved(oracle, size, cost, isLong, n) <= Rounding(oracle, size) + trades as real
  }

  /** A trade that grows the skew pays the taker fee for the exact mid skew. `-` of an i128 is checked and the
      half is taken after the sign, so an even size loses nothing. */
  lemma {:induction false} TakerTrade(oracle: i128, s: SkewState, m: nat, size: Size, isLong: bool)
    returns (mid: i128, fee: int, price: i128)
    requires oracle > 0 && s.skewScale > 0 && size > 0 && size % 2 == 0 && OnSide(s, m, isLong) && m + size <= I128_MAX
    requires TradeNotional(oracle, s, size, isLong).Some?
    ensures Abs(mid) == m + size / 2 && mid > I128_MIN
    ensures SkewFee(oracle, mid, s.skewScale) == Some(fee)
    ensures price == if isLong then oracle + fee else oracle - fee
    ensures var n := TradeNotional(oracle, s, size, isLong).value as real;
            n - 1.0 <= size as real * price as real / UNIT <= n + 1.0
  {
    mid := MidSkew(s.skew, size, isLong).value;
    fee := SkewFee(oracle, mid, s.skewScale).value;
    price := ExecutionPrice(oracle, s, size, isLong).value;
    RoundedProduct(size, price);
  }

  lemma {:induction false} RoundedProduct(size: Size, price: i128)
    ensures var n := TruncDiv(size * price, PRECISION) as real;
            n - 1.0 <= size as real * price as real / UNIT <= n + 1.0
  {
    var m := Abs(size * price);
    DivBounds(m, PRECISION);
    assert (size * price) as real == size as real * price as real;
    var q := (m / PRECISION) as real;
    assert q * UNIT <= m as real <= (q + 1.0) * UNIT;
    assert q <= m as real / UNIT <= q + 1.0;
  }

  lemma {:induction false} TradeWithinRounding(
    oracle: i128, s: SkewState, m: nat, size: Size, isLong: bool, slope: real, cost: real, n: int)
    requires oracle > 0 && s.skewScale > 0 && size > 0 && size % 2 == 0 && OnSide(s, m, isLong) && m + size <= I128_MAX
    requires TradeNotional(oracle, s, size, isLong) == Some(n)
    requires slope == Slope(oracle, s.skewScale) && cost == ExactCost(slope, m, size)
    ensures Within(oracle, size, cost, isLong, n, 1)
  {
    var exact := ExactFee(slope, m + size / 2);
    assert cost == size as real * exact;
    var mid, fee, price := TakerTrade(oracle, s, m, size, isLong);
    FeeRounding(oracle, mid, s.skewScale, slope, exact);
    PricedWithin(oracle, size, exact, cost, fee, price, isLong, n);
  }

  lemma {:induction false} PricedWithin(
    oracle: nat, size: Size, exact: real, cost: real, fee: int, price: i128, isLong: bool, n: int)
    requires cost == size as real * exact
    requires exact - FeeSlack(oracle) < fee as real <= exact
    requires price == if isLong then oracle + fee else oracle - fee
    requires n as real - 1.0 <= size as real * price as real / UNIT <= n as real + 1.0
    ensures Within(oracle, size, cost, isLong, n, 1)
  {
    ScaledError(size as real, exact, fee as real, FeeSlack(oracle));
    SavedBounds(size as real, oracle as real, fee as real, exact, FeeSlack(oracle), isLong, n as real);
  }

  lemma {:induction false} ScaledError(size: real, exact: real, fee: real, k: real)
    requires size >= 0.0 && exact - k <= fee <= exact
    ensures 0.0 <= size * exact - size * fee <= size * k
  {
    var e := exact - fee;
    assert size * e >= 0.0 && size * (k - e) >= 0.0;
  }

  lemma {:induction false} SavedBounds(
    size: real, oracle: real, fee: real, exact: real, k: real, isLong: bool, n: real)
    requires 0.0 <= size * exact - size * fee <= size * k
    requires var price := if isLong then oracle + fee else oracle - fee;
             n - 1.0 <= size * price / UNIT <= n + 1.0
    ensures var plain := size * oracle;
            var saved := if isLong then (plain + size * exact) / UNIT - n else n - (plain - size * exact) / UNIT;
            -1.0 <= saved <= size * k / UNIT + 1.0
  {
    assert size * (oracle + fee) == size * oracle + size * fee;
    assert size * (oracle - fee) == size * oracle - size * fee;
  }

  lemma {:induction false} NoTrade(oracle: nat, isLong: bool)
    ensures Within(oracle, 0, 0.0, isLong, 0, 0)
  {
    assert 0.0 * oracle as real == 0.0 && 0.0 * FeeSlack(oracle) == 0.0;
  }

  lemma {:induction false} WithinAdds(
    oracle: nat, a: nat, b: nat, total: nat, x: real, cost: real, isLong: bool, n: int, sum: int, trades: nat)
    requires total == a + b
    requires Within(oracle, a, x, isLong, n, 1) && Within(oracle, b, cost - x, isLong, sum - n, trades)
    ensures Within(oracle, total, cost, isLong, sum, trades + 1)
  {
    var p, q, o, k := a as real, b as real, oracle as real, FeeSlack(oracle);
    assert (p + q) * o == p * o + q * o;
    assert (p + q) * k == p * k + q * k;
  }

  lemma {:induction false} FirstSlice(oracle: i128, s: SkewState, m: nat, slices: seq<Size>, isLong: bool, n: int)
    returns (paid: i128, next: SkewState)
    requires slices != [] && OnSide(s, m, isLong) && SlicedNotional(oracle, s, slices, isLong) == Some(n)
    ensures TradeNotional(oracle, s, slices[0], isLong) == Some(paid)
    ensures SlicedNotional(oracle, next, slices[1..], isLong) == Some(n - paid)
    ensures OnSide(next, m + slices[0], isLong) && next.skewScale == s.skewScale
  {
    var first := TradeNotional(oracle, s, slices[0], isLong);
    paid := first.value;
    next := s.(skew := if isLong then s.skew + slices[0] else s.skew - slices[0]);
    var later := SlicedNotional(oracle, next, slices[1..], isLong);
    assert later.Some? && paid + later.value == n;
  }

  lemma {:induction false} SlicesWithinRounding(
    oracle: i128, s: SkewState, m: nat, slices: seq<Size>, isLong: bool, slope: real, cost: real, n: int)
    requires oracle > 0 && s.skewScale > 0 && EvenSlices(slices) && OnSide(s, m, isLong)
    requires m + Total(slices) <= I128_MAX
    requires SlicedNotional(oracle, s, slices, isLong) == Some(n)
    requires slope == Slope(oracle, s.skewScale) && cost == ExactPathCost(slope, m, slices)
    ensures Within(oracle, Total(slices), cost, isLong, n, |slices|)
    decreases |slices|
  {
    if slices == [] {
      NoTrade(oracle, isLong);
    } else {
      var size, rest, first := slices[0], slices[1..], ExactCost(slope, m, slices[0]);
      var paid, next := FirstSlice(oracle, s, m, slices, isLong, n);
      SlicesWithinRounding(oracle, next, m + size, rest, isLong, slope, cost - first, n - paid);
      TradeWithinRounding(oracle, s, m, size, isLong, slope, first, paid);
      WithinAdds(oracle, size, Total(rest), Total(slices), first, cost, isLong, paid, n, |rest|);
    }
  }

  /** Cutting a trade that grows the skew into n even slices changes what the code charges by rounding alone:
      by at most one unit for each trade, and for each unit of size what its two truncated fees can lose. */
  lemma {:induction false} SlicingCostsOnlyRounding(
    oracle: i128, s: SkewState, m: nat, slices: seq<Size>, isLong: bool, sliced: int, whole: int)
    requires oracle > 0 && s.skewScale > 0 && OnSide(s, m, isLong)
    requires slices != [] && EvenSlices(slices) && m + Total(slices) <= I128_MAX
    requires SlicedNotional(oracle, s, slices, isLong) == Some(sliced)
    requires TradeNotional(oracle, s, Total(slices), isLong) == Some(whole)
    ensures var bound := Rounding(oracle, Total(slices)) + |slices| as real + 1.0;
            -bound <= (sliced - whole) as real <= bound
  {
    var total, slope := Total(slices), Slope(oracle, s.skewScale);
    EvenTotal(slices);
    PathIndependence(slope, m, slices);
    var cost := ExactCost(slope, m, total);
    SlicesWithinRounding(oracle, s, m, slices, isLong, slope, cost, sliced);
    TradeWithinRounding(oracle, s, m, total, isLong, slope, cost, whole);
    BothWithin(oracle, total, cost, isLong, sliced, |slices|, whole);
  }

  lemma {:induction false} BothWithin(oracle: nat, size: nat, cost: real, isLong: bool, n: int, trades: nat, m: int)
    requires Within(oracle, size, cost, isLong, n, trades) && Within(oracle, size, cost, isLong, m, 1)
    ensures var bound := Rounding(oracle, size) + trades as real + 1.0; -bound <= (n - m) as real <= bound
  {
  }
}
