/** Portfolio margin: netting a user's positions per market (stellax-risk/src/lib.rs, `portfolio_greeks` and
    `portfolio_health` without an options engine). */
module Netting {
  import opened Int128
  import opened FixedPoint
  import opened MapSums

  datatype Exposure = Exposure(market: u32, size: i128, isLong: bool)

  /** What the oracle and the perp engine say of a market. */
  datatype Quote = Quote(price: i128, maxLeverage: u32)

  datatype Greeks = Greeks(netDelta: map<u32, i128>, totalNotional: i128, netDeltaNotional: i128)

  datatype Health = Health(collateral: i128, required: i128, free: i128, liquidatable: bool, netDelta: i128)

  /** Stored positions have a positive size, prices are positive, and markets are registered with a leverage cap. */
  ghost predicate Quoted(es: seq<Exposure>, qs: map<u32, Quote>) {
    && (forall m :: m in qs ==> qs[m].price > 0 && qs[m].maxLeverage > 0)
    && (forall i :: 0 <= i < |es| ==> es[i].size > 0 && es[i].market in qs)
  }

  function Signed(e: Exposure): int { if e.isLong then e.size else Neg(e.size) }

  /** The sum of signed sizes in one market. */
  ghost function NetSize(es: seq<Exposure>, m: u32): int {
    if es == [] then 0
    else NetSize(es[..|es| - 1], m) + if es[|es| - 1].market == m then Signed(es[|es| - 1]) else 0
  }

  ghost function Gross(es: seq<Exposure>, qs: map<u32, Quote>): int
    requires Quoted(es, qs)
  {
    if es == [] then 0
    else
      var e := es[|es| - 1];
      Gross(es[..|es| - 1], qs) + e.size * qs[e.market].price / PRECISION
  }

  function Entry(d: map<u32, int>, m: u32): int { if m in d then d[m] else 0 }

  /** The map the loop builds. */
  ghost function Deltas(es: seq<Exposure>): map<u32, int> {
    if es == [] then map[]
    else
      var e, d := es[|es| - 1], Deltas(es[..|es| - 1]);
      d[e.market := Entry(d, e.market) + Signed(e)]
  }

  /** The map holds exactly the markets of the positions, each with the sum of its signed sizes. */
  lemma {:induction false} DeltasAreNetSizes(es: seq<Exposure>, m: u32)
    ensures m in Deltas(es) <==> exists i :: 0 <= i < |es| && es[i].market == m
    ensures Entry(Deltas(es), m) == NetSize(es, m)
  {
    if es != [] {
      var prefix, last := es[..|es| - 1], es[|es| - 1];
      DeltasAreNetSizes(prefix, m);
      if m in Deltas(prefix) {
        var i :| 0 <= i < |prefix| && prefix[i].market == m;
        assert es[i].market == m;
      }
      if last.market == m {
        assert es[|es| - 1].market == m;
      }
      if i :| 0 <= i < |es| - 1 && es[i].market == m {
        assert prefix[i].market == m;
      }
    }
  }

  /** |net size| at the market's price, rounded down. */
  ghost function Residual(qs: map<u32, Quote>): (u32, int) -> int {
    (m: u32, d: int) => if m in qs then Abs(d) * qs[m].price / PRECISION else 0
  }

  ghost function NetNotional(d: map<u32, int>, qs: map<u32, Quote>): int { Sum<u32, int>(d, Residual(qs)) }

  /** Adding a position adds at most its own notional and one unit of rounding. */
  lemma {:induction false} OneMorePosition(d: int, s: int, price: nat)
    ensures Abs(d + s) * price / PRECISION <= Abs(d) * price / PRECISION + Abs(s) * price / PRECISION + 1
  {
    MulMonotone(Abs(d + s), price, Abs(d) + Abs(s), price);
    assert (Abs(d) + Abs(s)) * price == Abs(d) * price + Abs(s) * price;
    FloorOfSum(Abs(d + s) * price, Abs(d) * price, Abs(s) * price);
  }

  lemma {:induction false} FloorOfSum(n: nat, a: nat, b: nat)
    requires n <= a + b
    ensures n / PRECISION <= a / PRECISION + b / PRECISION + 1
  {
  }

  /** Netting never costs more than gross, up to one unit for each position. */
  lemma {:induction false} NettingCostsAtMostGross(es: seq<Exposure>, qs: map<u32, Quote>)
    requires Quoted(es, qs)
    ensures NetNotional(Deltas(es), qs) <= Gross(es, qs) + |es|
  {
    if es != [] {
      var prefix, e := es[..|es| - 1], es[|es| - 1];
      var d, f := Deltas(prefix), Residual(qs);
      NettingCostsAtMostGross(prefix, qs);
      SumUpdate(d, f, e.market, Entry(d, e.market) + Signed(e));
      OneMorePosition(Entry(d, e.market), Signed(e), qs[e.market].price);
      QuotientBelow(Abs(Entry(d, e.market)) * qs[e.market].price, PRECISION, 0);
      assert Abs(Signed(e)) == e.size;
    }
  }

  ghost predicate Priced(d: map<u32, int>, qs: map<u32, Quote>) {
    forall m :: m in d ==> m in qs && qs[m].price > 0
  }

  lemma {:induction false} DeltasPriced(es: seq<Exposure>, qs: map<u32, Quote>)
    requires Quoted(es, qs)
    ensures Priced(Deltas(es), qs)
  {
    forall m | m in Deltas(es)
      ensures m in qs
    {
      DeltasAreNetSizes(es, m);
    }
  }

  lemma {:induction false} ResidualsNotNegative(d: map<u32, int>, qs: map<u32, Quote>)
    requires Priced(d, qs)
    ensures forall m :: m in d ==> 0 <= Residual(qs)(m, d[m])
    ensures 0 <= NetNotional(d, qs)
  {
    forall m | m in d
      ensures 0 <= Residual(qs)(m, d[m])
    {
      MulMonotone(0, 0, Abs(d[m]), qs[m].price);
      QuotientBelow(Abs(d[m]) * qs[m].price, PRECISION, 0);
    }
    SumNonNegative(d, Residual(qs));
  }

  // ----- the loops -----

  /** No sum the first loop forms leaves i128. */
  ghost predicate Fits(es: seq<Exposure>, qs: map<u32, Quote>)
    requires Quoted(es, qs)
  {
    es == [] || (&& Fits(es[..|es| - 1], qs)
                 && InI128(Entry(Deltas(es), es[|es| - 1].market))
                 && Gross(es, qs) <= I128_MAX)
  }

  lemma {:induction false} GrossNotNegative(es: seq<Exposure>, qs: map<u32, Quote>)
    requires Quoted(es, qs)
    ensures 0 <= Gross(es, qs)
  {
    if es != [] {
      var e := es[|es| - 1];
      GrossNotNegative(es[..|es| - 1], qs);
      MulMonotone(0, 0, e.size, qs[e.market].price);
      QuotientBelow(e.size * qs[e.market].price, PRECISION, 0);
    }
  }

  lemma {:induction false} FitsPrefix(es: seq<Exposure>, qs: map<u32, Quote>, k: nat)
    requires Quoted(es, qs) && Fits(es, qs) && k <= |es|
    ensures Fits(es[..k], qs)
    decreases |es|
  {
    if k < |es| {
      assert es[..|es| - 1][..k] == es[..k];
      FitsPrefix(es[..|es| - 1], qs, k);
    } else {
      assert es[..k] == es;
    }
  }

  /** One more step of the first loop, in terms of what it has. */
  lemma {:induction false} StepFits(es: seq<Exposure>, qs: map<u32, Quote>, i: nat)
    requires Quoted(es, qs) && i < |es| && Fits(es[..i], qs)
    ensures var e, d := es[i], Deltas(es[..i]);
            var gross := Gross(es[..i], qs) + e.size * qs[e.market].price / PRECISION;
            && Deltas(es[..i + 1]) == d[e.market := Entry(d, e.market) + Signed(e)]
            && Gross(es[..i + 1], qs) == gross
            && (Fits(es[..i + 1], qs) <==> InI128(Entry(d, e.market) + Signed(e)) && gross <= I128_MAX)
            && (Fits(es, qs) ==> Fits(es[..i + 1], qs))
  {
    assert es[..i + 1][..i] == es[..i];
    if Fits(es, qs) {
      FitsPrefix(es, qs, i + 1);
    }
  }

  /** What one more market adds to the sum; markets not yet visited can only add more. */
  lemma {:induction false} OneMoreMarket(delta: map<u32, int>, rest: set<u32>, qs: map<u32, Quote>, m: u32)
    requires Priced(delta, qs) && m in rest && m in delta
    ensures var done, next := NetNotional(delta - rest, qs), NetNotional(delta - (rest - {m}), qs);
            && next == done + Abs(delta[m]) * qs[m].price / PRECISION
            && 0 <= done <= next <= NetNotional(delta, qs)
            && (delta[m] == 0 ==> next == done)
  {
    assert delta - (rest - {m}) == (delta - rest)[m := delta[m]];
    ResidualsNotNegative(delta, qs);
    ResidualsNotNegative(delta - rest, qs);
    assert 0 <= Residual(qs)(m, delta[m]);
    assert 0 * qs[m].price == 0;
    SumUpdate(delta - rest, Residual(qs), m, delta[m]);
    SumAtMost(delta - (rest - {m}), Residual(qs), delta, Residual(qs));
  }

  /** The sum of |net size| at the market's price, over the markets in any order. */
  method Aggregate(delta: map<u32, int>, qs: map<u32, Quote>) returns (r: Option<i128>)
    requires Priced(delta, qs) && forall m :: m in delta ==> InI128(delta[m])
    ensures r.Some? <==> (forall m :: m in delta ==> delta[m] > I128_MIN) && NetNotional(delta, qs) <= I128_MAX
    ensures r.Some? ==> r.value == NetNotional(delta, qs)
  {
    var total: i128, rest := 0, delta.Keys;
    assert delta - rest == map[];
    while rest != {}
      invariant rest <= delta.Keys
      invariant forall m :: m in delta && m !in rest ==> delta[m] > I128_MIN
      invariant total == NetNotional(delta - rest, qs)
      decreases |rest|
    {
      var m :| m in rest;
      OneMoreMarket(delta, rest, qs, m);
      rest := rest - {m};
      if delta[m] != 0 {
        var sum := AddMarket(total, delta[m], qs[m].price);
        if sum.None? {
          return None;
        }
        total := sum.value;
      }
    }
    assert delta - rest == delta;
    return Some(total);
  }

  method AddMarket(total: i128, delta: i128, price: i128) returns (r: Option<i128>)
    requires 0 <= total && 0 < price
    ensures r.Some? <==> delta > I128_MIN && total + Abs(delta) * price / PRECISION <= I128_MAX
    ensures r.Some? ==> r.value == total + Abs(delta) * price / PRECISION
  {
    if delta == I128_MIN {
      return None;
    }
    MulMonotone(0, 0, Abs(delta), price);
    QuotientBelow(Abs(delta) * price, PRECISION, 0);
    r := AddNotional(total, Abs(delta), price);
  }

  /** total + |delta| * price, with the product and the sum checked. */
  method AddNotional(total: i128, size: i128, price: i128) returns (r: Option<i128>)
    requires 0 <= total && 0 <= size && 0 < price
    ensures r == Checked(total + size * price / PRECISION)
  {
    MulMonotone(0, 0, size, price);
    QuotientBelow(size * price, PRECISION, 0);
    var notional := MulPrecision(size, price);
    if notional.None? || !InI128(total + notional.value) {
      return None;
    }
    return Some(total + notional.value);
  }

  /** The first loop of `portfolio_greeks`. */
  method NetDeltas(es: seq<Exposure>, qs: map<u32, Quote>) returns (r: Option<(map<u32, i128>, i128)>)
    requires Quoted(es, qs)
    ensures r.Some? <==> Fits(es, qs)
    ensures r.Some? ==> r.value.0 == Deltas(es) && r.value.1 == Gross(es, qs)
  {
    var netDelta: map<u32, i128>, totalNotional: i128 := map[], 0;
    for i := 0 to |es|
      invariant netDelta == Deltas(es[..i])
      invariant totalNotional == Gross(es[..i], qs) && Fits(es[..i], qs)
    {
      var e := es[i];
      GrossNotNegative(es[..i], qs);
      StepFits(es, qs, i);
      var current := if e.market in netDelta then netDelta[e.market] else 0;
      if !InI128(current + Signed(e)) {
        return None;
      }
      var sum := AddNotional(totalNotional, e.size, qs[e.market].price);
      if sum.None? {
        return None;
      }
      netDelta := netDelta[e.market := current + Signed(e)];
      totalNotional := sum.value;
    }
    assert es[..|es|] == es;
    return Some((netDelta, totalNotional));
  }

  ghost predicate GreeksFit(es: seq<Exposure>, qs: map<u32, Quote>)
    requires Quoted(es, qs)
  {
    DeltasPriced(es, qs);
    && Fits(es, qs)
    && (forall m :: m in Deltas(es) ==> Deltas(es)[m] > I128_MIN)
    && NetNotional(Deltas(es), qs) <= I128_MAX
  }

  /** `portfolio_greeks`: exact whenever no sum overflows, and nothing otherwise. */
  method PortfolioGreeks(es: seq<Exposure>, qs: map<u32, Quote>) returns (r: Option<Greeks>)
    requires Quoted(es, qs)
    ensures r.Some? <==> GreeksFit(es, qs)
    ensures r.Some? ==> r.value.netDelta == Deltas(es) && r.value.totalNotional == Gross(es, qs)
                        && r.value.netDeltaNotional == NetNotional(Deltas(es), qs)
  {
    var sums := NetDeltas(es, qs);
    if sums.None? {
      return None;
    }
    DeltasPriced(es, qs);
    var aggregate := Aggregate(sums.value.0, qs);
    if aggregate.None? {
      return None;
    }
    return Some(Greeks(sums.value.0, sums.value.1, aggregate.value));
  }

  /** The tightest leverage cap among the markets with a net position; 0 when there is none. */
  ghost predicate IsTightest(l: nat, delta: map<u32, int>, qs: map<u32, Quote>)
    requires delta.Keys <= qs.Keys
  {
    && (l == 0 <==> forall m :: m in delta ==> delta[m] == 0)
    && (l != 0 ==> exists m :: m in delta && delta[m] != 0 && qs[m].maxLeverage == l)
    && (forall m :: m in delta && delta[m] != 0 ==> l <= qs[m].maxLeverage)
  }

  method TightestLeverage(delta: map<u32, i128>, qs: map<u32, Quote>) returns (l: u32)
    requires delta.Keys <= qs.Keys && forall m :: m in qs ==> qs[m].maxLeverage > 0
    ensures IsTightest(l, delta, qs)
  {
    l := 0;
    var rest := delta.Keys;
    while rest != {}
      invariant rest <= delta.Keys
      invariant l == 0 <==> forall m :: m in delta && m !in rest ==> delta[m] == 0
      invariant l != 0 ==> exists m :: m in delta && delta[m] != 0 && qs[m].maxLeverage == l
      invariant forall m :: m in delta && m !in rest && delta[m] != 0 ==> l <= qs[m].maxLeverage
      decreases |rest|
    {
      var m :| m in rest;
      rest := rest - {m};
      if delta[m] != 0 && (l == 0 || qs[m].maxLeverage < l) {
        l := qs[m].maxLeverage;
      }
    }
  }

  /** `initial_margin_requirement`, and nothing when no market has a net position. */
  function MarginFor(notional: nat, l: nat): (margin: nat)
    ensures margin <= notional
  {
    if l == 0 then 0 else
      QuotientBelow(notional, l, 0);
      DivBounds(notional, l);
      MulMonotone(notional / l, 1, notional / l, l);
      notional / l
  }

  /** The residual notional over the tightest leverage cap. */
  ghost predicate IsRequired(es: seq<Exposure>, qs: map<u32, Quote>, required: int)
    requires Quoted(es, qs)
  {
    DeltasPriced(es, qs);
    ResidualsNotNegative(Deltas(es), qs);
    exists l: u32 :: IsTightest(l, Deltas(es), qs) && required == MarginFor(NetNotional(Deltas(es), qs), l)
  }

  ghost function TotalPnl(pnl: seq<i128>): int {
    if pnl == [] then 0 else TotalPnl(pnl[..|pnl| - 1]) + pnl[|pnl| - 1]
  }

  /** Every sum of the profit loop fits i128. */
  ghost predicate PnlFits(pnl: seq<i128>, funding: seq<i128>)
    requires |pnl| == |funding|
  {
    pnl == [] ||
    var n := |pnl| - 1;
    var trade := (pnl[n] as int) - funding[n];
    && PnlFits(pnl[..n], funding[..n])
    && InI128(trade) && InI128(TotalPnl(pnl[..n]) + trade) && InI128(TotalPnl(pnl))
  }

  lemma {:induction false} FitsUpTo(pnl: seq<i128>, funding: seq<i128>, n: nat)
    requires |pnl| == |funding| && n <= |pnl| && PnlFits(pnl, funding)
    ensures PnlFits(pnl[..n], funding[..n])
  {
    if n == |pnl| {
      assert pnl[..n] == pnl && funding[..n] == funding;
    } else {
      var last := |pnl| - 1;
      FitsUpTo(pnl[..last], funding[..last], n);
      assert pnl[..last][..n] == pnl[..n] && funding[..last][..n] == funding[..n];
    }
  }

  lemma {:induction false} NextSum(pnl: seq<i128>, funding: seq<i128>, i: nat, total: int)
    requires |pnl| == |funding| && i < |pnl| && total == TotalPnl(pnl[..i]) && PnlFits(pnl[..i], funding[..i])
    ensures var trade := (pnl[i] as int) - funding[i];
            PnlFits(pnl[..i + 1], funding[..i + 1]) <==>
              InI128(trade) && InI128(total + trade) && InI128(total + trade + funding[i])
    ensures TotalPnl(pnl[..i + 1]) == total + pnl[i]
  {
    assert pnl[..i + 1][..i] == pnl[..i] && funding[..i + 1][..i] == funding[..i];
  }

  /** `portfolio_health`, given the collateral value and the unrealized profit and funding of each position. */
  method PortfolioHealth(
    es: seq<Exposure>, qs: map<u32, Quote>, collateral: i128, pnl: seq<i128>, funding: seq<i128>)
    returns (r: Option<Health>)
    requires Quoted(es, qs) && |pnl| == |funding| == |es|
    ensures r.Some? <==> GreeksFit(es, qs) && PnlFits(pnl, funding) && InI128(collateral + TotalPnl(pnl))
                         && exists required :: IsRequired(es, qs, required)
                             && InI128(collateral + TotalPnl(pnl) - required)
    ensures r.Some? ==>
              && r.value.collateral == collateral + TotalPnl(pnl)
              && r.value.netDelta == NetNotional(Deltas(es), qs)
              && r.value.free == r.value.collateral - r.value.required
              && (r.value.liquidatable <==> r.value.required > 0 && r.value.collateral < r.value.required)
    ensures r.Some? ==> IsRequired(es, qs, r.value.required)
  {
    var greeks := PortfolioGreeks(es, qs);
    if greeks.None? {
      return None;
    }
    DeltasPriced(es, qs);
    ResidualsNotNegative(Deltas(es), qs);
    var l := TightestLeverage(greeks.value.netDelta, qs);
    var required: i128 := MarginFor(greeks.value.netDeltaNotional, l);
    assert IsRequired(es, qs, required);
    forall other | IsRequired(es, qs, other)
      ensures other == required
    {
      OneRequirement(es, qs, required, other);
    }
    var unrealized := Unrealized(pnl, funding);
    if unrealized.None? || !InI128(collateral + unrealized.value) || !InI128(collateral + unrealized.value - required) {
      return None;
    }
    var value := collateral + unrealized.value;
    return Some(Health(value, required, value - required, required > 0 && value < required,
                       greeks.value.netDeltaNotional));
  }

  /** Funding is taken out of each profit and added back, with every sum checked. */
  method Unrealized(pnl: seq<i128>, funding: seq<i128>) returns (r: Option<i128>)
    requires |pnl| == |funding|
    ensures r.Some? <==> PnlFits(pnl, funding)
    ensures r.Some? ==> r.value == TotalPnl(pnl)
  {
    var total: i128 := 0;
    for i := 0 to |pnl|
      invariant total == TotalPnl(pnl[..i]) && PnlFits(pnl[..i], funding[..i])
    {
      NextSum(pnl, funding, i, total);
      var trade: int := pnl[i];
      trade := trade - funding[i];
      if !InI128(trade) || !InI128(total + trade) || !InI128(total + trade + funding[i]) {
        if PnlFits(pnl, funding) { FitsUpTo(pnl, funding, i + 1); }
        return None;
      }
      total := total + trade + funding[i];
    }
    assert pnl[..|pnl|] == pnl && funding[..|pnl|] == funding;
    return Some(total);
  }

  /** The tightest cap, and so the required margin, is one number. */
  lemma {:induction false} OneTightest(l: u32, k: u32, delta: map<u32, int>, qs: map<u32, Quote>)
    requires delta.Keys <= qs.Keys && IsTightest(l, delta, qs) && IsTightest(k, delta, qs)
    ensures l == k
  {
  }

  lemma {:induction false} OneRequirement(es: seq<Exposure>, qs: map<u32, Quote>, a: int, b: int)
    requires Quoted(es, qs) && IsRequired(es, qs, a) && IsRequired(es, qs, b)
    ensures a == b
  {
    DeltasPriced(es, qs);
    ResidualsNotNegative(Deltas(es), qs);
    var l: u32 :| IsTightest(l, Deltas(es), qs) && a == MarginFor(NetNotional(Deltas(es), qs), l);
    var k: u32 :| IsTightest(k, Deltas(es), qs) && b == MarginFor(NetNotional(Deltas(es), qs), k);
    OneTightest(l, k, Deltas(es), qs);
  }

  /** A fully offset portfolio needs no margin, whatever it holds. */
  lemma {:induction false} OffsetNeedsNoMargin(es: seq<Exposure>, qs: map<u32, Quote>, required: int)
    requires Quoted(es, qs) && IsRequired(es, qs, required)
    requires forall m :: NetSize(es, m) == 0
    ensures required == 0
  {
    forall m | m in Deltas(es)
      ensures Deltas(es)[m] == 0
    {
      DeltasAreNetSizes(es, m);
    }
  }

  /** The margin is never more than the gross notional, and a unit for each position, over the lowest cap. */
  lemma {:induction false} MarginAtMostGross(es: seq<Exposure>, qs: map<u32, Quote>, required: int, cap: nat)
    requires Quoted(es, qs) && IsRequired(es, qs, required)
    requires 0 < cap && forall m :: m in qs ==> cap <= qs[m].maxLeverage
    ensures 0 <= required * cap <= Gross(es, qs) + |es|
  {
    NettingCostsAtMostGross(es, qs);
    DeltasPriced(es, qs);
    ResidualsNotNegative(Deltas(es), qs);
    var l: u32 :| IsTightest(l, Deltas(es), qs) && required == MarginFor(NetNotional(Deltas(es), qs), l);
    MarginScales(NetNotional(Deltas(es), qs), l, required, cap);
  }

  lemma {:induction false} MarginScales(notional: nat, l: nat, required: int, cap: nat)
    requires required == MarginFor(notional, l) && (l != 0 ==> cap <= l)
    ensures 0 <= required * cap <= notional
  {
    if l != 0 {
      DivBounds(notional, l);
      QuotientBelow(notional, l, 0);
      MulMonotone(required, cap, required, l);
    }
  }
}
