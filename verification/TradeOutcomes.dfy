/** What trades come to across entry points: a close undoes an open, and neither pays by itself. */
module TradeOutcomes {
  import opened Int128
  import opened Host
  import opened FixedPoint
  import opened MapSums
  import opened Pricing
  import opened PerpBooks
  import opened Trading
  import opened FundsLemmas
  import opened DeskInvariants
  import opened DeskCloses
  import opened Liquidation
  import Vault

  lemma {:induction false} AppendedThenRemoved(ids: seq<u64>, id: u64)
    requires id !in ids
    ensures Without(ids + [id], id) == ids
  {
    if ids == [] {
    } else {
      assert (ids + [id])[1..] == ids[1..] + [id];
      AppendedThenRemoved(ids[1..], id);
    }
  }

  /** Closing a just-opened position restores the books: positions, open interest, skew and the owner's list. */
  lemma {:induction false} CloseUndoesOpen(
    d: Desk, e: Env, user: Address, m: u32, size: i128, isLong: bool, leverage: u32, maxSlippageBps: u32,
    d1: Desk, f: Env, d2: Desk, surplus: Surplus)
    requires DeskSound(d, surplus)
    requires OpenPosition(d, e, user, m, size, isLong, leverage, maxSlippageBps) == Ok(d1)
    requires ClosePosition(d1, f, user, d.perp.nextId) == Ok(d2)
    ensures d2.perp.positions == d.perp.positions && IdsOf(d2.perp.userIds, user) == IdsOf(d.perp.userIds, user)
    ensures m in d.perp.markets && m in d2.perp.markets
    ensures var was, now := d.perp.markets[m], d2.perp.markets[m];
            now.oiLong == was.oiLong && now.oiShort == was.oiShort && now.skew == was.skew
  {
    var pos, b, locked, fee := OpenEffect(d, e, user, m, size, isLong, leverage, maxSlippageBps, d1);
    var gross, closeFee, b2 := CloseEffect(d1, f, user, d.perp.nextId, d2);
    OpenedBooks(d.perp, pos, b, d1.perp);
    BookRestored(d.perp.markets[m], b, b2, isLong, size);
    assert ListExact(d.perp, user);
    ListRestored(d.perp, pos, b, d1.perp, b2, d2.perp);
  }

  lemma {:induction false} OpenedBooks(p: PerpState, pos: Position, b: MarketBook, r: PerpState)
    requires AddPosition(SetBook(p, pos.market, b), pos) == Ok(r)
    ensures r.positions[p.nextId] == pos && r.markets[pos.market] == b
  {
  }

  /** Closing a just-opened position restores the vault's locks. */
  lemma {:induction false} CloseUndoesLock(
    d: Desk, e: Env, user: Address, m: u32, size: i128, isLong: bool, leverage: u32, maxSlippageBps: u32,
    d1: Desk, f: Env, d2: Desk, surplus: Surplus)
    requires DeskSound(d, surplus) && user != d.w.slp
    requires OpenPosition(d, e, user, m, size, isLong, leverage, maxSlippageBps) == Ok(d1)
    requires ClosePosition(d1, f, user, d.perp.nextId) == Ok(d2)
    ensures Lockbox(d2.funds) == Lockbox(d.funds)
  {
    var id := d.perp.nextId;
    var pos, b, locked, fee := OpenEffect(d, e, user, m, size, isLong, leverage, maxSlippageBps, d1);
    var gross, closeFee, b2 := CloseEffect(d1, f, user, id, d2);
    OpenedBooks(d.perp, pos, b, d1.perp);
    assert d1.perp.positions[id] == pos && d1.w == d.w;
    LocksMeet(d.funds, locked, d1.funds, d2.funds, d.w, e, pos, id, fee, gross, closeFee);
    FreshKey(d, user, surplus);
    LockRestored(Lockbox(d.funds), (user, id), pos.margin);
  }

  lemma {:induction false} LocksMeet(
    f: Funds, locked: Funds, g: Funds, h: Funds, w: Wiring, e: Env, pos: Position, id: u64, fee: i128, gross: i128,
    closeFee: i128)
    requires pos.owner != w.slp
    requires Lock(f, w, pos.owner, id, pos.margin, e.prices) == Ok(locked)
        && PayOpenFee(locked, w, pos.owner, fee) == Ok(g)
    requires SettleClose(g, w, pos.owner, id, pos.margin, gross, closeFee) == Ok(h)
    ensures Lockbox(h) == Vault.Released(WithLock(f, pos.owner, id, pos.margin), (pos.owner, id), pos.margin)
  {
    LockBacked(f, w, pos.owner, id, pos.margin, e.prices, locked);
    OpenFeeBacked(locked, w, pos.owner, fee, g);
    SettleBacked(g, w, pos.owner, id, pos.margin, gross, closeFee, h);
  }

  lemma {:induction false} BookRestored(
    was: MarketBook, opened_: MarketBook, closed: MarketBook, isLong: bool, size: i128)
    requires BookMoved(was, opened_, isLong, size) && opened_.skew == was.skew.(skew := opened_.skew.skew)
    requires BookWithout(opened_, isLong, size) == Ok(closed)
    ensures closed.oiLong == was.oiLong && closed.oiShort == was.oiShort && closed.skew == was.skew
  {
  }

  lemma {:induction false} FreshKey(d: Desk, user: Address, surplus: Surplus)
    requires LocksCover(d.perp, Lockbox(d.funds), surplus)
    ensures (user, d.perp.nextId) !in Lockbox(d.funds)
  {
  }

  lemma {:induction false} LockRestored(locked: map<(Address, u64), int>, key: (Address, u64), amount: i128)
    requires key !in locked
    ensures Vault.Released(locked[key := Get(locked, key) + amount], key, amount) == locked
  {
    assert locked[key := amount] - {key} == locked;
  }

  lemma {:induction false} ListRestored(
    p: PerpState, pos: Position, b: MarketBook, p1: PerpState, b2: MarketBook, p2: PerpState)
    requires PositionsSound(p) && ListExact(p, pos.owner)
    requires AddPosition(SetBook(p, pos.market, b), pos) == Ok(p1)
    requires p2 == RemovePosition(SetBook(p1, pos.market, b2), p.nextId, false)
    ensures p2.positions == p.positions && IdsOf(p2.userIds, pos.owner) == IdsOf(p.userIds, pos.owner)
    ensures p2.markets[pos.market] == b2
  {
    AppendedThenRemoved(IdsOf(p.userIds, pos.owner), p.nextId);
    assert p.nextId !in p.positions;
    assert p.positions[p.nextId := pos] - {p.nextId} == p.positions;
  }

  // ----- the money -----

  lemma {:induction false} NoFundingYet(idx: i128, size: i128)
    ensures FundingPnl(idx, idx, size) == Some(0)
  {
    assert 0 * size == 0;
    DivUnique(0, PRECISION, 0);
  }

  /** What an accepted open takes from the user's settlement balance: its fee. */
  lemma {:induction false} OpenCosts(
    f: Funds, locked: Funds, g: Funds, w: Wiring, e: Env, user: Address, id: u64, margin: i128, fee: i128)
    requires user != w.slp && Lock(f, w, user, id, margin, e.prices) == Ok(locked)
    requires PayOpenFee(locked, w, user, fee) == Ok(g)
    ensures SettlementBalance(g, w, user) == SettlementBalance(f, w, user) - Max(fee, 0)
  {
    LockLeavesBalances(f, w, user, id, margin, e.prices, locked);
    OpenFeeBacked(locked, w, user, fee, g);
  }

  /** The fees of opening and at once closing: the taker's on the entry notional, the maker's on the exit notional, the
      second never more than the margin. */
  function RoundTripFees(price: i128, b: MarketBook, size: i128, isLong: bool, leverage: u32): Option<int>
    requires leverage > 0
  {
    var entry :- ExecutionPrice(price, b.skew, size, isLong);
    var next :- Checked(SkewAfter(b.skew.skew, size, isLong));
    var exit :- ExecutionPrice(price, b.skew.(skew := next), size, !isLong);
    var bought :- Notional(size, entry);
    var sold :- Notional(size, exit);
    var openFee :- ApplyBps(bought, b.info.takerFeeBps);
    var closeFee :- ApplyBps(sold, b.info.makerFeeBps);
    var margin :- Checked(TruncDiv(bought, leverage));
    Some(Max(openFee, 0) + FeeTaken(margin, closeFee))
  }

  /** What opening and at once closing, at one price and one funding index, does to the user's settlement balance. The
      user ends with more exactly when the gain of the round trip on every unit of size reaches one unit more than both
      fees; then the difference is the profit less the fees. That takes a market with a maker rebate. */
  lemma {:induction false} RoundTripPays(
    d: Desk, e: Env, user: Address, m: u32, size: i128, isLong: bool, leverage: u32, maxSlippageBps: u32,
    d1: Desk, d2: Desk, surplus: Surplus)
    requires DeskSound(d, surplus) && user != d.w.slp
    requires OpenPosition(d, e, user, m, size, isLong, leverage, maxSlippageBps) == Ok(d1)
    requires ClosePosition(d1, e, user, d.perp.nextId) == Ok(d2)
    ensures m in d.perp.markets && leverage > 0
    ensures var b := d.perp.markets[m];
            var before, after := SettlementBalance(d.funds, d.w, user), SettlementBalance(d2.funds, d.w, user);
            var gain, fees :=
                RoundTripGain(e.price, b.skew, size, isLong), RoundTripFees(e.price, b, size, isLong, leverage);
            && gain.Some? && fees.Some? && fees.value >= 0
            && (after > before <==> size * gain.value >= (fees.value + 1) * PRECISION)
            && (after > before ==> after == before + TruncDiv(size * gain.value, PRECISION) - fees.value)
            && (after > before && b.skew.skewScale > 0 ==> b.skew.makerRebateBps > 0)
  {
    var id := d.perp.nextId;
    var pos, b, locked, fee := OpenEffect(d, e, user, m, size, isLong, leverage, maxSlippageBps, d1);
    OpenedBooks(d.perp, pos, b, d1.perp);
    OpenCosts(d.funds, locked, d1.funds, d.w, e, user, id, pos.margin, fee);
    var gross, closeFee, b2 := CloseEffect(d1, e, user, id, d2);
    var gain := GrossOfRoundTrip(e, pos, d.perp.markets[m], b, gross, closeFee);
    FeesOfRoundTrip(e, pos, d.perp.markets[m], b, fee, gross, closeFee);
    CloseCosts(d1.funds, d.w, user, id, pos.margin, gross, closeFee, d2.funds);
    var fees := Max(fee, 0) + FeeTaken(pos.margin, closeFee);
    AtLeast(size * gain, fees + 1);
    if gross > fees {
      assert OiExact(d.perp, m);
      OpenInterestNotNegative(d.perp, m);
      GrossNeedsRebate(e, pos, d.perp.markets[m], b, gross, closeFee);
    }
  }

  lemma {:induction false} CloseCosts(
    f: Funds, w: Wiring, user: Address, id: u64, released: i128, gross: i128, fee: i128, g: Funds)
    requires user != w.slp && released > 0 && SettleClose(f, w, user, id, released, gross, fee) == Ok(g)
    ensures var before, after := SettlementBalance(f, w, user), SettlementBalance(g, w, user);
            if gross >= 0 then after == before - FeeTaken(released, fee) + gross else after <= before
    ensures FeeTaken(released, fee) >= 0
  {
    SettleBacked(f, w, user, id, released, gross, fee, g);
  }

  lemma {:induction false} CloseTermsEffect(
    e: Env, pos: Position, b: MarketBook, size: i128, price: i128, gross: i128, fee: i128)
    returns (exec: i128, trade: i128, funding: i128)
    requires CloseTerms(e, pos, b, size, price) == Ok((gross, fee))
    ensures ExecutionPrice(price, b.skew, size, !pos.isLong) == Some(exec)
    ensures FundingPnl(pos.fundingIdx, FundingIdx(e, pos.isLong), size) == Some(funding)
    ensures TradePnl(pos.isLong, size, pos.entry, exec) == Some(trade) && gross == trade + funding
    ensures Notional(size, exec).Some? && ApplyBps(Notional(size, exec).value, b.info.makerFeeBps) == Some(fee)
  {
    exec := ExecutionPrice(price, b.skew, size, !pos.isLong).value;
    trade := TradePnl(pos.isLong, size, pos.entry, exec).value;
    funding := FundingPnl(pos.fundingIdx, FundingIdx(e, pos.isLong), size).value;
  }

  /** A position and its market right after the position was opened from the book `was`. */
  ghost predicate JustOpened(e: Env, pos: Position, was: MarketBook, b: MarketBook) {
    && pos.size > 0 && e.price > 0 && pos.fundingIdx == FundingIdx(e, pos.isLong)
    && BookMoved(was, b, pos.isLong, pos.size) && b.info == was.info && b.skew == was.skew.(skew := b.skew.skew)
    && ExecutionPrice(e.price, was.skew, pos.size, pos.isLong) == Some(pos.entry)
  }

  lemma {:induction false} GrossOfRoundTrip(
    e: Env, pos: Position, was: MarketBook, b: MarketBook, gross: i128, fee: i128)
    returns (gain: int)
    requires JustOpened(e, pos, was, b) && CloseTerms(e, pos, b, pos.size, e.price) == Ok((gross, fee))
    ensures RoundTripGain(e.price, was.skew, pos.size, pos.isLong) == Some(gain)
    ensures gross == TruncDiv(pos.size * gain, PRECISION)
  {
    var exec, trade, funding := CloseTermsEffect(e, pos, b, pos.size, e.price, gross, fee);
    NoFundingYet(pos.fundingIdx, pos.size);
    assert b.skew == was.skew.(skew := SkewAfter(was.skew.skew, pos.size, pos.isLong));
    RoundTripProfit(e.price, was.skew, pos.size, pos.isLong, pos.entry, exec);
    gain := RoundTripGain(e.price, was.skew, pos.size, pos.isLong).value;
  }

  lemma {:induction false} FeesOfRoundTrip(
    e: Env, pos: Position, was: MarketBook, b: MarketBook, openFee: i128, gross: i128, closeFee: i128)
    requires JustOpened(e, pos, was, b) && CloseTerms(e, pos, b, pos.size, e.price) == Ok((gross, closeFee))
    requires pos.leverage > 0 && Notional(pos.size, pos.entry).Some?
    requires pos.margin == TruncDiv(Notional(pos.size, pos.entry).value, pos.leverage)
    requires ApplyBps(Notional(pos.size, pos.entry).value, b.info.takerFeeBps) == Some(openFee)
    ensures RoundTripFees(e.price, was, pos.size, pos.isLong, pos.leverage)
         == Some(Max(openFee, 0) + FeeTaken(pos.margin, closeFee))
  {
    var exec, trade, funding := CloseTermsEffect(e, pos, b, pos.size, e.price, gross, closeFee);
    assert b.skew == was.skew.(skew := SkewAfter(was.skew.skew, pos.size, pos.isLong));
  }

  lemma {:induction false} GrossNeedsRebate(
    e: Env, pos: Position, was: MarketBook, b: MarketBook, gross: i128, fee: i128)
    requires JustOpened(e, pos, was, b) && CloseTerms(e, pos, b, pos.size, e.price) == Ok((gross, fee))
    requires was.oiLong >= 0 && was.oiShort >= 0 && was.skew.skew == was.oiLong - was.oiShort && gross > 0
    ensures was.skew.skewScale > 0 ==> was.skew.makerRebateBps > 0
  {
    if was.skew.skewScale > 0 {
      var exec, trade, funding := CloseTermsEffect(e, pos, b, pos.size, e.price, gross, fee);
      NoFundingYet(pos.fundingIdx, pos.size);
      assert b.skew == was.skew.(skew := SkewAfter(was.skew.skew, pos.size, pos.isLong));
      RoundTripProfitNeedsRebate(e.price, was.skew, pos.size, pos.isLong, was.oiLong, was.oiShort, pos.entry, exec);
    }
  }

  // ----- liquidation -----

  lemma {:induction false} LowerLeverageMoreMargin(notional: nat, leverage: nat, cap: nat)
    requires 0 < leverage <= cap
    ensures 0 <= TruncDiv(notional, cap) <= TruncDiv(notional, leverage)
  {
    DivBounds(notional, cap);
    QuotientBelow(notional, cap, 0);
    MulMonotone(notional / cap, leverage, notional / cap, cap);
    QuotientBelow(notional, leverage, notional / cap);
  }

  lemma {:induction false} MaintenanceAtMostInitial(notional: nat, cap: u32)
    requires cap > 0 && notional <= I128_MAX
    ensures Maintenance(notional, cap).Ok? ==> Maintenance(notional, cap).value <= TruncDiv(notional, cap)
  {
    QuotientBelow(notional, cap, 0);
  }

  /** A position within its market's leverage cap cannot be liquidated at its own entry price and funding index. */
  lemma {:induction false} SafeAtEntry(pos: Position, e: Env, info: MarketInfo)
    requires pos.size > 0 && e.price == pos.entry && FundingIdx(e, pos.isLong) == pos.fundingIdx
    requires 0 < pos.leverage <= info.maxLeverage
    requires Notional(pos.size, pos.entry).Some? && Notional(pos.size, pos.entry).value > 0
    requires pos.margin == TruncDiv(Notional(pos.size, pos.entry).value, pos.leverage)
    ensures Shortage(pos, e, info).Ok? ==> Shortage(pos, e, info).value.0 >= Shortage(pos, e, info).value.1
  {
    var notional := Notional(pos.size, pos.entry).value;
    NoFundingYet(pos.fundingIdx, pos.size);
    LowerLeverageMoreMargin(notional, pos.leverage, info.maxLeverage);
    MaintenanceAtMostInitial(notional, info.maxLeverage);
    assert pos.size * 0 == 0;
    DivUnique(0, PRECISION, 0);
  }

  /** Right after it was opened a position cannot be liquidated at its entry price, whatever the clock, the ledger and
      the other prices, while its funding index stands. */
  lemma {:induction false} FreshPositionIsSafe(
    d: Desk, e: Env, user: Address, m: u32, size: i128, isLong: bool, leverage: u32, maxSlippageBps: u32,
    d1: Desk, r: RiskState, f: Env, keeper: Address)
    requires OpenPosition(d, e, user, m, size, isLong, leverage, maxSlippageBps) == Ok(d1)
    requires var id := d.perp.nextId;
             f.price == d1.perp.positions[id].entry && FundingIdx(f, isLong) == FundingIdx(e, isLong)
    ensures Liquidate(d1, r, f, keeper, user, d.perp.nextId).Err?
  {
    var pos, b, locked, fee := OpenEffect(d, e, user, m, size, isLong, leverage, maxSlippageBps, d1);
    MarginFromNotional(pos);
    SafeAtEntry(pos, f, b.info);
    assert d1.perp.positions[d.perp.nextId] == pos;
    assert d1.perp.markets[m] == b;
  }

  lemma {:induction false} MarginFromNotional(pos: Position)
    requires pos.leverage > 0 && pos.margin > 0
    requires Notional(pos.size, pos.entry).Some?
        && pos.margin == TruncDiv(Notional(pos.size, pos.entry).value, pos.leverage)
    ensures Notional(pos.size, pos.entry).value > 0
  {
    var n := Notional(pos.size, pos.entry).value;
    QuotientBelow(Abs(n), pos.leverage, 0);
  }

  /** A partial close frees the position's share of its margin, rounded down, so what stays is never short of its
      own share. */
  lemma {:induction false} PartialShare(pos: Position, size: i128, released: i128)
    requires 0 < size < pos.size && pos.margin > 0 && ReleasedMargin(pos, size) == Some(released)
    ensures released * pos.size <= pos.margin * size < (released + 1) * pos.size
    ensures (pos.margin - released) * pos.size >= pos.margin * (pos.size - size)
  {
    MulMonotone(0, 0, pos.margin, size);
    DivBounds(pos.margin * size, pos.size);
    assert (pos.margin - released) * pos.size == pos.margin * pos.size - released * pos.size;
    assert pos.margin * (pos.size - size) == pos.margin * pos.size - pos.margin * size;
  }

  // ----- funding across a partial close -----

  /** Funding owed on a size since a checkpoint, with the sign of a profit. */
  function Owed(checkpoint: int, idx: int, size: int): int { -TruncDiv((idx - checkpoint) * size, PRECISION) }

  lemma {:induction false} NothingOwed(idx: int, size: int)
    ensures Owed(idx, idx, size) == 0
  {
    assert (idx - idx) * size == 0;
    DivUnique(0, PRECISION, 0);
  }

  /** Splitting a size splits what is owed on it, to one unit. */
  lemma {:induction false} SplitOwed(checkpoint: int, idx: int, a: nat, b: nat)
    ensures -1 <= Owed(checkpoint, idx, a + b) - (Owed(checkpoint, idx, a) + Owed(checkpoint, idx, b)) <= 1
  {
    var x := idx - checkpoint;
    var m, n := x * a, x * b;
    assert x * (a + b) == m + n;
    TruncDivRemainder(m, PRECISION);
    TruncDivRemainder(n, PRECISION);
    TruncDivRemainder(m + n, PRECISION);
  }

  /** What becomes of the funding owed on a position when `size` of it is closed: the closed part is settled, nothing
      is owed on the rest any more, and what was owed on it is dropped. Settled and dropped make up the whole, to one
      unit. */
  predicate FundingDropped(pos: Position, rest: Position, idx: i128, size: i128, settled: int, dropped: int) {
    && 0 < size < pos.size && rest.size == pos.size - size
    && settled == Owed(pos.fundingIdx, idx, size)
    && dropped == Owed(pos.fundingIdx, idx, rest.size)
    && Owed(rest.fundingIdx, idx, rest.size) == 0
    && -1 <= Owed(pos.fundingIdx, idx, pos.size) - (settled + dropped) <= 1
    && (dropped == 0 <==> Abs((idx - pos.fundingIdx) * rest.size) < PRECISION)
  }

  /** A partial close settles funding on the closed size alone. What was owed on the rest is dropped, a debt or a
      credit, and it is nothing exactly when it is smaller than one unit. */
  lemma {:induction false} PartialCloseDropsFunding(d: Desk, e: Env, user: Address, id: u64, size: i128, d': Desk)
    returns (exec: i128, trade: i128, fee: i128, released: i128, settled: int, dropped: int)
    requires PartialClose(d, e, user, id, size) == Ok(d')
    ensures id in d.perp.positions && id in d'.perp.positions && d.perp.positions[id].market in d.perp.markets
    ensures var pos := d.perp.positions[id];
            && ExecutionPrice(e.price, d.perp.markets[pos.market].skew, size, !pos.isLong) == Some(exec)
            && TradePnl(pos.isLong, size, pos.entry, exec) == Some(trade)
            && FundingDropped(pos, d'.perp.positions[id], FundingIdx(e, pos.isLong), size, settled, dropped)
    ensures InI128(trade + settled)
    ensures SettleClose(d.funds, d.w, user, id, released, trade + settled, fee) == Ok(d'.funds)
  {
    var gross, b, rest, paid;
    released, gross, fee, b, rest := PartialEffect(d, e, user, id, size, d');
    var pos := d.perp.positions[id];
    var idx := FundingIdx(e, pos.isLong);
    exec, trade, paid := CloseTermsEffect(e, pos, d.perp.markets[pos.market], size, e.price, gross, fee);
    RemainderEffect(pos, e, size, released, e.price, rest);
    settled, dropped := Owed(pos.fundingIdx, idx, size), Owed(pos.fundingIdx, idx, rest.size);
    DroppedFunding(pos, rest, idx, size, settled, dropped);
  }

  lemma {:induction false} DroppedFunding(
    pos: Position, rest: Position, idx: i128, size: i128, settled: int, dropped: int)
    requires 0 < size < pos.size && rest.size == pos.size - size && rest.fundingIdx == idx
    requires settled == Owed(pos.fundingIdx, idx, size) && dropped == Owed(pos.fundingIdx, idx, rest.size)
    ensures FundingDropped(pos, rest, idx, size, settled, dropped)
  {
    SplitOwed(pos.fundingIdx, idx, size, rest.size);
    NothingOwed(idx, rest.size);
    QuotientBelow(Abs((idx - pos.fundingIdx) * rest.size), PRECISION, 1);
  }
}
