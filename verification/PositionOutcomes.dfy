/** What a settled match, an opening, an executed order and a funding payment leave behind, in plain arithmetic on
    sizes, prices and indices. */
module PositionOutcomes {
  import opened Int128
  import opened Host
  import opened FixedPoint
  import opened MapSums
  import opened Pricing
  import opened PerpBooks
  import opened Trading
  import opened FundsLemmas
  import opened DeskInvariants
  import opened DeskCloses
  import opened Clob
  import opened LiquidationOutcomes
  import opened TradeOutcomes
  import Vault

  /** Notional over leverage. */
  function Stake(size: int, price: int, leverage: u32): int
    requires leverage != 0
  {
    TruncDiv(Value(size, price), leverage)
  }

  function FeeOn(size: int, price: int, feeBps: u32): int { Max(TruncDiv(Value(size, price) * feeBps, 10_000), 0) }

  // ----- a settled match -----

  /** The size of a match: what is left of the smaller order. */
  function MatchedSize(buy: LimitOrder, sell: LimitOrder): int { Min(buy.size - buy.filled, sell.size - sell.filled) }

  /** The midpoint of the two limits. */
  function MatchedPrice(buy: LimitOrder, sell: LimitOrder): int { TruncDiv(buy.price + sell.price, 2) }

  lemma {:induction false} SideIs(
    w: Wiring, f: Funds, e: Env, user: Address, id: u64, size: i128, price: i128, notional: i128, leverage: u32,
    feeBps: u32, g: Funds, margin: i128, account: Address)
    requires leverage > 0 && Notional(size, price) == Some(notional)
    requires FillSide(w, f, e, user, id, SideTerms(notional, leverage, feeBps)) == Ok((g, margin))
    ensures margin == Stake(size, price, leverage) && margin > 0
    ensures Lockbox(g) == WithLock(f, user, id, margin)
    ensures SettlementBalance(g, w, account)
         == SettlementBalance(f, w, account) + Flow(account, user, w.slp, FeeOn(size, price, feeBps))
  {
    var locked := Lock(f, w, user, id, margin, e.prices).value;
    var fee := ApplyBps(notional, feeBps).value;
    LockBacked(f, w, user, id, margin, e.prices, locked);
    LockLeavesBalances(f, w, user, id, margin, e.prices, locked);
    OpenFeeFlows(locked, w, user, fee, g, account);
  }

  lemma {:induction false} OpenFeeFlows(f: Funds, w: Wiring, user: Address, fee: i128, g: Funds, account: Address)
    requires PayOpenFee(f, w, user, fee) == Ok(g)
    ensures SettlementBalance(g, w, account)
         == SettlementBalance(f, w, account) + Flow(account, user, w.slp, Max(fee, 0))
    ensures Lockbox(g) == Lockbox(f)
  {
    if fee > 0 {
      MoveFlows(f.vault, w.perp, user, w.slp, w.usdc, fee, g.vault, account);
    }
  }

  lemma {:induction false} PairStored(p: PerpState, b: MarketBook, buy: Position, sell: Position, r: PerpState)
    requires AddPair(SetBook(p, buy.market, b), buy, sell) == Ok(r)
    ensures r.nextId == p.nextId + 2
    ensures r.positions == p.positions[p.nextId := buy][p.nextId + 1 := sell]
  {
  }

  lemma {:induction false} MatchIs(c: ClobState, caller: Address, buyId: u64, sellId: u64, now: u64, m: Match)
    requires MatchOrders(c, caller, buyId, sellId, now) == Ok(m)
    ensures buyId in c.orders && sellId in c.orders && m.buy == c.orders[buyId] && m.sell == c.orders[sellId]
    ensures m.size == MatchedSize(m.buy, m.sell) && m.price == MatchedPrice(m.buy, m.sell)
  {
  }

  /** Both sides of a fill put up their own stakes. */
  lemma {:induction false} StakesAre(
    d: Desk, e: Env, buyer: Address, seller: Address, size: i128, price: i128, notional: i128, buyLeverage: u32,
    sellLeverage: u32, feeBps: u32, g: Funds, x: i128, y: i128, account: Address)
    returns (mid: Funds)
    requires buyLeverage > 0 && sellLeverage > 0 && Notional(size, price) == Some(notional)
    requires FillMoney(d, e, buyer, seller, SideTerms(notional, buyLeverage, feeBps),
                       SideTerms(notional, sellLeverage, feeBps)) == Ok((g, x, y))
    ensures d.perp.nextId + 1 < TWO_64
    ensures x == Stake(size, price, buyLeverage) && y == Stake(size, price, sellLeverage)
    ensures Lockbox(g) == PairLockbox(Lockbox(d.funds), buyer, x, seller, y, d.perp.nextId)
    ensures SettlementBalance(g, d.w, account)
         == SettlementBalance(d.funds, d.w, account) + Flow(account, buyer, d.w.slp, FeeOn(size, price, feeBps))
            + Flow(account, seller, d.w.slp, FeeOn(size, price, feeBps))
  {
    var first, second := SideTerms(notional, buyLeverage, feeBps), SideTerms(notional, sellLeverage, feeBps);
    mid := FillMoneyParts(d, e, buyer, seller, first, second, g, x, y);
    SideIs(d.w, d.funds, e, buyer, d.perp.nextId, size, price, notional, buyLeverage, feeBps, mid, x, account);
    SideIs(d.w, mid, e, seller, d.perp.nextId + 1, size, price, notional, sellLeverage, feeBps, g, y, account);
  }

  /** A fill: who holds what, what is locked, and what each side pays the SLP. */
  lemma {:induction false} FillOutcome(
    d: Desk, e: Env, caller: Address, buyer: Address, seller: Address, m: u32, size: i128, price: i128,
    buyLeverage: u32, sellLeverage: u32, d': Desk, account: Address)
    returns (buy: Position, sell: Position)
    requires ExecuteFill(d, e, caller, buyer, seller, m, size, price, buyLeverage, sellLeverage) == Ok(d')
    ensures buyLeverage > 0 && sellLeverage > 0 && m in d.perp.markets && d.perp.nextId + 1 < TWO_64
    ensures buy == Position(buyer, m, size, price, buy.margin, buyLeverage, true, e.longIdx)
    ensures sell == Position(seller, m, size, price, sell.margin, sellLeverage, false, e.shortIdx)
    ensures buy.margin == Stake(size, price, buyLeverage) && sell.margin == Stake(size, price, sellLeverage)
    ensures d'.perp.positions == d.perp.positions[d.perp.nextId := buy][d.perp.nextId + 1 := sell]
    ensures d'.perp.nextId == d.perp.nextId + 2
    ensures Lockbox(d'.funds)
         == PairLockbox(Lockbox(d.funds), buyer, buy.margin, seller, sell.margin, d.perp.nextId)
    ensures var fee := FeeOn(size, price, d.perp.markets[m].info.makerFeeBps);
            && SettlementBalance(d'.funds, d.w, account)
            == SettlementBalance(d.funds, d.w, account) + Flow(account, buyer, d.w.slp, fee)
               + Flow(account, seller, d.w.slp, fee)
  {
    var notional := FillAccepted(d, e, caller, buyer, seller, m, size, price, buyLeverage, sellLeverage, d');
    var b;
    b, buy, sell := FillEffect(d, e, buyer, seller, m, size, price, notional, buyLeverage, sellLeverage, d');
    PairStored(d.perp, b, buy, sell, d'.perp);
    var mid := StakesAre(
      d, e, buyer, seller, size, price, notional, buyLeverage, sellLeverage, d.perp.markets[m].info.makerFeeBps,
      d'.funds, buy.margin, sell.margin, account);
  }

  /** A settlement opens exactly two positions: a long for the trader of the buy order and a short for the trader of the
      sell order, each with its own order's leverage, both with the matched size at the midpoint. Their margins are
      locked under the two new ids, and each trader pays the SLP the maker fee. */
  lemma {:induction false} SettlementOpens(
    c: ClobState, d: Desk, e: Env, caller: Address, buyId: u64, sellId: u64, r: ClobState, d': Desk, account: Address)
    returns (long: Position, short: Position)
    requires SettleMatched(c, d, e, caller, buyId, sellId) == Ok((r, d'))
    ensures buyId in c.orders && sellId in c.orders && d.perp.nextId + 1 < TWO_64
    ensures var buy, sell := c.orders[buyId], c.orders[sellId];
            var size, price := MatchedSize(buy, sell), MatchedPrice(buy, sell);
            && InI128(size) && InI128(price) && buy.leverage > 0 && sell.leverage > 0
            && long == Position(buy.trader, buy.market, size, price, long.margin, buy.leverage, true, e.longIdx)
            && short == Position(sell.trader, sell.market, size, price, short.margin, sell.leverage, false, e.shortIdx)
            && long.margin == Stake(size, price, buy.leverage) && short.margin == Stake(size, price, sell.leverage)
            && d'.perp.positions == d.perp.positions[d.perp.nextId := long][d.perp.nextId + 1 := short]
            && d'.perp.nextId == d.perp.nextId + 2
            && Lockbox(d'.funds)
            == PairLockbox(Lockbox(d.funds), buy.trader, long.margin, sell.trader, short.margin, d.perp.nextId)
    ensures var buy, sell := c.orders[buyId], c.orders[sellId];
            && buy.market in d.perp.markets
            && var fee := FeeOn(long.size, long.entry, d.perp.markets[buy.market].info.makerFeeBps);
               && SettlementBalance(d'.funds, d.w, account)
               == SettlementBalance(d.funds, d.w, account) + Flow(account, buy.trader, d.w.slp, fee)
                  + Flow(account, sell.trader, d.w.slp, fee)
  {
    var m := SettleEffect(c, d, e, caller, buyId, sellId, r, d');
    MatchIs(c, caller, buyId, sellId, e.now, m);
    MatchIsFair(c, caller, buyId, sellId, e.now, m);
    long, short := FillOutcome(
      d, e, d.w.clob, m.buy.trader, m.sell.trader, m.buy.market, m.size, m.price, m.buy.leverage, m.sell.leverage, d',
      account);
  }

  // ----- an opening -----

  /** An opening stores one position of the caller at the execution price, locks its stake under the new id, and takes
      the taker fee for the SLP. */
  lemma {:induction false} OpeningOutcome(
    d: Desk, e: Env, user: Address, m: u32, size: i128, isLong: bool, leverage: u32, maxSlippageBps: u32, d': Desk,
    account: Address)
    returns (pos: Position)
    requires OpenPosition(d, e, user, m, size, isLong, leverage, maxSlippageBps) == Ok(d')
    ensures leverage > 0 && m in d.perp.markets
    ensures ExecutionPrice(e.price, d.perp.markets[m].skew, size, isLong) == Some(pos.entry)
    ensures pos == Position(user, m, size, pos.entry, pos.margin, leverage, isLong,
                            if isLong then e.longIdx else e.shortIdx)
    ensures pos.margin == Stake(size, pos.entry, leverage) && pos.margin > 0
    ensures d'.perp.positions == d.perp.positions[d.perp.nextId := pos] && d'.perp.nextId == d.perp.nextId + 1
    ensures Lockbox(d'.funds) == WithLock(d.funds, user, d.perp.nextId, pos.margin)
    ensures SettlementBalance(d'.funds, d.w, account)
         == SettlementBalance(d.funds, d.w, account)
            + Flow(account, user, d.w.slp, FeeOn(size, pos.entry, d.perp.markets[m].info.takerFeeBps))
  {
    var b, locked, fee;
    pos, b, locked, fee := OpenEffect(d, e, user, m, size, isLong, leverage, maxSlippageBps, d');
    LockBacked(d.funds, d.w, user, d.perp.nextId, pos.margin, e.prices, locked);
    LockLeavesBalances(d.funds, d.w, user, d.perp.nextId, pos.margin, e.prices, locked);
    OpenFeeFlows(locked, d.w, user, fee, d'.funds, account);
  }

  // ----- a pending order -----

  /** What an order waits for: a limit and a stop for a long at or below their price, a profit target at or above, a
      trailing stop at its anchor less the offset; for a short the other way around. */
  predicate Awaited(o: PendingOrder, price: i128) {
    match o.kind
    case AtMarket => true
    case Limit(limit) => (o.isLong ==> price <= limit) && (!o.isLong ==> limit <= price)
    case StopLoss(stop) => (o.isLong ==> price <= stop) && (!o.isLong ==> stop <= price)
    case TakeProfit(target) => (o.isLong ==> target <= price) && (!o.isLong ==> price <= target)
    case Trailing(offset, anchor) =>
      offset > 0 && (o.isLong ==> price <= Max(anchor - offset, I128_MIN))
      && (!o.isLong ==> Min(anchor + offset, I128_MAX) <= price)
  }

  /** An order is executed only when the price it waits for has come, before it expires, and opens its owner's position
      on its own terms; it is gone afterwards. */
  lemma {:induction false} ExecutedOrderOutcome(d: Desk, e: Env, id: u64, d': Desk) returns (pos: Position)
    requires ExecuteOrder(d, e, id) == Ok(d')
    ensures id in d.perp.orders && d'.perp.orders == d.perp.orders - {id}
    ensures var o := d.perp.orders[id];
            && Awaited(o, e.price) && e.ledger <= o.expiry && o.leverage > 0 && o.market in d.perp.markets
            && ExecutionPrice(e.price, d.perp.markets[o.market].skew, o.size, o.isLong) == Some(pos.entry)
            && pos == Position(o.user, o.market, o.size, pos.entry, pos.margin, o.leverage, o.isLong,
                               if o.isLong then e.longIdx else e.shortIdx)
            && pos.margin == Stake(o.size, pos.entry, o.leverage)
            && d'.perp.positions == d.perp.positions[d.perp.nextId := pos]
            && Lockbox(d'.funds) == WithLock(d.funds, o.user, d.perp.nextId, pos.margin)
  {
    var o := OrderTriggered(d, e, id);
    var taken := d.(perp := d.perp.(orders := d.perp.orders - {id}));
    assert Enter(taken, e, e.price, o.user, o.market, o.size, o.isLong, o.leverage, o.maxSlippageBps, true) == Ok(d');
    var b, locked, fee;
    pos, b, locked, fee :=
      EnterEffect(taken, e, e.price, o.user, o.market, o.size, o.isLong, o.leverage, o.maxSlippageBps, true, d');
    LockBacked(taken.funds, d.w, o.user, d.perp.nextId, pos.margin, e.prices, locked);
    OpenFeeFlows(locked, d.w, o.user, fee, d'.funds, o.user);
  }

  lemma {:induction false} OrderTriggered(d: Desk, e: Env, id: u64) returns (o: PendingOrder)
    requires ExecuteOrder(d, e, id).Ok?
    ensures id in d.perp.orders && o == d.perp.orders[id] && Awaited(o, e.price) && e.ledger <= o.expiry
    ensures o.leverage > 0 && o.market in d.perp.markets
    ensures ExecuteOrder(d, e, id) == Enter(d.(perp := d.perp.(orders := d.perp.orders - {id})), e, e.price, o.user,
                                            o.market, o.size, o.isLong, o.leverage, o.maxSlippageBps, true)
  {
    o := d.perp.orders[id];
  }

  // ----- a close -----

  /** The close fee, which never exceeds the released margin. */
  function Charge(released: int, fee: int): int { if fee > 0 then Min(fee, released) else 0 }

  /** A profit in full; a loss at most what the fee leaves of the released margin. */
  function Outcome(released: int, gross: int, fee: int): int {
    if gross >= 0 then gross else -Min(-gross, Max(released - Charge(released, fee), 0))
  }

  lemma {:induction false} SettleOutcome(
    f: Funds, w: Wiring, user: Address, id: u64, released: i128, gross: i128, fee: i128, g: Funds, account: Address)
    requires SettleClose(f, w, user, id, released, gross, fee) == Ok(g)
    ensures released > 0 && Lockbox(g) == WithoutLock(f, user, id, released)
    ensures SettlementBalance(g, w, account)
         == SettlementBalance(f, w, account) + Flow(account, user, w.slp, Charge(released, fee))
            + Flow(account, w.slp, user, Outcome(released, gross, fee))
    ensures g.slp.totalAssets == f.slp.totalAssets + Charge(released, fee) - Outcome(released, gross, fee)
  {
    var unlocked := Unlock(f, w.perp, user, id, released).value;
    UnlockBacked(f, w, w.perp, user, id, released, unlocked);
    var charged := PaySlpIfPositive(unlocked, w, w.perp, user, FeeTaken(released, fee)).value;
    SlpFlows(unlocked, w, w.perp, user, FeeTaken(released, fee), charged, account);
    ResultFlows(charged, w, user, released, gross, fee, g, account);
    assert Lockbox(charged) == Lockbox(unlocked);
  }

  lemma {:induction false} ResultFlows(
    f: Funds, w: Wiring, user: Address, released: i128, gross: i128, fee: i128, g: Funds, account: Address)
    requires released > 0
    requires if gross > 0 then DrawProfit(f, w, w.perp, user, gross) == Ok(g)
             else if gross < 0 then
               LossTaken(released, gross, fee).Ok?
               && PaySlpIfPositive(f, w, w.perp, user, LossTaken(released, gross, fee).value) == Ok(g)
             else g == f
    ensures SettlementBalance(g, w, account)
         == SettlementBalance(f, w, account) + Flow(account, w.slp, user, Outcome(released, gross, fee))
    ensures g.slp.totalAssets == f.slp.totalAssets - Outcome(released, gross, fee) && Lockbox(g) == Lockbox(f)
  {
    if gross > 0 {
      MoveFlows(f.vault, w.slp, w.slp, user, w.usdc, gross, g.vault, account);
    } else if gross < 0 {
      SlpFlows(f, w, w.perp, user, LossTaken(released, gross, fee).value, g, account);
    }
  }

  /** The terms of closing a size against the market, in plain arithmetic. */
  lemma {:induction false} CloseTermsAre(
    e: Env, pos: Position, b: MarketBook, size: i128, gross: i128, fee: i128) returns (exec: i128)
    requires CloseTerms(e, pos, b, size, e.price) == Ok((gross, fee))
    ensures ExecutionPrice(e.price, b.skew, size, !pos.isLong) == Some(exec)
    ensures gross == TradeResult(pos, size, exec) + FundingResult(pos, size, e)
    ensures fee == TruncDiv(Value(size, exec) * b.info.makerFeeBps, 10_000)
  {
    var trade, funding;
    exec, trade, funding := CloseTermsEffect(e, pos, b, size, e.price, gross, fee);
    FundingIs(pos, size, e);
    TradeIs(pos, size, exec);
  }

  /** Closing pays the owner the trade result at the execution price and the funding since the checkpoint, less the
      maker
      fee, a loss and the fee at most the margin; it releases the margin and removes the position. */
  lemma {:induction false} ClosingOutcome(d: Desk, e: Env, user: Address, id: u64, d': Desk, account: Address)
    returns (exec: i128)
    requires ClosePosition(d, e, user, id) == Ok(d')
    ensures id in d.perp.positions && d.perp.positions[id].owner == user
        && d.perp.positions[id].market in d.perp.markets
    ensures var pos, b := d.perp.positions[id], d.perp.markets[d.perp.positions[id].market];
            var gross := TradeResult(pos, pos.size, exec) + FundingResult(pos, pos.size, e);
            var fee := TruncDiv(Value(pos.size, exec) * b.info.makerFeeBps, 10_000);
            && ExecutionPrice(e.price, b.skew, pos.size, !pos.isLong) == Some(exec)
            && d'.perp.positions == d.perp.positions - {id}
            && Lockbox(d'.funds) == WithoutLock(d.funds, user, id, pos.margin)
            && SettlementBalance(d'.funds, d.w, account)
            == SettlementBalance(d.funds, d.w, account) + Flow(account, user, d.w.slp, Charge(pos.margin, fee))
               + Flow(account, d.w.slp, user, Outcome(pos.margin, gross, fee))
            && d'.funds.slp.totalAssets
            == d.funds.slp.totalAssets + Charge(pos.margin, fee) - Outcome(pos.margin, gross, fee)
  {
    var gross, fee, left := CloseEffect(d, e, user, id, d');
    var pos := d.perp.positions[id];
    exec := CloseTermsAre(e, pos, d.perp.markets[pos.market], pos.size, gross, fee);
    SettleOutcome(d.funds, d.w, user, id, pos.margin, gross, fee, d'.funds, account);
  }

  /** Closing a part does the same for its size and its share of the margin; the rest keeps its entry price and starts
      from the current funding index. */
  lemma {:induction false} PartialOutcome(
    d: Desk, e: Env, user: Address, id: u64, size: i128, d': Desk, account: Address)
        returns (exec: i128, rest: Position)
    requires PartialClose(d, e, user, id, size) == Ok(d')
    ensures id in d.perp.positions && d.perp.positions[id].owner == user && 0 < size < d.perp.positions[id].size
    ensures d.perp.positions[id].market in d.perp.markets
    ensures var pos, b := d.perp.positions[id], d.perp.markets[d.perp.positions[id].market];
            var gross := TradeResult(pos, size, exec) + FundingResult(pos, size, e);
            var fee, released :=
              TruncDiv(Value(size, exec) * b.info.makerFeeBps, 10_000), TruncDiv(pos.margin * size, pos.size);
            && ExecutionPrice(e.price, b.skew, size, !pos.isLong) == Some(exec)
            && d'.perp.positions == d.perp.positions[id := rest]
            && rest == Position(user, pos.market, pos.size - size, pos.entry, pos.margin - released, rest.leverage,
                                pos.isLong, if pos.isLong then e.longIdx else e.shortIdx)
            && Lockbox(d'.funds) == WithoutLock(d.funds, user, id, released)
            && SettlementBalance(d'.funds, d.w, account)
            == SettlementBalance(d.funds, d.w, account) + Flow(account, user, d.w.slp, Charge(released, fee))
               + Flow(account, d.w.slp, user, Outcome(released, gross, fee))
  {
    var released, gross, fee, left;
    released, gross, fee, left, rest := PartialEffect(d, e, user, id, size, d');
    var pos := d.perp.positions[id];
    exec := CloseTermsAre(e, pos, d.perp.markets[pos.market], size, gross, fee);
    SettleOutcome(d.funds, d.w, user, id, released, gross, fee, d'.funds, account);
  }

  // ----- a funding payment -----

  lemma {:induction false} FundingParts(d: Desk, e: Env, id: u64, d': Desk) returns (payment: i128)
    requires SettleFunding(d, e, id) == Ok(d')
    ensures id in d.perp.positions
    ensures var pos := d.perp.positions[id];
            && FundingPnl(pos.fundingIdx, FundingIdx(e, pos.isLong), pos.size) == Some(payment)
            && d'.perp == SetPosition(d.perp, id, pos.(fundingIdx := FundingIdx(e, pos.isLong)))
            && d'.funds == d.funds.(vault := d'.funds.vault)
            && (payment > 0 ==> Vault.MoveBalance(d.funds.vault, d.w.funding, d.w.fundingPool, pos.owner, d.w.usdc,
                                                  payment) == Ok(d'.funds.vault))
            && (payment == 0 ==> d'.funds == d.funds)
            && (payment < 0 ==> payment > I128_MIN
                                && Vault.MoveBalance(d.funds.vault, d.w.funding, pos.owner, d.w.fundingPool, d.w.usdc,
                                                     Neg(payment)) == Ok(d'.funds.vault))
  {
    var pos := d.perp.positions[id];
    payment := FundingPnl(pos.fundingIdx, FundingIdx(e, pos.isLong), pos.size).value;
  }

  /** Funding moves between the owner and the pool with its sign: an owner whose index rose pays the pool. The
      checkpoint moves to the index that was settled, and nothing else of the position changes. */
  lemma {:induction false} FundingOutcome(d: Desk, e: Env, id: u64, d': Desk, account: Address)
    requires SettleFunding(d, e, id) == Ok(d')
    ensures id in d.perp.positions
    ensures var pos := d.perp.positions[id];
            && d'.perp == SetPosition(d.perp, id, pos.(fundingIdx := if pos.isLong then e.longIdx else e.shortIdx))
            && SettlementBalance(d'.funds, d.w, account)
            == SettlementBalance(d.funds, d.w, account)
               + Flow(account, d.w.fundingPool, pos.owner, FundingResult(pos, pos.size, e))
            && Lockbox(d'.funds) == Lockbox(d.funds) && d'.funds.slp == d.funds.slp
  {
    var payment := FundingParts(d, e, id, d');
    var pos := d.perp.positions[id];
    FundingIs(pos, pos.size, e);
    if payment > 0 {
      MoveFlows(d.funds.vault, d.w.funding, d.w.fundingPool, pos.owner, d.w.usdc, payment, d'.funds.vault, account);
      MoveLeavesLocks(d.funds.vault, d.w.funding, d.w.fundingPool, pos.owner, d.w.usdc, payment, d'.funds.vault);
    } else if payment < 0 {
      MoveFlows(d.funds.vault, d.w.funding, pos.owner, d.w.fundingPool, d.w.usdc, -payment, d'.funds.vault, account);
      MoveLeavesLocks(d.funds.vault, d.w.funding, pos.owner, d.w.fundingPool, d.w.usdc, -payment, d'.funds.vault);
    }
  }

  lemma {:induction false} MoveLeavesLocks(
    s: Vault.VaultState, caller: Address, from: Address, to: Address, token: Address, amount: i128, r: Vault.VaultState)
    requires Vault.MoveBalance(s, caller, from, to, token, amount) == Ok(r)
    ensures r.locked == s.locked
  {
  }
}
