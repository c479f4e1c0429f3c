/** Liquidation and auto-deleveraging by the risk engine (stellax-risk/src/lib.rs). */
module Liquidation {
  import opened Int128
  import opened Host
  import opened FixedPoint
  import opened Pricing
  import opened PerpBooks
  import opened Trading
  import Vault
  import SlpVault

  const MAINTENANCE_BPS: nat := 5_000
  const PARTIAL_THRESHOLD: int := 100_000 * PRECISION
  const PARTIAL_BPS: nat := 2_000
  const PARTIAL_COOLDOWN: nat := 30

  datatype RiskError =
    | RiskPaused | InvalidPosition | NotLiquidatable | RiskOverflow | BadConfig | CooldownActive | AdlUnavailable
      | RiskCallFailed

  /** `lastPartial` is when a large position was last partly liquidated. */
  datatype RiskState = RiskState(paused: bool, feeBps: u32, keeperBps: u32, slpSet: bool, lastPartial: map<u64, u64>)

  function RiskCall<S, E>(r: Result<S, E>): Result<S, RiskError> { if r.Ok? then Ok(r.value) else Err(RiskCallFailed) }

  function RiskMath<T>(o: Option<T>): Result<T, RiskError> { if o.Some? then Ok(o.value) else Err(RiskOverflow) }

  function Sum2(a: i128, b: i128): Result<i128, RiskError> {
    var _ :- Need(InI128(a + b), RiskOverflow);
    Ok(a + b)
  }

  /** `maintenance_margin_requirement`: half of notional over the leverage cap. */
  function Maintenance(notional: i128, maxLeverage: u32): Result<i128, RiskError> {
    var _ :- Need(maxLeverage != 0, BadConfig);
    var initial := TruncDiv(notional, maxLeverage);
    var _ :- Need(InI128(initial * MAINTENANCE_BPS), RiskOverflow);
    var half := TruncDiv(initial * MAINTENANCE_BPS, 10_000);
    var _ :- Need(InI128(half), RiskOverflow);
    Ok(half)
  }

  /** Trade result at a price plus funding since the checkpoint. */
  function UnrealizedPnl(pos: Position, e: Env): Result<i128, RiskError> {
    var funding :- RiskCall(Math(FundingPnl(pos.fundingIdx, FundingIdx(e, pos.isLong), pos.size)));
    var trade :- RiskMath(TradePnl(pos.isLong, pos.size, pos.entry, e.price));
    Sum2(trade, funding)
  }

  /** What the margin of a position is worth, and what it must be worth. */
  function Shortage(pos: Position, e: Env, info: MarketInfo): Result<(i128, i128), RiskError> {
    var funding :- RiskCall(Math(FundingPnl(pos.fundingIdx, FundingIdx(e, pos.isLong), pos.size)));
    var trade :- RiskMath(TradePnl(pos.isLong, pos.size, pos.entry, e.price));
    var notional :- RiskMath(Notional(pos.size, e.price));
    var required :- Maintenance(notional, info.maxLeverage);
    var partialEquity :- Sum2(pos.margin, trade);
    var equity :- Sum2(partialEquity, funding);
    Ok((equity, required))
  }

  /** `liquidation_size`: everything for a small position, a fifth of a large one, at most every 30 seconds. */
  function LiquidationSize(
    r: RiskState, id: u64, notional: i128, full: i128, now: u64): Result<(i128, RiskState), RiskError>
  {
    if notional <= PARTIAL_THRESHOLD then Ok((full, r))
    else
      var _ :- Need(id in r.lastPartial ==> now - r.lastPartial[id] >= PARTIAL_COOLDOWN, CooldownActive);
      var _ :- Need(InI128(full * PARTIAL_BPS), RiskOverflow);
      var size := Min(Max(TruncDiv(full * PARTIAL_BPS, 10_000), Min(PRECISION, full)), full);
      var _ :- Need(InI128(size), RiskOverflow);
      Ok((size, r.(lastPartial := r.lastPartial[id := now])))
  }

  /** The liquidation penalty of a closed notional: the keeper's part and the rest. */
  function Penalty(r: RiskState, notional: i128): Result<(i128, i128), RiskError> {
    var penalty :- RiskCall(OrPanic(ApplyBps(notional, r.feeBps)));
    var keeper :- RiskCall(OrPanic(ApplyBps(penalty, r.keeperBps)));
    var _ :- Need(InI128(penalty - keeper), RiskOverflow);
    Ok((keeper, penalty - keeper))
  }

  /** `distribute_liquidation_value`: release the margin, reward the keeper, credit the SLP, absorb bad debt. A failed
      `record_loss` is ignored. */
  function DistributeValue(
    f: Funds, w: Wiring, r: RiskState, user: Address, keeper: Address, id: u64, released: i128, remaining: i128,
    keeperReward: i128, insuranceReward: i128): Result<Funds, RiskError>
  {
    var _ :- Need(r.slpSet, AdlUnavailable);
    var unlocked :- RiskCall(Unlock(f, w.risk, user, id, released));
    var rewarded :- RiskCall(PayKeeper(unlocked, w, user, keeper, keeperReward));
    var credited :- RiskCall(PaySlpIfPositive(rewarded, w, w.risk, user, insuranceReward));
    if remaining < 0 then
      var _ :- Need(remaining > I128_MIN, RiskOverflow);
      Ok(credited.(slp := After(credited.slp, SlpVault.RecordLoss(credited.slp, w.risk, Neg(remaining)))))
    else Ok(credited)
  }

  function PayKeeper(f: Funds, w: Wiring, user: Address, keeper: Address, amount: i128): FundsResult {
    if amount > 0 then
      var vault :- Call(Vault.MoveBalance(f.vault, w.risk, user, keeper, w.usdc, amount));
      Ok(f.(vault := vault))
    else Ok(f)
  }

  // ----- auto-deleveraging -----

  /** Profit over margin times leverage; nothing for a position without profit or margin. */
  function Score(pos: Position, e: Env): Result<Option<i128>, RiskError> {
    var pnl :- UnrealizedPnl(pos, e);
    if pnl <= 0 || pos.margin <= 0 then Ok(None)
    else
      var ratio :- RiskMath(DivPrecision(pnl, pos.margin));
      var _ :- Need(InI128(ratio * pos.leverage), RiskOverflow);
      Ok(Some(ratio * pos.leverage))
  }

  /** The first position with the highest score among the first n ids. An id without a position stops the call. */
  function Best(p: PerpState, e: Env, ids: seq<u64>, n: nat): Result<Option<(u64, i128)>, RiskError>
    requires n <= |ids|
  {
    if n == 0 then Ok(None)
    else
      var best :- Best(p, e, ids, n - 1);
      var id := ids[n - 1];
      var _ :- Need(id in p.positions, RiskCallFailed);
      var score :- Score(p.positions[id], e);
      Ok(if score.Some? && (best.None? || score.value > best.value.1) then Some((id, score.value)) else best)
  }

  /** The size to take from a winner for a missing amount. */
  function AdlSize(pos: Position, notional: i128, missing: i128): Result<i128, RiskError> {
    var product := pos.size * Min(missing, notional);
    var _ :- Need(InI128(product), RiskOverflow);
    var share := TruncDiv(product, Max(notional, 1));
    var size := Min(Max(share, Min(PRECISION, pos.size)), pos.size);
    var _ :- Need(InI128(size), RiskOverflow);
    Ok(size)
  }

  /** The position a deleveraging shrank and the margin it took out of it, if there was one. */
  type Taken = Option<(u64, i128)>

  /** `run_adl`: close part of the best winner at the oracle price and pay it from the SLP, if the SLP can. The vault
      keeps the winner's margin locked. */
  function RunAdl(d: Desk, e: Env, m: u32, missing: i128): Result<(Desk, Taken), RiskError> {
    var _ :- Need(m in d.perp.markets, RiskCallFailed);
    var ids := IdsOf(d.perp.marketIds, m);
    var best :- Best(d.perp, e, ids, |ids|);
    if best.None? then Ok((d, None))
    else
      var id := best.value.0;
      var _ :- Need(id in d.perp.positions, RiskCallFailed);
      var notional :- RiskMath(Notional(d.perp.positions[id].size, e.price));
      var size :- AdlSize(d.perp.positions[id], notional, missing);
      var closed :- RiskCall(RiskClose(d, e, d.w.risk, id, size, e.price));
      var gross :- Sum2(closed.1.trade, closed.1.funding);
      var funds := if gross > 0 then After(d.funds, DrawProfit(d.funds, d.w, d.w.risk, closed.1.user, gross))
          else d.funds;
      Ok((d.(funds := funds, perp := closed.0), Some((id, closed.1.released))))
  }

  // ----- the entry point -----

  /** The money of a liquidation after the books have closed `c`. */
  function Settle(
    f: Funds, w: Wiring, r: RiskState, e: Env, keeper: Address, id: u64, c: RiskClosed): Result<Funds, RiskError>
  {
    var notional :- RiskMath(Notional(c.size, e.price));
    var rewards :- Penalty(r, notional);
    var realized :- Sum2(c.trade, c.funding);
    var value :- Sum2(c.released, realized);
    var remaining := value - rewards.0 - rewards.1;
    var _ :- Need(InI128(remaining), RiskOverflow);
    DistributeValue(f, w, r, c.user, keeper, id, c.released, remaining, rewards.0, rewards.1)
  }

  /** The market of a partly liquidated position and what the rest still falls short by, if it does. */
  function Missing(p: PerpState, e: Env, id: u64): Result<Option<(u32, i128)>, RiskError> {
    var _ :- Need(id in p.positions, RiskCallFailed);
    var pos := p.positions[id];
    var _ :- Need(pos.market in p.markets, RiskCallFailed);
    var left :- Shortage(pos, e, p.markets[pos.market].info);
    if left.0 < left.1 then
      var _ :- Need(InI128(left.1 - left.0), RiskOverflow);
      Ok(Some((pos.market, left.1 - left.0)))
    else Ok(None)
  }

  /** The deleveraging that a remaining shortage causes. */
  function Deleverage(d: Desk, e: Env, id: u64): Result<(Desk, Taken), RiskError> {
    var missing :- Missing(d.perp, e, id);
    if missing.Some? then RunAdl(d, e, missing.value.0, missing.value.1) else Ok((d, None))
  }

  /** Everything up to the forced close: whether the position falls short, and how much of it to close. */
  function Assessed(d: Desk, r: RiskState, e: Env, user: Address, id: u64): Result<(i128, RiskState), RiskError> {
    var _ :- Need(!r.paused, RiskPaused);
    var _ :- Need(id in d.perp.positions, RiskCallFailed);
    var pos := d.perp.positions[id];
    var _ :- Need(pos.owner == user, InvalidPosition);
    var _ :- Need(pos.market in d.perp.markets, RiskCallFailed);
    var health :- Shortage(pos, e, d.perp.markets[pos.market].info);
    var _ :- Need(health.0 < health.1, NotLiquidatable);
    var notional :- RiskMath(Notional(pos.size, e.price));
    LiquidationSize(r, id, notional, pos.size, e.now)
  }

  /** `liquidate`. The third part of the result tells which winner was deleveraged, if any. */
  function Liquidate(d: Desk, r: RiskState, e: Env, keeper: Address, user: Address, id: u64)
    : Result<(Desk, RiskState, Taken), RiskError>
  {
    var sized :- Assessed(d, r, e, user, id);
    var closed :- RiskCall(RiskClose(d, e, d.w.risk, id, sized.0, e.price));
    var funds :- Settle(d.funds, d.w, sized.1, e, keeper, id, closed.1);
    var after := d.(funds := funds, perp := closed.0);
    if closed.1.closed then Ok((after, sized.1, None))
    else
      var rest :- Deleverage(after, e, id);
      Ok((rest.0, sized.1, rest.1))
  }
}
