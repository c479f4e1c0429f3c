/** Trades against the liquidity vault: the entry points of the perp engine over its own books, the collateral vault
    and the SLP vault (stellax-perp-engine/src/lib.rs). */
module Trading {
  import opened Int128
  import opened Host
  import opened FixedPoint
  import opened MapSums
  import opened Pricing
  import opened PerpBooks
  import Vault
  import SlpVault

  /** The addresses of the contracts and accounts; `slpSet` tells whether the engine knows the SLP vault. */
  datatype Wiring = Wiring(
    perp: Address, risk: Address, slp: Address, clob: Address, funding: Address, fundingPool: Address,
    treasury: Address, usdc: Address, slpSet: bool)

  datatype Funds = Funds(vault: Vault.VaultState, slp: SlpVault.SlpState)

  datatype Desk = Desk(w: Wiring, funds: Funds, perp: PerpState)

  type FundsResult = Result<Funds, PerpError>
  type DeskResult = Result<Desk, PerpError>

  /** What a call sees of the world: time, the oracle's price of the traded asset with its timestamp, the funding
      indices of the market, and the prices of the collateral tokens. */
  datatype Env = Env(
    now: u64, ledger: u32, price: i128, writtenAt: u64, longIdx: i128, shortIdx: i128, prices: map<Address, i128>)

  // ----- results of calls -----

  /** A cross-contract call that fails stops the caller. */
  function Call<S, E>(r: Result<S, E>): Result<S, PerpError> { if r.Ok? then Ok(r.value) else Err(CallFailed) }

  function Math<T>(o: Option<T>): Result<T, PerpError> { if o.Some? then Ok(o.value) else Err(MathOverflow) }

  function OrPanic<T>(o: Option<T>): Result<T, PerpError> { if o.Some? then Ok(o.value) else Err(CallFailed) }

  /** `read_price`: positive and not stale. */
  function ReadPrice(e: Env): Result<i128, PerpError> {
    var _ :- Need(e.price > 0, InvalidOraclePrice);
    var _ :- Need(e.now - e.writtenAt <= MAX_PRICE_AGE, OraclePriceTooOld);
    Ok(e.price)
  }

  function FundingIdx(e: Env, isLong: bool): i128 { if isLong then e.longIdx else e.shortIdx }

  function CheckSlippage(entry: i128, oracle: i128, maxBps: u32): Result<(), PerpError> {
    var bps :- Math(SlippageBps(entry, oracle));
    Need(bps <= maxBps, SlippageExceeded)
  }

  function CheckLeverage(info: MarketInfo, leverage: u32): Result<(), PerpError> {
    Need(0 < leverage <= info.maxLeverage && leverage <= MAX_LEVERAGE, InvalidLeverage)
  }

  /** `effective_leverage`: notional over margin, rounded up to whole leverage. */
  function LeverageFor(size: i128, price: i128, margin: i128): Result<u32, PerpError> {
    var _ :- Need(margin > 0, InsufficientMargin);
    var notional :- Math(Notional(size, price));
    var fixed :- Math(DivPrecision(notional, margin));
    var _ :- Need(InI128(fixed + PRECISION - 1), MathOverflow);
    var leverage := TruncDiv(fixed + PRECISION - 1, PRECISION);
    if 0 <= leverage < TWO_32 then Ok(leverage) else Err(InvalidLeverage)
  }

  // ----- money -----

  /** Move an amount from a user to the SLP's vault account and credit it to the SLP's assets. */
  function PaySlp(f: Funds, w: Wiring, caller: Address, user: Address, amount: i128): FundsResult {
    var vault :- Call(Vault.MoveBalance(f.vault, caller, user, w.slp, w.usdc, amount));
    var slp :- Call(SlpVault.CreditPnl(f.slp, caller, amount));
    Ok(Funds(vault, slp))
  }

  function PaySlpIfPositive(f: Funds, w: Wiring, caller: Address, user: Address, amount: i128): FundsResult {
    if amount > 0 then PaySlp(f, w, caller, user, amount) else Ok(f)
  }

  /** An opening fee; the SLP vault must be configured when there is one. */
  function PayOpenFee(f: Funds, w: Wiring, user: Address, fee: i128): FundsResult {
    if fee > 0 then
      var _ :- Need(w.slpSet, SlpVaultNotConfigured);
      PaySlp(f, w, w.perp, user, fee)
    else Ok(f)
  }

  /** `draw_pnl`: the SLP pays a profit out of its assets and its vault account. */
  function DrawProfit(f: Funds, w: Wiring, caller: Address, user: Address, amount: i128): FundsResult {
    var slp :- Call(SlpVault.DrawPnl(f.slp, caller, amount, true));
    var vault :- Call(Vault.MoveBalance(f.vault, w.slp, w.slp, user, w.usdc, amount));
    Ok(Funds(vault, slp))
  }

  function Lock(f: Funds, w: Wiring, user: Address, id: u64, amount: i128, prices: map<Address, i128>): FundsResult {
    var vault :- Call(Vault.LockMargin(f.vault, w.perp, user, id, amount, prices));
    Ok(f.(vault := vault))
  }

  function Unlock(f: Funds, caller: Address, user: Address, id: u64, amount: i128): FundsResult {
    var vault :- Call(Vault.UnlockMargin(f.vault, caller, user, id, amount));
    Ok(f.(vault := vault))
  }

  /** The close fee actually taken, at most the released margin. */
  function FeeTaken(released: i128, fee: i128): i128 { if fee > 0 then Min(fee, released) else 0 }

  /** The loss actually taken: what is left of the released margin after the fee bounds it. */
  function LossTaken(released: i128, gross: i128, fee: i128): Result<i128, PerpError> {
    var paid := Min(Max(fee, 0), released);
    var left := if InI128(released - paid) then Max(released - paid, 0) else 0;
    var _ :- Need(gross > I128_MIN, CallFailed);
    Ok(Min(Neg(gross), left))
  }

  /** `settle_position_close`: release the margin, take the fee, then pay the profit or take the loss. */
  function SettleClose(
    f: Funds, w: Wiring, user: Address, id: u64, released: i128, gross: i128, fee: i128): FundsResult
  {
    var _ :- Need(w.slpSet, SlpVaultNotConfigured);
    var unlocked :- Unlock(f, w.perp, user, id, released);
    var charged :- PaySlpIfPositive(unlocked, w, w.perp, user, FeeTaken(released, fee));
    if gross > 0 then
      var drawn := DrawProfit(charged, w, w.perp, user, gross);
      if drawn.Ok? then drawn else Err(InsufficientLiquidity)
    else if gross < 0 then
      var loss :- LossTaken(released, gross, fee);
      PaySlpIfPositive(charged, w, w.perp, user, loss)
    else Ok(charged)
  }

  // ----- opening -----

  /** The stored margins of a user's open positions. */
  function MarginsOf(p: PerpState, ids: seq<u64>): Result<i128, PerpError> {
    if ids == [] then Ok(0)
    else
      var rest :- MarginsOf(p, ids[..|ids| - 1]);
      var _ :- Need(ids[|ids| - 1] in p.positions, PositionNotFound);
      var sum := rest + p.positions[ids[|ids| - 1]].margin;
      var _ :- Need(InI128(sum), MathOverflow);
      Ok(sum)
  }

  /** `validate_new_pos_with_inputs` of the risk engine, with no unrealized profit. */
  function RiskAccepts(
    notional: i128, margin: i128, leverage: u32, maxLeverage: u32, existing: i128, collateral: int): bool
  {
    && notional > 0 && margin > 0 && leverage != 0 && maxLeverage != 0
    && margin >= TruncDiv(notional, maxLeverage)
    && InI128(existing + TruncDiv(notional, maxLeverage))
    && collateral >= existing + TruncDiv(notional, maxLeverage)
  }

  function CheckRisk(d: Desk, f: Funds, user: Address, notional: i128, margin: i128, leverage: u32, info: MarketInfo)
    : Result<(), PerpError>
  {
    var existing :- MarginsOf(d.perp, IdsOf(d.perp.userIds, user));
    var _ :- Call(Vault.TokenInfo(f.vault.cfg, d.w.usdc));
    var collateral := Get(f.vault.balances, (user, d.w.usdc));
    Need(RiskAccepts(notional, margin, leverage, info.maxLeverage, existing, collateral), CallFailed)
  }

  /** Execution price, book with the larger open interest, notional, margin and fee of a new position. A pending order
      checks the minimum size against the execution notional. */
  function EntryTerms(
    price: i128, b: MarketBook, size: i128, isLong: bool, leverage: u32, maxSlippageBps: u32, asOrder: bool)
    : Result<(i128, MarketBook, i128, i128, i128), PerpError>
    requires leverage > 0
  {
    var exec :- Math(ExecutionPrice(price, b.skew, size, isLong));
    var _ :- CheckSlippage(exec, price, maxSlippageBps);
    var grown :- GrowOi(b, isLong, size);
    var notional :- Math(Notional(size, exec));
    var _ :- Need(asOrder ==> notional >= b.info.minSize, InvalidSize);
    var margin := TruncDiv(notional, leverage);
    var _ :- Need(0 < margin <= I128_MAX, InsufficientMargin);
    var fee :- OrPanic(ApplyBps(notional, b.info.takerFeeBps));
    Ok((exec, grown, notional, margin, fee))
  }

  /** Lock the margin, take the fee, and ask the risk engine, which a pending order skips. */
  function EnterMoney(
    d: Desk, e: Env, user: Address, notional: i128, margin: i128, fee: i128, leverage: u32, info: MarketInfo,
    asOrder: bool)
    : FundsResult
  {
    var locked :- Lock(d.funds, d.w, user, d.perp.nextId, margin, e.prices);
    var funds :- PayOpenFee(locked, d.w, user, fee);
    var _ :- if asOrder then Ok(()) else CheckRisk(d, funds, user, notional, margin, leverage, info);
    Ok(funds)
  }

  /** Shift the skew of the grown book and store the position. */
  function EnterBooks(p: PerpState, grown: MarketBook, pos: Position): PerpResult {
    var shifted :- ShiftSkew(grown, pos.isLong, pos.size);
    AddPosition(SetBook(p, pos.market, shifted), pos)
  }

  /** The part that `open_position` and `execute_order` share. */
  function Enter(
    d: Desk, e: Env, price: i128, user: Address, m: u32, size: i128, isLong: bool, leverage: u32, maxSlippageBps: u32,
    asOrder: bool): DeskResult
    requires m in d.perp.markets && leverage > 0
  {
    var terms :- EntryTerms(price, d.perp.markets[m], size, isLong, leverage, maxSlippageBps, asOrder);
    var (exec, grown, notional, margin, fee) := terms;
    var funds :- EnterMoney(d, e, user, notional, margin, fee, leverage, grown.info, asOrder);
    var pos := Position(user, m, size, exec, margin, leverage, isLong, FundingIdx(e, isLong));
    var perp :- EnterBooks(d.perp, grown, pos);
    Ok(d.(funds := funds, perp := perp))
  }

  function OpenPosition(
    d: Desk, e: Env, user: Address, m: u32, size: i128, isLong: bool, leverage: u32, maxSlippageBps: u32): DeskResult
  {
    var _ :- Need(!d.perp.paused, Paused);
    var _ :- Need(size > 0, InvalidSize);
    var b :- ActiveMarket(d.perp, m);
    var _ :- CheckLeverage(b.info, leverage);
    var price :- ReadPrice(e);
    var notional :- Math(Notional(size, price));
    var _ :- Need(notional >= b.info.minSize, InvalidSize);
    Enter(d, e, price, user, m, size, isLong, leverage, maxSlippageBps, false)
  }

  // ----- pending orders -----

  function CreateOrder(
    d: Desk, e: Env, user: Address, m: u32, size: i128, isLong: bool, leverage: u32, maxSlippageBps: u32,
    kind: OrderType,
    expiryOffset: u32): DeskResult
  {
    var _ :- Need(size > 0, InvalidSize);
    var b :- ActiveMarket(d.perp, m);
    var _ :- CheckLeverage(b.info, leverage);
    var _ :- Need(e.ledger + Max(expiryOffset, 1) < TWO_32, MathOverflow);
    var _ :- Need(d.perp.nextOrderId + 1 < TWO_64, MathOverflow);
    var order := PendingOrder(user, m, size, isLong, leverage, maxSlippageBps, kind, e.ledger + Max(expiryOffset, 1));
    Ok(d.(perp := d.perp.(orders := d.perp.orders[d.perp.nextOrderId := order], nextOrderId := d.perp.nextOrderId + 1)))
  }

  function CancelOrder(d: Desk, user: Address, id: u64): DeskResult {
    var _ :- Need(id in d.perp.orders, OrderNotFound);
    var _ :- Need(d.perp.orders[id].user == user, NotPositionOwner);
    Ok(d.(perp := d.perp.(orders := d.perp.orders - {id})))
  }

  /** Whether the price triggers an order. */
  function Triggered(kind: OrderType, isLong: bool, price: i128): Result<bool, PerpError> {
    match kind
    case AtMarket => Ok(true)
    case Limit(limit) => Ok(if isLong then price <= limit else price >= limit)
    case StopLoss(stop) => Ok(if isLong then price <= stop else price >= stop)
    case TakeProfit(target) => Ok(if isLong then price >= target else price <= target)
    case Trailing(offset, anchor) =>
      if offset <= 0 then Err(InvalidTrailingStop)
      else Ok(if isLong then price <= Saturate(anchor - offset) else price >= Saturate(anchor + offset))
  }

  function ExecuteOrder(d: Desk, e: Env, id: u64): DeskResult {
    var _ :- Need(!d.perp.paused, Paused);
    var _ :- Need(id in d.perp.orders, OrderNotFound);
    var o := d.perp.orders[id];
    var _ :- Need(e.ledger <= o.expiry, OrderExpired);
    var b :- ActiveMarket(d.perp, o.market);
    var price :- ReadPrice(e);
    var triggered :- Triggered(o.kind, o.isLong, price);
    var _ :- Need(triggered, OrderConditionNotMet);
    var _ :- Need(o.leverage > 0, MathOverflow);
    var taken := d.(perp := d.perp.(orders := d.perp.orders - {id}));
    Enter(taken, e, price, o.user, o.market, o.size, o.isLong, o.leverage, o.maxSlippageBps, true)
  }

  // ----- closing -----

  /** The position of its owner, with its active market, while the engine is not paused. */
  function OwnedInMarket(p: PerpState, user: Address, id: u64): Result<(Position, MarketBook), PerpError> {
    var _ :- Need(!p.paused, Paused);
    var _ :- Need(id in p.positions, PositionNotFound);
    var _ :- Need(p.positions[id].owner == user, NotPositionOwner);
    var b :- ActiveMarket(p, p.positions[id].market);
    Ok((p.positions[id], b))
  }

  function Plus(a: i128, b: i128): Result<i128, PerpError> {
    var _ :- Need(InI128(a + b), MathOverflow);
    Ok(a + b)
  }

  /** Profit before fees of closing `size` of a position at a price. */
  function GrossPnl(pos: Position, e: Env, size: i128, exec: i128): Result<i128, PerpError> {
    var funding :- Math(FundingPnl(pos.fundingIdx, FundingIdx(e, pos.isLong), size));
    var trade :- Math(TradePnl(pos.isLong, size, pos.entry, exec));
    Plus(trade, funding)
  }

  /** The market's book without `size` of a position. */
  function BookWithout(b: MarketBook, isLong: bool, size: i128): Result<MarketBook, PerpError> {
    var shifted :- ShiftSkew(b, !isLong, size);
    ShrinkOi(shifted, isLong, size)
  }

  /** Profit before fees, and the fee, of closing `size` of a position against its market. */
  function CloseTerms(e: Env, pos: Position, b: MarketBook, size: i128, price: i128): Result<(i128, i128), PerpError> {
    var exec :- Math(ExecutionPrice(price, b.skew, size, !pos.isLong));
    var gross :- GrossPnl(pos, e, size, exec);
    var notional :- Math(Notional(size, exec));
    var fee :- OrPanic(ApplyBps(notional, b.info.makerFeeBps));
    Ok((gross, fee))
  }

  /** The books without a position that its owner closes. */
  function ClosedBooks(p: PerpState, id: u64, pos: Position, b: MarketBook): PerpResult
    requires id in p.positions
  {
    var left :- BookWithout(b, pos.isLong, pos.size);
    Ok(RemovePosition(SetBook(p, pos.market, left), id, false))
  }

  function ClosePosition(d: Desk, e: Env, user: Address, id: u64): DeskResult {
    var owned :- OwnedInMarket(d.perp, user, id);
    var (pos, b) := owned;
    var price :- ReadPrice(e);
    var terms :- CloseTerms(e, pos, b, pos.size, price);
    var (gross, fee) := terms;
    var _ :- Need(InI128(gross - fee), MathOverflow);
    var funds :- SettleClose(d.funds, d.w, user, id, pos.margin, gross, fee);
    var perp :- ClosedBooks(d.perp, id, pos, b);
    Ok(d.(funds := funds, perp := perp))
  }

  function AddMargin(d: Desk, e: Env, user: Address, id: u64, amount: i128): DeskResult {
    var owned :- OwnedInMarket(d.perp, user, id);
    var pos := owned.0;
    var _ :- Need(amount > 0, InvalidAction);
    var funds :- Lock(d.funds, d.w, user, id, amount, e.prices);
    var _ :- Need(InI128(pos.margin + amount), MathOverflow);
    Ok(d.(funds := funds, perp := SetPosition(d.perp, id, pos.(margin := pos.margin + amount))))
  }

  function RemoveMargin(d: Desk, e: Env, user: Address, id: u64, amount: i128): DeskResult {
    var owned :- OwnedInMarket(d.perp, user, id);
    var (pos, b) := owned;
    var _ :- Need(0 < amount < pos.margin, InvalidAction);
    var price :- ReadPrice(e);
    var leverage :- LeverageFor(pos.size, price, pos.margin - amount);
    var _ :- Need(leverage <= b.info.maxLeverage, InvalidLeverage);
    var funds :- Unlock(d.funds, d.w.perp, user, id, amount);
    Ok(d.(funds := funds,
          perp := SetPosition(d.perp, id, pos.(margin := pos.margin - amount, leverage := leverage))))
  }

  /** The margin freed by closing `size` of a position: its share, rounded toward zero. */
  function ReleasedMargin(pos: Position, size: i128): Option<i128> { MulDiv(pos.margin, size, pos.size) }

  /** What is left of a position; its funding checkpoint moves for the rest too. */
  function Remainder(pos: Position, e: Env, size: i128, released: i128, price: i128): Result<Position, PerpError> {
    var _ :- Need(InI128(pos.size - size) && InI128(pos.margin - released), MathOverflow);
    var leverage :- LeverageFor(pos.size - size, price, pos.margin - released);
    Ok(pos.(size := pos.size - size, margin := pos.margin - released, fundingIdx := FundingIdx(e, pos.isLong),
            leverage := leverage))
  }

  /** The books after taking `size` out of a position and its market. */
  function ShrunkBooks(
    p: PerpState, e: Env, id: u64, pos: Position, b: MarketBook, size: i128, released: i128, price: i128): PerpResult
  {
    var left :- BookWithout(b, pos.isLong, size);
    var rest :- Remainder(pos, e, size, released, price);
    Ok(SetPosition(SetBook(p, pos.market, left), id, rest))
  }

  function PartialClose(d: Desk, e: Env, user: Address, id: u64, size: i128): DeskResult {
    var owned :- OwnedInMarket(d.perp, user, id);
    var (pos, b) := owned;
    var _ :- Need(0 < size < pos.size, InvalidAction);
    var price :- ReadPrice(e);
    var terms :- CloseTerms(e, pos, b, size, price);
    var (gross, fee) := terms;
    var released :- Math(ReleasedMargin(pos, size));
    var funds :- SettleClose(d.funds, d.w, user, id, released, gross, fee);
    var perp :- ShrunkBooks(d.perp, e, id, pos, b, size, released, price);
    Ok(d.(funds := funds, perp := perp))
  }

  // ----- forced closes -----

  datatype RiskClosed = RiskClosed(
    user: Address, market: u32, size: i128, released: i128, trade: i128, funding: i128, closed: bool)

  /** The market's book without `size` of a position, open interest first. */
  function ForcedBook(b: MarketBook, isLong: bool, size: i128): Result<MarketBook, PerpError> {
    var shrunk :- ShrinkOi(b, isLong, size);
    ShiftSkew(shrunk, !isLong, size)
  }

  /** `risk_close_position`: books only; the risk engine moves the money. */
  function RiskClose(d: Desk, e: Env, caller: Address, id: u64, size: i128, price: i128)
    : Result<(PerpState, RiskClosed), PerpError>
  {
    var _ :- Need(caller == d.w.risk, Unauthorized);
    var _ :- Need(size > 0 && price > 0, InvalidAction);
    var _ :- Need(id in d.perp.positions, PositionNotFound);
    var pos := d.perp.positions[id];
    var _ :- Need(size <= pos.size, InvalidAction);
    var funding :- Math(FundingPnl(pos.fundingIdx, FundingIdx(e, pos.isLong), size));
    var trade :- Math(TradePnl(pos.isLong, size, pos.entry, price));
    var released :- Math(ReleasedMargin(pos, size));
    var _ :- Need(pos.market in d.perp.markets, MarketNotFound);
    var left :- ForcedBook(d.perp.markets[pos.market], pos.isLong, size);
    var p := SetBook(d.perp, pos.market, left);
    var outcome := RiskClosed(pos.owner, pos.market, size, released, trade, funding, size == pos.size);
    if size == pos.size then Ok((RemovePosition(p, id, true), outcome))
    else
      var rest :- Remainder(pos, e, size, released, price);
      Ok((SetPosition(p, id, rest), outcome))
  }

  // ----- matched orders -----

  type FillTerms = Result<(i128, i128), PerpError>

  /** Margin and maker fee of one side of a fill. */
  function SideTerms(notional: i128, leverage: u32, feeBps: u32): FillTerms
    requires leverage > 0
  {
    var margin := TruncDiv(notional, leverage);
    var _ :- Need(0 < margin <= I128_MAX, InsufficientMargin);
    var fee :- OrPanic(ApplyBps(notional, feeBps));
    Ok((margin, fee))
  }

  /** One side of a matched fill: margin locked under its id, and the maker fee. */
  function FillSide(
    w: Wiring, f: Funds, e: Env, user: Address, id: u64, terms: FillTerms): Result<(Funds, i128), PerpError>
  {
    var t :- terms;
    var _ :- Need(id + 1 < TWO_64, MathOverflow);
    var locked :- Lock(f, w, user, id, t.0, e.prices);
    var paid :- PayOpenFee(locked, w, user, t.1);
    Ok((paid, t.0))
  }

  /** Both open interests after a fill, under both caps. */
  function GrowBoth(b: MarketBook, size: i128): Result<MarketBook, PerpError> {
    var _ :- Need(InI128(b.oiLong + size) && InI128(b.oiShort + size), MathOverflow);
    var _ :- Need(b.oiLong + size <= b.info.maxOiLong && b.oiShort + size <= b.info.maxOiShort, OpenInterestExceeded);
    Ok(b.(oiLong := b.oiLong + size, oiShort := b.oiShort + size))
  }

  /** What a fill must satisfy before it touches anything; gives the notional of either side. */
  function FillChecks(
    p: PerpState, clob: Address, caller: Address, m: u32, size: i128, price: i128, buyLeverage: u32, sellLeverage: u32)
    : Result<i128, PerpError>
  {
    var _ :- Need(!p.paused, Paused);
    var _ :- Need(caller == clob, Unauthorized);
    var _ :- Need(size > 0 && price > 0, InvalidSize);
    var b :- ActiveMarket(p, m);
    var _ :- CheckLeverage(b.info, buyLeverage);
    var _ :- CheckLeverage(b.info, sellLeverage);
    Math(Notional(size, price))
  }

  /** The money of both sides, one after the other, with the two margins. */
  function FillMoney(d: Desk, e: Env, buyer: Address, seller: Address, buy: FillTerms, sell: FillTerms)
    : Result<(Funds, i128, i128), PerpError>
  {
    var bought := FillSide(d.w, d.funds, e, buyer, d.perp.nextId, buy);
    JoinSides(bought, if bought.Ok? then SecondSide(d.w, bought.value.0, e, seller, d.perp.nextId, sell) else bought)
  }

  /** The second side of a fill, under the id after the first. */
  function SecondSide(
    w: Wiring, f: Funds, e: Env, user: Address, id: u64, terms: FillTerms): Result<(Funds, i128), PerpError>
  {
    if id + 1 < TWO_64 then FillSide(w, f, e, user, id + 1, terms) else Err(MathOverflow)
  }

  function JoinSides(first: Result<(Funds, i128), PerpError>, second: Result<(Funds, i128), PerpError>)
    : Result<(Funds, i128, i128), PerpError>
  {
    var bought :- first;
    var sold :- second;
    Ok((sold.0, bought.1, sold.1))
  }

  /** Both sides of a fill of a given notional. */
  function FillBoth(
    d: Desk, e: Env, buyer: Address, seller: Address, m: u32, size: i128, price: i128, notional: i128, buyLeverage: u32,
    sellLeverage: u32): DeskResult
    requires m in d.perp.markets && buyLeverage > 0 && sellLeverage > 0
  {
    var b := d.perp.markets[m];
    var money :- FillMoney(d, e, buyer, seller, SideTerms(notional, buyLeverage, b.info.makerFeeBps),
                           SideTerms(notional, sellLeverage, b.info.makerFeeBps));
    var grown :- GrowBoth(b, size);
    var perp :- AddPair(SetBook(d.perp, m, grown),
                        Position(buyer, m, size, price, money.1, buyLeverage, true, e.longIdx),
                        Position(seller, m, size, price, money.2, sellLeverage, false, e.shortIdx));
    Ok(d.(funds := money.0, perp := perp))
  }

  /** `execute_clob_fill`: a long for the buyer and a short for the seller, without a skew fee. */
  function ExecuteFill(
    d: Desk, e: Env, caller: Address, buyer: Address, seller: Address, m: u32, size: i128, price: i128,
    buyLeverage: u32,
    sellLeverage: u32): DeskResult
  {
    var notional :- FillChecks(d.perp, d.w.clob, caller, m, size, price, buyLeverage, sellLeverage);
    FillBoth(d, e, buyer, seller, m, size, price, notional, buyLeverage, sellLeverage)
  }

  // ----- funding payments -----

  /** `settle_funding_for_position`, after the index has been updated: pay or collect through the funding pool, then
      move the checkpoint. */
  function SettleFunding(d: Desk, e: Env, id: u64): DeskResult {
    var _ :- Need(id in d.perp.positions, PositionNotFound);
    var pos := d.perp.positions[id];
    var idx := FundingIdx(e, pos.isLong);
    var payment :- Math(FundingPnl(pos.fundingIdx, idx, pos.size));
    var vault :-
      if payment > 0 then
        Call(Vault.MoveBalance(d.funds.vault, d.w.funding, d.w.fundingPool, pos.owner, d.w.usdc, payment))
      else if payment < 0 then
        var _ :- Need(payment > I128_MIN, MathOverflow);
        Call(Vault.MoveBalance(d.funds.vault, d.w.funding, pos.owner, d.w.fundingPool, d.w.usdc, Neg(payment)))
      else Ok(d.funds.vault);
    Ok(d.(funds := d.funds.(vault := vault), perp := SetPosition(d.perp, id, pos.(fundingIdx := idx))))
  }

  // ----- the SLP vault over the collateral vault -----

  /** A deposit into the SLP: shares to the user, tokens to the SLP's vault account. */
  function DepositSlp(d: Desk, e: Env, user: Address, native: i128, held: Option<i128>, calls: bool): DeskResult {
    var slp :- Call(SlpVault.Deposit(d.funds.slp, user, native, e.now, calls));
    var vault :- Call(Vault.Deposit(d.funds.vault, d.w.slp, d.w.usdc, native, held, calls));
    Ok(d.(funds := Funds(vault, slp)))
  }

  function SeedSlp(d: Desk, caller: Address, native: i128, held: Option<i128>, calls: bool): DeskResult {
    var slp :- Call(SlpVault.Seed(d.funds.slp, caller, native, calls));
    var vault :- Call(Vault.Deposit(d.funds.vault, d.w.slp, d.w.usdc, native, held, calls));
    Ok(d.(funds := Funds(vault, slp)))
  }

  /** A redemption: the native amount leaves the SLP's vault account. */
  function WithdrawSlp(
    d: Desk, e: Env, user: Address, shares: i128, openInterest: i128, riskLocked: i128, calls: bool): DeskResult
  {
    var burnt :- Call(SlpVault.Withdraw(d.funds.slp, user, shares, e.now, openInterest, calls));
    var _ :- Need(InI128(burnt.1), CallFailed);
    var vault :- Call(Vault.Withdraw(d.funds.vault, d.w.slp, d.w.usdc, burnt.1, riskLocked, calls));
    Ok(d.(funds := Funds(vault, burnt.0)))
  }

  /** Fees move from the treasury's vault account to the SLP's. */
  function SweepSlp(d: Desk, caller: Address, native: i128): DeskResult {
    var slp :- Call(SlpVault.SweepFees(d.funds.slp, caller, native, true));
    var _ :- Need(InI128(native * SlpVault.NATIVE_TO_INTERNAL), CallFailed);
    var vault :- Call(Vault.MoveBalance(d.funds.vault, d.w.slp, d.w.treasury, d.w.slp, d.w.usdc,
                                        native * SlpVault.NATIVE_TO_INTERNAL));
    Ok(d.(funds := Funds(vault, slp)))
  }
}
