/** The collateral vault: balances, margin locks, sub-accounts and swaps (stellax-vault/src/lib.rs). */
module Vault {
  import opened Int128
  import opened Host
  import opened FixedPoint
  import opened MapSums

  /** `Panic` is a failed token transfer or oracle call, or an unchecked operation that overflows. */
  datatype VaultError =
    | Unauthorized | InvalidConfig | TokenNotSupported | TokenInactive | DepositCapExceeded | InvalidAmount
    | InsufficientBalance | InsufficientFreeCollateral | MarginLockExceeded | UnknownPosition | MathOverflow
    | SubAccountNotFound | Panic

  datatype Collateral = Collateral(decimals: u32, haircutBps: u32, cap: i128, active: bool)

  datatype VaultConfig = VaultConfig(
    admin: Address, treasury: Address, insurance: Address, callers: set<Address>,
    supported: seq<Address>, tokens: map<Address, Collateral>)

  /** Amounts have 18 decimals. Balances are per account and token; locks are per account and position. */
  datatype VaultState = VaultState(
    cfg: VaultConfig,
    balances: map<(Address, Address), int>, subs: map<(Address, u32, Address), int>,
    locked: map<(Address, u64), int>, lockedTotal: map<Address, int>,
    isolated: map<(Address, u64), int>, isolatedTotal: map<Address, int>)

  type VaultResult = Result<VaultState, VaultError>

  // ----- helpers -----

  function TokenInfo(c: VaultConfig, token: Address): Result<Collateral, VaultError> {
    if token in c.tokens then Ok(c.tokens[token]) else Err(TokenNotSupported)
  }

  function ActiveToken(c: VaultConfig, token: Address): Result<Collateral, VaultError> {
    var info :- TokenInfo(c, token);
    if info.active then Ok(info) else Err(TokenInactive)
  }

  /** The entry after a checked addition that may not go negative. */
  function Adjusted(current: int, delta: int): Result<int, VaultError> {
    var _ :- Need(InI128(current + delta), MathOverflow);
    var _ :- Need(0 <= current + delta, InsufficientBalance);
    Ok(current + delta)
  }

  /** `update_balance`. */
  function AddBalance(s: VaultState, user: Address, token: Address, delta: int): VaultResult {
    var next :- Adjusted(Get(s.balances, (user, token)), delta);
    Ok(s.(balances := s.balances[(user, token) := next]))
  }

  /** `update_sub_balance`. */
  function AddSub(s: VaultState, user: Address, sub: u32, token: Address, delta: int): VaultResult {
    var next :- Adjusted(Get(s.subs, (user, sub, token)), delta);
    Ok(s.(subs := s.subs[(user, sub, token) := next]))
  }

  function ToInternal(amount: i128, info: Collateral): Result<i128, VaultError> {
    var internal := ToPrecision(amount, info.decimals, 18);
    if internal.Some? then Ok(internal.value) else Err(MathOverflow)
  }

  /** The 18-decimal amount of an incoming transfer, if the token takes it. `held` is what the protocol's accounts
      hold of the token on chain; nothing when adding them up overflows. */
  function Inflow(c: VaultConfig, token: Address, amount: i128, held: Option<i128>): Result<i128, VaultError> {
    var info :- ActiveToken(c, token);
    var internal :- ToInternal(amount, info);
    var _ :- Need(held.Some? && InI128(held.value + internal), MathOverflow);
    var _ :- Need(held.value + internal <= info.cap, DepositCapExceeded);
    Ok(internal)
  }

  /** The 18-decimal amount of an outgoing transfer, if the balance covers it. */
  function Outflow(c: VaultConfig, token: Address, amount: i128, balance: int): Result<i128, VaultError> {
    var info :- ActiveToken(c, token);
    var internal :- ToInternal(amount, info);
    var _ :- Need(balance >= internal, InsufficientBalance);
    Ok(internal)
  }

  /** What leaves on chain: the 18-decimal amount scaled back down. */
  function NativeOut(c: VaultConfig, token: Address, internal: i128): Option<i128> {
    if token in c.tokens then ToPrecision(internal, 18, c.tokens[token].decimals) else None
  }

  // ----- collateral value -----

  const BILLION: int := 1_000_000_000

  /** `collateral_value_for_amount`: both scalings truncate, then the haircut. */
  function CollateralValue(info: Collateral, balance: int, price: Option<i128>): Result<i128, VaultError> {
    var _ :- Need(price.Some?, Panic);
    var _ :- Need(InI128(TruncDiv(balance, BILLION) * price.value), MathOverflow);
    var gross := TruncDiv(TruncDiv(balance, BILLION) * price.value, BILLION);
    var net := MulDiv(gross, BPS_DENOMINATOR - Min(info.haircutBps, BPS_DENOMINATOR), BPS_DENOMINATOR);
    if net.Some? then Ok(net.value) else Err(Panic)
  }

  function PriceOf(prices: map<Address, i128>, token: Address): Option<i128> {
    if token in prices then Some(prices[token]) else None
  }

  /** The value of a user's holdings in the first n supported tokens. */
  function ValueUpTo(s: VaultState, user: Address, prices: map<Address, i128>, n: nat): Result<i128, VaultError>
    requires n <= |s.cfg.supported|
  {
    if n == 0 then Ok(0)
    else
      var total :- ValueUpTo(s, user, prices, n - 1);
      var token := s.cfg.supported[n - 1];
      var balance := Get(s.balances, (user, token));
      if balance == 0 then Ok(total)
      else
        var info :- ActiveToken(s.cfg, token);
        var value :- CollateralValue(info, balance, PriceOf(prices, token));
        var _ :- Need(InI128(total + value), MathOverflow);
        Ok(total + value)
  }

  /** `compute_total_collateral_value`. */
  function TotalCollateral(s: VaultState, user: Address, prices: map<Address, i128>): Result<i128, VaultError> {
    ValueUpTo(s, user, prices, |s.cfg.supported|)
  }

  // ----- entry points -----

  function Deposit(
    s: VaultState, user: Address, token: Address, amount: i128, held: Option<i128>, calls: bool): VaultResult
  {
    var _ :- Need(amount > 0, InvalidAmount);
    var internal :- Inflow(s.cfg, token, amount, held);
    var _ :- Need(calls, Panic);
    AddBalance(s, user, token, internal)
  }

  /** `riskLocked` is the margin the risk engine reports as locked by the user's positions. */
  function Withdraw(
    s: VaultState, user: Address, token: Address, amount: i128, riskLocked: i128, calls: bool): VaultResult
  {
    var _ :- Need(amount > 0, InvalidAmount);
    var balance := Get(s.balances, (user, token));
    var internal :- Outflow(s.cfg, token, amount, balance);
    var _ :- Need(InI128(balance - internal), MathOverflow);
    var _ :- Need(balance - internal >= riskLocked, InsufficientFreeCollateral);
    var _ :- Need(NativeOut(s.cfg, token, internal).Some?, MathOverflow);
    var _ :- Need(calls, Panic);
    AddBalance(s, user, token, -internal)
  }

  /** What is not locked already must cover a new lock. */
  function CheckFree(s: VaultState, user: Address, amount: i128, prices: map<Address, i128>): Result<(), VaultError> {
    var total :- TotalCollateral(s, user, prices);
    var cross, isolated := Get(s.lockedTotal, user), Get(s.isolatedTotal, user);
    Need(InI128(total - cross) && InI128(total - cross - isolated)
        && amount <= total - cross - isolated, MarginLockExceeded)
  }

  function LockMargin(s: VaultState, caller: Address, user: Address, id: u64, amount: i128, prices: map<Address, i128>)
    : VaultResult
  {
    var _ :- Need(caller in s.cfg.callers, Unauthorized);
    var _ :- Need(amount > 0, InvalidAmount);
    var _ :- CheckFree(s, user, amount, prices);
    var bucket, total := Get(s.locked, (user, id)) + amount, Get(s.lockedTotal, user) + amount;
    var _ :- Need(InI128(bucket) && InI128(total), Panic);
    Ok(s.(locked := s.locked[(user, id) := bucket], lockedTotal := s.lockedTotal[user := total]))
  }

  /** The bucket after a release; an empty bucket is removed. */
  function Released(m: map<(Address, u64), int>, key: (Address, u64), amount: int): map<(Address, u64), int> {
    if Get(m, key) == amount then m - {key} else m[key := Get(m, key) - amount]
  }

  function UnlockMargin(s: VaultState, caller: Address, user: Address, id: u64, amount: i128): VaultResult {
    var _ :- Need(caller in s.cfg.callers, Unauthorized);
    var _ :- Need(amount > 0, InvalidAmount);
    var _ :- Need((user, id) in s.locked, UnknownPosition);
    var _ :- Need(amount <= s.locked[(user, id)], InvalidAmount);
    var total := Get(s.lockedTotal, user) - amount;
    var _ :- Need(InI128(total), Panic);
    Ok(s.(locked := Released(s.locked, (user, id), amount), lockedTotal := s.lockedTotal[user := total]))
  }

  function LockIsolated(
    s: VaultState, caller: Address, user: Address, id: u64, amount: i128, prices: map<Address, i128>)
    : VaultResult
  {
    var _ :- Need(caller in s.cfg.callers, Unauthorized);
    var _ :- Need(amount > 0, InvalidAmount);
    var value :- TotalCollateral(s, user, prices);
    var cross, isolated := Get(s.lockedTotal, user), Get(s.isolatedTotal, user);
    var _ :- Need(InI128(cross + isolated), MathOverflow);
    var _ :- Need(InI128(value - (cross + isolated)) && amount <= value - (cross + isolated), MarginLockExceeded);
    var bucket, total := Get(s.isolated, (user, id)) + amount, isolated + amount;
    var _ :- Need(InI128(bucket) && InI128(total), Panic);
    Ok(s.(isolated := s.isolated[(user, id) := bucket], isolatedTotal := s.isolatedTotal[user := total]))
  }

  /** Release part of an isolated bucket. */
  function DrainIsolated(s: VaultState, user: Address, id: u64, amount: int): VaultResult {
    var total := Get(s.isolatedTotal, user) - amount;
    var _ :- Need(InI128(total), Panic);
    Ok(s.(isolated := Released(s.isolated, (user, id), amount), isolatedTotal := s.isolatedTotal[user := total]))
  }

  function UnlockIsolated(s: VaultState, caller: Address, user: Address, id: u64, amount: i128): VaultResult {
    var _ :- Need(caller in s.cfg.callers, Unauthorized);
    var _ :- Need(amount > 0, InvalidAmount);
    var _ :- Need((user, id) in s.isolated, UnknownPosition);
    var _ :- Need(amount <= s.isolated[(user, id)], InvalidAmount);
    DrainIsolated(s, user, id, amount)
  }

  /** What a realized result takes from a bucket: all of it for a profit, the loss up to the bucket otherwise. */
  function Consumed(bucket: int, pnl: i128): int { if pnl >= 0 then bucket else Min(-(pnl as int), bucket) }

  function Shortfall(bucket: int, pnl: i128): int { if pnl >= 0 then 0 else Max(-(pnl as int) - bucket, 0) }

  function RealizeIsolated(s: VaultState, caller: Address, user: Address, id: u64, pnl: i128): VaultResult {
    var _ :- Need(caller in s.cfg.callers, Unauthorized);
    var _ :- Need((user, id) in s.isolated, UnknownPosition);
    var _ :- Need(pnl > I128_MIN, Panic);
    DrainIsolated(s, user, id, Consumed(s.isolated[(user, id)], pnl))
  }

  /** The first supported token of which the account holds anything. */
  function FirstHeld(s: VaultState, user: Address, n: nat): Option<Address>
    requires n <= |s.cfg.supported|
    decreases |s.cfg.supported| - n
  {
    if n == |s.cfg.supported| then None
    else if Get(s.balances, (user, s.cfg.supported[n])) != 0 then Some(s.cfg.supported[n])
    else FirstHeld(s, user, n + 1)
  }

  /** The locked total falls by the whole amount; per-position buckets and all but one token stay as they were. */
  function TransferMargin(s: VaultState, caller: Address, user: Address, toInsurance: bool, amount: i128): VaultResult {
    var _ :- Need(caller in s.cfg.callers, Unauthorized);
    var _ :- Need(amount > 0, InvalidAmount);
    var total := Get(s.lockedTotal, user);
    var _ :- Need(amount <= total, MarginLockExceeded);
    var recipient := if toInsurance then s.cfg.insurance else s.cfg.treasury;
    var token := FirstHeld(s, user, 0);
    var moved :- if token.None? then Ok(s)
                 else TakeMargin(s, user, recipient, token.value, Min(Get(s.balances, (user, token.value)), amount));
    Ok(moved.(lockedTotal := s.lockedTotal[user := total - amount]))
  }

  function TakeMargin(s: VaultState, user: Address, recipient: Address, token: Address, amount: int): VaultResult {
    var taken :- AddBalance(s, user, token, -amount);
    AddBalance(taken, recipient, token, amount)
  }

  function MoveBalance(
    s: VaultState, caller: Address, from: Address, to: Address, token: Address, amount: i128): VaultResult
  {
    var _ :- Need(caller in s.cfg.callers, Unauthorized);
    var _ :- Need(amount > 0, InvalidAmount);
    var _ :- TokenInfo(s.cfg, token);
    TakeMargin(s, from, to, token, amount)
  }

  function SeedTreasury(
    s: VaultState, admin: Address, token: Address, amount: i128, held: Option<i128>, calls: bool): VaultResult
  {
    var _ :- Need(admin == s.cfg.admin, Unauthorized);
    Deposit(s, s.cfg.treasury, token, amount, held, calls)
  }

  function Credit(
    s: VaultState, caller: Address, user: Address, token: Address, amount: i128, held: Option<i128>): VaultResult
  {
    var _ :- Need(caller in s.cfg.callers, Unauthorized);
    Deposit(s, user, token, amount, held, true)
  }

  function Debit(s: VaultState, caller: Address, user: Address, token: Address, amount: i128): VaultResult {
    var _ :- Need(caller in s.cfg.callers, Unauthorized);
    var _ :- Need(amount > 0, InvalidAmount);
    var internal :- Outflow(s.cfg, token, amount, Get(s.balances, (user, token)));
    AddBalance(s, user, token, -internal)
  }

  function DepositSub(
    s: VaultState, user: Address, sub: u32, token: Address, amount: i128, held: Option<i128>, calls: bool)
    : VaultResult
  {
    var _ :- Need(amount > 0, InvalidAmount);
    var _ :- Need(sub != 0, InvalidConfig);
    var internal :- Inflow(s.cfg, token, amount, held);
    var _ :- Need(calls, Panic);
    AddSub(s, user, sub, token, internal)
  }

  function WithdrawSub(s: VaultState, user: Address, sub: u32, token: Address, amount: i128, calls: bool): VaultResult {
    var _ :- Need(amount > 0, InvalidAmount);
    var _ :- Need(sub != 0, InvalidConfig);
    var internal :- Outflow(s.cfg, token, amount, Get(s.subs, (user, sub, token)));
    var _ :- Need(NativeOut(s.cfg, token, internal).Some?, MathOverflow);
    var _ :- Need(calls, Panic);
    AddSub(s, user, sub, token, -internal)
  }

  function TransferBetweenSubs(
    s: VaultState, user: Address, from: u32, to: u32, token: Address, amount: i128): VaultResult
  {
    var _ :- Need(amount > 0, InvalidAmount);
    var _ :- Need(from != 0 && to != 0 && from != to, InvalidConfig);
    var _ :- TokenInfo(s.cfg, token);
    var _ :- Need(Get(s.subs, (user, from, token)) >= amount, SubAccountNotFound);
    var taken :- AddSub(s, user, from, token, -(amount as int));
    AddSub(taken, user, to, token, amount)
  }

  function AtomicSwap(
    s: VaultState, caller: Address, a: Address, b: Address, tokenA: Address, amountA: i128, tokenB: Address,
    amountB: i128)
    : VaultResult
  {
    var _ :- Need(caller in s.cfg.callers, Unauthorized);
    var _ :- Need(amountA > 0 && amountB > 0, InvalidAmount);
    var _ :- Need(tokenA != tokenB, InvalidConfig);
    var _ :- TokenInfo(s.cfg, tokenA);
    var _ :- TokenInfo(s.cfg, tokenB);
    var first :- TakeMargin(s, a, b, tokenA, amountA);
    TakeMargin(first, b, a, tokenB, amountB)
  }
}
