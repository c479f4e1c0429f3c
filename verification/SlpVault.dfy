/** The liquidity vault that takes the other side of every trade: its shares and its net assets
    (stellax-slp-vault/src/lib.rs). */
module SlpVault {
  import opened Int128
  import opened Host
  import opened FixedPoint
  import opened MapSums

  const NATIVE_TO_INTERNAL: int := 100_000_000_000

  /** `Panic` is a failed call into another contract, or an unchecked operation that overflows. */
  datatype SlpError =
    | Unauthorized | InvalidAmount | InsufficientShares | MathOverflow | VaultCapExceeded | CooldownNotMet
    | SkewCapExceeded | InsufficientAllowance | InsufficientLiquidity | UnauthorizedCaller | Panic

  datatype SlpConfig = SlpConfig(
    admin: Address, keeper: Address, cooldownSecs: u64, skewCapBps: u32, maxVaultCap: i128, markets: nat,
    callers: seq<Address>)

  datatype SlpState = SlpState(
    cfg: SlpConfig, totalShares: i128, totalAssets: i128, shares: map<Address, int>,
    allowances: map<(Address, Address), int>, unlockAt: map<Address, int>)

  type SlpResult = Result<SlpState, SlpError>

  // ----- share arithmetic -----

  /** Shares for an amount: one for one at inception, in proportion to the assets after. */
  function SharesFor(amount: i128, totalShares: int, totalAssets: int): Option<i128> {
    if totalShares == 0 || totalAssets == 0 then Some(amount) else MulDiv(amount, totalShares, totalAssets)
  }

  function Underlying(shares: int, totalShares: int, totalAssets: int): Option<i128> {
    MulDiv(shares, totalAssets, totalShares)
  }

  function ToNative(internal: int): int { TruncDiv(internal, NATIVE_TO_INTERNAL) }

  /** `mint_shares`. */
  function MintShares(s: SlpState, user: Address, amount: i128): SlpResult {
    var minted := SharesFor(amount, s.totalShares, s.totalAssets);
    var _ :- Need(minted.Some?, Panic);
    var _ :- Need(minted.value > 0, MathOverflow);
    var _ :- Need(InI128(Get(s.shares, user) + minted.value), Panic);
    var _ :- Need(InI128(s.totalShares + minted.value) && InI128(s.totalAssets + amount), Panic);
    Ok(s.(shares := s.shares[user := Get(s.shares, user) + minted.value],
          totalShares := s.totalShares + minted.value, totalAssets := s.totalAssets + amount))
  }

  /** `burn_shares_and_redeem`, which also gives the native amount to pay out. */
  function BurnShares(s: SlpState, user: Address, shares: i128): Result<(SlpState, int), SlpError> {
    var _ :- Need(s.totalShares != 0, MathOverflow);
    var underlying := Underlying(shares, s.totalShares, s.totalAssets);
    var _ :- Need(underlying.Some?, Panic);
    var held := Get(s.shares, user);
    var _ :- Need(held >= shares, InsufficientShares);
    var _ :- Need(InI128(held - shares) && InI128(s.totalShares - shares)
        && InI128(s.totalAssets - underlying.value), Panic);
    var native := ToNative(underlying.value);
    var _ :- Need(native > 0, InvalidAmount);
    Ok((s.(shares := s.shares[user := held - shares], totalShares := s.totalShares - shares,
           totalAssets := s.totalAssets - underlying.value), native))
  }

  // ----- entry points; `calls` tells whether the calls into the token and the vault succeed -----

  /** The 18-decimal amount of a deposit that fits under the cap. */
  function DepositAmount(s: SlpState, amountNative: i128): Result<i128, SlpError> {
    var _ :- Need(amountNative > 0, InvalidAmount);
    var internal := amountNative * NATIVE_TO_INTERNAL;
    var _ :- Need(InI128(internal), MathOverflow);
    var _ :- Need(InI128(s.totalAssets + internal), Panic);
    var _ :- Need(s.totalAssets + internal <= s.cfg.maxVaultCap, VaultCapExceeded);
    Ok(internal)
  }

  function Deposit(s: SlpState, user: Address, amountNative: i128, now: u64, calls: bool): SlpResult {
    var internal :- DepositAmount(s, amountNative);
    var _ :- Need(calls, Panic);
    var minted :- MintShares(s, user, internal);
    Ok(minted.(unlockAt := s.unlockAt[user := Min(now + s.cfg.cooldownSecs, TWO_64 - 1)]))
  }

  /** The administrator's bootstrap deposit sets no cooldown. */
  function Seed(s: SlpState, caller: Address, amountNative: i128, calls: bool): SlpResult {
    var _ :- Need(caller == s.cfg.admin, Unauthorized);
    var internal :- DepositAmount(s, amountNative);
    var _ :- Need(calls, Panic);
    MintShares(s, s.cfg.admin, internal)
  }

  /** A product that saturates upward when it overflows. */
  function OrMax(x: int): int { if InI128(x) then x else I128_MAX }

  /** Withdrawals stop when open interest is too large for the assets they would leave. */
  function SkewAllows(s: SlpState, shares: i128, openInterest: i128): Result<(), SlpError> {
    if s.cfg.skewCapBps > 0 && s.cfg.markets > 0 && s.totalShares > 0 && s.totalAssets > 0 then
      var underlying := Underlying(shares, s.totalShares, s.totalAssets);
      var _ :- Need(underlying.Some?, Panic);
      var left := Saturate(s.totalAssets - underlying.value);
      Need(left > 0 ==> OrMax(openInterest * BPS_DENOMINATOR) <= OrMax(left * s.cfg.skewCapBps), SkewCapExceeded)
    else Ok(())
  }

  function Withdraw(s: SlpState, user: Address, shares: i128, now: u64, openInterest: i128, calls: bool)
    : Result<(SlpState, int), SlpError>
  {
    var _ :- Need(shares > 0, InvalidAmount);
    var _ :- Need(Get(s.shares, user) >= shares, InsufficientShares);
    var _ :- Need(now >= Get(s.unlockAt, user), CooldownNotMet);
    var _ :- SkewAllows(s, shares, openInterest);
    var burnt :- BurnShares(s, user, shares);
    var _ :- Need(calls, Panic);
    Ok(burnt)
  }

  function AddAssets(s: SlpState, amount: int): SlpResult {
    var _ :- Need(InI128(s.totalAssets + amount), Panic);
    Ok(s.(totalAssets := s.totalAssets + amount))
  }

  function SweepFees(s: SlpState, caller: Address, amountNative: i128, calls: bool): SlpResult {
    var _ :- Need(caller == s.cfg.keeper, Unauthorized);
    var _ :- Need(amountNative > 0, InvalidAmount);
    var _ :- Need(InI128(amountNative * NATIVE_TO_INTERNAL), MathOverflow);
    var _ :- Need(calls, Panic);
    AddAssets(s, amountNative * NATIVE_TO_INTERNAL)
  }

  function CreditPnl(s: SlpState, caller: Address, amount: i128): SlpResult {
    var _ :- Need(caller in s.cfg.callers, UnauthorizedCaller);
    var _ :- Need(amount > 0, InvalidAmount);
    AddAssets(s, amount)
  }

  function DrawPnl(s: SlpState, caller: Address, amount: i128, calls: bool): SlpResult {
    var _ :- Need(caller in s.cfg.callers, UnauthorizedCaller);
    var _ :- Need(amount > 0, InvalidAmount);
    var _ :- Need(s.totalAssets >= amount, InsufficientLiquidity);
    var _ :- Need(calls, Panic);
    Ok(s.(totalAssets := s.totalAssets - amount))
  }

  /** The comment in the code says the assets stop at zero; the signed saturating subtraction does not. */
  function RecordLoss(s: SlpState, caller: Address, amount: i128): SlpResult {
    var _ :- Need(caller in s.cfg.callers, UnauthorizedCaller);
    var _ :- Need(amount > 0, InvalidAmount);
    Ok(s.(totalAssets := Saturate(s.totalAssets - amount)))
  }

  /** The receiver's balance is read after the sender's is written, so a self-transfer changes nothing. */
  function MoveShares(s: SlpState, from: Address, to: Address, amount: i128): SlpResult {
    var _ :- Need(Get(s.shares, from) >= amount, InsufficientShares);
    var _ :- Need(InI128(Get(s.shares, from) - amount), Panic);
    var taken := s.shares[from := Get(s.shares, from) - amount];
    var _ :- Need(InI128(Get(taken, to) + amount), Panic);
    Ok(s.(shares := taken[to := Get(taken, to) + amount]))
  }

  function Transfer(s: SlpState, from: Address, to: Address, amount: i128): SlpResult {
    var _ :- Need(amount > 0, InvalidAmount);
    MoveShares(s, from, to, amount)
  }

  function Approve(s: SlpState, owner: Address, spender: Address, amount: i128): SlpState {
    s.(allowances := s.allowances[(owner, spender) := amount])
  }

  function TransferFrom(s: SlpState, spender: Address, from: Address, to: Address, amount: i128): SlpResult {
    var _ :- Need(amount > 0, InvalidAmount);
    var allowed := Get(s.allowances, (from, spender));
    var _ :- Need(allowed >= amount, InsufficientAllowance);
    MoveShares(s.(allowances := s.allowances[(from, spender) := allowed - amount]), from, to, amount)
  }

  // ----- the contract -----

  class SlpContract {
    var cfg: SlpConfig
    var totalShares: i128
    var totalAssets: i128
    var shares: map<Address, int>
    var allowances: map<(Address, Address), int>
    var unlockAt: map<Address, int>

    ghost function Model(): SlpState
      reads this
    {
      SlpState(cfg, totalShares, totalAssets, shares, allowances, unlockAt)
    }

    constructor (cfg: SlpConfig)
      ensures Model() == SlpState(cfg, 0, 0, map[], map[], map[])
    {
      this.cfg, totalShares, totalAssets, shares, allowances, unlockAt := cfg, 0, 0, map[], map[], map[];
    }

    /** What the host keeps to undo a failed transaction. */
    method Save() returns (s: SlpState)
      ensures s == Model()
    {
      return SlpState(cfg, totalShares, totalAssets, shares, allowances, unlockAt);
    }

    /** The host's rollback. */
    method Rollback(s: SlpState)
      modifies this
      ensures Model() == s
    {
      cfg, totalShares, totalAssets, shares, allowances, unlockAt :=
        s.cfg, s.totalShares, s.totalAssets, s.shares, s.allowances, s.unlockAt;
    }

    /** `require_authorized_caller`. */
    method IsCaller(caller: Address) returns (found: bool)
      ensures found <==> caller in cfg.callers
    {
      for i := 0 to |cfg.callers|
        invariant caller !in cfg.callers[..i]
      {
        if cfg.callers[i] == caller {
          return true;
        }
      }
      return false;
    }

    method Mint(user: Address, amount: i128) returns (r: Result<(), SlpError>)
      modifies `shares, `totalShares, `totalAssets
      ensures r == Status(MintShares(old(Model()), user, amount))
      ensures Model() == After(old(Model()), MintShares(old(Model()), user, amount))
    {
      var minted := SharesFor(amount, totalShares, totalAssets);
      if minted.None? {
        return Err(Panic);
      }
      if minted.value <= 0 {
        return Err(MathOverflow);
      }
      var balance := Get(shares, user) + minted.value;
      if !InI128(balance) || !InI128(totalShares + minted.value) || !InI128(totalAssets + amount) {
        return Err(Panic);
      }
      shares := shares[user := balance];
      totalShares := totalShares + minted.value;
      totalAssets := totalAssets + amount;
      return Ok(());
    }

    method DoDeposit(user: Address, amountNative: i128, now: u64, calls: bool) returns (r: Result<(), SlpError>)
      modifies `shares, `totalShares, `totalAssets, `unlockAt
      ensures r == Status(Deposit(old(Model()), user, amountNative, now, calls))
      ensures Model() == After(old(Model()), Deposit(old(Model()), user, amountNative, now, calls))
    {
      var internal := DepositAmount(SlpState(cfg, totalShares, totalAssets, shares, allowances, unlockAt),
          amountNative);
      if internal.Err? {
        return Err(internal.error);
      }
      if !calls {
        return Err(Panic);
      }
      r := Mint(user, internal.value);
      if r.Ok? {
        unlockAt := unlockAt[user := Min(now + cfg.cooldownSecs, TWO_64 - 1)];
      }
    }

    method DoWithdraw(user: Address, amount: i128, now: u64, openInterest: i128, calls: bool)
      returns (r: Result<int, SlpError>)
      modifies `shares, `totalShares, `totalAssets
      ensures r == match Withdraw(old(Model()), user, amount, now, openInterest, calls)
                   case Err(e) => Err(e)
                   case Ok(burnt) => Ok(burnt.1)
      ensures Model() == match Withdraw(old(Model()), user, amount, now, openInterest, calls)
                         case Err(_) => old(Model())
                         case Ok(burnt) => burnt.0
    {
      if amount <= 0 {
        return Err(InvalidAmount);
      }
      if Get(shares, user) < amount {
        return Err(InsufficientShares);
      }
      if now < Get(unlockAt, user) {
        return Err(CooldownNotMet);
      }
      var allowed := SkewAllows(SlpState(cfg, totalShares, totalAssets, shares, allowances, unlockAt), amount,
          openInterest);
      if allowed.Err? {
        return Err(allowed.error);
      }
      r := Burn(user, amount, calls);
    }

    /** `burn_shares_and_redeem` and the payout after it, which fails with it. */
    method Burn(user: Address, amount: i128, calls: bool) returns (r: Result<int, SlpError>)
      modifies `shares, `totalShares, `totalAssets
      ensures var burnt := BurnShares(old(Model()), user, amount);
              && r == (if burnt.Err? then Err(burnt.error) else if calls then Ok(burnt.value.1) else Err(Panic))
              && Model() == if burnt.Ok? && calls then burnt.value.0 else old(Model())
    {
      if totalShares == 0 {
        return Err(MathOverflow);
      }
      var underlying := Underlying(amount, totalShares, totalAssets);
      if underlying.None? {
        return Err(Panic);
      }
      var held := Get(shares, user);
      if held < amount {
        return Err(InsufficientShares);
      }
      if !InI128(held - amount) || !InI128(totalShares - amount) || !InI128(totalAssets - underlying.value) {
        return Err(Panic);
      }
      var native := ToNative(underlying.value);
      if native <= 0 {
        return Err(InvalidAmount);
      }
      if !calls {
        return Err(Panic);
      }
      shares := shares[user := held - amount];
      totalShares := totalShares - amount;
      totalAssets := totalAssets - underlying.value;
      return Ok(native);
    }

    method DoCreditPnl(caller: Address, amount: i128) returns (r: Result<(), SlpError>)
      modifies `totalAssets
      ensures r == Status(CreditPnl(old(Model()), caller, amount))
      ensures Model() == After(old(Model()), CreditPnl(old(Model()), caller, amount))
    {
      var known := IsCaller(caller);
      if !known {
        return Err(UnauthorizedCaller);
      }
      if amount <= 0 {
        return Err(InvalidAmount);
      }
      if !InI128(totalAssets + amount) {
        return Err(Panic);
      }
      totalAssets := totalAssets + amount;
      return Ok(());
    }

    method DoDrawPnl(caller: Address, amount: i128, calls: bool) returns (r: Result<(), SlpError>)
      modifies `totalAssets
      ensures r == Status(DrawPnl(old(Model()), caller, amount, calls))
      ensures Model() == After(old(Model()), DrawPnl(old(Model()), caller, amount, calls))
    {
      var known := IsCaller(caller);
      if !known {
        return Err(UnauthorizedCaller);
      }
      if amount <= 0 {
        return Err(InvalidAmount);
      }
      if totalAssets < amount {
        return Err(InsufficientLiquidity);
      }
      if !calls {
        return Err(Panic);
      }
      totalAssets := totalAssets - amount;
      return Ok(());
    }

    method DoRecordLoss(caller: Address, amount: i128) returns (r: Result<(), SlpError>)
      modifies `totalAssets
      ensures r == Status(RecordLoss(old(Model()), caller, amount))
      ensures Model() == After(old(Model()), RecordLoss(old(Model()), caller, amount))
    {
      var known := IsCaller(caller);
      if !known {
        return Err(UnauthorizedCaller);
      }
      if amount <= 0 {
        return Err(InvalidAmount);
      }
      totalAssets := Saturate(totalAssets - amount);
      return Ok(());
    }

    method Move(from: Address, to: Address, amount: i128) returns (r: Result<(), SlpError>)
      modifies `shares
      ensures r == Status(MoveShares(old(Model()), from, to, amount))
      ensures Model() == After(old(Model()), MoveShares(old(Model()), from, to, amount))
    {
      var balance := Get(shares, from);
      if balance < amount {
        return Err(InsufficientShares);
      }
      if !InI128(balance - amount) {
        return Err(Panic);
      }
      var before := shares;
      shares := shares[from := balance - amount];
      var received := Get(shares, to) + amount;
      if !InI128(received) {
        shares := before;
        return Err(Panic);
      }
      shares := shares[to := received];
      return Ok(());
    }

    method DoTransferFrom(spender: Address, from: Address, to: Address, amount: i128) returns (r: Result<(), SlpError>)
      modifies `shares, `allowances
      ensures r == Status(TransferFrom(old(Model()), spender, from, to, amount))
      ensures Model() == After(old(Model()), TransferFrom(old(Model()), spender, from, to, amount))
    {
      if amount <= 0 {
        return Err(InvalidAmount);
      }
      var allowed := Get(allowances, (from, spender));
      if allowed < amount {
        return Err(InsufficientAllowance);
      }
      var before := allowances;
      allowances := allowances[(from, spender) := allowed - amount];
      r := Move(from, to, amount);
      if r.Err? {
        allowances := before;
      }
    }
  }
}
