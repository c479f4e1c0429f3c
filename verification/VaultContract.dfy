/** The vault as the contract runs it: every entry point updates its storage in place, exactly as specified in Vault. */
module VaultContract {
  import opened Int128
  import opened Host
  import opened FixedPoint
  import opened MapSums
  import opened Vault

  class VaultStorage {
    var cfg: VaultConfig
    var balances: map<(Address, Address), int>
    var subs: map<(Address, u32, Address), int>
    var locked: map<(Address, u64), int>
    var lockedTotal: map<Address, int>
    var isolated: map<(Address, u64), int>
    var isolatedTotal: map<Address, int>

    ghost function Model(): VaultState
      reads this
    {
      VaultState(cfg, balances, subs, locked, lockedTotal, isolated, isolatedTotal)
    }

    constructor (cfg: VaultConfig)
      ensures Model() == VaultState(cfg, map[], map[], map[], map[], map[], map[])
    {
      this.cfg, balances, subs, locked, lockedTotal, isolated, isolatedTotal :=
          cfg, map[], map[], map[], map[], map[], map[];
    }

    /** What the host keeps to undo a failed transaction. */
    method Save() returns (s: VaultState)
      ensures s == Model()
    {
      return VaultState(cfg, balances, subs, locked, lockedTotal, isolated, isolatedTotal);
    }

    /** The host's rollback. */
    method Rollback(s: VaultState)
      modifies this
      ensures Model() == s
    {
      cfg, balances, subs, locked, lockedTotal := s.cfg, s.balances, s.subs, s.locked, s.lockedTotal;
      isolated, isolatedTotal := s.isolated, s.isolatedTotal;
    }

    /** `update_balance`. The caller drops the whole transaction on an error. */
    method UpdateBalance(user: Address, token: Address, delta: int) returns (r: Result<(), VaultError>)
      modifies `balances
      ensures r == Status(AddBalance(old(Model()), user, token, delta))
      ensures Model() == After(old(Model()), AddBalance(old(Model()), user, token, delta))
    {
      var next := Get(balances, (user, token)) + delta;
      if !InI128(next) {
        return Err(MathOverflow);
      }
      if next < 0 {
        return Err(InsufficientBalance);
      }
      balances := balances[(user, token) := next];
      return Ok(());
    }

    method UpdateSub(user: Address, sub: u32, token: Address, delta: int) returns (r: Result<(), VaultError>)
      modifies `subs
      ensures r == Status(AddSub(old(Model()), user, sub, token, delta))
      ensures Model() == After(old(Model()), AddSub(old(Model()), user, sub, token, delta))
    {
      var next := Get(subs, (user, sub, token)) + delta;
      if !InI128(next) {
        return Err(MathOverflow);
      }
      if next < 0 {
        return Err(InsufficientBalance);
      }
      subs := subs[(user, sub, token) := next];
      return Ok(());
    }

    /** `compute_total_collateral_value`: the loop over the supported tokens. */
    method ComputeTotalCollateral(user: Address, prices: map<Address, i128>) returns (r: Result<i128, VaultError>)
      ensures r == TotalCollateral(Model(), user, prices)
    {
      var total: i128 := 0;
      for n := 0 to |cfg.supported|
        invariant Ok(total) == ValueUpTo(Model(), user, prices, n)
      {
        var token := cfg.supported[n];
        var balance := Get(balances, (user, token));
        if balance != 0 {
          var value := ValueOf(token, balance, PriceOf(prices, token));
          if value.Err? {
            ErrorStays(Model(), user, prices, n + 1, |cfg.supported|);
            return value;
          }
          if !InI128(total + value.value) {
            ErrorStays(Model(), user, prices, n + 1, |cfg.supported|);
            return Err(MathOverflow);
          }
          total := total + value.value;
        }
      }
      return Ok(total);
    }

    method ValueOf(token: Address, balance: int, price: Option<i128>) returns (r: Result<i128, VaultError>)
      ensures r == match ActiveToken(cfg, token)
                   case Err(e) => Err(e)
                   case Ok(info) => CollateralValue(info, balance, price)
    {
      var info := ActiveToken(cfg, token);
      if info.Err? {
        return Err(info.error);
      }
      if price.None? {
        return Err(Panic);
      }
      var scaled := TruncDiv(balance, BILLION) * price.value;
      if !InI128(scaled) {
        return Err(MathOverflow);
      }
      var haircut := Min(info.value.haircutBps, BPS_DENOMINATOR);
      var net := MulDiv(TruncDiv(scaled, BILLION), BPS_DENOMINATOR - haircut, BPS_DENOMINATOR);
      if net.None? {
        return Err(Panic);
      }
      return Ok(net.value);
    }

    method DoDeposit(user: Address, token: Address, amount: i128, held: Option<i128>, calls: bool)
      returns (r: Result<(), VaultError>)
      modifies `balances
      ensures r == Status(Deposit(old(Model()), user, token, amount, held, calls))
      ensures Model() == After(old(Model()), Deposit(old(Model()), user, token, amount, held, calls))
    {
      if amount <= 0 {
        return Err(InvalidAmount);
      }
      var internal := Inflow(cfg, token, amount, held);
      if internal.Err? {
        return Err(internal.error);
      }
      if !calls {
        return Err(Panic);
      }
      r := UpdateBalance(user, token, internal.value);
    }

    method DoWithdraw(user: Address, token: Address, amount: i128, riskLocked: i128, calls: bool)
      returns (r: Result<(), VaultError>)
      modifies `balances
      ensures r == Status(Withdraw(old(Model()), user, token, amount, riskLocked, calls))
      ensures Model() == After(old(Model()), Withdraw(old(Model()), user, token, amount, riskLocked, calls))
    {
      if amount <= 0 {
        return Err(InvalidAmount);
      }
      var balance := Get(balances, (user, token));
      var internal := Outflow(cfg, token, amount, balance);
      if internal.Err? {
        return Err(internal.error);
      }
      var remaining := balance - internal.value;
      if !InI128(remaining) {
        return Err(MathOverflow);
      }
      if remaining < riskLocked {
        return Err(InsufficientFreeCollateral);
      }
      var native := NativeOut(cfg, token, internal.value);
      if native.None? {
        return Err(MathOverflow);
      }
      if !calls {
        return Err(Panic);
      }
      r := UpdateBalance(user, token, Neg(internal.value));
    }

    method DoLockMargin(caller: Address, user: Address, id: u64, amount: i128, prices: map<Address, i128>)
      returns (r: Result<(), VaultError>)
      modifies `locked, `lockedTotal
      ensures r == Status(LockMargin(old(Model()), caller, user, id, amount, prices))
      ensures Model() == After(old(Model()), LockMargin(old(Model()), caller, user, id, amount, prices))
    {
      if caller !in cfg.callers {
        return Err(Unauthorized);
      }
      if amount <= 0 {
        return Err(InvalidAmount);
      }
      var total := ComputeTotalCollateral(user, prices);
      if total.Err? {
        return Err(total.error);
      }
      var cross, isolatedNow := Get(lockedTotal, user), Get(isolatedTotal, user);
      var free: int := total.value;
      free := free - cross;
      if !InI128(free) {
        return Err(MarginLockExceeded);
      }
      free := free - isolatedNow;
      if !InI128(free) || amount > free {
        return Err(MarginLockExceeded);
      }
      var bucket := Get(locked, (user, id)) + amount;
      if !InI128(bucket) || !InI128(cross + amount) {
        return Err(Panic);
      }
      locked := locked[(user, id) := bucket];
      lockedTotal := lockedTotal[user := cross + amount];
      return Ok(());
    }

    method DoUnlockMargin(caller: Address, user: Address, id: u64, amount: i128) returns (r: Result<(), VaultError>)
      modifies `locked, `lockedTotal
      ensures r == Status(UnlockMargin(old(Model()), caller, user, id, amount))
      ensures Model() == After(old(Model()), UnlockMargin(old(Model()), caller, user, id, amount))
    {
      if caller !in cfg.callers {
        return Err(Unauthorized);
      }
      if amount <= 0 {
        return Err(InvalidAmount);
      }
      if (user, id) !in locked {
        return Err(UnknownPosition);
      }
      var current := locked[(user, id)];
      if amount > current {
        return Err(InvalidAmount);
      }
      var total := Get(lockedTotal, user) - amount;
      if !InI128(total) {
        return Err(Panic);
      }
      var remaining := current - amount;
      if remaining == 0 {
        locked := locked - {(user, id)};
      } else {
        locked := locked[(user, id) := remaining];
      }
      lockedTotal := lockedTotal[user := total];
      return Ok(());
    }

    method DoLockIsolated(caller: Address, user: Address, id: u64, amount: i128, prices: map<Address, i128>)
      returns (r: Result<(), VaultError>)
      modifies `isolated, `isolatedTotal
      ensures r == Status(LockIsolated(old(Model()), caller, user, id, amount, prices))
      ensures Model() == After(old(Model()), LockIsolated(old(Model()), caller, user, id, amount, prices))
    {
      if caller !in cfg.callers {
        return Err(Unauthorized);
      }
      if amount <= 0 {
        return Err(InvalidAmount);
      }
      var total := ComputeTotalCollateral(user, prices);
      if total.Err? {
        return Err(total.error);
      }
      var isolatedNow := Get(isolatedTotal, user);
      var already := Get(lockedTotal, user) + isolatedNow;
      if !InI128(already) {
        return Err(MathOverflow);
      }
      var free: int := total.value;
      free := free - already;
      if !InI128(free) || amount > free {
        return Err(MarginLockExceeded);
      }
      var bucket := Get(isolated, (user, id)) + amount;
      if !InI128(bucket) || !InI128(isolatedNow + amount) {
        return Err(Panic);
      }
      isolated := isolated[(user, id) := bucket];
      isolatedTotal := isolatedTotal[user := isolatedNow + amount];
      return Ok(());
    }

    /** The storage writes shared by the two ways of emptying an isolated bucket. */
    method Drain(user: Address, id: u64, amount: int) returns (r: Result<(), VaultError>)
      requires (user, id) in isolated
      modifies `isolated, `isolatedTotal
      ensures r == Status(DrainIsolated(old(Model()), user, id, amount))
      ensures Model() == After(old(Model()), DrainIsolated(old(Model()), user, id, amount))
    {
      var total := Get(isolatedTotal, user) - amount;
      if !InI128(total) {
        return Err(Panic);
      }
      var remaining := isolated[(user, id)] - amount;
      if remaining == 0 {
        isolated := isolated - {(user, id)};
      } else {
        isolated := isolated[(user, id) := remaining];
      }
      isolatedTotal := isolatedTotal[user := total];
      return Ok(());
    }

    method DoUnlockIsolated(caller: Address, user: Address, id: u64, amount: i128) returns (r: Result<(), VaultError>)
      modifies `isolated, `isolatedTotal
      ensures r == Status(UnlockIsolated(old(Model()), caller, user, id, amount))
      ensures Model() == After(old(Model()), UnlockIsolated(old(Model()), caller, user, id, amount))
    {
      if caller !in cfg.callers {
        return Err(Unauthorized);
      }
      if amount <= 0 {
        return Err(InvalidAmount);
      }
      if (user, id) !in isolated {
        return Err(UnknownPosition);
      }
      if amount > isolated[(user, id)] {
        return Err(InvalidAmount);
      }
      r := Drain(user, id, amount);
    }

    /** Returns the part of the loss the bucket could not cover. */
    method DoRealizeIsolated(caller: Address, user: Address, id: u64, pnl: i128) returns (r: Result<int, VaultError>)
      modifies `isolated, `isolatedTotal
      ensures Model() == After(old(Model()), RealizeIsolated(old(Model()), caller, user, id, pnl))
      ensures r == match RealizeIsolated(old(Model()), caller, user, id, pnl)
                   case Err(e) => Err(e)
                   case Ok(_) => Ok(Shortfall(Get(old(isolated), (user, id)), pnl))
    {
      if caller !in cfg.callers {
        return Err(Unauthorized);
      }
      if (user, id) !in isolated {
        return Err(UnknownPosition);
      }
      if pnl == I128_MIN {
        return Err(Panic);
      }
      var current := isolated[(user, id)];
      var shortfall, consumed := 0, current;
      if pnl < 0 {
        var loss: int := Neg(pnl);
        if loss <= current {
          consumed := loss;
        } else {
          shortfall := loss - current;
        }
      }
      var drained := Drain(user, id, consumed);
      if drained.Err? {
        return Err(drained.error);
      }
      return Ok(shortfall);
    }

    /** The two balance updates of a move, as one: the second is not reached when the first fails. */
    method Take(from: Address, to: Address, token: Address, amount: int) returns (r: Result<(), VaultError>)
      modifies `balances
      ensures r == Status(TakeMargin(old(Model()), from, to, token, amount))
      ensures Model() == After(old(Model()), TakeMargin(old(Model()), from, to, token, amount))
    {
      var before := balances;
      r := UpdateBalance(from, token, -amount);
      if r.Err? {
        return;
      }
      r := UpdateBalance(to, token, amount);
      if r.Err? {
        balances := before;
      }
    }

    method DoTransferMargin(caller: Address, from: Address, toInsurance: bool, amount: i128)
      returns (r: Result<(), VaultError>)
      modifies `balances, `lockedTotal
      ensures r == Status(TransferMargin(old(Model()), caller, from, toInsurance, amount))
      ensures Model() == After(old(Model()), TransferMargin(old(Model()), caller, from, toInsurance, amount))
    {
      if caller !in cfg.callers {
        return Err(Unauthorized);
      }
      if amount <= 0 {
        return Err(InvalidAmount);
      }
      var total := Get(lockedTotal, from);
      if amount > total {
        return Err(MarginLockExceeded);
      }
      var recipient := if toInsurance then cfg.insurance else cfg.treasury;
      var index := 0;
      while index < |cfg.supported| && Get(balances, (from, cfg.supported[index])) == 0
        invariant index <= |cfg.supported| && FirstHeld(Model(), from, 0) == FirstHeld(Model(), from, index)
      {
        index := index + 1;
      }
      if index < |cfg.supported| {
        var token := cfg.supported[index];
        r := Take(from, recipient, token, Min(Get(balances, (from, token)), amount));
        if r.Err? {
          return;
        }
      }
      lockedTotal := lockedTotal[from := total - amount];
      return Ok(());
    }

    method DoMoveBalance(caller: Address, from: Address, to: Address, token: Address, amount: i128)
      returns (r: Result<(), VaultError>)
      modifies `balances
      ensures r == Status(MoveBalance(old(Model()), caller, from, to, token, amount))
      ensures Model() == After(old(Model()), MoveBalance(old(Model()), caller, from, to, token, amount))
    {
      if caller !in cfg.callers {
        return Err(Unauthorized);
      }
      if amount <= 0 {
        return Err(InvalidAmount);
      }
      if token !in cfg.tokens {
        return Err(TokenNotSupported);
      }
      r := Take(from, to, token, amount);
    }

    method DoSeedTreasury(admin: Address, token: Address, amount: i128, held: Option<i128>, calls: bool)
      returns (r: Result<(), VaultError>)
      modifies `balances
      ensures r == Status(SeedTreasury(old(Model()), admin, token, amount, held, calls))
      ensures Model() == After(old(Model()), SeedTreasury(old(Model()), admin, token, amount, held, calls))
    {
      if admin != cfg.admin {
        return Err(Unauthorized);
      }
      r := DoDeposit(cfg.treasury, token, amount, held, calls);
    }

    method DoCredit(caller: Address, user: Address, token: Address, amount: i128, held: Option<i128>)
      returns (r: Result<(), VaultError>)
      modifies `balances
      ensures r == Status(Credit(old(Model()), caller, user, token, amount, held))
      ensures Model() == After(old(Model()), Credit(old(Model()), caller, user, token, amount, held))
    {
      if caller !in cfg.callers {
        return Err(Unauthorized);
      }
      r := DoDeposit(user, token, amount, held, true);
    }

    method DoDebit(caller: Address, user: Address, token: Address, amount: i128) returns (r: Result<(), VaultError>)
      modifies `balances
      ensures r == Status(Debit(old(Model()), caller, user, token, amount))
      ensures Model() == After(old(Model()), Debit(old(Model()), caller, user, token, amount))
    {
      if caller !in cfg.callers {
        return Err(Unauthorized);
      }
      if amount <= 0 {
        return Err(InvalidAmount);
      }
      var internal := Outflow(cfg, token, amount, Get(balances, (user, token)));
      if internal.Err? {
        return Err(internal.error);
      }
      r := UpdateBalance(user, token, Neg(internal.value));
    }

    method DoDepositSub(user: Address, sub: u32, token: Address, amount: i128, held: Option<i128>, calls: bool)
      returns (r: Result<(), VaultError>)
      modifies `subs
      ensures r == Status(DepositSub(old(Model()), user, sub, token, amount, held, calls))
      ensures Model() == After(old(Model()), DepositSub(old(Model()), user, sub, token, amount, held, calls))
    {
      if amount <= 0 {
        return Err(InvalidAmount);
      }
      if sub == 0 {
        return Err(InvalidConfig);
      }
      var internal := Inflow(cfg, token, amount, held);
      if internal.Err? {
        return Err(internal.error);
      }
      if !calls {
        return Err(Panic);
      }
      r := UpdateSub(user, sub, token, internal.value);
    }

    method DoWithdrawSub(user: Address, sub: u32, token: Address, amount: i128, calls: bool)
      returns (r: Result<(), VaultError>)
      modifies `subs
      ensures r == Status(WithdrawSub(old(Model()), user, sub, token, amount, calls))
      ensures Model() == After(old(Model()), WithdrawSub(old(Model()), user, sub, token, amount, calls))
    {
      if amount <= 0 {
        return Err(InvalidAmount);
      }
      if sub == 0 {
        return Err(InvalidConfig);
      }
      var internal := Outflow(cfg, token, amount, Get(subs, (user, sub, token)));
      if internal.Err? {
        return Err(internal.error);
      }
      var native := NativeOut(cfg, token, internal.value);
      if native.None? {
        return Err(MathOverflow);
      }
      if !calls {
        return Err(Panic);
      }
      r := UpdateSub(user, sub, token, Neg(internal.value));
    }

    method DoTransferBetweenSubs(user: Address, from: u32, to: u32, token: Address, amount: i128)
      returns (r: Result<(), VaultError>)
      modifies `subs
      ensures r == Status(TransferBetweenSubs(old(Model()), user, from, to, token, amount))
      ensures Model() == After(old(Model()), TransferBetweenSubs(old(Model()), user, from, to, token, amount))
    {
      if amount <= 0 {
        return Err(InvalidAmount);
      }
      if from == 0 || to == 0 || from == to {
        return Err(InvalidConfig);
      }
      if token !in cfg.tokens {
        return Err(TokenNotSupported);
      }
      if Get(subs, (user, from, token)) < amount {
        return Err(SubAccountNotFound);
      }
      var before := subs;
      r := UpdateSub(user, from, token, Neg(amount));
      if r.Err? {
        return;
      }
      r := UpdateSub(user, to, token, amount);
      if r.Err? {
        subs := before;
      }
    }

    method DoAtomicSwap(
      caller: Address, a: Address, b: Address, tokenA: Address, amountA: i128, tokenB: Address, amountB: i128)
      returns (r: Result<(), VaultError>)
      modifies `balances
      ensures r == Status(AtomicSwap(old(Model()), caller, a, b, tokenA, amountA, tokenB, amountB))
      ensures Model() == After(old(Model()), AtomicSwap(old(Model()), caller, a, b, tokenA, amountA, tokenB, amountB))
    {
      if caller !in cfg.callers {
        return Err(Unauthorized);
      }
      if amountA <= 0 || amountB <= 0 {
        return Err(InvalidAmount);
      }
      if tokenA == tokenB {
        return Err(InvalidConfig);
      }
      if tokenA !in cfg.tokens || tokenB !in cfg.tokens {
        return Err(TokenNotSupported);
      }
      var before := balances;
      r := Take(a, b, tokenA, amountA);
      if r.Err? {
        return;
      }
      r := Take(b, a, tokenB, amountB);
      if r.Err? {
        balances := before;
      }
    }
  }

  /** An error in one token's value is the result for the whole account. */
  lemma {:induction false} ErrorStays(s: VaultState, user: Address, prices: map<Address, i128>, n: nat, m: nat)
    requires n <= m <= |s.cfg.supported| && ValueUpTo(s, user, prices, n).Err?
    ensures ValueUpTo(s, user, prices, m) == ValueUpTo(s, user, prices, n)
  {
    if n < m {
      ErrorStays(s, user, prices, n, m - 1);
    }
  }
}
