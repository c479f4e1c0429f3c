/** Vault calls that undo one another. */
module VaultInverses {
  import opened Int128
  import opened Host
  import opened FixedPoint
  import opened MapSums
  import opened Vault

  /** Every balance and every lock has the same amount in both states; an absent entry is an amount of zero. */
  ghost predicate SameAmounts(s: VaultState, r: VaultState) {
    && r.cfg == s.cfg && r.subs == s.subs
    && (forall k :: Get(r.balances, k) == Get(s.balances, k))
    && (forall k :: Get(r.locked, k) == Get(s.locked, k))
    && (forall u :: Get(r.lockedTotal, u) == Get(s.lockedTotal, u))
    && r.isolated == s.isolated && r.isolatedTotal == s.isolatedTotal
  }

  /** Releasing a lock that was just taken always succeeds and puts every amount back. */
  lemma {:induction false} LockThenUnlock(
    s: VaultState, caller: Address, user: Address, id: u64, amount: i128, prices: map<Address, i128>, r: VaultState)
    requires Get(s.locked, (user, id)) >= 0 && InI128(Get(s.lockedTotal, user))
    requires LockMargin(s, caller, user, id, amount, prices) == Ok(r)
    ensures UnlockMargin(r, caller, user, id, amount).Ok?
    ensures SameAmounts(s, UnlockMargin(r, caller, user, id, amount).value)
  {
    LockEffect(s, caller, user, id, amount, prices, r);
    var t := UnlockMargin(r, caller, user, id, amount).value;
    assert t.lockedTotal == r.lockedTotal[user := Get(s.lockedTotal, user)];
    assert t.locked == Released(r.locked, (user, id), amount);
  }

  lemma {:induction false} LockEffect(
    s: VaultState, caller: Address, user: Address, id: u64, amount: i128, prices: map<Address, i128>, r: VaultState)
    requires LockMargin(s, caller, user, id, amount, prices) == Ok(r)
    ensures caller in s.cfg.callers && amount > 0
    ensures r == s.(locked := s.locked[(user, id) := Get(s.locked, (user, id)) + amount],
                    lockedTotal := s.lockedTotal[user := Get(s.lockedTotal, user) + amount])
  {
  }

  /** A deposit can be taken out again exactly when the risk engine reports no more margin in use than the balance
      held before it; then every balance is what it was, and the same native amount leaves as came in. */
  lemma {:induction false} DepositThenWithdraw(
    s: VaultState, user: Address, token: Address, amount: i128, held: Option<i128>, riskLocked: i128, r: VaultState)
    requires 0 <= Get(s.balances, (user, token)) && InI128(Get(s.balances, (user, token)))
    requires token in s.cfg.tokens && s.cfg.tokens[token].decimals <= 18
    requires Deposit(s, user, token, amount, held, true) == Ok(r)
    ensures var out := Withdraw(r, user, token, amount, riskLocked, true);
            && (out.Ok? <==> riskLocked <= Get(s.balances, (user, token)))
            && (out.Ok? ==> SameAmounts(s, out.value))
    ensures NativeOut(r.cfg, token, Get(r.balances, (user, token)) - Get(s.balances, (user, token))) == Some(amount)
  {
    var internal := DepositEffect(s, user, token, amount, held, r);
    ToPrecisionRoundTrip(amount, s.cfg.tokens[token].decimals, 18);
    WithdrawOutcome(r, user, token, amount, riskLocked, internal, Get(s.balances, (user, token)));
  }

  lemma {:induction false} DepositEffect(
    s: VaultState, user: Address, token: Address, amount: i128, held: Option<i128>, r: VaultState)
        returns (internal: i128)
    requires Deposit(s, user, token, amount, held, true) == Ok(r)
    ensures amount > 0 && ActiveToken(s.cfg, token).Ok? && ToInternal(amount, s.cfg.tokens[token]) == Ok(internal)
    ensures ToPrecision(amount, s.cfg.tokens[token].decimals, 18) == Some(internal)
    ensures InI128(Get(s.balances, (user, token)) + internal)
    ensures r == s.(balances := s.balances[(user, token) := Get(s.balances, (user, token)) + internal])
  {
    internal := ToInternal(amount, s.cfg.tokens[token]).value;
  }

  lemma {:induction false} WithdrawOutcome(
    r: VaultState, user: Address, token: Address, amount: i128, riskLocked: i128, internal: i128, left: int)
    requires amount > 0 && ActiveToken(r.cfg, token).Ok? && ToInternal(amount, r.cfg.tokens[token]) == Ok(internal)
    requires Get(r.balances, (user, token)) == left + internal && 0 <= left && InI128(left)
    requires NativeOut(r.cfg, token, internal) == Some(amount)
    ensures var out := Withdraw(r, user, token, amount, riskLocked, true);
            && (out.Ok? <==> riskLocked <= left)
            && (out.Ok? ==> out.value == r.(balances := r.balances[(user, token) := left]))
  {
  }
}
