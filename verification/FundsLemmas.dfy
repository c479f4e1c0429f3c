/** What each movement of money does to the liquidity vault's backing and to the margin locks. */
module FundsLemmas {
  import opened Int128
  import opened Host
  import opened FixedPoint
  import opened MapSums
  import opened PerpBooks
  import opened Trading
  import Vault
  import SlpVault

  /** The SLP's settlement-token balance inside the collateral vault. */
  function SlpBalance(f: Funds, w: Wiring): int { Get(f.vault.balances, (w.slp, w.usdc)) }

  /** How far the SLP's vault balance exceeds the assets it reports. */
  function Slack(f: Funds, w: Wiring): int { SlpBalance(f, w) - f.slp.totalAssets }

  function Lockbox(f: Funds): map<(Address, u64), int> { f.vault.locked }

  function SettlementBalance(f: Funds, w: Wiring, user: Address): int { Get(f.vault.balances, (user, w.usdc)) }

  predicate SameConfigs(f: Funds, g: Funds) { g.vault.cfg == f.vault.cfg && g.slp.cfg == f.slp.cfg }

  /** From f to g the backing does not get worse, and no lock changes. */
  predicate Backed(f: Funds, g: Funds, w: Wiring) {
    Slack(g, w) >= Slack(f, w) && Lockbox(g) == Lockbox(f) && SameConfigs(f, g)
  }

  /** From f to g the backing does not get worse; the lock of one position may change. */
  predicate BackedWithLock(f: Funds, g: Funds, w: Wiring, locked: map<(Address, u64), int>) {
    Slack(g, w) >= Slack(f, w) && Lockbox(g) == locked && SameConfigs(f, g)
  }

  lemma {:induction false} TransferEffect(
    s: Vault.VaultState, caller: Address, source: Address, dest: Address, token: Address, amount: i128,
    r: Vault.VaultState, other: Address)
    requires Vault.MoveBalance(s, caller, source, dest, token, amount) == Ok(r)
    ensures amount > 0 && r == s.(balances := r.balances)
    ensures source != dest ==> Get(r.balances, (source, token)) == Get(s.balances, (source, token)) - amount
    ensures source != dest ==> Get(r.balances, (dest, token)) == Get(s.balances, (dest, token)) + amount
    ensures other != source && other != dest ==> Get(r.balances, (other, token)) == Get(s.balances, (other, token))
    ensures source == dest ==> Get(r.balances, (source, token)) == Get(s.balances, (source, token))
  {
  }

  /** Every credit to the SLP's assets comes with the same amount in its vault account. */
  lemma {:induction false} PaySlpBacked(f: Funds, w: Wiring, caller: Address, user: Address, amount: i128, g: Funds)
    requires user != w.slp && PaySlp(f, w, caller, user, amount) == Ok(g)
    ensures Backed(f, g, w) && Slack(g, w) == Slack(f, w)
    ensures SettlementBalance(g, w, user) == SettlementBalance(f, w, user) - amount
  {
    TransferEffect(f.vault, caller, user, w.slp, w.usdc, amount, g.vault, user);
  }

  lemma {:induction false} PayIfBacked(f: Funds, w: Wiring, caller: Address, user: Address, amount: i128, g: Funds)
    requires user != w.slp && PaySlpIfPositive(f, w, caller, user, amount) == Ok(g)
    ensures Backed(f, g, w)
    ensures SettlementBalance(g, w, user) == SettlementBalance(f, w, user) - if amount > 0 then amount else 0
  {
    if amount > 0 {
      PaySlpBacked(f, w, caller, user, amount, g);
    }
  }

  lemma {:induction false} OpenFeeBacked(f: Funds, w: Wiring, user: Address, fee: i128, g: Funds)
    requires user != w.slp && PayOpenFee(f, w, user, fee) == Ok(g)
    ensures Backed(f, g, w)
    ensures SettlementBalance(g, w, user) == SettlementBalance(f, w, user) - if fee > 0 then fee else 0
  {
    if fee > 0 {
      PaySlpBacked(f, w, w.perp, user, fee, g);
    }
  }

  /** Every profit paid leaves the SLP's assets and its vault account together. */
  lemma {:induction false} DrawBacked(f: Funds, w: Wiring, caller: Address, user: Address, amount: i128, g: Funds)
    requires user != w.slp && DrawProfit(f, w, caller, user, amount) == Ok(g)
    ensures Backed(f, g, w) && Slack(g, w) == Slack(f, w)
    ensures SettlementBalance(g, w, user) == SettlementBalance(f, w, user) + amount
  {
    TransferEffect(f.vault, w.slp, w.slp, user, w.usdc, amount, g.vault, user);
  }

  function AddLock(locked: map<(Address, u64), int>, user: Address, id: u64, amount: int): map<(Address, u64), int> {
    locked[(user, id) := Get(locked, (user, id)) + amount]
  }

  function WithLock(f: Funds, user: Address, id: u64, amount: int): map<(Address, u64), int> {
    AddLock(Lockbox(f), user, id, amount)
  }

  function WithoutLock(f: Funds, user: Address, id: u64, amount: int): map<(Address, u64), int> {
    Vault.Released(Lockbox(f), (user, id), amount)
  }

  lemma {:induction false} LockBacked(
    f: Funds, w: Wiring, user: Address, id: u64, amount: i128, prices: map<Address, i128>, g: Funds)
    requires Lock(f, w, user, id, amount, prices) == Ok(g)
    ensures BackedWithLock(f, g, w, WithLock(f, user, id, amount)) && amount > 0
  {
  }

  lemma {:induction false} LockLeavesBalances(
    f: Funds, w: Wiring, user: Address, id: u64, amount: i128, prices: map<Address, i128>, g: Funds)
    requires Lock(f, w, user, id, amount, prices) == Ok(g)
    ensures g.vault.balances == f.vault.balances
  {
  }

  lemma {:induction false} UnlockBacked(
    f: Funds, w: Wiring, caller: Address, user: Address, id: u64, amount: i128, g: Funds)
    requires Unlock(f, caller, user, id, amount) == Ok(g)
    ensures BackedWithLock(f, g, w, WithoutLock(f, user, id, amount))
    ensures (user, id) in Lockbox(f) && 0 < amount <= Lockbox(f)[(user, id)]
    ensures g.vault.balances == f.vault.balances
  {
  }

  /** Fee and loss together never exceed the released margin. */
  lemma {:induction false} FeeAndLossBounded(released: i128, gross: i128, fee: i128, loss: i128)
    requires released > 0 && gross < 0 && LossTaken(released, gross, fee) == Ok(loss)
    ensures 0 <= FeeTaken(released, fee) && 0 <= loss && FeeTaken(released, fee) + loss <= released
    ensures loss <= -(gross as int)
    ensures loss == -(gross as int) || FeeTaken(released, fee) + loss == released
  {
  }

  /** A close is paid out of the SLP or into it, and a closing loser pays at most the margin the close released. */
  lemma {:induction false} SettleBacked(
    f: Funds, w: Wiring, user: Address, id: u64, released: i128, gross: i128, fee: i128, g: Funds)
    requires user != w.slp && SettleClose(f, w, user, id, released, gross, fee) == Ok(g)
    ensures BackedWithLock(f, g, w, WithoutLock(f, user, id, released))
    ensures (user, id) in Lockbox(f) && 0 < released <= Lockbox(f)[(user, id)]
    ensures SettlementBalance(g, w, user) >= SettlementBalance(f, w, user) - released
    ensures gross >= 0 ==>
              SettlementBalance(g, w, user) == SettlementBalance(f, w, user) - FeeTaken(released, fee) + gross
    ensures gross < 0 ==> SettlementBalance(g, w, user) <= SettlementBalance(f, w, user)
  {
    var unlocked := Unlock(f, w.perp, user, id, released).value;
    UnlockBacked(f, w, w.perp, user, id, released, unlocked);
    var taken := FeeTaken(released, fee);
    var charged := PaySlpIfPositive(unlocked, w, w.perp, user, taken).value;
    PayIfBacked(unlocked, w, w.perp, user, taken, charged);
    if gross > 0 {
      DrawBacked(charged, w, w.perp, user, gross, g);
    } else if gross < 0 {
      var loss := LossTaken(released, gross, fee).value;
      FeeAndLossBounded(released, gross, fee, loss);
      PayIfBacked(charged, w, w.perp, user, loss, g);
    }
  }
}
