/** The trading ledger from an empty start: what holds after any run. */
module LedgerTheorems {
  import opened Int128
  import opened Host
  import opened MapSums
  import opened PerpBooks
  import opened Trading
  import opened FundsLemmas
  import opened DeskInvariants
  import opened DeskCloses
  import opened SystemRuns
  import Clob
  import Liquidation
  import SlpVault
  import Vault

  function EmptyVault(cfg: Vault.VaultConfig): Vault.VaultState {
    Vault.VaultState(cfg, map[], map[], map[], map[], map[], map[])
  }

  function EmptySlp(cfg: SlpVault.SlpConfig): SlpVault.SlpState { SlpVault.SlpState(cfg, 0, 0, map[], map[], map[]) }

  function EmptyEngine(): PerpState { PerpState(false, map[], map[], map[], map[], 1, map[], 1) }

  /** Newly deployed contracts: no market, no position, no balance, no share, no order. */
  function Genesis(
    w: Wiring, vault: Vault.VaultConfig, slp: SlpVault.SlpConfig, keeper: Address, feeBps: u32, keeperBps: u32): System
  {
    System(Desk(w, Funds(EmptyVault(vault), EmptySlp(slp)), EmptyEngine()),
           Clob.ClobState(keeper, map[], map[], 1), Liquidation.RiskState(false, feeBps, keeperBps, w.slpSet, map[]))
  }

  /** A deployment and a run of it that respect the assumptions. */
  ghost predicate Proper(s: System, ops: seq<Op>) {
    WellWired(s) && forall i :: 0 <= i < |ops| ==> Allowed(s.desk.w, ops[i])
  }

  lemma {:induction false} EmptyBooksSound()
    ensures BooksSound(EmptyEngine())
  {
    forall user
      ensures ListExact(EmptyEngine(), user)
    {
    }
  }

  lemma {:induction false} GenesisInv(
    w: Wiring, vault: Vault.VaultConfig, slp: SlpVault.SlpConfig, keeper: Address, feeBps: u32, keeperBps: u32)
    requires WellWired(Genesis(w, vault, slp, keeper, feeBps, keeperBps))
    ensures Inv(Genesis(w, vault, slp, keeper, feeBps, keeperBps), map[])
    ensures Slack(Genesis(w, vault, slp, keeper, feeBps, keeperBps).desk.funds, w) == 0
  {
    EmptyBooksSound();
  }

  /** Solvency: after any run the assets the SLP reports are covered by its balance in the collateral vault. */
  lemma {:induction false} SlpAssetsAreCovered(
    w: Wiring, vault: Vault.VaultConfig, slp: SlpVault.SlpConfig, keeper: Address, feeBps: u32, keeperBps: u32,
    ops: seq<Op>, s: System)
    requires Proper(Genesis(w, vault, slp, keeper, feeBps, keeperBps), ops)
    requires s == Run(Genesis(w, vault, slp, keeper, feeBps, keeperBps), ops)
    ensures s.desk.funds.slp.totalAssets <= Get(s.desk.funds.vault.balances, (w.slp, w.usdc))
  {
    var start := Genesis(w, vault, slp, keeper, feeBps, keeperBps);
    GenesisInv(w, vault, slp, keeper, feeBps, keeperBps);
    RunKeepsInv(start, ops, map[]);
  }

  /** Every open position's margin is locked in the vault under its owner and id, together with exactly what
      deleveraging took out of it over the run: nothing, when the run deleveraged nobody. */
  lemma {:induction false} MarginsAreLocked(
    w: Wiring, vault: Vault.VaultConfig, slp: SlpVault.SlpConfig, keeper: Address, feeBps: u32, keeperBps: u32,
    ops: seq<Op>, s: System, id: u64)
    requires Proper(Genesis(w, vault, slp, keeper, feeBps, keeperBps), ops)
    requires s == Run(Genesis(w, vault, slp, keeper, feeBps, keeperBps), ops)
    requires id in s.desk.perp.positions
    ensures var pos := s.desk.perp.positions[id];
            var taken := Get(SurplusAfter(Genesis(w, vault, slp, keeper, feeBps, keeperBps), ops, map[]), id);
            && 0 < pos.margin && 0 <= taken
            && pos.margin + taken == Get(s.desk.funds.vault.locked, (pos.owner, id))
            && (!Deleverages(Genesis(w, vault, slp, keeper, feeBps, keeperBps), ops) ==> taken == 0)
  {
    var start := Genesis(w, vault, slp, keeper, feeBps, keeperBps);
    GenesisInv(w, vault, slp, keeper, feeBps, keeperBps);
    RunKeepsInv(start, ops, map[]);
    NoSurplusWithoutDeleveraging(start, ops, map[]);
    assert Covered(s.desk.perp.positions[id], id, Lockbox(s.desk.funds), SurplusAfter(start, ops, map[]));
  }

  /** Open interest is the sum of the open sizes on each side, and the skew is the difference. */
  lemma {:induction false} OpenInterestIsExact(
    w: Wiring, vault: Vault.VaultConfig, slp: SlpVault.SlpConfig, keeper: Address, feeBps: u32, keeperBps: u32,
    ops: seq<Op>, s: System, m: u32)
    requires Proper(Genesis(w, vault, slp, keeper, feeBps, keeperBps), ops)
    requires s == Run(Genesis(w, vault, slp, keeper, feeBps, keeperBps), ops)
    requires m in s.desk.perp.markets
    ensures var b := s.desk.perp.markets[m];
            && b.oiLong == Sum(s.desk.perp.positions, SizeIn(m, true))
            && b.oiShort == Sum(s.desk.perp.positions, SizeIn(m, false))
            && b.skew.skew == b.oiLong - b.oiShort
  {
    GenesisInv(w, vault, slp, keeper, feeBps, keeperBps);
    RunKeepsInv(Genesis(w, vault, slp, keeper, feeBps, keeperBps), ops, map[]);
    assert OiExact(s.desk.perp, m);
  }

  /** Each user's list holds exactly the user's open ids, without repeats and at most 50; a market's list holds at
      least its open ids; and every open id is below the next one. */
  lemma {:induction false} IdListsAreExact(
    w: Wiring, vault: Vault.VaultConfig, slp: SlpVault.SlpConfig, keeper: Address, feeBps: u32, keeperBps: u32,
    ops: seq<Op>, s: System, user: Address, id: u64)
    requires Proper(Genesis(w, vault, slp, keeper, feeBps, keeperBps), ops)
    requires s == Run(Genesis(w, vault, slp, keeper, feeBps, keeperBps), ops)
    ensures var p := s.desk.perp;
            var ids := IdsOf(p.userIds, user);
            && NoRepeats(ids) && |ids| <= MAX_POSITIONS_PER_USER
            && (id in ids <==> id in p.positions && p.positions[id].owner == user)
            && (id in p.positions ==> 0 < id < p.nextId && id in IdsOf(p.marketIds, p.positions[id].market))
  {
    GenesisInv(w, vault, slp, keeper, feeBps, keeperBps);
    RunKeepsInv(Genesis(w, vault, slp, keeper, feeBps, keeperBps), ops, map[]);
    assert ListExact(s.desk.perp, user);
  }

  /** No order is ever filled past its size, and an order is marked filled exactly when it is full. */
  lemma {:induction false} OrdersAreNeverOverfilled(
    w: Wiring, vault: Vault.VaultConfig, slp: SlpVault.SlpConfig, keeper: Address, feeBps: u32, keeperBps: u32,
    ops: seq<Op>, s: System, id: u64)
    requires Proper(Genesis(w, vault, slp, keeper, feeBps, keeperBps), ops)
    requires s == Run(Genesis(w, vault, slp, keeper, feeBps, keeperBps), ops)
    requires id in s.clob.orders
    ensures var o := s.clob.orders[id];
            0 <= o.filled <= o.size && (o.status == Clob.Filled <==> o.filled == o.size) && o.status != Clob.Expired
  {
    GenesisInv(w, vault, slp, keeper, feeBps, keeperBps);
    RunKeepsInv(Genesis(w, vault, slp, keeper, feeBps, keeperBps), ops, map[]);
    assert Clob.OrderSound(s.clob.orders[id]);
  }
}
