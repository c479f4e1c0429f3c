/** The risk engine as the contract runs it: liquidations over the perp engine, the vault and the SLP vault. */
module RiskContract {
  import opened Int128
  import opened Host
  import opened FixedPoint
  import opened Pricing
  import opened PerpBooks
  import opened Trading
  import opened Liquidation
  import PerpContract
  import SlpVault
  import VaultContract

  class RiskEngine {
    const engine: PerpContract.PerpEngine
    const vault: VaultContract.VaultStorage
    const slp: SlpVault.SlpContract
    const w: Wiring
    const slpSet: bool
    var paused: bool
    var feeBps: u32
    var keeperBps: u32
    var lastPartial: map<u64, u64>

    ghost predicate Wired()
      reads this
    {
      engine.vault == vault && engine.slp == slp && engine.w == w
    }

    ghost function Model(): RiskState
      reads this
    {
      RiskState(paused, feeBps, keeperBps, slpSet, lastPartial)
    }

    ghost function Money(): Funds
      reads vault, slp
    {
      Funds(vault.Model(), slp.Model())
    }

    ghost function World(): Desk
      reads engine, vault, slp
    {
      Desk(w, Money(), engine.Books())
    }

    constructor (engine: PerpContract.PerpEngine, slpSet: bool, feeBps: u32, keeperBps: u32)
      ensures Wired() && this.engine == engine && Model() == RiskState(false, feeBps, keeperBps, slpSet, map[])
    {
      this.engine, vault, slp, w := engine, engine.vault, engine.slp, engine.w;
      this.slpSet, this.feeBps, this.keeperBps := slpSet, feeBps, keeperBps;
      paused, lastPartial := false, map[];
    }

    /** `liquidation_size`, which remembers when a large position was last taken from. */
    method SizeToClose(id: u64, notional: i128, full: i128, now: u64) returns (r: Result<i128, RiskError>)
      modifies `lastPartial
      ensures var sized := LiquidationSize(old(Model()), id, notional, full, now);
              && r == (if sized.Ok? then Ok(sized.value.0) else Err(sized.error))
              && Model() == if sized.Ok? then sized.value.1 else old(Model())
    {
      if notional <= PARTIAL_THRESHOLD {
        return Ok(full);
      }
      if id in lastPartial && now - lastPartial[id] < PARTIAL_COOLDOWN {
        return Err(CooldownActive);
      }
      var scaled := full * PARTIAL_BPS;
      if !InI128(scaled) {
        return Err(RiskOverflow);
      }
      var size := Min(Max(TruncDiv(scaled, 10_000), Min(PRECISION, full)), full);
      if !InI128(size) {
        return Err(RiskOverflow);
      }
      lastPartial := lastPartial[id := now];
      return Ok(size);
    }

    // ----- money; after a failure the entry point is rolled back, so only success is described -----

    method Pay(user: Address, amount: i128) returns (r: Result<(), PerpError>)
      modifies vault, slp
      ensures r == Status(PaySlpIfPositive(old(Money()), w, w.risk, user, amount))
      ensures r.Ok? ==> Money() == PaySlpIfPositive(old(Money()), w, w.risk, user, amount).value
    {
      if amount <= 0 {
        return Ok(());
      }
      var moved := vault.DoMoveBalance(w.risk, user, w.slp, w.usdc, amount);
      if moved.Err? {
        return Err(CallFailed);
      }
      var credited := slp.DoCreditPnl(w.risk, amount);
      return Call(credited);
    }

    method Reward(user: Address, keeper: Address, amount: i128) returns (r: Result<(), PerpError>)
      modifies vault
      ensures r == Status(PayKeeper(old(Money()), w, user, keeper, amount))
      ensures r.Ok? ==> Money() == PayKeeper(old(Money()), w, user, keeper, amount).value
    {
      if amount <= 0 {
        return Ok(());
      }
      var moved := vault.DoMoveBalance(w.risk, user, keeper, w.usdc, amount);
      return Call(moved);
    }

    /** `distribute_liquidation_value`. */
    method Distribute(
      user: Address, keeper: Address, id: u64, released: i128, remaining: i128, keeperReward: i128,
      insuranceReward: i128)
      returns (r: Result<(), RiskError>)
      modifies vault, slp
      ensures r == Status(DistributeValue(old(Money()), w, Model(), user, keeper, id, released, remaining,
          keeperReward, insuranceReward))
      ensures r.Ok? ==>
                Money() == DistributeValue(old(Money()), w, Model(), user, keeper, id, released, remaining,
                    keeperReward, insuranceReward).value
    {
      if !slpSet {
        return Err(AdlUnavailable);
      }
      var unlocked := vault.DoUnlockMargin(w.risk, user, id, released);
      if unlocked.Err? {
        return Err(RiskCallFailed);
      }
      var rewarded := Reward(user, keeper, keeperReward);
      if rewarded.Err? {
        return Err(RiskCallFailed);
      }
      var credited := Pay(user, insuranceReward);
      if credited.Err? {
        return Err(RiskCallFailed);
      }
      if remaining < 0 {
        if remaining == I128_MIN {
          return Err(RiskOverflow);
        }
        var _ := slp.DoRecordLoss(w.risk, Neg(remaining));
      }
      return Ok(());
    }

    method SettleClosed(e: Env, keeper: Address, id: u64, c: RiskClosed) returns (r: Result<(), RiskError>)
      modifies vault, slp
      ensures r == Status(Settle(old(Money()), w, Model(), e, keeper, id, c))
      ensures r.Ok? ==> Money() == Settle(old(Money()), w, Model(), e, keeper, id, c).value
    {
      var notional := Notional(c.size, e.price);
      if notional.None? {
        return Err(RiskOverflow);
      }
      var rewards := Penalty(RiskState(paused, feeBps, keeperBps, slpSet, lastPartial), notional.value);
      if rewards.Err? {
        return Err(rewards.error);
      }
      var realized := Sum2(c.trade, c.funding);
      if realized.Err? {
        return Err(realized.error);
      }
      var value := Sum2(c.released, realized.value);
      if value.Err? {
        return Err(value.error);
      }
      var remaining: int := value.value;
      remaining := remaining - rewards.value.0;
      remaining := remaining - rewards.value.1;
      if !InI128(remaining) {
        return Err(RiskOverflow);
      }
      r := Distribute(c.user, keeper, id, c.released, remaining, rewards.value.0, rewards.value.1);
    }

    // ----- deleveraging -----

    /** The scan for the winner with the highest score. */
    method FindWinner(e: Env, ids: seq<u64>) returns (r: Result<Option<(u64, i128)>, RiskError>)
      ensures r == Best(engine.Books(), e, ids, |ids|)
    {
      var best: Option<(u64, i128)> := None;
      for n := 0 to |ids|
        invariant Best(engine.Books(), e, ids, n) == Ok(best)
      {
        if ids[n] !in engine.positions {
          ScanFails(engine.Books(), e, ids, n + 1, |ids|);
          return Err(RiskCallFailed);
        }
        var score := Score(engine.positions[ids[n]], e);
        if score.Err? {
          ScanFails(engine.Books(), e, ids, n + 1, |ids|);
          return Err(score.error);
        }
        if score.value.Some? && (best.None? || score.value.value > best.value.1) {
          best := Some((ids[n], score.value.value));
        }
      }
      return Ok(best);
    }

    /** Pay a winner out of the SLP; an SLP that cannot pay is left as it was. */
    method PayWinner(user: Address, gross: i128)
      modifies vault, slp
      ensures Money() == if gross > 0 then After(old(Money()), DrawProfit(old(Money()), w, w.risk, user, gross))
          else old(Money())
    {
      if gross <= 0 {
        return;
      }
      var before := slp.Save();
      var drawn := slp.DoDrawPnl(w.risk, gross, true);
      if drawn.Err? {
        return;
      }
      var moved := vault.DoMoveBalance(w.slp, w.slp, user, w.usdc, gross);
      if moved.Err? {
        slp.Rollback(before);
      }
    }

    /** `run_adl`; tells which winner it found, and the margin the close took out of it. */
    method RunAdlBody(e: Env, m: u32, missing: i128) returns (r: Result<Taken, RiskError>)
      requires Wired()
      modifies engine, vault, slp
      ensures r.Ok? ==> RunAdl(old(World()), e, m, missing) == Ok((World(), r.value))
      ensures r.Err? ==> RunAdl(old(World()), e, m, missing) == Err(r.error)
    {
      if m !in engine.markets {
        return Err(RiskCallFailed);
      }
      var ids := IdsOf(engine.marketIds, m);
      var best := FindWinner(e, ids);
      if best.Err? {
        return Err(best.error);
      }
      if best.value.None? {
        return Ok(None);
      }
      var id := best.value.value.0;
      if id !in engine.positions {
        return Err(RiskCallFailed);
      }
      var notional := Notional(engine.positions[id].size, e.price);
      if notional.None? {
        return Err(RiskOverflow);
      }
      var size := AdlSize(engine.positions[id], notional.value, missing);
      if size.Err? {
        return Err(size.error);
      }
      var closed := engine.DoRiskClose(e, w.risk, id, size.value, e.price);
      if closed.Err? {
        return Err(RiskCallFailed);
      }
      var gross := Sum2(closed.value.trade, closed.value.funding);
      if gross.Err? {
        return Err(gross.error);
      }
      PayWinner(closed.value.user, gross.value);
      return Ok(Some((id, closed.value.released)));
    }

    /** What the rest of a partly liquidated position still falls short by. */
    method FindMissing(e: Env, id: u64) returns (r: Result<Option<(u32, i128)>, RiskError>)
      ensures r == Missing(engine.Books(), e, id)
    {
      if id !in engine.positions {
        return Err(RiskCallFailed);
      }
      var pos := engine.positions[id];
      if pos.market !in engine.markets {
        return Err(RiskCallFailed);
      }
      var left := Shortage(pos, e, engine.markets[pos.market].info);
      if left.Err? {
        return Err(left.error);
      }
      var (equity, required) := left.value;
      if equity >= required {
        return Ok(None);
      }
      var missing: int := required;
      missing := missing - equity;
      if !InI128(missing) {
        return Err(RiskOverflow);
      }
      return Ok(Some((pos.market, missing)));
    }

    method DeleverageBody(e: Env, id: u64) returns (r: Result<Taken, RiskError>)
      requires Wired()
      modifies engine, vault, slp
      ensures r.Ok? ==> Deleverage(old(World()), e, id) == Ok((World(), r.value))
      ensures r.Err? ==> Deleverage(old(World()), e, id) == Err(r.error)
    {
      var missing := FindMissing(e, id);
      if missing.Err? {
        return Err(missing.error);
      }
      if missing.value.None? {
        return Ok(None);
      }
      r := RunAdlBody(e, missing.value.value.0, missing.value.value.1);
    }

    // ----- the entry point -----

    /** Everything up to the forced close: who is liquidated, and how much. */
    method Assess(e: Env, user: Address, id: u64) returns (r: Result<i128, RiskError>)
      modifies `lastPartial
      ensures var sized := Assessed(old(World()), old(Model()), e, user, id);
              && r == (if sized.Ok? then Ok(sized.value.0) else Err(sized.error))
              && Model() == if sized.Ok? then sized.value.1 else old(Model())
    {
      if paused {
        return Err(RiskPaused);
      }
      if id !in engine.positions {
        return Err(RiskCallFailed);
      }
      var pos := engine.positions[id];
      if pos.owner != user {
        return Err(InvalidPosition);
      }
      if pos.market !in engine.markets {
        return Err(RiskCallFailed);
      }
      var health := Shortage(pos, e, engine.markets[pos.market].info);
      if health.Err? {
        return Err(health.error);
      }
      if health.value.0 >= health.value.1 {
        return Err(NotLiquidatable);
      }
      var notional := Notional(pos.size, e.price);
      if notional.None? {
        return Err(RiskOverflow);
      }
      r := SizeToClose(id, notional.value, pos.size, e.now);
    }

    method LiquidateBody(e: Env, keeper: Address, user: Address, id: u64) returns (r: Result<Taken, RiskError>)
      requires Wired()
      modifies `lastPartial, engine, vault, slp
      ensures r.Ok? ==> Liquidate(old(World()), old(Model()), e, keeper, user, id) == Ok((World(), Model(), r.value))
      ensures r.Err? ==> Liquidate(old(World()), old(Model()), e, keeper, user, id) == Err(r.error)
    {
      var size := Assess(e, user, id);
      if size.Err? {
        return Err(size.error);
      }
      var closed := engine.DoRiskClose(e, w.risk, id, size.value, e.price);
      if closed.Err? {
        return Err(RiskCallFailed);
      }
      var settled := SettleClosed(e, keeper, id, closed.value);
      if settled.Err? {
        return Err(settled.error);
      }
      if closed.value.closed {
        return Ok(None);
      }
      r := DeleverageBody(e, id);
    }

    /** `liquidate`; tells whether a winner was deleveraged. A failed call is rolled back. */
    method DoLiquidate(e: Env, keeper: Address, user: Address, id: u64) returns (r: Result<bool, RiskError>)
      requires Wired()
      modifies `lastPartial, engine, vault, slp
      ensures r.Ok? ==> var done := Liquidate(old(World()), old(Model()), e, keeper, user, id);
                        done.Ok? && done.value.0 == World() && done.value.1 == Model() && r.value == done.value.2.Some?
      ensures r.Err? ==> Liquidate(old(World()), old(Model()), e, keeper, user, id) == Err(r.error)
                         && World() == old(World()) && Model() == old(Model())
    {
      var books := engine.SaveBooks();
      var money := engine.SaveMoney();
      var cooldowns := lastPartial;
      var taken := LiquidateBody(e, keeper, user, id);
      if taken.Err? {
        engine.Rollback(books, money);
        lastPartial := cooldowns;
        return Err(taken.error);
      }
      return Ok(taken.value.Some?);
    }
  }

  /** A failing scan of a prefix is the result for the whole list. */
  lemma {:induction false} ScanFails(p: PerpState, e: Env, ids: seq<u64>, n: nat, m: nat)
    requires n <= m <= |ids| && Best(p, e, ids, n).Err?
    ensures Best(p, e, ids, m) == Best(p, e, ids, n)
  {
    if n < m {
      ScanFails(p, e, ids, n, m - 1);
    }
  }
}
