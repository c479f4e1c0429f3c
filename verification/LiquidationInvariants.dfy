/** Liquidations keep the desk's invariants; what deleveraging takes out of a margin stays in its lock. */
module LiquidationInvariants {
  import opened Int128
  import opened Host
  import opened FixedPoint
  import opened MapSums
  import opened Pricing
  import opened PerpBooks
  import opened Trading
  import opened FundsLemmas
  import opened DeskInvariants
  import opened DeskCloses
  import opened Liquidation
  import Vault
  import SlpVault

  // ----- the books of a forced close -----

  /** What an accepted forced close did to the books. */
  lemma {:induction false} RiskCloseEffect(
    d: Desk, e: Env, caller: Address, id: u64, size: i128, price: i128, p: PerpState, c: RiskClosed)
    returns (b: MarketBook)
    requires RiskClose(d, e, caller, id, size, price) == Ok((p, c))
    ensures id in d.perp.positions && 0 < size <= d.perp.positions[id].size
        && d.perp.positions[id].market in d.perp.markets
    ensures var pos := d.perp.positions[id];
            && c.user == pos.owner && c.size == size && (c.closed <==> size == pos.size)
            && ReleasedMargin(pos, size) == Some(c.released)
            && BookMoved(d.perp.markets[pos.market], b, pos.isLong, -(size as int))
            && (c.closed ==> p == RemovePosition(SetBook(d.perp, pos.market, b), id, true))
    ensures !c.closed ==> ForcedRemainder(d, e, id, size, price, p, c, b)
  {
    var pos := d.perp.positions[id];
    b := ForcedBook(d.perp.markets[pos.market], pos.isLong, size).value;
  }

  predicate ForcedRemainder(
    d: Desk, e: Env, id: u64, size: i128, price: i128, p: PerpState, c: RiskClosed, b: MarketBook)
    requires id in d.perp.positions
  {
    var pos := d.perp.positions[id];
    var rest := Remainder(pos, e, size, c.released, price);
    rest.Ok? && p == SetPosition(SetBook(d.perp, pos.market, b), id, rest.value)
  }

  // ----- liquidation -----

  lemma {:induction false} PayKeeperBacked(f: Funds, w: Wiring, user: Address, keeper: Address, amount: i128, g: Funds)
    requires user != w.slp && PayKeeper(f, w, user, keeper, amount) == Ok(g)
    ensures Backed(f, g, w)
  {
    if amount > 0 {
      TransferEffect(f.vault, w.risk, user, keeper, w.usdc, amount, g.vault, w.slp);
    }
  }

  lemma {:induction false} LossBacked(f: Funds, w: Wiring, amount: i128, g: Funds)
    requires g == f.(slp := After(f.slp, SlpVault.RecordLoss(f.slp, w.risk, amount)))
    ensures Backed(f, g, w)
  {
  }

  lemma {:induction false} DistributeBacked(
    f: Funds, w: Wiring, r: RiskState, user: Address, keeper: Address, id: u64, released: i128, remaining: i128,
    keeperReward: i128, insuranceReward: i128, g: Funds)
    requires user != w.slp
    requires DistributeValue(f, w, r, user, keeper, id, released, remaining, keeperReward, insuranceReward) == Ok(g)
    ensures BackedWithLock(f, g, w, WithoutLock(f, user, id, released))
    ensures (user, id) in Lockbox(f) && 0 < released <= Lockbox(f)[(user, id)]
  {
    var unlocked := Unlock(f, w.risk, user, id, released).value;
    var rewarded := PayKeeper(unlocked, w, user, keeper, keeperReward).value;
    var credited := PaySlpIfPositive(rewarded, w, w.risk, user, insuranceReward).value;
    UnlockBacked(f, w, w.risk, user, id, released, unlocked);
    PayKeeperBacked(unlocked, w, user, keeper, keeperReward, rewarded);
    PayIfBacked(rewarded, w, w.risk, user, insuranceReward, credited);
    if remaining < 0 {
      LossBacked(credited, w, Neg(remaining), g);
    }
  }

  lemma {:induction false} SettleLiquidationBacked(
    f: Funds, w: Wiring, r: RiskState, e: Env, keeper: Address, id: u64, c: RiskClosed, g: Funds)
    requires c.user != w.slp && Settle(f, w, r, e, keeper, id, c) == Ok(g)
    ensures BackedWithLock(f, g, w, WithoutLock(f, c.user, id, c.released))
    ensures (c.user, id) in Lockbox(f) && 0 < c.released <= Lockbox(f)[(c.user, id)]
  {
    var rewards := Penalty(r, Notional(c.size, e.price).value).value;
    var remaining := c.released + (c.trade + c.funding) - rewards.0 - rewards.1;
    DistributeBacked(f, w, r, c.user, keeper, id, c.released, remaining, rewards.0, rewards.1, g);
  }

  /** What a liquidation leaves unpaid after margin, result and both rewards. */
  function Unpaid(
    c: RiskClosed, rewards: (i128, i128)): int { rewards.0 + rewards.1 - (c.released + c.trade + c.funding) }

  /** A liquidation takes the SLP's assets below zero exactly when the SLP vault accepts losses from the risk engine and
      what is left unpaid is more than the assets and the insurance reward that was just added to them. */
  lemma {:induction false} LiquidationSinksAssets(
    f: Funds, w: Wiring, r: RiskState, e: Env, keeper: Address, id: u64, c: RiskClosed, g: Funds)
    requires f.slp.totalAssets >= 0 && Settle(f, w, r, e, keeper, id, c) == Ok(g)
    ensures Notional(c.size, e.price).Some? && Penalty(r, Notional(c.size, e.price).value).Ok?
    ensures var rewards := Penalty(r, Notional(c.size, e.price).value).value;
            g.slp.totalAssets < 0 <==>
              w.risk in f.slp.cfg.callers && Unpaid(c, rewards) > f.slp.totalAssets + Max(rewards.1, 0)
  {
    var rewards := Penalty(r, Notional(c.size, e.price).value).value;
    var remaining := c.released + (c.trade + c.funding) - rewards.0 - rewards.1;
    DistributeSinks(f, w, r, c.user, keeper, id, c.released, remaining, rewards.0, rewards.1, g);
  }

  lemma {:induction false} DistributeSinks(
    f: Funds, w: Wiring, r: RiskState, user: Address, keeper: Address, id: u64, released: i128, remaining: i128,
    keeperReward: i128, insuranceReward: i128, g: Funds)
    requires f.slp.totalAssets >= 0
    requires DistributeValue(f, w, r, user, keeper, id, released, remaining, keeperReward, insuranceReward) == Ok(g)
    ensures g.slp.totalAssets < 0 <==>
              w.risk in f.slp.cfg.callers && -(remaining as int) > f.slp.totalAssets + Max(insuranceReward, 0)
  {
    var unlocked := Unlock(f, w.risk, user, id, released).value;
    var rewarded := PayKeeper(unlocked, w, user, keeper, keeperReward).value;
    var credited := PaySlpIfPositive(rewarded, w, w.risk, user, insuranceReward).value;
    assert rewarded.slp == f.slp;
    assert credited.slp == f.slp.(totalAssets := f.slp.totalAssets + Max(insuranceReward, 0));
  }

  /** The forced close of the liquidated position, with its money. */
  lemma {:induction false} ForcedCloseKept(
    d: Desk, e: Env, id: u64, size: i128, p: PerpState, c: RiskClosed, d': Desk, surplus: Surplus)
    requires DeskSound(d, surplus) && RiskClose(d, e, d.w.risk, id, size, e.price) == Ok((p, c))
    requires d'.w == d.w && d'.perp == p
    requires BackedWithLock(d.funds, d'.funds, d.w, WithoutLock(d.funds, c.user, id, c.released))
    requires (c.user, id) in Lockbox(d.funds)
    ensures Kept(d, d', surplus)
  {
    var b := RiskCloseEffect(d, e, d.w.risk, id, size, e.price, p, c);
    var pos := d.perp.positions[id];
    var locked := WithoutLock(d.funds, c.user, id, c.released);
    ReleasedElsewhere(Lockbox(d.funds), (c.user, id), c.released);
    if c.closed {
      RemovedKept(d, d', id, b, true, locked, surplus);
    } else {
      var rest := Remainder(pos, e, size, c.released, e.price).value;
      RemainderEffect(pos, e, size, c.released, e.price, rest);
      ResizedKept(d, d', id, rest, b, locked, surplus);
    }
  }

  // ----- deleveraging -----

  lemma {:induction false} ReleasedNotNegative(pos: Position, size: i128)
    requires pos.margin > 0 && size > 0 && pos.size > 0
    ensures ReleasedMargin(pos, size).Some? ==> ReleasedMargin(pos, size).value >= 0
  {
    MulMonotone(0, 0, pos.margin, size);
    QuotientBelow(pos.margin * size, pos.size, 0);
  }

  /** A winner's position shrinks or goes while its lock stays: the lock covers the margin and what was taken. */
  lemma {:induction false} ShrunkCovers(
    p: PerpState, r: PerpState, id: u64, locked: map<(Address, u64), int>, surplus: Surplus, released: i128)
    requires PositionsSound(p) && LocksCover(p, locked, surplus) && id in p.positions && r.nextId == p.nextId
    requires released >= 0
    requires r.positions == p.positions - {id}
          || (id in r.positions && r.positions == p.positions[id := r.positions[id]]
              && r.positions[id].owner == p.positions[id].owner
              && r.positions[id].margin > 0 && r.positions[id].margin == p.positions[id].margin - released)
    ensures LocksCover(r, locked, Raised(surplus, Some((id, released))))
  {
    assert Covered(p.positions[id], id, locked, surplus);
    forall other | other in r.positions
      ensures Covered(r.positions[other], other, locked, Raised(surplus, Some((id, released))))
    {
      if other != id {
        assert Covered(p.positions[other], other, locked, surplus);
      }
    }
  }

  /** The winner's books after its forced close. */
  lemma {:induction false} ForcedBooks(d: Desk, e: Env, id: u64, size: i128, p: PerpState, c: RiskClosed)
    requires BooksSound(d.perp) && RiskClose(d, e, d.w.risk, id, size, e.price) == Ok((p, c))
    ensures id in d.perp.positions && BooksSound(p) && p.nextId == d.perp.nextId && p.orders == d.perp.orders
    ensures c.closed ==> p.positions == d.perp.positions - {id}
    ensures !c.closed ==>
              && id in p.positions && p.positions == d.perp.positions[id := p.positions[id]]
              && p.positions[id].owner == d.perp.positions[id].owner
              && p.positions[id].margin > 0 && p.positions[id].margin == d.perp.positions[id].margin - c.released
    ensures ReleasedMargin(d.perp.positions[id], size) == Some(c.released) && size > 0
  {
    var b := RiskCloseEffect(d, e, d.w.risk, id, size, e.price, p, c);
    var pos := d.perp.positions[id];
    if c.closed {
      RemoveKeepsBooks(d.perp, id, b, true, p);
    } else {
      var rest := Remainder(pos, e, size, c.released, e.price).value;
      RemainderEffect(pos, e, size, c.released, e.price, rest);
      ResizeKeepsBooks(d.perp, id, rest, b, p);
    }
  }

  lemma {:induction false} DeleveragedKept(
    d: Desk, e: Env, id: u64, size: i128, p: PerpState, c: RiskClosed, d': Desk, surplus: Surplus)
    requires DeskSound(d, surplus) && RiskClose(d, e, d.w.risk, id, size, e.price) == Ok((p, c))
    requires d'.w == d.w && d'.perp == p && Backed(d.funds, d'.funds, d.w)
    ensures Kept(d, d', Raised(surplus, Some((id, c.released))))
  {
    ForcedBooks(d, e, id, size, p, c);
    assert Covered(d.perp.positions[id], id, Lockbox(d.funds), surplus);
    ReleasedNotNegative(d.perp.positions[id], size);
    ShrunkCovers(d.perp, p, id, Lockbox(d.funds), surplus, c.released);
    KeptFrom(d, d', Lockbox(d.funds), Raised(surplus, Some((id, c.released))));
  }

  /** An accepted deleveraging that found a winner. */
  lemma {:induction false} AdlEffect(d: Desk, e: Env, m: u32, missing: i128, d': Desk, taken: (u64, i128))
    returns (id: u64, size: i128, p: PerpState, c: RiskClosed)
    requires RunAdl(d, e, m, missing) == Ok((d', Some(taken)))
    ensures RiskClose(d, e, d.w.risk, id, size, e.price) == Ok((p, c)) && d'.perp == p && d'.w == d.w
    ensures taken == (id, c.released)
    ensures d'.funds == d.funds
        || exists gross: i128 :: DrawProfit(d.funds, d.w, d.w.risk, c.user, gross) == Ok(d'.funds)
  {
    var ids := IdsOf(d.perp.marketIds, m);
    id := Best(d.perp, e, ids, |ids|).value.value.0;
    var notional := Notional(d.perp.positions[id].size, e.price).value;
    size := AdlSize(d.perp.positions[id], notional, missing).value;
    var closed := RiskClose(d, e, d.w.risk, id, size, e.price).value;
    p, c := closed.0, closed.1;
    var gross := Sum2(c.trade, c.funding).value;
    if gross > 0 && DrawProfit(d.funds, d.w, d.w.risk, c.user, gross).Ok? {
      assert DrawProfit(d.funds, d.w, d.w.risk, c.user, gross) == Ok(d'.funds);
    }
  }

  lemma {:induction false} AdlMoneyBacked(f: Funds, w: Wiring, user: Address, g: Funds)
    requires user != w.slp
    requires g == f || exists gross: i128 :: DrawProfit(f, w, w.risk, user, gross) == Ok(g)
    ensures Backed(f, g, w)
  {
    if g != f {
      var gross: i128 :| DrawProfit(f, w, w.risk, user, gross) == Ok(g);
      DrawBacked(f, w, w.risk, user, gross, g);
    }
  }

  lemma {:induction false} AdlKept(d: Desk, e: Env, m: u32, missing: i128, d': Desk, taken: Taken, surplus: Surplus)
    requires DeskSound(d, surplus) && RunAdl(d, e, m, missing) == Ok((d', taken))
    ensures Kept(d, d', Raised(surplus, taken))
  {
    if taken.Some? {
      var id, size, p, c := AdlEffect(d, e, m, missing, d', taken.value);
      var b := RiskCloseEffect(d, e, d.w.risk, id, size, e.price, p, c);
      AdlMoneyBacked(d.funds, d.w, c.user, d'.funds);
      DeleveragedKept(d, e, id, size, p, c, d', surplus);
    } else {
      NoWinner(d, e, m, missing, d');
    }
  }

  lemma {:induction false} NoWinner(d: Desk, e: Env, m: u32, missing: i128, d': Desk)
    requires RunAdl(d, e, m, missing) == Ok((d', None))
    ensures d' == d
  {
  }

  lemma {:induction false} DeleverageEffect(d: Desk, e: Env, id: u64, d': Desk, taken: Taken)
    returns (m: u32, missing: i128)
    requires Deleverage(d, e, id) == Ok((d', taken))
    ensures (d' == d && taken.None?) || RunAdl(d, e, m, missing) == Ok((d', taken))
  {
    var found := Missing(d.perp, e, id).value;
    m, missing := if found.Some? then found.value.0 else 0, if found.Some? then found.value.1 else 0;
  }

  lemma {:induction false} DeleverageKept(d: Desk, e: Env, id: u64, d': Desk, taken: Taken, surplus: Surplus)
    requires DeskSound(d, surplus) && Deleverage(d, e, id) == Ok((d', taken))
    ensures Kept(d, d', Raised(surplus, taken))
  {
    var m, missing := DeleverageEffect(d, e, id, d', taken);
    if d' != d || taken.Some? {
      AdlKept(d, e, m, missing, d', taken, surplus);
    }
  }

  // ----- the entry point -----

  lemma {:induction false} LiquidateEffect(
    d: Desk, r: RiskState, e: Env, keeper: Address, user: Address, id: u64, d': Desk, r': RiskState, taken: Taken)
    returns (size: i128, mode: RiskState, p: PerpState, c: RiskClosed, mid: Desk)
    requires Liquidate(d, r, e, keeper, user, id) == Ok((d', r', taken))
    ensures Assessed(d, r, e, user, id) == Ok((size, mode)) && r' == mode
    ensures RiskClose(d, e, d.w.risk, id, size, e.price) == Ok((p, c))
    ensures mid.w == d.w && mid.perp == p && Settle(d.funds, d.w, mode, e, keeper, id, c) == Ok(mid.funds)
    ensures if c.closed then d' == mid && taken.None? else Deleverage(mid, e, id) == Ok((d', taken))
  {
    size := Assessed(d, r, e, user, id).value.0;
    mode := Assessed(d, r, e, user, id).value.1;
    var closed := RiskClose(d, e, d.w.risk, id, size, e.price).value;
    p, c := closed.0, closed.1;
    mid := d.(funds := Settle(d.funds, d.w, mode, e, keeper, id, c).value, perp := p);
  }

  lemma {:induction false} KeptTransitive(d: Desk, mid: Desk, d': Desk, surplus: Surplus, surplus': Surplus)
    requires Kept(d, mid, surplus) && Kept(mid, d', surplus')
    ensures Kept(d, d', surplus')
  {
  }

  /** A liquidation keeps books, locks and backing; a winner it deleverages keeps what was taken in its lock. */
  lemma {:induction false} LiquidateKept(
    d: Desk, r: RiskState, e: Env, keeper: Address, user: Address, id: u64, d': Desk, r': RiskState, taken: Taken,
    surplus: Surplus)
    requires DeskSound(d, surplus) && Liquidate(d, r, e, keeper, user, id) == Ok((d', r', taken))
    ensures Kept(d, d', Raised(surplus, taken))
  {
    var size, mode, p, c, mid := LiquidateEffect(d, r, e, keeper, user, id, d', r', taken);
    LiquidatedKept(d, mode, e, keeper, id, size, p, c, mid, surplus);
    if !c.closed {
      DeleverageKept(mid, e, id, d', taken, surplus);
      KeptTransitive(d, mid, d', surplus, Raised(surplus, taken));
    }
  }

  lemma {:induction false} LiquidatedKept(
    d: Desk, r: RiskState, e: Env, keeper: Address, id: u64, size: i128, p: PerpState, c: RiskClosed, mid: Desk,
    surplus: Surplus)
    requires DeskSound(d, surplus) && RiskClose(d, e, d.w.risk, id, size, e.price) == Ok((p, c))
    requires mid.w == d.w && mid.perp == p && Settle(d.funds, d.w, r, e, keeper, id, c) == Ok(mid.funds)
    ensures Kept(d, mid, surplus)
  {
    var b := RiskCloseEffect(d, e, d.w.risk, id, size, e.price, p, c);
    SettleLiquidationBacked(d.funds, d.w, r, e, keeper, id, c, mid.funds);
    ForcedCloseKept(d, e, id, size, p, c, mid, surplus);
  }

  // ----- dead ids -----

  /** The scan for a winner goes through exactly when every id it reads is open and has a score: one dead id on a
      market's list stops it. */
  lemma {:induction false} ScanNeedsLiveIds(p: PerpState, e: Env, ids: seq<u64>, n: nat)
    requires n <= |ids|
    ensures Best(p, e, ids, n).Ok? <==> forall i :: 0 <= i < n ==> Readable(p, e, ids[i])
  {
    if n > 0 {
      ScanNeedsLiveIds(p, e, ids, n - 1);
      ScanStep(p, e, ids, n);
    }
  }

  /** The position is open and its score does not overflow. */
  predicate Readable(p: PerpState, e: Env, id: u64) { id in p.positions && Score(p.positions[id], e).Ok? }

  lemma {:induction false} ScanStep(p: PerpState, e: Env, ids: seq<u64>, n: nat)
    requires 0 < n <= |ids|
    ensures Best(p, e, ids, n).Ok? <==> Best(p, e, ids, n - 1).Ok? && Readable(p, e, ids[n - 1])
  {
  }

  /** An id on a market's list that is spent but not open. */
  predicate DeadOn(p: PerpState, m: u32, id: u64) {
    id in IdsOf(p.marketIds, m) && id !in p.positions && id < p.nextId
  }

  /** While a market's list holds a dead id, deleveraging in that market fails. */
  lemma {:induction false} DeadIdStopsAdl(d: Desk, e: Env, m: u32, missing: i128, dead: u64)
    requires DeadOn(d.perp, m, dead)
    ensures RunAdl(d, e, m, missing).Err?
  {
    ScanNeedsLiveIds(d.perp, e, IdsOf(d.perp.marketIds, m), |IdsOf(d.perp.marketIds, m)|);
  }

  /** Then a liquidation in that market never deleverages: it closes the position, or leaves a rest that is short of
      nothing, or fails as a whole. */
  lemma {:induction false} DeadIdStopsLiquidation(
    d: Desk, r: RiskState, e: Env, keeper: Address, user: Address, id: u64, dead: u64)
    requires id in d.perp.positions && DeadOn(d.perp, d.perp.positions[id].market, dead)
    ensures var done := Liquidate(d, r, e, keeper, user, id);
            done.Ok? ==>
              && done.value.2.None?
              && (id !in done.value.0.perp.positions || Missing(done.value.0.perp, e, id) == Ok(None))
  {
    var done := Liquidate(d, r, e, keeper, user, id);
    if done.Ok? {
      var size, mode, p, c, mid := LiquidateEffect(d, r, e, keeper, user, id, done.value.0, done.value.1, done.value.2);
      DeadIdStays(d, e, id, size, p, c, dead);
      if !c.closed {
        NoWinnerWhileDead(mid, e, id, dead, d.perp.positions[id].market, done.value.0, done.value.2);
      }
    }
  }

  lemma {:induction false} DeadIdStays(d: Desk, e: Env, id: u64, size: i128, p: PerpState, c: RiskClosed, dead: u64)
    requires RiskClose(d, e, d.w.risk, id, size, e.price) == Ok((p, c))
    requires DeadOn(d.perp, d.perp.positions[id].market, dead)
    ensures c.closed ==> id !in p.positions
    ensures !c.closed ==> id in p.positions && p.positions[id].market == d.perp.positions[id].market
                          && DeadOn(p, d.perp.positions[id].market, dead)
  {
    var b := RiskCloseEffect(d, e, d.w.risk, id, size, e.price, p, c);
  }

  lemma {:induction false} NoWinnerWhileDead(d: Desk, e: Env, id: u64, dead: u64, m: u32, d': Desk, taken: Taken)
    requires id in d.perp.positions && d.perp.positions[id].market == m && DeadOn(d.perp, m, dead)
    requires Deleverage(d, e, id) == Ok((d', taken))
    ensures taken.None? && d' == d && Missing(d.perp, e, id) == Ok(None)
  {
    var found := Missing(d.perp, e, id).value;
    if found.Some? {
      DeadIdStopsAdl(d, e, m, found.value.1, dead);
    }
  }

  /** A position its owner closes leaves a dead id on its market's list. */
  lemma {:induction false} OwnCloseLeavesDeadId(d: Desk, e: Env, user: Address, id: u64, d': Desk, surplus: Surplus)
    requires DeskSound(d, surplus) && ClosePosition(d, e, user, id) == Ok(d')
    ensures id in d.perp.positions && DeadOn(d'.perp, d.perp.positions[id].market, id)
  {
    var gross, fee, b := CloseEffect(d, e, user, id, d');
  }
}
