/** Who is liquidated, who is paid what, and who is deleveraged, in plain arithmetic on sizes, prices and indices. */
module LiquidationOutcomes {
  import opened Int128
  import opened Host
  import opened FixedPoint
  import opened MapSums
  import opened Pricing
  import opened PerpBooks
  import opened Trading
  import opened FundsLemmas
  import opened Liquidation
  import opened LiquidationInvariants
  import Vault
  import SlpVault

  // ----- what a position is worth -----

  /** What the price moved in the position's favour. */
  function Move(pos: Position, price: int): int { if pos.isLong then price - pos.entry else pos.entry - price }

  /** How far the position's funding index went since its checkpoint. */
  function Drift(pos: Position, e: Env): int { (if pos.isLong then e.longIdx else e.shortIdx) - pos.fundingIdx }

  function TradeResult(pos: Position, size: int, price: int): int {
    TruncDiv(size * Move(pos, price), 1_000_000_000_000_000_000)
  }

  /** A rising index costs the position. */
  function FundingResult(pos: Position, size: int, e: Env): int {
    -TruncDiv(Drift(pos, e) * size, 1_000_000_000_000_000_000)
  }

  function Value(size: int, price: int): int { TruncDiv(size * price, 1_000_000_000_000_000_000) }

  function Worth(pos: Position, e: Env): int {
    pos.margin + TradeResult(pos, pos.size, e.price) + FundingResult(pos, pos.size, e)
  }

  /** Half of the notional over the leverage cap. */
  function Needed(pos: Position, price: int, cap: u32): int
    requires cap != 0
  {
    TruncDiv(TruncDiv(Value(pos.size, price), cap) * 5_000, 10_000)
  }

  /** Every step on the way to the two amounts fits i128. */
  predicate Computable(pos: Position, e: Env, cap: u32) {
    && InI128(Drift(pos, e)) && InI128(FundingResult(pos, pos.size, e)) && InI128(-FundingResult(pos, pos.size, e))
    && InI128(Move(pos, e.price)) && InI128(TradeResult(pos, pos.size, e.price))
    && InI128(Value(pos.size, e.price)) && cap != 0 && InI128(TruncDiv(Value(pos.size, e.price), cap) * 5_000)
    && InI128(pos.margin + TradeResult(pos, pos.size, e.price)) && InI128(Worth(pos, e))
  }

  /** The engine gets as far as comparing the two amounts. */
  predicate Answerable(d: Desk, r: RiskState, e: Env, user: Address, id: u64) {
    && !r.paused && id in d.perp.positions
    && var pos := d.perp.positions[id];
       && pos.owner == user && pos.market in d.perp.markets
       && Computable(pos, e, d.perp.markets[pos.market].info.maxLeverage)
  }

  lemma {:induction false} FundingIs(pos: Position, size: i128, e: Env)
    ensures var f := FundingPnl(pos.fundingIdx, FundingIdx(e, pos.isLong), size);
            && (f.Some? <==> InI128(Drift(pos, e)) && InI128(FundingResult(pos, size, e))
                             && InI128(-FundingResult(pos, size, e)))
            && (f.Some? ==> f.value == FundingResult(pos, size, e))
  {
  }

  lemma {:induction false} TradeIs(pos: Position, size: i128, price: i128)
    ensures var t := TradePnl(pos.isLong, size, pos.entry, price);
            && (t.Some? <==> InI128(Move(pos, price)) && InI128(TradeResult(pos, size, price)))
            && (t.Some? ==> t.value == TradeResult(pos, size, price))
  {
  }

  // ----- who is liquidated -----

  lemma {:induction false} MaintenanceIs(notional: i128, cap: u32)
    ensures var need := Maintenance(notional, cap);
            && (need.Ok? <==> cap != 0 && InI128(TruncDiv(notional, cap) * 5_000))
            && (need.Ok? ==> need.value == TruncDiv(TruncDiv(notional, cap) * 5_000, 10_000))
            && (need.Err? ==> need.error != NotLiquidatable)
  {
    if cap != 0 && InI128(TruncDiv(notional, cap) * 5_000) {
      TruncDivRemainder(TruncDiv(notional, cap) * 5_000, 10_000);
      QuotientAbove(Abs(TruncDiv(notional, cap) * 5_000), 10_000, Abs(TruncDiv(notional, cap) * 5_000));
    }
  }

  lemma {:induction false} ShortageIs(pos: Position, e: Env, info: MarketInfo)
    ensures var found := Shortage(pos, e, info);
            && (found.Ok? <==> Computable(pos, e, info.maxLeverage))
            && (found.Ok? ==> found.value == (Worth(pos, e), Needed(pos, e.price, info.maxLeverage)))
            && (found.Err? ==> found.error != NotLiquidatable)
  {
    FundingIs(pos, pos.size, e);
    TradeIs(pos, pos.size, e.price);
    if Notional(pos.size, e.price).Some? {
      MaintenanceIs(Notional(pos.size, e.price).value, info.maxLeverage);
    }
  }

  lemma {:induction false} AssessedIs(d: Desk, r: RiskState, e: Env, user: Address, id: u64)
    ensures var sized := Assessed(d, r, e, user, id);
            && (sized == Err(NotLiquidatable) <==>
                  Answerable(d, r, e, user, id) &&
                  var pos := d.perp.positions[id];
                  Worth(pos, e) >= Needed(pos, e.price, d.perp.markets[pos.market].info.maxLeverage))
            && (sized.Ok? ==>
                  Answerable(d, r, e, user, id) &&
                  var pos := d.perp.positions[id];
                  Worth(pos, e) < Needed(pos, e.price, d.perp.markets[pos.market].info.maxLeverage))
  {
    if id in d.perp.positions && d.perp.positions[id].market in d.perp.markets {
      ShortageIs(d.perp.positions[id], e, d.perp.markets[d.perp.positions[id].market].info);
    }
  }

  /** Nothing after the comparison fails with that answer. */
  predicate OtherError<T>(done: Result<T, RiskError>) { done.Err? ==> done.error != NotLiquidatable }

  lemma {:induction false} BestOtherError(p: PerpState, e: Env, ids: seq<u64>, n: nat)
    requires n <= |ids|
    ensures OtherError(Best(p, e, ids, n))
  {
    if n > 0 {
      BestOtherError(p, e, ids, n - 1);
    }
  }

  lemma {:induction false} AdlOtherError(d: Desk, e: Env, m: u32, missing: i128)
    ensures OtherError(RunAdl(d, e, m, missing))
  {
    BestOtherError(d.perp, e, IdsOf(d.perp.marketIds, m), |IdsOf(d.perp.marketIds, m)|);
  }

  lemma {:induction false} DeleverageOtherError(d: Desk, e: Env, id: u64)
    ensures OtherError(Deleverage(d, e, id))
  {
    if id in d.perp.positions && d.perp.positions[id].market in d.perp.markets {
      ShortageIs(d.perp.positions[id], e, d.perp.markets[d.perp.positions[id].market].info);
    }
    var missing := Missing(d.perp, e, id);
    if missing.Ok? && missing.value.Some? {
      AdlOtherError(d, e, missing.value.value.0, missing.value.value.1);
    }
  }

  lemma {:induction false} SettleOtherError(
    f: Funds, w: Wiring, r: RiskState, e: Env, keeper: Address, id: u64, c: RiskClosed)
    ensures OtherError(Settle(f, w, r, e, keeper, id, c))
  {
  }

  /** A liquidation answers that the position is not liquidatable exactly when margin, trade result and funding together
      reach half of the notional over the leverage cap; one that is accepted closes a position that falls short. */
  lemma {:induction false} LiquidatableExactly(
    d: Desk, r: RiskState, e: Env, keeper: Address, user: Address, id: u64)
    ensures var done := Liquidate(d, r, e, keeper, user, id);
            && (done == Err(NotLiquidatable) <==>
                  Answerable(d, r, e, user, id) &&
                  var pos := d.perp.positions[id];
                  Worth(pos, e) >= Needed(pos, e.price, d.perp.markets[pos.market].info.maxLeverage))
            && (done.Ok? ==>
                  Answerable(d, r, e, user, id) &&
                  var pos := d.perp.positions[id];
                  Worth(pos, e) < Needed(pos, e.price, d.perp.markets[pos.market].info.maxLeverage))
  {
    AssessedIs(d, r, e, user, id);
    AfterAssessment(d, r, e, keeper, user, id);
  }

  lemma {:induction false} AfterAssessment(d: Desk, r: RiskState, e: Env, keeper: Address, user: Address, id: u64)
    ensures Liquidate(d, r, e, keeper, user, id) == Err(NotLiquidatable) <==>
              Assessed(d, r, e, user, id) == Err(NotLiquidatable)
  {
    var sized := Assessed(d, r, e, user, id);
    if sized.Ok? {
      var closed := RiskCall(RiskClose(d, e, d.w.risk, id, sized.value.0, e.price));
      if closed.Ok? {
        var c := closed.value.1;
        SettleOtherError(d.funds, d.w, sized.value.1, e, keeper, id, c);
        var funds := Settle(d.funds, d.w, sized.value.1, e, keeper, id, c);
        if funds.Ok? {
          DeleverageOtherError(d.(funds := funds.value, perp := closed.value.0), e, id);
        }
      }
    }
  }

  // ----- who is deleveraged -----

  function Profit(pos: Position, e: Env): int {
    TradeResult(pos, pos.size, e.price) + FundingResult(pos, pos.size, e)
  }

  predicate Winning(pos: Position, e: Env) { Profit(pos, e) > 0 && pos.margin > 0 }

  /** The return on the margin, weighted by leverage. */
  function Rank(pos: Position, e: Env): int
    requires pos.margin != 0
  {
    TruncDiv(Profit(pos, e) * 1_000_000_000_000_000_000, pos.margin) * pos.leverage
  }

  lemma {:induction false} ScoreIs(pos: Position, e: Env)
    requires Score(pos, e).Ok?
    ensures Score(pos, e).value.Some? <==> Winning(pos, e)
    ensures Winning(pos, e) ==> Score(pos, e).value.value == Rank(pos, e)
  {
    FundingIs(pos, pos.size, e);
    TradeIs(pos, pos.size, e.price);
  }

  /** Of the first n ids, the one at i wins, none has a higher rank, and none before it has the same. */
  predicate FirstBest(p: PerpState, e: Env, ids: seq<u64>, n: nat, i: nat)
    requires n <= |ids| && forall j :: 0 <= j < n ==> ids[j] in p.positions
  {
    && i < n && Winning(p.positions[ids[i]], e)
    && forall j :: 0 <= j < n && Winning(p.positions[ids[j]], e) ==>
         && Rank(p.positions[ids[j]], e) <= Rank(p.positions[ids[i]], e)
         && (j < i ==> Rank(p.positions[ids[j]], e) < Rank(p.positions[ids[i]], e))
  }

  predicate NoWinners(p: PerpState, e: Env, ids: seq<u64>, n: nat)
    requires n <= |ids| && forall j :: 0 <= j < n ==> ids[j] in p.positions
  {
    forall j :: 0 <= j < n ==> !Winning(p.positions[ids[j]], e)
  }

  /** What the scan of the first n ids has found. */
  predicate Found(p: PerpState, e: Env, ids: seq<u64>, n: nat, best: Option<(u64, i128)>, i: nat)
    requires n <= |ids|
  {
    && (forall j :: 0 <= j < n ==> ids[j] in p.positions)
    && match best
       case None => NoWinners(p, e, ids, n)
       case Some((id, score)) =>
         FirstBest(p, e, ids, n, i) && id == ids[i] && score == Rank(p.positions[id], e)
  }

  lemma {:induction false} BestIs(p: PerpState, e: Env, ids: seq<u64>, n: nat) returns (i: nat)
    requires n <= |ids| && Best(p, e, ids, n).Ok?
    ensures Found(p, e, ids, n, Best(p, e, ids, n).value, i)
  {
    if n == 0 {
      i := 0;
    } else {
      var before := BestIs(p, e, ids, n - 1);
      ScoreIs(p.positions[ids[n - 1]], e);
      i := FoundStep(p, e, ids, n, Best(p, e, ids, n - 1).value, before, Best(p, e, ids, n).value);
    }
  }

  lemma {:induction false} FoundStep(
    p: PerpState, e: Env, ids: seq<u64>, n: nat, best: Option<(u64, i128)>, i: nat, next: Option<(u64, i128)>)
    returns (i': nat)
    requires 0 < n <= |ids| && Found(p, e, ids, n - 1, best, i) && ids[n - 1] in p.positions
    requires var id := ids[n - 1];
             if Winning(p.positions[id], e) && (best.None? || Rank(p.positions[id], e) > best.value.1)
             then next.Some? && next.value.0 == id && next.value.1 == Rank(p.positions[id], e)
             else next == best
    ensures Found(p, e, ids, n, next, i')
  {
    i' := if next == best then i else n - 1;
  }

  /** What deleveraging takes from a position of this notional for a missing amount: at least one whole unit of size,
      at most all of it. */
  function TakenSize(size: int, notional: int, missing: int): int {
    Min(Max(TruncDiv(size * Min(missing, notional), Max(notional, 1)), Min(1_000_000_000_000_000_000, size)), size)
  }

  /** Deleveraging takes the first of the winners with the highest rank, if the market has a winner. */
  lemma {:induction false} DeleveragesBestWinner(d: Desk, e: Env, m: u32, missing: i128, d': Desk, taken: Taken)
    returns (i: nat)
    requires RunAdl(d, e, m, missing) == Ok((d', taken))
    ensures var ids := IdsOf(d.perp.marketIds, m);
            && (forall j :: 0 <= j < |ids| ==> ids[j] in d.perp.positions)
            && (taken.None? <==> NoWinners(d.perp, e, ids, |ids|))
            && (taken.Some? ==> FirstBest(d.perp, e, ids, |ids|, i) && taken.value.0 == ids[i])
  {
    var ids := IdsOf(d.perp.marketIds, m);
    i := BestIs(d.perp, e, ids, |ids|);
  }

  // ----- who is paid what -----

  lemma {:induction false} MoveFlows(
    s: Vault.VaultState, caller: Address, from: Address, to: Address, token: Address, amount: i128,
    r: Vault.VaultState, account: Address)
    requires Vault.MoveBalance(s, caller, from, to, token, amount) == Ok(r)
    ensures Get(r.balances, (account, token)) == Get(s.balances, (account, token)) + Flow(account, from, to, amount)
  {
    TransferEffect(s, caller, from, to, token, amount, r, account);
  }

  /** All of a position of at most 100,000 of notional, of a larger one a fifth but at least one unit. */
  function ForcedSize(size: int, notional: int): int {
    if notional <= 100_000_000_000_000_000_000_000 then size
    else Min(Max(TruncDiv(size * 2_000, 10_000), Min(1_000_000_000_000_000_000, size)), size)
  }

  function PenaltyOn(value: int, feeBps: u32): int { TruncDiv(value * feeBps, 10_000) }

  function KeeperPart(value: int, feeBps: u32, keeperBps: u32): int {
    TruncDiv(PenaltyOn(value, feeBps) * keeperBps, 10_000)
  }

  function SlpPart(value: int, feeBps: u32, keeperBps: u32): int {
    PenaltyOn(value, feeBps) - KeeperPart(value, feeBps, keeperBps)
  }

  lemma {:induction false} PenaltyIs(r: RiskState, value: i128)
    requires Penalty(r, value).Ok?
    ensures Penalty(r, value).value
         == (KeeperPart(value, r.feeBps, r.keeperBps), SlpPart(value, r.feeBps, r.keeperBps))
  {
  }

  /** Assets after the SLP's part of the penalty and what the position could not pay. */
  function AssetsAfter(s: SlpVault.SlpState, caller: Address, slpPart: int, remaining: int): int {
    if remaining < 0 && caller in s.cfg.callers then Saturate(s.totalAssets + Max(slpPart, 0) + remaining)
    else s.totalAssets + Max(slpPart, 0)
  }

  lemma {:induction false} KeeperFlows(
    f: Funds, w: Wiring, user: Address, keeper: Address, amount: i128, g: Funds, account: Address)
    requires PayKeeper(f, w, user, keeper, amount) == Ok(g)
    ensures SettlementBalance(g, w, account)
         == SettlementBalance(f, w, account) + Flow(account, user, keeper, Max(amount, 0))
    ensures g.slp == f.slp
  {
    if amount > 0 {
      MoveFlows(f.vault, w.risk, user, keeper, w.usdc, amount, g.vault, account);
    }
  }

  lemma {:induction false} SlpFlows(
    f: Funds, w: Wiring, caller: Address, user: Address, amount: i128, g: Funds, account: Address)
    requires PaySlpIfPositive(f, w, caller, user, amount) == Ok(g)
    ensures SettlementBalance(g, w, account)
         == SettlementBalance(f, w, account) + Flow(account, user, w.slp, Max(amount, 0))
    ensures g.slp == f.slp.(totalAssets := g.slp.totalAssets) && g.slp.totalAssets == f.slp.totalAssets + Max(amount, 0)
  {
    if amount > 0 {
      MoveFlows(f.vault, caller, user, w.slp, w.usdc, amount, g.vault, account);
    }
  }

  lemma {:induction false} DistributeStages(
    f: Funds, w: Wiring, r: RiskState, user: Address, keeper: Address, id: u64, released: i128, remaining: i128,
    keeperPart: i128, slpPart: i128, g: Funds)
    returns (unlocked: Funds, rewarded: Funds, credited: Funds)
    requires DistributeValue(f, w, r, user, keeper, id, released, remaining, keeperPart, slpPart) == Ok(g)
    ensures Unlock(f, w.risk, user, id, released) == Ok(unlocked) && unlocked.slp == f.slp
    ensures PayKeeper(unlocked, w, user, keeper, keeperPart) == Ok(rewarded)
    ensures PaySlpIfPositive(rewarded, w, w.risk, user, slpPart) == Ok(credited)
    ensures g.vault == credited.vault
    ensures g.slp.totalAssets ==
              if remaining < 0 && w.risk in credited.slp.cfg.callers then Saturate(credited.slp.totalAssets + remaining)
              else credited.slp.totalAssets
  {
    unlocked := Unlock(f, w.risk, user, id, released).value;
    rewarded := PayKeeper(unlocked, w, user, keeper, keeperPart).value;
    credited := PaySlpIfPositive(rewarded, w, w.risk, user, slpPart).value;
  }

  lemma {:induction false} DistributePays(
    f: Funds, w: Wiring, r: RiskState, user: Address, keeper: Address, id: u64, released: i128, remaining: i128,
    keeperPart: i128, slpPart: i128, g: Funds, account: Address)
    requires DistributeValue(f, w, r, user, keeper, id, released, remaining, keeperPart, slpPart) == Ok(g)
    ensures SettlementBalance(g, w, account)
         == SettlementBalance(f, w, account) + Flow(account, user, keeper, Max(keeperPart, 0))
            + Flow(account, user, w.slp, Max(slpPart, 0))
    ensures g.slp.totalAssets == AssetsAfter(f.slp, w.risk, slpPart, remaining)
  {
    var unlocked, rewarded, credited :=
      DistributeStages(f, w, r, user, keeper, id, released, remaining, keeperPart, slpPart, g);
    UnlockBacked(f, w, w.risk, user, id, released, unlocked);
    KeeperFlows(unlocked, w, user, keeper, keeperPart, rewarded, account);
    SlpFlows(rewarded, w, w.risk, user, slpPart, credited, account);
  }

  /** The terms of a forced close, of a liquidated position or of a winner. */
  lemma {:induction false} ForcedCloseIs(
    d: Desk, e: Env, caller: Address, id: u64, size: i128, p: PerpState, c: RiskClosed)
    requires RiskClose(d, e, caller, id, size, e.price) == Ok((p, c))
    ensures id in d.perp.positions && 0 < size <= d.perp.positions[id].size
    ensures var pos := d.perp.positions[id];
            && c.user == pos.owner && c.size == size && c.released == TruncDiv(pos.margin * size, pos.size)
            && c.trade == TradeResult(pos, size, e.price) && c.funding == FundingResult(pos, size, e)
            && (c.closed <==> size == pos.size) && p.markets.Keys == d.perp.markets.Keys
    ensures c.closed ==> id !in p.positions
    ensures !c.closed ==>
              && id in p.positions && p.positions[id].size == d.perp.positions[id].size - size
              && p.positions[id].margin == d.perp.positions[id].margin - c.released
              && p.positions[id].market == d.perp.positions[id].market
  {
    var pos := d.perp.positions[id];
    var b := RiskCloseEffect(d, e, caller, id, size, e.price, p, c);
    FundingIs(pos, size, e);
    TradeIs(pos, size, e.price);
  }

  // ----- a liquidation and a deleveraging, to the unit -----

  lemma {:induction false} SettlePays(
    f: Funds, w: Wiring, r: RiskState, e: Env, keeper: Address, id: u64, c: RiskClosed, g: Funds, account: Address)
    requires Settle(f, w, r, e, keeper, id, c) == Ok(g)
    ensures var value := Value(c.size, e.price);
            var keeperPart, slpPart :=
              KeeperPart(value, r.feeBps, r.keeperBps), SlpPart(value, r.feeBps, r.keeperBps);
            && SettlementBalance(g, w, account)
            == SettlementBalance(f, w, account) + Flow(account, c.user, keeper, Max(keeperPart, 0))
               + Flow(account, c.user, w.slp, Max(slpPart, 0))
            && g.slp.totalAssets
            == AssetsAfter(f.slp, w.risk, slpPart, c.released + c.trade + c.funding - keeperPart - slpPart)
  {
    var notional := Notional(c.size, e.price).value;
    PenaltyIs(r, notional);
    var (keeperPart, slpPart) := Penalty(r, notional).value;
    var remaining := c.released + (c.trade + c.funding) - keeperPart - slpPart;
    DistributePays(f, w, r, c.user, keeper, id, c.released, remaining, keeperPart, slpPart, g, account);
  }

  lemma {:induction false} SizeIs(d: Desk, r: RiskState, e: Env, user: Address, id: u64)
    requires Assessed(d, r, e, user, id).Ok? && id in d.perp.positions
    ensures var pos, sized := d.perp.positions[id], Assessed(d, r, e, user, id).value;
            && sized.0 == ForcedSize(pos.size, Value(pos.size, e.price))
            && sized.1.feeBps == r.feeBps && sized.1.keeperBps == r.keeperBps && pos.owner == user
  {
  }

  /** The position is still open and worth less than it needs. */
  predicate FallsShort(p: PerpState, e: Env, id: u64) {
    && id in p.positions && p.positions[id].market in p.markets
    && var pos, cap := p.positions[id], p.markets[p.positions[id].market].info.maxLeverage;
       cap != 0 && Worth(pos, e) < Needed(pos, e.price, cap)
  }

  function ShortOf(p: PerpState, e: Env, id: u64): int
    requires FallsShort(p, e, id)
  {
    var pos := p.positions[id];
    Needed(pos, e.price, p.markets[pos.market].info.maxLeverage) - Worth(pos, e)
  }

  /** A winner of the position's market was deleveraged, or looked for, for exactly what the position is short of. */
  predicate DeleveragedFor(d: Desk, e: Env, id: u64, d': Desk, taken: Taken)
    requires FallsShort(d.perp, e, id)
  {
    && InI128(ShortOf(d.perp, e, id))
    && RunAdl(d, e, d.perp.positions[id].market, ShortOf(d.perp, e, id)) == Ok((d', taken))
  }

  lemma {:induction false} MissingIs(p: PerpState, e: Env, id: u64)
    requires Missing(p, e, id).Ok?
    ensures id in p.positions && p.positions[id].market in p.markets
    ensures if FallsShort(p, e, id) then
              && InI128(ShortOf(p, e, id))
              && Missing(p, e, id).value == Some((p.positions[id].market, ShortOf(p, e, id)))
            else Missing(p, e, id).value == None
  {
    ShortageIs(p.positions[id], e, p.markets[p.positions[id].market].info);
  }

  lemma {:induction false} DeleverageIs(d: Desk, e: Env, id: u64, d': Desk, taken: Taken)
    requires Deleverage(d, e, id) == Ok((d', taken))
    ensures if FallsShort(d.perp, e, id) then DeleveragedFor(d, e, id, d', taken) else d' == d && taken.None?
  {
    MissingIs(d.perp, e, id);
    if FallsShort(d.perp, e, id) {
      DeleverageRuns(d, e, id, d.perp.positions[id].market, ShortOf(d.perp, e, id));
    }
  }

  lemma {:induction false} DeleverageRuns(d: Desk, e: Env, id: u64, m: u32, short: i128)
    requires Missing(d.perp, e, id) == Ok(Some((m, short)))
    ensures Deleverage(d, e, id) == RunAdl(d, e, m, short)
  {
  }

  /** An accepted liquidation closes ForcedSize, pays the keeper and the SLP their parts of the penalty on the closed
      notional out of the user's account, and leaves the SLP what the position could not pay. */
  lemma {:induction false} LiquidationPays(
    d: Desk, r: RiskState, e: Env, keeper: Address, user: Address, id: u64, d': Desk, r': RiskState, taken: Taken,
    account: Address)
    returns (mid: Desk)
    requires Liquidate(d, r, e, keeper, user, id) == Ok((d', r', taken))
    ensures id in d.perp.positions && d.perp.positions[id].owner == user
    ensures var pos := d.perp.positions[id];
            var closed := ForcedSize(pos.size, Value(pos.size, e.price));
            var value := Value(closed, e.price);
            var keeperPart, slpPart :=
              KeeperPart(value, r.feeBps, r.keeperBps), SlpPart(value, r.feeBps, r.keeperBps);
            var left := TruncDiv(pos.margin * closed, pos.size) + TradeResult(pos, closed, e.price)
              + FundingResult(pos, closed, e);
            && 0 < closed <= pos.size
            && SettlementBalance(mid.funds, d.w, account)
            == SettlementBalance(d.funds, d.w, account) + Flow(account, user, keeper, Max(keeperPart, 0))
               + Flow(account, user, d.w.slp, Max(slpPart, 0))
            && mid.funds.slp.totalAssets
            == AssetsAfter(d.funds.slp, d.w.risk, slpPart, left - keeperPart - slpPart)
            && (closed == pos.size <==> id !in mid.perp.positions)
            && (closed < pos.size ==> mid.perp.positions[id].size == pos.size - closed)
    ensures mid.w == d.w && if FallsShort(mid.perp, e, id) then DeleveragedFor(mid, e, id, d', taken)
                            else d' == mid && taken.None?
  {
    var size, mode, p, c, mid' := LiquidateEffect(d, r, e, keeper, user, id, d', r', taken);
    mid := mid';
    AssessedIs(d, r, e, user, id);
    SizeIs(d, r, e, user, id);
    ForcedCloseIs(d, e, d.w.risk, id, size, p, c);
    SettlePays(d.funds, d.w, mode, e, keeper, id, c, mid.funds, account);
    if !c.closed {
      DeleverageIs(mid, e, id, d', taken);
    }
  }

  /** An accepted deleveraging closes TakenSize of the winner at the oracle price and pays the winner's profit on it out
      of the SLP, or nothing when the SLP cannot pay all of it. */
  lemma {:induction false} DeleveragingPays(
    d: Desk, e: Env, m: u32, missing: i128, d': Desk, id: u64, released: i128, account: Address)
    returns (size: i128, paid: int)
    requires RunAdl(d, e, m, missing) == Ok((d', Some((id, released))))
    ensures id in d.perp.positions
    ensures var pos := d.perp.positions[id];
            var profit := TradeResult(pos, size, e.price) + FundingResult(pos, size, e);
            && size == TakenSize(pos.size, Value(pos.size, e.price), missing) && 0 < size <= pos.size
            && released == TruncDiv(pos.margin * size, pos.size) && InI128(profit)
            && paid == (if profit > 0 && DrawProfit(d.funds, d.w, d.w.risk, pos.owner, profit).Ok? then profit else 0)
            && SettlementBalance(d'.funds, d.w, account)
            == SettlementBalance(d.funds, d.w, account) + Flow(account, d.w.slp, pos.owner, paid)
            && d'.funds.slp.totalAssets == d.funds.slp.totalAssets - paid
            && (size == pos.size <==> id !in d'.perp.positions)
            && (size < pos.size ==> d'.perp.positions[id].size == pos.size - size)
  {
    var p, c;
    size, p, c := AdlCloses(d, e, m, missing, d', id, released);
    ForcedCloseIs(d, e, d.w.risk, id, size, p, c);
    paid := WinnerPaid(d.funds, d.w, c.user, c.trade + c.funding, d'.funds, account);
  }

  lemma {:induction false} WinnerPaid(f: Funds, w: Wiring, user: Address, profit: i128, g: Funds, account: Address)
    returns (paid: int)
    requires g == if profit > 0 then After(f, DrawProfit(f, w, w.risk, user, profit)) else f
    ensures paid == if profit > 0 && DrawProfit(f, w, w.risk, user, profit).Ok? then profit else 0
    ensures SettlementBalance(g, w, account) == SettlementBalance(f, w, account) + Flow(account, w.slp, user, paid)
    ensures g.slp.totalAssets == f.slp.totalAssets - paid
  {
    paid := 0;
    if profit > 0 && DrawProfit(f, w, w.risk, user, profit).Ok? {
      paid := profit;
      MoveFlows(f.vault, w.slp, w.slp, user, w.usdc, profit, g.vault, account);
    }
  }

  lemma {:induction false} AdlCloses(
    d: Desk, e: Env, m: u32, missing: i128, d': Desk, id: u64, released: i128)
    returns (size: i128, p: PerpState, c: RiskClosed)
    requires RunAdl(d, e, m, missing) == Ok((d', Some((id, released))))
    ensures id in d.perp.positions
    ensures var full := d.perp.positions[id].size; size == TakenSize(full, Value(full, e.price), missing)
    ensures RiskClose(d, e, d.w.risk, id, size, e.price) == Ok((p, c)) && c.released == released && d'.perp == p
    ensures InI128(c.trade + c.funding)
    ensures d'.funds == if c.trade + c.funding > 0 then
              After(d.funds, DrawProfit(d.funds, d.w, d.w.risk, c.user, c.trade + c.funding)) else d.funds
  {
    var pos := d.perp.positions[id];
    size := AdlSize(pos, Notional(pos.size, e.price).value, missing).value;
    var closed := RiskClose(d, e, d.w.risk, id, size, e.price).value;
    p, c := closed.0, closed.1;
  }

  lemma {:induction false} AssessedSize(d: Desk, r: RiskState, e: Env, user: Address, id: u64) returns (notional: i128)
    requires Assessed(d, r, e, user, id).Ok?
    ensures id in d.perp.positions && notional == Value(d.perp.positions[id].size, e.price)
    ensures Assessed(d, r, e, user, id) == LiquidationSize(r, id, notional, d.perp.positions[id].size, e.now)
  {
    notional := Notional(d.perp.positions[id].size, e.price).value;
  }

  /** A large position was not liquidated in the last 30 seconds, and its liquidation is remembered. */
  predicate CooledDown(r: RiskState, id: u64, notional: int, now: u64, r': RiskState) {
    var large := notional > 100_000_000_000_000_000_000_000;
    && (large && id in r.lastPartial ==> now - r.lastPartial[id] >= 30)
    && r' == if large then r.(lastPartial := r.lastPartial[id := now]) else r
  }

  lemma {:induction false} CoolDownIs(
    r: RiskState, id: u64, notional: i128, full: i128, now: u64, size: i128, mode: RiskState)
    requires LiquidationSize(r, id, notional, full, now) == Ok((size, mode))
    ensures CooledDown(r, id, notional, now, mode)
  {
  }

  /** A position above 100,000 of notional is liquidated again only after 30 seconds. */
  lemma {:induction false} LargePositionsCoolDown(
    d: Desk, r: RiskState, e: Env, keeper: Address, user: Address, id: u64, d': Desk, r': RiskState, taken: Taken)
    returns (notional: int)
    requires Liquidate(d, r, e, keeper, user, id) == Ok((d', r', taken))
    ensures id in d.perp.positions && notional == Value(d.perp.positions[id].size, e.price)
    ensures CooledDown(r, id, notional, e.now, r')
  {
    var size, mode, p, c, mid := LiquidateEffect(d, r, e, keeper, user, id, d', r', taken);
    notional := AssessedSize(d, r, e, user, id);
    CoolDownIs(r, id, notional, d.perp.positions[id].size, e.now, size, mode);
  }
}
