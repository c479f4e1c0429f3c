/** Runs from an empty deployment with figures: a rebate that pays a round trip, a partial close that drops a debt, and
    a liquidation that sinks the SLP. They also show that the assumptions of the ledger's theorems can be met. */
module Scenarios {
  import opened Int128
  import opened Host
  import opened FixedPoint
  import opened MapSums
  import opened Pricing
  import opened PerpBooks
  import opened Trading
  import opened FundsLemmas
  import opened SystemRuns
  import opened LedgerTheorems
  import opened TradeOutcomes
  import DeskCloses
  import Liquidation
  import SlpVault
  import Vault
  import VaultRuns

  const PERP: Address := Address(4)
  const RISK: Address := Address(5)
  const SLP: Address := Address(6)
  const USDC: Address := Address(10)
  const ALICE: Address := Address(11)
  const BOB: Address := Address(12)
  const LP: Address := Address(13)

  /** Amounts have 18 decimals: ten units, and a tenth of one. */
  const TEN: int := 10 * PRECISION
  const TENTH: int := PRECISION / 10

  function Wires(): Wiring {
    Wiring(PERP, RISK, SLP, Address(7), Address(8), Address(9), Address(2), USDC, true)
  }

  function VaultConf(): Vault.VaultConfig {
    Vault.VaultConfig(Address(1), Address(2), Address(3), {PERP, RISK, SLP, Address(8)}, [USDC],
                      map[USDC := Vault.Collateral(7, 0, 1_000 * TEN, true)])
  }

  function SlpConf(): SlpVault.SlpConfig {
    SlpVault.SlpConfig(Address(1), Address(1), 0, 0, 1_000 * TEN, 1, [PERP, RISK])
  }

  function Info(): MarketInfo { MarketInfo(true, 50, 1_000 * TEN, 1_000 * TEN, 0, 0, 1) }

  /** The world at a price, with a funding index for longs. */
  function At(price: i128, longIdx: i128): Env
    requires longIdx > I128_MIN
  {
    Env(0, 0, price, 0, longIdx, -longIdx, map[USDC := PRECISION])
  }

  function Empty(): System { Genesis(Wires(), VaultConf(), SlpConf(), Address(14), 0, 0) }

  // ----- the setup: a market, two traders with ten units each, and a tenth of a unit of liquidity -----

  function Setup(): seq<Op> {
    [Register(1, Info(), 1_000_000 * PRECISION, 10),
     InVault(VaultRuns.DoDeposit(ALICE, USDC, 100_000_000, Some(0), true)),
     InVault(VaultRuns.DoDeposit(BOB, USDC, 100_000_000, Some(0), true)),
     SlpDeposit(At(PRECISION, 0), LP, 1_000_000, Some(0), true)]
  }

  function Balances(): map<(Address, Address), int> {
    map[(ALICE, USDC) := TEN, (BOB, USDC) := TEN, (SLP, USDC) := TENTH]
  }

  function FundedVault(): Vault.VaultState {
    Vault.VaultState(VaultConf(), Balances(), map[], map[], map[], map[], map[])
  }

  function FundedSlp(): SlpVault.SlpState {
    SlpVault.SlpState(SlpConf(), TENTH, TENTH, map[LP := TENTH], map[], map[LP := 0])
  }

  function Book(skew: i128, oiLong: i128, oiShort: i128): MarketBook {
    MarketBook(Info(), SkewState(skew, 1_000_000 * PRECISION, 10), oiLong, oiShort)
  }

  function Ready(): System {
    var books := PerpState(false, map[1 := Book(0, 0, 0)], map[], map[], map[], 1, map[], 1);
    Empty().(desk := Desk(Wires(), Funds(FundedVault(), FundedSlp()), books))
  }

  lemma {:induction false} Scaled(amount: i128, info: Vault.Collateral)
    requires info.decimals == 7 && (amount == 100_000_000 || amount == 1_000_000)
    ensures Vault.ToInternal(amount, info) == Ok(amount * SlpVault.NATIVE_TO_INTERNAL)
  {
    DeskCloses.PowEleven(11);
  }

  lemma {:induction false} DepositAccepted(v: Vault.VaultState, user: Address, native: i128, amount: int)
    requires v.cfg == VaultConf() && (user, USDC) !in v.balances
    requires (native == 100_000_000 && amount == TEN) || (native == 1_000_000 && amount == TENTH)
    ensures Vault.Deposit(v, user, USDC, native, Some(0), true)
        == Ok(v.(balances := v.balances[(user, USDC) := amount]))
  {
    Scaled(native, VaultConf().tokens[USDC]);
    assert Vault.Inflow(v.cfg, USDC, native, Some(0)) == Ok(amount);
  }

  lemma {:induction false} FirstShares(s: SlpVault.SlpState, e: Env)
    requires s == EmptySlp(SlpConf()) && e.now == 0
    ensures SlpVault.Deposit(s, LP, 1_000_000, e.now, true) == Ok(FundedSlp())
  {
    assert SlpVault.DepositAmount(s, 1_000_000) == Ok(TENTH);
    assert SlpVault.SharesFor(TENTH, 0, 0) == Some(TENTH);
    assert Get(s.shares, LP) == 0;
  }

  lemma {:induction false} OneStep(s: System, op: Op, s': System)
    requires Perform(s, op) == Some((s', None))
    ensures Step(s, op) == s'
  {
  }

  lemma {:induction false} RunJoins(s: System, ops: seq<Op>, more: seq<Op>)
    ensures Run(s, ops + more) == Run(Run(s, ops), more)
    decreases |ops|
  {
    if ops == [] {
      assert ops + more == more;
    } else {
      assert (ops + more)[0] == ops[0] && (ops + more)[1..] == ops[1..] + more;
      RunJoins(Step(s, ops[0]), ops[1..], more);
    }
  }

  lemma {:induction false} RunOne(s: System, op: Op)
    ensures Run(s, [op]) == Step(s, op)
  {
    assert [op][1..] == [];
    assert Run(Step(s, op), []) == Step(s, op);
  }

  function WithVault(s: System, v: Vault.VaultState): System { s.(desk := s.desk.(funds := s.desk.funds.(vault := v))) }

  lemma {:induction false} Registered() returns (s: System)
    ensures s == Step(Empty(), Setup()[0])
    ensures s == Empty().(desk := Empty().desk.(perp := SetBook(EmptyEngine(), 1, Book(0, 0, 0))))
  {
    s := Step(Empty(), Setup()[0]);
  }

  lemma {:induction false} VaultStep(s: System, op: VaultRuns.VaultOp, v: Vault.VaultState) returns (t: System)
    requires VaultRuns.Effect(s.desk.funds.vault, op) == Ok(v)
    ensures t == Step(s, InVault(op)) == WithVault(s, v)
  {
    t := Step(s, InVault(op));
  }

  lemma {:induction false} Deposited(s: System, user: Address) returns (t: System)
    requires s.desk.funds.vault.cfg == VaultConf() && (user, USDC) !in s.desk.funds.vault.balances
    ensures t == Step(s, InVault(VaultRuns.DoDeposit(user, USDC, 100_000_000, Some(0), true)))
    ensures t == WithVault(s, s.desk.funds.vault.(balances := s.desk.funds.vault.balances[(user, USDC) := TEN]))
  {
    DepositAccepted(s.desk.funds.vault, user, 100_000_000, TEN);
    var op := VaultRuns.DoDeposit(user, USDC, 100_000_000, Some(0), true);
    t := VaultStep(s, op, s.desk.funds.vault.(balances := s.desk.funds.vault.balances[(user, USDC) := TEN]));
  }

  lemma {:induction false} Provided(s: System) returns (t: System)
    requires s.desk.w == Wires() && s.desk.funds.vault.cfg == VaultConf() && (SLP, USDC) !in s.desk.funds.vault.balances
    requires s.desk.funds.slp == EmptySlp(SlpConf())
    ensures t == Step(s, SlpDeposit(At(PRECISION, 0), LP, 1_000_000, Some(0), true))
    ensures var v := s.desk.funds.vault;
            t == s.(desk := s.desk.(funds := Funds(v.(balances := v.balances[(SLP, USDC) := TENTH]), FundedSlp())))
  {
    FirstShares(s.desk.funds.slp, At(PRECISION, 0));
    DepositAccepted(s.desk.funds.vault, SLP, 1_000_000, TENTH);
    t := Step(s, SlpDeposit(At(PRECISION, 0), LP, 1_000_000, Some(0), true));
  }

  /** The setup leads to the state written out above. */
  lemma {:induction false} SetupReaches()
    ensures Run(Empty(), Setup()) == Ready()
  {
    var a := Registered();
    var b := Deposited(a, ALICE);
    var c := Deposited(b, BOB);
    var d := Provided(c);
    assert d == Ready() by {
      assert map[(ALICE, USDC) := TEN][(BOB, USDC) := TEN][(SLP, USDC) := TENTH] == Balances();
    }
    FourSteps(Empty(), Setup(), a, b, c, d);
  }

  lemma {:induction false} FourSteps(s: System, ops: seq<Op>, a: System, b: System, c: System, d: System)
    requires |ops| == 4
    requires a == Step(s, ops[0]) && b == Step(a, ops[1]) && c == Step(b, ops[2]) && d == Step(c, ops[3])
    ensures Run(s, ops) == d
  {
    RunOne(s, ops[0]);
    RunOne(a, ops[1]);
    RunOne(b, ops[2]);
    RunOne(c, ops[3]);
    RunJoins(s, [ops[0]], [ops[1]]);
    RunJoins(s, [ops[0]] + [ops[1]], [ops[2]]);
    RunJoins(s, [ops[0]] + [ops[1]] + [ops[2]], [ops[3]]);
    assert ops == [ops[0]] + [ops[1]] + [ops[2]] + [ops[3]];
  }

  // ----- accepted calls -----

  /** Holdings of the settlement token count in full. */
  lemma {:induction false} CollateralInFull(v: Vault.VaultState, user: Address, prices: map<Address, i128>)
    requires v.cfg == VaultConf() && prices == map[USDC := PRECISION] && Get(v.balances, (user, USDC)) == TEN
    ensures Vault.TotalCollateral(v, user, prices) == Ok(TEN)
  {
    assert MulDiv(TEN, BPS_DENOMINATOR, BPS_DENOMINATOR) == Some(TEN) by {
      TruncDivUnique(TEN * BPS_DENOMINATOR, BPS_DENOMINATOR, TEN);
    }
    assert Vault.CollateralValue(VaultConf().tokens[USDC], TEN, Some(PRECISION)) == Ok(TEN);
    assert Vault.ValueUpTo(v, user, prices, 0) == Ok(0);
  }

  function Locked(f: Funds, user: Address, id: u64, amount: i128): Funds {
    f.(vault := f.vault.(locked := f.vault.locked[(user, id) := amount],
                         lockedTotal := f.vault.lockedTotal[user := amount]))
  }

  /** A first lock of at most ten units. */
  lemma {:induction false} LockAccepted(f: Funds, user: Address, id: u64, amount: i128, prices: map<Address, i128>)
    requires f.vault.cfg == VaultConf() && prices == map[USDC := PRECISION] && 0 < amount <= TEN
    requires Get(f.vault.balances, (user, USDC)) == TEN && f.vault.isolatedTotal == map[]
    requires user !in f.vault.lockedTotal && (user, id) !in f.vault.locked
    ensures Lock(f, Wires(), user, id, amount, prices) == Ok(Locked(f, user, id, amount))
  {
    CollateralInFull(f.vault, user, prices);
    assert Vault.CheckFree(f.vault, user, amount, prices) == Ok(());
  }

  /** An opening whose figures are given is accepted. */
  lemma {:induction false} OpenAccepted(
    d: Desk, e: Env, user: Address, size: i128, isLong: bool, exec: i128, notional: i128, margin: i128, bps: i128,
    b: MarketBook)
    requires d.w == Wires() && !d.perp.paused && size >= 1 && 1 in d.perp.markets && d.perp.markets[1].info == Info()
    requires e.price == PRECISION && e.now == e.writtenAt && e.prices == map[USDC := PRECISION]
    requires Notional(size, PRECISION) == Some(size)
    requires ExecutionPrice(PRECISION, d.perp.markets[1].skew, size, isLong) == Some(exec)
    requires SlippageBps(exec, PRECISION) == Some(bps) && bps <= 100
    requires Notional(size, exec) == Some(notional) && margin == TruncDiv(notional, 10) && 0 < margin <= PRECISION * 2
    requires 0 < notional <= 20 * PRECISION
    requires GrowOi(d.perp.markets[1], isLong, size).Ok?
    requires ShiftSkew(GrowOi(d.perp.markets[1], isLong, size).value, isLong, size) == Ok(b)
    requires d.funds.vault.cfg == VaultConf() && d.funds.vault.isolatedTotal == map[]
    requires Get(d.funds.vault.balances, (user, USDC)) == TEN
    requires user !in d.funds.vault.lockedTotal && (user, d.perp.nextId) !in d.funds.vault.locked
    requires user !in d.perp.userIds && d.perp.nextId < 1_000
    ensures AddPosition(SetBook(d.perp, 1, b),
        Position(user, 1, size, exec, margin, 10, isLong, FundingIdx(e, isLong))).Ok?
    ensures OpenPosition(d, e, user, 1, size, isLong, 10, 100)
         == Ok(Desk(d.w, Locked(d.funds, user, d.perp.nextId, margin),
                    AddPosition(SetBook(d.perp, 1, b),
                                Position(user, 1, size, exec, margin, 10, isLong, FundingIdx(e, isLong))).value))
  {
    LockAccepted(d.funds, user, d.perp.nextId, margin, e.prices);
    NoFee(notional);
    RiskHasRoom(d, Locked(d.funds, user, d.perp.nextId, margin), user, notional, margin);
    assert EntryTerms(PRECISION, d.perp.markets[1], size, isLong, 10, 100, false)
        == Ok((exec, GrowOi(d.perp.markets[1], isLong, size).value, notional, margin, 0));
    assert EnterMoney(d, e, user, notional, margin, 0, 10, Info(), false)
        == Ok(Locked(d.funds, user, d.perp.nextId, margin));
  }

  lemma {:induction false} NoFee(notional: i128)
    ensures ApplyBps(notional, 0) == Some(0)
  {
    assert notional * 0 == 0;
    DivUnique(0, BPS_DENOMINATOR, 0);
  }

  lemma {:induction false} RiskHasRoom(d: Desk, f: Funds, user: Address, notional: i128, margin: i128)
    requires d.w == Wires() && f.vault.cfg == VaultConf() && Get(f.vault.balances, (user, USDC)) == TEN
    requires user !in d.perp.userIds && 0 < notional <= 20 * PRECISION && margin == TruncDiv(notional, 10) && margin > 0
    ensures CheckRisk(d, f, user, notional, margin, 10, Info()) == Ok(())
  {
    assert MarginsOf(d.perp, IdsOf(d.perp.userIds, user)) == Ok(0);
    assert 0 <= TruncDiv(notional, 50) <= TruncDiv(notional, 10) <= 2 * PRECISION;
  }

  // ----- a long of two in an empty market -----

  const MICRO: int := 1_000_000_000_000

  function OpenLong(): Op { Open(At(PRECISION, 0), ALICE, 1, 2 * PRECISION, true, 10, 100) }

  /** Two units bought one millionth above the price, with a tenth of the notional as margin. */
  function Long(): Position {
    Position(ALICE, 1, 2 * PRECISION, PRECISION + MICRO, (2 * PRECISION + 2 * MICRO) / 10, 10, true, 0)
  }

  function LongOpen(): System {
    var s := Ready();
    var books := PerpState(false, map[1 := Book(2 * PRECISION, 2 * PRECISION, 0)], map[1 := Long()], map[ALICE := [1]],
                           map[1 := [1]], 2, map[], 1);
    s.(desk := Desk(Wires(), Locked(s.desk.funds, ALICE, 1, Long().margin), books))
  }

  lemma {:induction false} WholeProduct(size: i128, price: i128, product: i128)
    requires size * price == product * PRECISION
    ensures MulPrecision(size, price) == Some(product)
  {
    TruncDivUnique(size * price, PRECISION, product);
  }

  /** The fee at a mid skew of whole units, in a market of a million units. */
  lemma {:induction false} FeeInMillionths(mid: i128, units: nat)
    requires Abs(mid) == units * PRECISION && units <= 20
    ensures SkewFee(PRECISION, mid, 1_000_000 * PRECISION) == Some(units * MICRO)
  {
    assert DivPrecision(Abs(mid), 1_000_000 * PRECISION) == Some(units * MICRO) by {
      TruncDivUnique(Abs(mid) * PRECISION, 1_000_000 * PRECISION, units * MICRO);
    }
    WholeProduct(units * MICRO, PRECISION, units * MICRO);
  }

  lemma {:induction false} LongOpens()
    ensures Perform(Ready(), OpenLong()) == Some((LongOpen(), None))
  {
    var d, e, size := Ready().desk, At(PRECISION, 0), 2 * PRECISION;
    FeeInMillionths(PRECISION, 1);
    WholeProduct(size, PRECISION, size);
    WholeProduct(size, PRECISION + MICRO, size + 2 * MICRO);
    assert ExecutionPrice(PRECISION, SkewState(0, 1_000_000 * PRECISION, 10), size, true) == Some(PRECISION + MICRO);
    assert SlippageBps(PRECISION + MICRO, PRECISION) == Some(0);
    assert Long().margin == TruncDiv(size + 2 * MICRO, 10);
    OpenAccepted(d, e, ALICE, size, true, PRECISION + MICRO, size + 2 * MICRO, Long().margin, 0, Book(size, size, 0));
    LongStored(size);
  }

  lemma {:induction false} LongStored(size: i128)
    requires size == 2 * PRECISION
    ensures AddPosition(SetBook(Ready().desk.perp, 1, Book(size, size, 0)), Long()) == Ok(LongOpen().desk.perp)
  {
    var p, r := Ready().desk.perp, LongOpen().desk.perp;
    assert p.markets[1 := Book(size, size, 0)] == r.markets;
    assert p.positions[1 := Long()] == r.positions;
    var none: seq<u64> := [];
    assert none + [1] == [1];
    assert p.userIds[ALICE := [1]] == r.userIds && p.marketIds[1 := [1]] == r.marketIds;
  }

  // ----- the price halves: a liquidation leaves the SLP with less than nothing -----

  const KEEPER: Address := Address(14)
  const HALF: int := PRECISION / 2

  /** What the liquidation leaves unpaid: the loss less the margin. */
  const UNPAID: int := PRECISION + 2 * MICRO - (2 * PRECISION + 2 * MICRO) / 10

  lemma {:induction false} NoFunding(size: i128)
    ensures FundingPnl(0, 0, size) == Some(0)
  {
    assert 0 * size == 0;
    WholeProduct(0, size, 0);
  }

  lemma {:induction false} LongFallsShort(e: Env)
    requires e == At(HALF, 0)
    ensures TradePnl(true, 2 * PRECISION, Long().entry, HALF) == Some(-(PRECISION + 2 * MICRO))
    ensures FundingPnl(Long().fundingIdx, FundingIdx(e, true), 2 * PRECISION) == Some(0)
    ensures Notional(2 * PRECISION, HALF) == Some(PRECISION)
    ensures Liquidation.Shortage(Long(), e, Info()) == Ok((-UNPAID, PRECISION / 100))
  {
    NoFunding(2 * PRECISION);
    WholeProduct(2 * PRECISION, HALF - Long().entry, -(PRECISION + 2 * MICRO));
    WholeProduct(2 * PRECISION, HALF, PRECISION);
    assert Liquidation.Maintenance(PRECISION, 50) == Ok(PRECISION / 100);
  }

  lemma {:induction false} AllReleased(margin: i128, size: i128)
    requires size > 0
    ensures MulDiv(margin, size, size) == Some(margin)
  {
    TruncDivUnique(margin * size, size, margin);
  }

  lemma {:induction false} LongForcedClosed(d: Desk, e: Env) returns (p: PerpState)
    requires d == LongOpen().desk && e == At(HALF, 0)
    ensures RiskClose(d, e, RISK, 1, 2 * PRECISION, HALF)
         == Ok((p, RiskClosed(ALICE, 1, 2 * PRECISION, Long().margin, -(PRECISION + 2 * MICRO), 0, true)))
  {
    LongFallsShort(e);
    AllReleased(Long().margin, 2 * PRECISION);
    var b := d.perp.markets[1];
    assert ForcedBook(b, true, 2 * PRECISION) == Ok(Book(0, 0, 0));
    p := RemovePosition(SetBook(d.perp, 1, Book(0, 0, 0)), 1, true);
  }

  lemma {:induction false} LongUnlocked(f: Funds) returns (g: Funds)
    requires f == LongOpen().desk.funds
    ensures Unlock(f, RISK, ALICE, 1, Long().margin) == Ok(g) && g.slp == FundedSlp()
  {
    g := Unlock(f, RISK, ALICE, 1, Long().margin).value;
  }

  lemma {:induction false} LossDistributed(f: Funds, r: Liquidation.RiskState, unlocked: Funds) returns (g: Funds)
    requires r == LongOpen().risk && unlocked.slp == FundedSlp()
    requires Unlock(f, RISK, ALICE, 1, Long().margin) == Ok(unlocked)
    ensures Liquidation.DistributeValue(f, Wires(), r, ALICE, KEEPER, 1, Long().margin, -UNPAID, 0, 0) == Ok(g)
    ensures g.slp == FundedSlp().(totalAssets := TENTH - UNPAID)
  {
    var lost := SlpVault.RecordLoss(FundedSlp(), RISK, UNPAID);
    assert lost == Ok(FundedSlp().(totalAssets := TENTH - UNPAID));
    g := unlocked.(slp := lost.value);
  }

  lemma {:induction false} LossSettled(f: Funds, r: Liquidation.RiskState, e: Env, c: RiskClosed) returns (g: Funds)
    requires f == LongOpen().desk.funds && r == LongOpen().risk && e == At(HALF, 0)
    requires c == RiskClosed(ALICE, 1, 2 * PRECISION, Long().margin, -(PRECISION + 2 * MICRO), 0, true)
    ensures Liquidation.Settle(f, Wires(), r, e, KEEPER, 1, c) == Ok(g)
    ensures g.slp == FundedSlp().(totalAssets := TENTH - UNPAID)
  {
    LongFallsShort(e);
    NoFee(PRECISION);
    NoFee(0);
    assert Liquidation.Penalty(r, PRECISION) == Ok((0, 0));
    var unlocked := LongUnlocked(f);
    g := LossDistributed(f, r, unlocked);
  }

  lemma {:induction false} LongLiquidated(d: Desk, r: Liquidation.RiskState, e: Env) returns (d': Desk)
    requires d == LongOpen().desk && r == LongOpen().risk && e == At(HALF, 0)
    ensures Liquidation.Liquidate(d, r, e, KEEPER, ALICE, 1) == Ok((d', r, None))
    ensures d'.funds.slp == FundedSlp().(totalAssets := TENTH - UNPAID)
  {
    LongAssessed(d, r, e);
    var p := LongForcedClosed(d, e);
    var g := LossSettled(d.funds, r, e,
        RiskClosed(ALICE, 1, 2 * PRECISION, Long().margin, -(PRECISION + 2 * MICRO), 0, true));
    d' := d.(funds := g, perp := p);
  }

  lemma {:induction false} LongAssessed(d: Desk, r: Liquidation.RiskState, e: Env)
    requires d == LongOpen().desk && r == LongOpen().risk && e == At(HALF, 0)
    ensures Liquidation.Assessed(d, r, e, ALICE, 1) == Ok((2 * PRECISION, r))
  {
    LongFallsShort(e);
  }

  lemma {:induction false} OnLiquidationAccepted(
    s: System, e: Env, keeper: Address, user: Address, id: u64, d: Desk, r: Liquidation.RiskState,
    done: Result<(Desk, Liquidation.RiskState, Liquidation.Taken), Liquidation.RiskError>)
    requires done == Liquidation.Liquidate(s.desk, s.risk, e, keeper, user, id) && done == Ok((d, r, None))
    ensures OnLiquidation(s, e, keeper, user, id) == Some((s.(desk := d, risk := r), None))
  {
  }

  lemma {:induction false} LiquidateStep(s: System, op: Op, t: System)
    requires op.Liquidate? && OnLiquidation(s, op.e, op.keeper, op.user, op.id) == Some((t, None))
    ensures Step(s, op) == t
  {
  }

  lemma {:induction false} OpenStep(s: System, op: Op, t: System)
    requires Perform(s, op) == Some((t, None))
    ensures Step(s, op) == t
  {
  }

  /** Runs that begin with the setup and go on by two more calls. */
  function After2(a: Op, b: Op): seq<Op> { Setup() + [a] + [b] }

  lemma {:induction false} SixCalls(a: Op, mid: System, b: Op, t: System)
    requires Step(Ready(), a) == mid && Step(mid, b) == t
    ensures Run(Empty(), After2(a, b)) == t
  {
    SetupReaches();
    RunJoins(Empty(), Setup(), [a]);
    RunOne(Ready(), a);
    RunJoins(Empty(), Setup() + [a], [b]);
    RunOne(mid, b);
  }

  lemma {:induction false} ProperSetup(a: Op, b: Op)
    requires Allowed(Wires(), a) && Allowed(Wires(), b)
    ensures Proper(Empty(), After2(a, b))
  {
  }

  lemma {:induction false} LessThanNothing()
    ensures TENTH - UNPAID == -700_001_800_000_000_000
  {
  }

  lemma {:induction false} LiquidatedLong(s: System, op: Op) returns (t: System)
    requires s == LongOpen() && op == SystemRuns.Liquidate(At(HALF, 0), KEEPER, ALICE, 1)
    ensures Step(s, op) == t
    ensures t.desk.funds.slp.totalShares == TENTH && t.desk.funds.slp.totalAssets == -700_001_800_000_000_000
  {
    LessThanNothing();
    var d := LongLiquidated(s.desk, s.risk, op.e);
    t := s.(desk := d);
    OnLiquidationAccepted(s, op.e, op.keeper, op.user, op.id, d, s.risk,
                          Liquidation.Liquidate(s.desk, s.risk, op.e, op.keeper, op.user, op.id));
    LiquidateStep(s, op, t);
  }

  lemma {:induction false} OpenedLong(open_: Op) returns (s: System)
    requires open_ == OpenLong()
    ensures Step(Ready(), open_) == s == LongOpen()
  {
    s := LongOpen();
    LongOpens();
    OpenStep(Ready(), open_, s);
  }

  /** From an empty deployment six calls take the SLP's assets below zero with shares outstanding: a market, three
      deposits, a long, and its liquidation at half the price. */
  lemma {:induction false} LiquidationSinksSlp(open_: Op, liquidate: Op) returns (t: System)
    requires open_ == OpenLong() && liquidate == SystemRuns.Liquidate(At(HALF, 0), KEEPER, ALICE, 1)
    ensures Proper(Empty(), After2(open_, liquidate)) && t == Run(Empty(), After2(open_, liquidate))
    ensures t.desk.funds.slp.totalShares == TENTH && t.desk.funds.slp.totalAssets == -700_001_800_000_000_000
  {
    var s := OpenedLong(open_);
    t := LiquidatedLong(s, liquidate);
    SixCalls(open_, s, liquidate, t);
    ProperSetup(open_, liquidate);
  }

  // ----- funding rises: a partial close drops the debt -----

  /** Ten of two times 10^18 units, the least that frees any margin here. */
  const SLIVER: int := 10

  function ClosesSliver(): Op { ClosePart(At(PRECISION, TENTH), ALICE, 1, SLIVER) }

  const REBATE: int := 1_000_000_000_000_000

  lemma {:induction false} TenBps()
    ensures ApplyBps(PRECISION, 10) == Some(REBATE)
  {
    DivUnique(PRECISION * 10, BPS_DENOMINATOR, REBATE);
  }

  lemma {:induction false} SliverTerms(e: Env, b: MarketBook)
    requires e == At(PRECISION, TENTH) && b == Book(2 * PRECISION, 2 * PRECISION, 0)
    ensures CloseTerms(e, Long(), b, SLIVER, PRECISION) == Ok((-1, 0))
    ensures ReleasedMargin(Long(), SLIVER) == Some(1)
  {
    TenBps();
    assert ExecutionPrice(PRECISION, b.skew, SLIVER, false) == Some(PRECISION + REBATE);
    assert FundingPnl(0, TENTH, SLIVER) == Some(-1) by { WholeProduct(TENTH, SLIVER, 1); }
    assert TradePnl(true, SLIVER, Long().entry, PRECISION + REBATE) == Some(0) by {
      DivUnique(SLIVER * (REBATE - MICRO), PRECISION, 0);
    }
    assert Notional(SLIVER, PRECISION + REBATE)
        == Some(10) by { DivUnique(SLIVER * (PRECISION + REBATE), PRECISION, 10); }
    NoFee(10);
    DivUnique(Long().margin * SLIVER, 2 * PRECISION, 1);
  }

  lemma {:induction false} SliverSettled(f: Funds) returns (g: Funds)
    requires f == LongOpen().desk.funds
    ensures SettleClose(f, Wires(), ALICE, 1, 1, -1, 0) == Ok(g)
    ensures SettlementBalance(g, Wires(), ALICE) == TEN - 1
  {
    var unlocked := Unlock(f, PERP, ALICE, 1, 1);
    assert unlocked.Ok? && unlocked.value.slp == f.slp && unlocked.value.vault.balances == Balances();
    assert LossTaken(1, -1, 0) == Ok(1);
    g := SliverPaid(unlocked.value);
  }

  lemma {:induction false} SliverPaid(f: Funds) returns (g: Funds)
    requires f.slp == FundedSlp() && f.vault.balances == Balances() && f.vault.cfg == VaultConf()
    ensures PaySlpIfPositive(f, Wires(), PERP, ALICE, 1) == Ok(g)
    ensures SettlementBalance(g, Wires(), ALICE) == TEN - 1
  {
    g := PaySlp(f, Wires(), PERP, ALICE, 1).value;
  }

  lemma {:induction false} SliverLeft(e: Env) returns (rest: Position)
    requires e == At(PRECISION, TENTH)
    ensures Remainder(Long(), e, SLIVER, 1, PRECISION) == Ok(rest)
    ensures rest.fundingIdx == TENTH && rest.size == 2 * PRECISION - SLIVER
  {
    var size, margin := 2 * PRECISION - SLIVER, Long().margin - 1;
    WholeProduct(size, PRECISION, size);
    assert DivPrecision(size, margin).Some? && 0 <= DivPrecision(size, margin).value <= 10 * PRECISION by {
      QuotientBelow(size * PRECISION, margin, 0);
      QuotientAbove(size * PRECISION, margin, 10 * PRECISION);
    }
    rest := Remainder(Long(), e, SLIVER, 1, PRECISION).value;
  }

  lemma {:induction false} SliverCloses(d: Desk, e: Env) returns (d': Desk)
    requires d == LongOpen().desk && e == At(PRECISION, TENTH)
    ensures PartialClose(d, e, ALICE, 1, SLIVER) == Ok(d')
    ensures 1 in d'.perp.positions && d'.perp.positions[1].fundingIdx == TENTH
    ensures d'.perp.positions[1].size == 2 * PRECISION - SLIVER
    ensures SettlementBalance(d'.funds, Wires(), ALICE) == TEN - 1
  {
    var b := d.perp.markets[1];
    SliverTerms(e, b);
    var g := SliverSettled(d.funds);
    var rest := SliverLeft(e);
    var left := BookWithout(b, true, SLIVER);
    assert left.Ok?;
    d' := d.(funds := g, perp := SetPosition(SetBook(d.perp, 1, left.value), 1, rest));
  }

  lemma {:induction false} PartStep(s: System, op: Op, d: Desk)
    requires op.ClosePart? && PartialClose(s.desk, op.e, op.user, op.id, op.size) == Ok(d)
    ensures Step(s, op) == s.(desk := d)
  {
  }

  lemma {:induction false} ClosedSliver(s: System, op: Op) returns (t: System)
    requires s == LongOpen() && op == ClosesSliver()
    ensures Step(s, op) == t
    ensures 1 in t.desk.perp.positions && t.desk.perp.positions[1].fundingIdx == TENTH
    ensures t.desk.perp.positions[1].size == 2 * PRECISION - SLIVER
    ensures SettlementBalance(t.desk.funds, Wires(), ALICE) == TEN - 1
  {
    var d := SliverCloses(s.desk, op.e);
    PartStep(s, op, d);
    t := s.(desk := d);
  }

  lemma {:induction false} LongInDebt(d: Desk)
    requires d == LongOpen().desk
    ensures 1 in d.perp.positions && d.perp.positions[1].size == 2 * PRECISION
    ensures Owed(d.perp.positions[1].fundingIdx, TENTH, 2 * PRECISION) == -2 * TENTH
    ensures SettlementBalance(d.funds, Wires(), ALICE) == TEN
  {
    WholeProduct(TENTH, 2 * PRECISION, 2 * TENTH);
  }

  lemma {:induction false} FiveCalls(a: Op, s: System)
    requires Step(Ready(), a) == s
    ensures Run(Empty(), Setup() + [a]) == s
  {
    SetupReaches();
    RunJoins(Empty(), Setup(), [a]);
    RunOne(Ready(), a);
  }

  /** From an empty deployment: a long of two owes two tenths of funding, closes ten units of 10^-18, pays one such unit
      and owes nothing on the rest. */
  lemma {:induction false} PartialCloseWipesDebt(open_: Op, part: Op) returns (s: System, t: System)
    requires open_ == OpenLong() && part == ClosesSliver()
    ensures Proper(Empty(), After2(open_, part)) && s == Run(Empty(), Setup() + [open_])
        && t == Run(Empty(), After2(open_, part))
    ensures 1 in s.desk.perp.positions && 1 in t.desk.perp.positions
    ensures var was, rest := s.desk.perp.positions[1], t.desk.perp.positions[1];
            && Owed(was.fundingIdx, TENTH, was.size) == -2 * TENTH
            && rest.size == was.size - SLIVER && Owed(rest.fundingIdx, TENTH, rest.size) == 0
    ensures SettlementBalance(t.desk.funds, Wires(), ALICE) == SettlementBalance(s.desk.funds, Wires(), ALICE) - 1
  {
    s := OpenedLong(open_);
    FiveCalls(open_, s);
    t := ClosedSliver(s, part);
    SixCalls(open_, s, part, t);
    ProperSetup(open_, part);
    LongInDebt(s.desk);
    NothingOwed(TENTH, 2 * PRECISION - SLIVER);
  }

  // ----- a rebate pays a round trip -----

  function OpenShort(): Op { Open(At(PRECISION, 0), BOB, 1, 2 * TEN, false, 10, 100) }

  /** Twenty units sold ten millionths below the price. */
  function Short(): Position {
    Position(BOB, 1, 2 * TEN, PRECISION - 10 * MICRO, 2 * PRECISION - 20 * MICRO, 10, false, 0)
  }

  function ShortOpen(): System {
    var s := Ready();
    var books := PerpState(false, map[1 := Book(-2 * TEN, 0, 2 * TEN)], map[1 := Short()], map[BOB := [1]],
                           map[1 := [1]], 2, map[], 1);
    s.(desk := Desk(Wires(), Locked(s.desk.funds, BOB, 1, Short().margin), books))
  }

  lemma {:induction false} ShortOpens()
    ensures Perform(Ready(), OpenShort()) == Some((ShortOpen(), None))
  {
    var d, e, size := Ready().desk, At(PRECISION, 0), 2 * TEN;
    var exec, notional := PRECISION - 10 * MICRO, 20 * PRECISION - 200 * MICRO;
    FeeInMillionths(-TEN, 10);
    WholeProduct(size, PRECISION, size);
    WholeProduct(size, exec, notional);
    assert ExecutionPrice(PRECISION, SkewState(0, 1_000_000 * PRECISION, 10), size, false) == Some(exec);
    assert SlippageBps(exec, PRECISION) == Some(0);
    assert Short().margin == TruncDiv(notional, 10);
    OpenAccepted(d, e, BOB, size, false, exec, notional, Short().margin, 0, Book(-size, 0, size));
    ShortStored(size);
  }

  lemma {:induction false} ShortStored(size: i128)
    requires size == 2 * TEN
    ensures AddPosition(SetBook(Ready().desk.perp, 1, Book(-size, 0, size)), Short()) == Ok(ShortOpen().desk.perp)
  {
    var p, r := Ready().desk.perp, ShortOpen().desk.perp;
    assert p.markets[1 := Book(-size, 0, size)] == r.markets;
    assert p.positions[1 := Short()] == r.positions;
    var none: seq<u64> := [];
    assert none + [1] == [1];
    assert p.userIds[BOB := [1]] == r.userIds && p.marketIds[1 := [1]] == r.marketIds;
  }

  /** Two units bought with the rebate: ten basis points under the price. */
  function Cheap(): Position {
    Position(ALICE, 1, 2 * PRECISION, PRECISION - REBATE, (2 * PRECISION - 2 * REBATE) / 10, 10, true, 0)
  }

  function CheapBook(): MarketBook { Book(2 * PRECISION - 2 * TEN, 2 * PRECISION, 2 * TEN) }

  lemma {:induction false} CheapOpens(d: Desk, e: Env) returns (d': Desk)
    requires d == ShortOpen().desk && e == At(PRECISION, 0)
    ensures OpenPosition(d, e, ALICE, 1, 2 * PRECISION, true, 10, 100) == Ok(d')
    ensures d'.funds == Locked(d.funds, ALICE, 2, Cheap().margin) && d'.w == d.w
    ensures AddPosition(SetBook(d.perp, 1, CheapBook()), Cheap()) == Ok(d'.perp)
  {
    var size := 2 * PRECISION;
    var exec, notional := PRECISION - REBATE, size - 2 * REBATE;
    TenBps();
    WholeProduct(size, PRECISION, size);
    WholeProduct(size, exec, notional);
    assert ExecutionPrice(PRECISION, d.perp.markets[1].skew, size, true) == Some(exec);
    assert SlippageBps(exec, PRECISION) == Some(10);
    assert Cheap().margin == TruncDiv(notional, 10);
    OpenAccepted(d, e, ALICE, size, true, exec, notional, Cheap().margin, 10, CheapBook());
    d' := OpenPosition(d, e, ALICE, 1, size, true, 10, 100).value;
  }

  /** The profit of the round trip: twice the rebate less the fee at a mid skew of nineteen. */
  const GAIN: int := 2 * (REBATE - 19 * MICRO)

  lemma {:induction false} CheapTerms(e: Env)
    requires e == At(PRECISION, 0)
    ensures CloseTerms(e, Cheap(), CheapBook(), 2 * PRECISION, PRECISION) == Ok((GAIN, 0))
  {
    var size, exit := 2 * PRECISION, PRECISION - 19 * MICRO;
    FeeInMillionths(-19 * PRECISION, 19);
    assert ExecutionPrice(PRECISION, CheapBook().skew, size, false) == Some(exit);
    NoFunding(size);
    WholeProduct(size, exit - Cheap().entry, GAIN);
    WholeProduct(size, exit, 2 * exit);
    NoFee(2 * exit);
  }

  lemma {:induction false} CheapSettled(f: Funds) returns (g: Funds)
    requires f == Locked(ShortOpen().desk.funds, ALICE, 2, Cheap().margin)
    ensures SettleClose(f, Wires(), ALICE, 2, Cheap().margin, GAIN, 0) == Ok(g)
    ensures SettlementBalance(g, Wires(), ALICE) == TEN + GAIN
  {
    var unlocked := Unlock(f, PERP, ALICE, 2, Cheap().margin);
    assert unlocked.Ok? && unlocked.value.slp == f.slp && unlocked.value.vault.balances == Balances();
    g := GainDrawn(unlocked.value);
  }

  lemma {:induction false} GainDrawn(f: Funds) returns (g: Funds)
    requires f.slp == FundedSlp() && f.vault.balances == Balances() && f.vault.cfg == VaultConf()
    ensures DrawProfit(f, Wires(), PERP, ALICE, GAIN) == Ok(g)
    ensures SettlementBalance(g, Wires(), ALICE) == TEN + GAIN
  {
    g := DrawProfit(f, Wires(), PERP, ALICE, GAIN).value;
  }

  lemma {:induction false} CheapCloses(d: Desk, e: Env) returns (d': Desk)
    requires d.w == Wires() && d.funds == Locked(ShortOpen().desk.funds, ALICE, 2, Cheap().margin)
    requires AddPosition(SetBook(ShortOpen().desk.perp, 1, CheapBook()), Cheap()) == Ok(d.perp) && e == At(PRECISION, 0)
    ensures ClosePosition(d, e, ALICE, 2) == Ok(d')
    ensures SettlementBalance(d'.funds, Wires(), ALICE) == TEN + GAIN
  {
    CheapTerms(e);
    var g := CheapSettled(d.funds);
    var left := BookWithout(CheapBook(), true, 2 * PRECISION);
    assert left.Ok?;
    assert d.perp.positions[2] == Cheap() && d.perp.markets[1] == CheapBook();
    d' := d.(funds := g, perp := RemovePosition(SetBook(d.perp, 1, left.value), 2, false));
  }

  lemma {:induction false} DeskStep(s: System, op: Op, d: Desk)
    requires op.Open? || op.Close?
    requires op.Open? ==>
               OpenPosition(s.desk, op.e, op.user, op.market, op.size, op.isLong, op.leverage, op.maxSlippageBps)
                   == Ok(d)
    requires op.Close? ==> ClosePosition(s.desk, op.e, op.user, op.id) == Ok(d)
    ensures Step(s, op) == s.(desk := d)
  {
  }

  lemma {:induction false} CheapRoundTrip(s: System, buy: Op, sell: Op) returns (mid: System, t: System)
    requires s == ShortOpen() && buy == Open(At(PRECISION, 0), ALICE, 1, 2 * PRECISION, true, 10, 100)
    requires sell == Close(At(PRECISION, 0), ALICE, 2)
    ensures mid == Step(s, buy) && t == Step(mid, sell)
    ensures SettlementBalance(s.desk.funds, Wires(), ALICE) == TEN
    ensures SettlementBalance(t.desk.funds, Wires(), ALICE) == TEN + GAIN
  {
    var d := CheapOpens(s.desk, buy.e);
    mid := s.(desk := d);
    DeskStep(s, buy, d);
    var d' := CheapCloses(d, sell.e);
    t := mid.(desk := d');
    DeskStep(mid, sell, d');
  }

  lemma {:induction false} OpenedShort(open_: Op) returns (s: System)
    requires open_ == OpenShort()
    ensures Step(Ready(), open_) == s == ShortOpen()
  {
    s := ShortOpen();
    ShortOpens();
    OpenStep(Ready(), open_, s);
  }

  lemma {:induction false} SevenCalls(a: Op, s: System, buy: Op, mid: System, sell: Op, t: System)
    requires Step(Ready(), a) == s && Step(s, buy) == mid && Step(mid, sell) == t
    ensures Run(Empty(), Setup() + [a] + [buy] + [sell]) == t
  {
    SixCalls(a, s, buy, mid);
    RunJoins(Empty(), Setup() + [a] + [buy], [sell]);
    RunOne(mid, sell);
  }

  lemma {:induction false} ProperTrades(a: Op, b: Op, c: Op)
    requires Allowed(Wires(), a) && Allowed(Wires(), b) && Allowed(Wires(), c)
    ensures Proper(Empty(), Setup() + [a] + [b] + [c])
  {
    ProperSetup(a, b);
  }

  /** From an empty deployment: against a short of twenty, buying two units for the rebate and at once selling them at
      the same oracle price leaves the buyer with more. */
  lemma {:induction false} RebatePaysRoundTrip(short: Op, buy: Op, sell: Op) returns (s: System, t: System)
    requires short == OpenShort() && buy == Open(At(PRECISION, 0), ALICE, 1, 2 * PRECISION, true, 10, 100)
    requires sell == Close(At(PRECISION, 0), ALICE, 2)
    ensures Proper(Empty(), Setup() + [short] + [buy] + [sell])
    ensures s == Run(Empty(), Setup() + [short]) && t == Run(Empty(), Setup() + [short] + [buy] + [sell])
    ensures SettlementBalance(t.desk.funds, Wires(), ALICE)
         == SettlementBalance(s.desk.funds, Wires(), ALICE) + 1_962_000_000_000_000
  {
    s := OpenedShort(short);
    FiveCalls(short, s);
    var mid;
    mid, t := CheapRoundTrip(s, buy, sell);
    SevenCalls(short, s, buy, mid, sell, t);
    ProperTrades(short, buy, sell);
  }
}
