/** The whole trading ledger as one state machine: engine, collateral vault, liquidity vault, order book and risk
    engine, in any interleaving of their entry points. */
module SystemRuns {
  import opened Int128
  import opened Host
  import opened FixedPoint
  import opened MapSums
  import opened PerpBooks
  import opened Trading
  import opened FundsLemmas
  import opened DeskInvariants
  import opened DeskCloses
  import opened LiquidationInvariants
  import Clob
  import Liquidation
  import SlpVault
  import SlpShares
  import Vault
  import VaultRuns

  datatype System = System(desk: Desk, clob: Clob.ClobState, risk: Liquidation.RiskState)

  datatype Op =
    | Open(e: Env, user: Address, market: u32, size: i128, isLong: bool, leverage: u32, maxSlippageBps: u32)
    | Close(e: Env, user: Address, id: u64)
    | MoreMargin(e: Env, user: Address, id: u64, amount: i128)
    | LessMargin(e: Env, user: Address, id: u64, amount: i128)
    | ClosePart(e: Env, user: Address, id: u64, size: i128)
    | Order(e: Env, user: Address, market: u32, size: i128, isLong: bool, leverage: u32, maxSlippageBps: u32,
            kind: OrderType, expiryOffset: u32)
    | Unorder(user: Address, id: u64)
    | Execute(e: Env, id: u64)
    | Place(limit: Clob.LimitOrder, now: u64)
    | Unplace(caller: Address, id: u64)
    | Match(e: Env, caller: Address, buyId: u64, sellId: u64)
    | Liquidate(e: Env, keeper: Address, user: Address, id: u64)
    | PayFunding(e: Env, id: u64)
    | SlpDeposit(e: Env, user: Address, native: i128, held: Option<i128>, calls: bool)
    | SlpSeed(caller: Address, native: i128, held: Option<i128>, calls: bool)
    | SlpWithdraw(e: Env, user: Address, shares: i128, openInterest: i128, riskLocked: i128, calls: bool)
    | SlpSweep(caller: Address, native: i128)
    | SlpShare(share: SlpShares.SlpOp)
    | InVault(vaultOp: VaultRuns.VaultOp)
    | Register(market: u32, info: MarketInfo, scale: i128, rebateBps: u32)
    | SetCaps(market: u32, maxOiLong: i128, maxOiShort: i128)
    | Pause(engine: bool, risk: bool)

  /** Share transfers and allowances. */
  predicate SharesOnly(op: SlpShares.SlpOp) { op.DoTransfer? || op.DoApprove? || op.DoTransferFrom? }

  function OnDesk(s: System, r: DeskResult): Option<(System, Liquidation.Taken)> {
    if r.Ok? then Some((s.(desk := r.value), None)) else None
  }

  function OnShares(s: System, op: SlpShares.SlpOp): Option<(System, Liquidation.Taken)> {
    var r := SlpShares.Effect(s.desk.funds.slp, op);
    if SharesOnly(op) && r.Ok? then Some((s.(desk := s.desk.(funds := s.desk.funds.(slp := r.value))), None)) else None
  }

  function OnVault(s: System, op: VaultRuns.VaultOp): Option<(System, Liquidation.Taken)> {
    var r := VaultRuns.Effect(s.desk.funds.vault, op);
    if r.Ok? then Some((s.(desk := s.desk.(funds := s.desk.funds.(vault := r.value))), None)) else None
  }

  function OnPerp(s: System, r: PerpResult): Option<(System, Liquidation.Taken)> {
    if r.Ok? then Some((s.(desk := s.desk.(perp := r.value)), None)) else None
  }

  function OnClob(s: System, r: Result<Clob.ClobState, Clob.ClobError>): Option<(System, Liquidation.Taken)> {
    if r.Ok? then Some((s.(clob := r.value), None)) else None
  }

  function OnMatch(s: System, e: Env, caller: Address, buyId: u64, sellId: u64): Option<(System, Liquidation.Taken)> {
    var r := Clob.SettleMatched(s.clob, s.desk, e, caller, buyId, sellId);
    if r.Ok? then Some((s.(clob := r.value.0, desk := r.value.1), None)) else None
  }

  function OnLiquidation(
    s: System, e: Env, keeper: Address, user: Address, id: u64): Option<(System, Liquidation.Taken)> {
    var r := Liquidation.Liquidate(s.desk, s.risk, e, keeper, user, id);
    if r.Ok? then Some((s.(desk := r.value.0, risk := r.value.1), r.value.2)) else None
  }

  /** An accepted call's new state, and what it deleveraged; nothing when the call fails. */
  function Perform(s: System, op: Op): Option<(System, Liquidation.Taken)> {
    match op
    case Open(e, user, m, size, isLong, leverage, slip) =>
      OnDesk(s, OpenPosition(s.desk, e, user, m, size, isLong, leverage, slip))
    case Close(e, user, id) => OnDesk(s, ClosePosition(s.desk, e, user, id))
    case MoreMargin(e, user, id, amount) => OnDesk(s, AddMargin(s.desk, e, user, id, amount))
    case LessMargin(e, user, id, amount) => OnDesk(s, RemoveMargin(s.desk, e, user, id, amount))
    case ClosePart(e, user, id, size) => OnDesk(s, PartialClose(s.desk, e, user, id, size))
    case Order(e, user, m, size, isLong, leverage, slip, kind, offset) =>
      OnDesk(s, CreateOrder(s.desk, e, user, m, size, isLong, leverage, slip, kind, offset))
    case Unorder(user, id) => OnDesk(s, CancelOrder(s.desk, user, id))
    case Execute(e, id) => OnDesk(s, ExecuteOrder(s.desk, e, id))
    case Place(limit, now) => OnClob(s, Clob.PlaceOrder(s.clob, limit, now))
    case Unplace(caller, id) => OnClob(s, Clob.CancelLimit(s.clob, caller, id))
    case Match(e, caller, buyId, sellId) => OnMatch(s, e, caller, buyId, sellId)
    case Liquidate(e, keeper, user, id) => OnLiquidation(s, e, keeper, user, id)
    case PayFunding(e, id) => OnDesk(s, SettleFunding(s.desk, e, id))
    case SlpDeposit(e, user, native, held, calls) => OnDesk(s, DepositSlp(s.desk, e, user, native, held, calls))
    case SlpSeed(caller, native, held, calls) => OnDesk(s, SeedSlp(s.desk, caller, native, held, calls))
    case SlpWithdraw(e, user, shares, oi, locked, calls) =>
        OnDesk(s, WithdrawSlp(s.desk, e, user, shares, oi, locked, calls))
    case SlpSweep(caller, native) => OnDesk(s, SweepSlp(s.desk, caller, native))
    case SlpShare(op) => OnShares(s, op)
    case InVault(op) => OnVault(s, op)
    case Register(m, info, scale, rebate) => OnPerp(s, RegisterMarket(s.desk.perp, m, info, scale, rebate))
    case SetCaps(m, long, short) => OnPerp(s, SetOiCaps(s.desk.perp, m, long, short))
    case Pause(engine, risk) =>
      Some((s.(desk := s.desk.(perp := s.desk.perp.(paused := engine)), risk := s.risk.(paused := risk)), None))
  }

  function Step(s: System, op: Op): System { if Perform(s, op).Some? then Perform(s, op).value.0 else s }

  function Run(s: System, ops: seq<Op>): System
    decreases |ops|
  {
    if ops == [] then s else Run(Step(s, ops[0]), ops[1..])
  }

  /** What a step deleveraged. */
  function TakenBy(s: System, op: Op): Liquidation.Taken {
    if Perform(s, op).Some? then Perform(s, op).value.1 else None
  }

  /** Whether any step of a run deleveraged a winner. */
  function Deleverages(s: System, ops: seq<Op>): bool
    decreases |ops|
  {
    ops != [] && (TakenBy(s, ops[0]).Some? || Deleverages(Step(s, ops[0]), ops[1..]))
  }

  /** For every position the margin that deleveraging took out of it over a run, on top of a given surplus. */
  function SurplusAfter(s: System, ops: seq<Op>, surplus: Surplus): Surplus
    decreases |ops|
  {
    if ops == [] then surplus
    else SurplusAfter(Step(s, ops[0]), ops[1..], Raised(surplus, TakenBy(s, ops[0])))
  }

  lemma {:induction false} NoSurplusWithoutDeleveraging(s: System, ops: seq<Op>, surplus: Surplus)
    ensures !Deleverages(s, ops) ==> SurplusAfter(s, ops, surplus) == surplus
    decreases |ops|
  {
    if ops != [] {
      NoSurplusWithoutDeleveraging(Step(s, ops[0]), ops[1..], Raised(surplus, TakenBy(s, ops[0])));
    }
  }

  // ----- the assumptions -----

  /** A call into the vault that neither takes from the SLP's account nor touches the engine's locks. */
  predicate VaultCallAllowed(w: Wiring, op: VaultRuns.VaultOp) {
    match op
    case DoWithdraw(user, _, _, _, _) => user != w.slp
    case DoDebit(_, user, _, _) => user != w.slp
    case DoTransferMargin(_, user, _, _) => user != w.slp
    case DoMove(_, source, _, _, _) => source != w.slp
    case DoSwap(_, a, b, _, _, _, _) => a != w.slp && b != w.slp
    case DoLock(_, _, _, _, _) => false
    case DoUnlock(_, _, _, _) => false
    case _ => true
  }

  /** The SLP does not trade, and only the engine and the risk engine use the cross-margin locks. */
  predicate Allowed(w: Wiring, op: Op) {
    match op
    case Open(_, user, _, _, _, _, _) => user != w.slp
    case Order(_, user, _, _, _, _, _, _, _) => user != w.slp
    case Place(limit, _) => limit.trader != w.slp
    case InVault(v) => VaultCallAllowed(w, v)
    case _ => true
  }

  /** The SLP's account is none of the treasury, the insurance fund and the funding pool, and the settlement token has
      seven decimals. */
  predicate WellWired(s: System) {
    && s.desk.w.slp != s.desk.w.treasury && s.desk.w.slp != s.desk.w.fundingPool
    && s.desk.w.slp != s.desk.funds.vault.cfg.treasury && s.desk.w.slp != s.desk.funds.vault.cfg.insurance
    && SevenDecimals(s.desk)
  }

  // ----- the invariant -----

  ghost predicate Inv(s: System, surplus: Surplus) {
    && WellWired(s) && DeskSound(s.desk, surplus) && Clob.ClobSound(s.clob)
    && forall id :: id in s.clob.orders ==> s.clob.orders[id].trader != s.desk.w.slp
  }

  ghost predicate StepKept(s: System, s': System, surplus: Surplus) {
    Inv(s', surplus) && s'.desk.w == s.desk.w && Slack(s'.desk.funds, s.desk.w) >= Slack(s.desk.funds, s.desk.w)
  }

  lemma {:induction false} DeskStepKept(s: System, s': System, surplus: Surplus, surplus': Surplus)
    requires Inv(s, surplus) && Kept(s.desk, s'.desk, surplus') && s'.clob == s.clob
    ensures StepKept(s, s', surplus')
  {
  }

  /** The engine's own entry points. */
  predicate IsTrade(op: Op) {
    op.Open? || op.Close? || op.MoreMargin? || op.LessMargin? || op.ClosePart? || op.Order? || op.Unorder?
        || op.Execute?
  }

  lemma {:induction false} TradeKept(s: System, op: Op, s': System, surplus: Surplus)
    requires IsTrade(op) && Inv(s, surplus) && Allowed(s.desk.w, op) && Perform(s, op) == Some((s', None))
    ensures Kept(s.desk, s'.desk, surplus) && s'.clob == s.clob
  {
    match op
    case Open(e, user, m, size, isLong, leverage, slip) =>
      OpenKept(s.desk, e, user, m, size, isLong, leverage, slip, s'.desk, surplus);
    case Close(e, user, id) => CloseKept(s.desk, e, user, id, s'.desk, surplus);
    case MoreMargin(e, user, id, amount) => AddMarginKept(s.desk, e, user, id, amount, s'.desk, surplus);
    case LessMargin(e, user, id, amount) => RemoveMarginKept(s.desk, e, user, id, amount, s'.desk, surplus);
    case ClosePart(e, user, id, size) => PartialKept(s.desk, e, user, id, size, s'.desk, surplus);
    case Order(e, user, m, size, isLong, leverage, slip, kind, offset) =>
      CreateOrderKept(s.desk, e, user, m, size, isLong, leverage, slip, kind, offset, s'.desk, surplus);
    case Unorder(user, id) => CancelOrderKept(s.desk, user, id, s'.desk, surplus);
    case Execute(e, id) => ExecuteOrderKept(s.desk, e, id, s'.desk, surplus);
    case _ =>
  }

  predicate IsLiquidity(op: Op) { op.PayFunding? || op.SlpDeposit? || op.SlpSeed? || op.SlpWithdraw? || op.SlpSweep? }

  lemma {:induction false} LiquidityKept(s: System, op: Op, s': System, surplus: Surplus)
    requires IsLiquidity(op) && Inv(s, surplus) && Perform(s, op) == Some((s', None))
    ensures Kept(s.desk, s'.desk, surplus) && s'.clob == s.clob
  {
    match op
    case PayFunding(e, id) => FundingKept(s.desk, e, id, s'.desk, surplus);
    case SlpDeposit(e, user, native, held, calls) =>
        DepositSlpKept(s.desk, e, user, native, held, calls, s'.desk, surplus);
    case SlpSeed(caller, native, held, calls) => SeedSlpKept(s.desk, caller, native, held, calls, s'.desk, surplus);
    case SlpWithdraw(e, user, shares, oi, locked, calls) =>
      WithdrawSlpKept(s.desk, e, user, shares, oi, locked, calls, s'.desk, surplus);
    case SlpSweep(caller, native) => SweepSlpKept(s.desk, caller, native, s'.desk, surplus);
    case _ =>
  }

  /** Share transfers move no assets. */
  lemma {:induction false} SharesKept(s: System, op: SlpShares.SlpOp, s': System, surplus: Surplus)
    requires Inv(s, surplus) && OnShares(s, op) == Some((s', None))
    ensures Kept(s.desk, s'.desk, surplus) && s'.clob == s.clob
  {
    SharesLeaveAssets(s.desk.funds.slp, op, s'.desk.funds.slp);
    MoneyKept(s.desk, s'.desk, surplus);
  }

  lemma {:induction false} SharesLeaveAssets(slp: SlpVault.SlpState, op: SlpShares.SlpOp, r: SlpVault.SlpState)
    requires SharesOnly(op) && SlpShares.Effect(slp, op) == Ok(r)
    ensures r.totalAssets == slp.totalAssets && r.cfg == slp.cfg
  {
  }

  // ----- vault calls -----

  lemma {:induction false} AddedBalance(
    v: Vault.VaultState, user: Address, token: Address, delta: int, r: Vault.VaultState, key: (Address, Address))
    requires Vault.AddBalance(v, user, token, delta) == Ok(r)
    ensures r.locked == v.locked && r.cfg == v.cfg
    ensures key != (user, token) || delta >= 0 ==> Get(r.balances, key) >= Get(v.balances, key)
  {
  }

  lemma {:induction false} TakenBalance(
    v: Vault.VaultState, a: Address, b: Address, token: Address, amount: int, r: Vault.VaultState,
    key: (Address, Address))
    requires Vault.TakeMargin(v, a, b, token, amount) == Ok(r) && amount >= 0 && key.0 != a
    ensures r.locked == v.locked && r.cfg == v.cfg && Get(r.balances, key) >= Get(v.balances, key)
  {
    var mid := Vault.AddBalance(v, a, token, -amount).value;
    AddedBalance(v, a, token, -amount, mid, key);
    AddedBalance(mid, b, token, amount, r, key);
  }

  predicate NotTaken(v: Vault.VaultState, r: Vault.VaultState, key: (Address, Address)) {
    r.locked == v.locked && r.cfg == v.cfg && Get(r.balances, key) >= Get(v.balances, key)
  }

  lemma {:induction false} InflowNotNegative(
    c: Vault.VaultConfig, token: Address, amount: i128, held: Option<i128>, internal: i128)
    requires amount > 0 && Vault.Inflow(c, token, amount, held) == Ok(internal)
    ensures internal >= 0
  {
    var info := c.tokens[token];
    if info.decimals < 18 {
      MulMonotone(0, 0, amount, Pow10(18 - info.decimals));
    } else if info.decimals > 18 {
      QuotientBelow(amount, Pow10(info.decimals - 18), 0);
    }
  }

  lemma {:induction false} DepositNotTaken(
    v: Vault.VaultState, user: Address, token: Address, amount: i128, held: Option<i128>, calls: bool,
    r: Vault.VaultState, key: (Address, Address))
    requires Vault.Deposit(v, user, token, amount, held, calls) == Ok(r)
    ensures NotTaken(v, r, key)
  {
    var internal := Vault.Inflow(v.cfg, token, amount, held).value;
    InflowNotNegative(v.cfg, token, amount, held, internal);
    AddedBalance(v, user, token, internal, r, key);
  }

  lemma {:induction false} TransferMarginNotTaken(
    v: Vault.VaultState, caller: Address, user: Address, toInsurance: bool, amount: i128, r: Vault.VaultState,
    key: (Address, Address))
    requires Vault.TransferMargin(v, caller, user, toInsurance, amount) == Ok(r)
    requires key.0 != user && key.0 != v.cfg.insurance && key.0 != v.cfg.treasury
    ensures NotTaken(v, r, key)
  {
    var token := Vault.FirstHeld(v, user, 0);
    if token.Some? {
      var recipient := if toInsurance then v.cfg.insurance else v.cfg.treasury;
      var taken := Min(Get(v.balances, (user, token.value)), amount);
      PassedBy(v, user, recipient, token.value, taken, Vault.TakeMargin(v, user, recipient, token.value, taken).value,
          key);
    }
  }

  lemma {:induction false} PassedBy(
    v: Vault.VaultState, a: Address, b: Address, token: Address, amount: int, r: Vault.VaultState,
    key: (Address, Address))
    requires Vault.TakeMargin(v, a, b, token, amount) == Ok(r) && key.0 != a && key.0 != b
    ensures NotTaken(v, r, key)
  {
    var mid := Vault.AddBalance(v, a, token, -amount).value;
    AddedBalance(v, a, token, -amount, mid, key);
    AddedBalance(mid, b, token, amount, r, key);
  }

  lemma {:induction false} SwapNotTaken(
    v: Vault.VaultState, caller: Address, a: Address, b: Address, tokenA: Address, amountA: i128, tokenB: Address,
    amountB: i128, r: Vault.VaultState, key: (Address, Address))
    requires Vault.AtomicSwap(v, caller, a, b, tokenA, amountA, tokenB, amountB) == Ok(r) && key.0 != a && key.0 != b
    ensures NotTaken(v, r, key)
  {
    var mid := Vault.TakeMargin(v, a, b, tokenA, amountA).value;
    TakenBalance(v, a, b, tokenA, amountA, mid, key);
    TakenBalance(mid, b, a, tokenB, amountB, r, key);
  }

  lemma {:induction false} BalanceCallsNotTaken(
    v: Vault.VaultState, op: VaultRuns.VaultOp, r: Vault.VaultState, key: (Address, Address))
    requires op.DoDeposit? || op.DoSeed? || op.DoCredit? || op.DoMove?
    requires op.DoMove? ==> op.source != key.0
    requires VaultRuns.Effect(v, op) == Ok(r)
    ensures NotTaken(v, r, key)
  {
    match op
    case DoDeposit(user, token, amount, held, calls) => DepositNotTaken(v, user, token, amount, held, calls, r, key);
    case DoSeed(_, token, amount, held, calls) =>
        DepositNotTaken(v, v.cfg.treasury, token, amount, held, calls, r, key);
    case DoCredit(_, user, token, amount, held) => DepositNotTaken(v, user, token, amount, held, true, r, key);
    case DoMove(_, source, dest, token, amount) => TakenBalance(v, source, dest, token, amount, r, key);
    case _ =>
  }

  lemma {:induction false} PayoutsNotTaken(
    v: Vault.VaultState, op: VaultRuns.VaultOp, r: Vault.VaultState, key: (Address, Address))
    requires (op.DoWithdraw? || op.DoDebit?) && op.user != key.0 && VaultRuns.Effect(v, op) == Ok(r)
    ensures NotTaken(v, r, key)
  {
    var internal := PayoutEffect(v, op, r);
    AddedBalance(v, op.user, op.token, -internal, r, key);
  }

  lemma {:induction false} PayoutEffect(v: Vault.VaultState, op: VaultRuns.VaultOp, r: Vault.VaultState)
    returns (internal: int)
    requires (op.DoWithdraw? || op.DoDebit?) && VaultRuns.Effect(v, op) == Ok(r)
    ensures Vault.AddBalance(v, op.user, op.token, -internal) == Ok(r)
  {
    internal := Vault.Outflow(v.cfg, op.token, op.amount, Get(v.balances, (op.user, op.token))).value;
  }

  /** Sub-accounts and isolated buckets have their own books. */
  lemma {:induction false} OtherCallsNotTaken(
    v: Vault.VaultState, op: VaultRuns.VaultOp, r: Vault.VaultState, key: (Address, Address))
    requires op.DoDepositSub? || op.DoWithdrawSub? || op.DoTransferSubs? || op.DoLockIsolated? || op.DoUnlockIsolated?
          || op.DoRealizeIsolated?
    requires VaultRuns.Effect(v, op) == Ok(r)
    ensures NotTaken(v, r, key)
  {
  }

  lemma {:induction false} VaultCallNotTaken(w: Wiring, v: Vault.VaultState, op: VaultRuns.VaultOp, r: Vault.VaultState)
    requires VaultCallAllowed(w, op) && w.slp != v.cfg.insurance && w.slp != v.cfg.treasury
    requires VaultRuns.Effect(v, op) == Ok(r)
    ensures NotTaken(v, r, (w.slp, w.usdc))
  {
    match op
    case DoTransferMargin(caller, user, toInsurance, amount) =>
      TransferMarginNotTaken(v, caller, user, toInsurance, amount, r, (w.slp, w.usdc));
    case DoSwap(caller, a, b, tokenA, amountA, tokenB, amountB) =>
      SwapNotTaken(v, caller, a, b, tokenA, amountA, tokenB, amountB, r, (w.slp, w.usdc));
    case _ =>
      if op.DoDeposit? || op.DoSeed? || op.DoCredit? || op.DoMove? {
        BalanceCallsNotTaken(v, op, r, (w.slp, w.usdc));
      } else if op.DoWithdraw? || op.DoDebit? {
        PayoutsNotTaken(v, op, r, (w.slp, w.usdc));
      } else {
        OtherCallsNotTaken(v, op, r, (w.slp, w.usdc));
      }
  }

  lemma {:induction false} VaultKept(s: System, op: VaultRuns.VaultOp, s': System, surplus: Surplus)
    requires Inv(s, surplus) && VaultCallAllowed(s.desk.w, op) && OnVault(s, op) == Some((s', None))
    ensures Kept(s.desk, s'.desk, surplus) && s'.clob == s.clob
  {
    VaultCallNotTaken(s.desk.w, s.desk.funds.vault, op, s'.desk.funds.vault);
    MoneyKept(s.desk, s'.desk, surplus);
  }

  // ----- settings -----

  lemma {:induction false} RegisterKept(
    s: System, m: u32, info: MarketInfo, scale: i128, rebateBps: u32, s': System, surplus: Surplus)
    requires Inv(s, surplus) && OnPerp(s, RegisterMarket(s.desk.perp, m, info, scale, rebateBps)) == Some((s', None))
    ensures Kept(s.desk, s'.desk, surplus) && s'.clob == s.clob
  {
    RegisterKeepsBooks(s.desk.perp, m, info, scale, rebateBps, s'.desk.perp);
  }

  lemma {:induction false} CapsKept(s: System, m: u32, long: i128, short: i128, s': System, surplus: Surplus)
    requires Inv(s, surplus) && OnPerp(s, SetOiCaps(s.desk.perp, m, long, short)) == Some((s', None))
    ensures Kept(s.desk, s'.desk, surplus) && s'.clob == s.clob
  {
    BooksOnly(s.desk.perp, s'.desk.perp);
  }

  lemma {:induction false} PauseKept(s: System, engine: bool, risk: bool, surplus: Surplus)
    requires Inv(s, surplus)
    ensures Kept(s.desk, Step(s, Pause(engine, risk)).desk, surplus) && Step(s, Pause(engine, risk)).clob == s.clob
  {
    BooksOnly(s.desk.perp, s.desk.perp.(paused := engine));
  }

  // ----- the order book -----

  lemma {:induction false} MatchKept(
    s: System, e: Env, caller: Address, buyId: u64, sellId: u64, s': System, surplus: Surplus)
    requires Inv(s, surplus) && OnMatch(s, e, caller, buyId, sellId) == Some((s', None))
    ensures StepKept(s, s', surplus)
  {
    var m := Clob.SettleEffect(s.clob, s.desk, e, caller, buyId, sellId, s'.clob, s'.desk);
    Clob.MatchIsFair(s.clob, caller, buyId, sellId, e.now, m);
    Clob.SettleKeepsClob(s.clob, s.desk, e, caller, buyId, sellId, s'.clob, s'.desk);
    FillKept(s.desk, e, s.desk.w.clob, m.buy.trader, m.sell.trader, m.buy.market, m.size, m.price, m.buy.leverage,
             m.sell.leverage, s'.desk, surplus);
  }

  lemma {:induction false} ClobKept(s: System, op: Op, s': System, surplus: Surplus)
    requires (op.Place? || op.Unplace?) && Inv(s, surplus) && Allowed(s.desk.w, op)
        && Perform(s, op) == Some((s', None))
    ensures StepKept(s, s', surplus)
  {
    if op.Place? {
      Clob.PlaceKeepsClob(s.clob, op.limit, op.now);
    } else {
      Clob.CancelKeepsClob(s.clob, op.caller, op.id);
    }
  }

  // ----- runs -----

  lemma {:induction false} LiquidationStepKept(
    s: System, e: Env, keeper: Address, user: Address, id: u64, s': System, taken: Liquidation.Taken, surplus: Surplus)
    requires Inv(s, surplus) && OnLiquidation(s, e, keeper, user, id) == Some((s', taken))
    ensures StepKept(s, s', Raised(surplus, taken))
  {
    LiquidateKept(s.desk, s.risk, e, keeper, user, id, s'.desk, s'.risk, taken, surplus);
    DeskStepKept(s, s', surplus, Raised(surplus, taken));
  }

  lemma {:induction false} OnlyLiquidationsDeleverage(s: System, op: Op)
    requires Perform(s, op).Some? && !op.Liquidate?
    ensures Perform(s, op).value.1.None?
  {
  }

  lemma {:induction false} StepKeepsInv(s: System, op: Op, s': System, taken: Liquidation.Taken, surplus: Surplus)
    requires Inv(s, surplus) && Allowed(s.desk.w, op) && Perform(s, op) == Some((s', taken))
    ensures StepKept(s, s', Raised(surplus, taken))
  {
    if op.Liquidate? {
      LiquidationStepKept(s, op.e, op.keeper, op.user, op.id, s', taken, surplus);
    } else {
      OnlyLiquidationsDeleverage(s, op);
      PlainStepKept(s, op, s', surplus);
    }
  }

  lemma {:induction false} PlainStepKept(s: System, op: Op, s': System, surplus: Surplus)
    requires !op.Liquidate? && Inv(s, surplus) && Allowed(s.desk.w, op) && Perform(s, op) == Some((s', None))
    ensures StepKept(s, s', surplus)
  {
    if op.Match? {
      MatchKept(s, op.e, op.caller, op.buyId, op.sellId, s', surplus);
    } else if op.Place? || op.Unplace? {
      ClobKept(s, op, s', surplus);
    } else {
      DeskOpKept(s, op, s', surplus);
      DeskStepKept(s, s', surplus, surplus);
    }
  }

  lemma {:induction false} DeskOpKept(s: System, op: Op, s': System, surplus: Surplus)
    requires !op.Liquidate? && !op.Match? && !op.Place? && !op.Unplace?
    requires Inv(s, surplus) && Allowed(s.desk.w, op) && Perform(s, op) == Some((s', None))
    ensures Kept(s.desk, s'.desk, surplus) && s'.clob == s.clob
  {
    if IsTrade(op) {
      TradeKept(s, op, s', surplus);
    } else if IsLiquidity(op) {
      LiquidityKept(s, op, s', surplus);
    } else {
      match op
      case SlpShare(share) => SharesKept(s, share, s', surplus);
      case InVault(vaultOp) => VaultKept(s, vaultOp, s', surplus);
      case Register(m, info, scale, rebate) => RegisterKept(s, m, info, scale, rebate, s', surplus);
      case SetCaps(m, long, short) => CapsKept(s, m, long, short, s', surplus);
      case Pause(engine, risk) => PauseKept(s, engine, risk, surplus);
      case _ =>
    }
  }

  /** Over every run of trades, orders, fills, liquidations, funding payments, liquidity and vault calls, the whole
      invariant stays, each lock exceeding its margin by what deleveraging took, and the SLP's backing never gets
      worse. */
  lemma {:induction false} RunKeepsInv(s: System, ops: seq<Op>, surplus: Surplus)
    requires Inv(s, surplus) && forall i :: 0 <= i < |ops| ==> Allowed(s.desk.w, ops[i])
    ensures StepKept(s, Run(s, ops), SurplusAfter(s, ops, surplus))
    decreases |ops|
  {
    if ops != [] {
      var next, raised := Step(s, ops[0]), Raised(surplus, TakenBy(s, ops[0]));
      if Perform(s, ops[0]).Some? {
        StepKeepsInv(s, ops[0], next, TakenBy(s, ops[0]), surplus);
      }
      assert StepKept(s, next, raised);
      RunKeepsInv(next, ops[1..], raised);
      assert Run(s, ops) == Run(next, ops[1..]);
    }
  }
}
