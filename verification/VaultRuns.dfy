/** What every run of the vault keeps: token custody and the totals of the margin locks. */
module VaultRuns {
  import opened Int128
  import opened Host
  import opened FixedPoint
  import opened MapSums
  import opened Vault

  datatype VaultOp =
    | DoDeposit(user: Address, token: Address, amount: i128, held: Option<i128>, calls: bool)
    | DoWithdraw(user: Address, token: Address, amount: i128, riskLocked: i128, calls: bool)
    | DoLock(caller: Address, user: Address, id: u64, amount: i128, prices: map<Address, i128>)
    | DoUnlock(caller: Address, user: Address, id: u64, amount: i128)
    | DoLockIsolated(caller: Address, user: Address, id: u64, amount: i128, prices: map<Address, i128>)
    | DoUnlockIsolated(caller: Address, user: Address, id: u64, amount: i128)
    | DoRealizeIsolated(caller: Address, user: Address, id: u64, pnl: i128)
    | DoTransferMargin(caller: Address, user: Address, toInsurance: bool, amount: i128)
    | DoMove(caller: Address, source: Address, dest: Address, token: Address, amount: i128)
    | DoSeed(admin: Address, token: Address, amount: i128, held: Option<i128>, calls: bool)
    | DoCredit(caller: Address, user: Address, token: Address, amount: i128, held: Option<i128>)
    | DoDebit(caller: Address, user: Address, token: Address, amount: i128)
    | DoDepositSub(user: Address, sub: u32, token: Address, amount: i128, held: Option<i128>, calls: bool)
    | DoWithdrawSub(user: Address, sub: u32, token: Address, amount: i128, calls: bool)
    | DoTransferSubs(user: Address, fromSub: u32, toSub: u32, token: Address, amount: i128)
    | DoSwap(caller: Address, a: Address, b: Address, tokenA: Address, amountA: i128, tokenB: Address, amountB: i128)

  function Effect(s: VaultState, op: VaultOp): VaultResult {
    match op
    case DoDeposit(user, token, amount, held, calls) => Deposit(s, user, token, amount, held, calls)
    case DoWithdraw(user, token, amount, riskLocked, calls) => Withdraw(s, user, token, amount, riskLocked, calls)
    case DoLock(caller, user, id, amount, prices) => LockMargin(s, caller, user, id, amount, prices)
    case DoUnlock(caller, user, id, amount) => UnlockMargin(s, caller, user, id, amount)
    case DoLockIsolated(caller, user, id, amount, prices) => LockIsolated(s, caller, user, id, amount, prices)
    case DoUnlockIsolated(caller, user, id, amount) => UnlockIsolated(s, caller, user, id, amount)
    case DoRealizeIsolated(caller, user, id, pnl) => RealizeIsolated(s, caller, user, id, pnl)
    case DoTransferMargin(caller, user, toInsurance, amount) => TransferMargin(s, caller, user, toInsurance, amount)
    case DoMove(caller, source, dest, token, amount) => MoveBalance(s, caller, source, dest, token, amount)
    case DoSeed(admin, token, amount, held, calls) => SeedTreasury(s, admin, token, amount, held, calls)
    case DoCredit(caller, user, token, amount, held) => Credit(s, caller, user, token, amount, held)
    case DoDebit(caller, user, token, amount) => Debit(s, caller, user, token, amount)
    case DoDepositSub(user, sub, token, amount, held, calls) => DepositSub(s, user, sub, token, amount, held, calls)
    case DoWithdrawSub(user, sub, token, amount, calls) => WithdrawSub(s, user, sub, token, amount, calls)
    case DoTransferSubs(user, fromSub, toSub, token, amount) =>
        TransferBetweenSubs(s, user, fromSub, toSub, token, amount)
    case DoSwap(caller, a, b, tokenA, amountA, tokenB, amountB) =>
      AtomicSwap(s, caller, a, b, tokenA, amountA, tokenB, amountB)
  }

  function Step(s: VaultState, op: VaultOp): VaultState { After(s, Effect(s, op)) }

  function Run(s: VaultState, ops: seq<VaultOp>): VaultState
    decreases |ops|
  {
    if ops == [] then s else Run(Step(s, ops[0]), ops[1..])
  }

  // ----- custody -----

  ghost function Holds(token: Address): ((Address, Address)) -> bool { (k: (Address, Address)) => k.1 == token }

  ghost function SubHolds(token: Address): ((Address, u32, Address)) -> bool {
    (k: (Address, u32, Address)) => k.2 == token
  }

  /** Everything the vault owes of a token, to master accounts and sub-accounts. */
  ghost function Custody(s: VaultState, token: Address): int {
    Total(s.balances, Holds(token)) + Total(s.subs, SubHolds(token))
  }

  /** No balance is negative, and every token has at most 18 decimals. */
  ghost predicate Sound(s: VaultState) {
    && NonNegative(s.balances) && NonNegative(s.subs)
    && forall t :: t in s.cfg.tokens ==> s.cfg.tokens[t].decimals <= 18
  }

  /** 10^(18 - d), the internal amount of one native unit. */
  function Scale(c: VaultConfig, token: Address): nat {
    if token in c.tokens && c.tokens[token].decimals <= 18 then Pow10(18 - c.tokens[token].decimals) else 1
  }

  /** From s to r only balances differ, and what the vault owes of `token` changes by delta. */
  ghost predicate Owes(s: VaultState, r: VaultState, token: Address, delta: int) {
    && Sound(r) && r == s.(balances := r.balances, subs := r.subs)
    && Custody(r, token) == Custody(s, token) + delta
  }

  /** The share of an amount of one token that counts for another: all of it or nothing. */
  function On(token: Address, t: Address, amount: int): int { if token == t then amount else 0 }

  lemma {:induction false} BalanceOwes(
    s: VaultState, user: Address, token: Address, delta: int, t: Address, r: VaultState)
    requires Sound(s) && AddBalance(s, user, token, delta) == Ok(r)
    ensures Owes(s, r, t, On(token, t, delta))
  {
    TotalUpdate(s.balances, Holds(t), (user, token), Get(s.balances, (user, token)) + delta);
  }

  lemma {:induction false} SubOwes(
    s: VaultState, user: Address, sub: u32, token: Address, delta: int, t: Address, r: VaultState)
    requires Sound(s) && AddSub(s, user, sub, token, delta) == Ok(r)
    ensures Owes(s, r, t, On(token, t, delta))
  {
    TotalUpdate(s.subs, SubHolds(t), (user, sub, token), Get(s.subs, (user, sub, token)) + delta);
  }

  /** A move between two accounts, or within one, leaves custody as it was. */
  lemma {:induction false} TakeOwes(
    s: VaultState, a: Address, b: Address, token: Address, amount: int, t: Address, r: VaultState)
    requires Sound(s) && TakeMargin(s, a, b, token, amount) == Ok(r)
    ensures Owes(s, r, t, 0)
  {
    var mid := AddBalance(s, a, token, -amount).value;
    BalanceOwes(s, a, token, -amount, t, mid);
    BalanceOwes(mid, b, token, amount, t, r);
  }

  lemma {:induction false} InflowScales(
    c: VaultConfig, token: Address, amount: i128, held: Option<i128>, internal: i128)
    requires token in c.tokens ==> c.tokens[token].decimals <= 18
    requires Inflow(c, token, amount, held) == Ok(internal)
    ensures internal == amount * Scale(c, token)
  {
  }

  /** What leaves on chain is exactly the amount asked for: scaling up and back down loses nothing. */
  lemma {:induction false} OutflowScales(c: VaultConfig, token: Address, amount: i128, balance: int, internal: i128)
    requires token in c.tokens ==> c.tokens[token].decimals <= 18
    requires Outflow(c, token, amount, balance) == Ok(internal)
    ensures internal == amount * Scale(c, token) && NativeOut(c, token, internal) == Some(amount)
  {
    ToPrecisionRoundTrip(amount, c.tokens[token].decimals, 18);
  }

  /** The native units an operation brings in, less those it lets out, of a token. */
  function NativeFlow(s: VaultState, op: VaultOp, t: Address): int {
    if Effect(s, op).Err? then 0
    else match op
      case DoDeposit(_, token, amount, _, _) => On(token, t, amount)
      case DoSeed(_, token, amount, _, _) => On(token, t, amount)
      case DoCredit(_, _, token, amount, _) => On(token, t, amount)
      case DoDepositSub(_, _, token, amount, _, _) => On(token, t, amount)
      case DoWithdraw(user, token, amount, _, _) => On(token, t, -NativePaid(s, token, amount))
      case DoWithdrawSub(_, _, token, amount, _) => On(token, t, -NativePaid(s, token, amount))
      case DoDebit(_, _, token, amount) => On(token, t, -(amount as int))
      case _ => 0
  }

  /** The native units the vault transfers out for a withdrawal. */
  function NativePaid(s: VaultState, token: Address, amount: i128): int {
    if token !in s.cfg.tokens then 0
    else match ToInternal(amount, s.cfg.tokens[token])
      case Err(_) => 0
      case Ok(internal) =>
        var native := NativeOut(s.cfg, token, internal);
        if native.Some? then native.value else 0
  }

  lemma {:induction false} ScaledOn(token: Address, t: Address, amount: int, scale: int)
    ensures On(token, t, amount * scale) == On(token, t, amount) * scale
    ensures On(token, t, -(amount * scale)) == On(token, t, -amount) * scale
  {
  }

  ghost predicate FlowOwes(s: VaultState, r: VaultState, t: Address, native: int) {
    Owes(s, r, t, native * Scale(s.cfg, t))
  }

  lemma {:induction false} DepositOwes(
    s: VaultState, user: Address, token: Address, amount: i128, held: Option<i128>, calls: bool, t: Address,
    r: VaultState)
    requires Sound(s) && Deposit(s, user, token, amount, held, calls) == Ok(r)
    ensures FlowOwes(s, r, t, On(token, t, amount))
  {
    var internal := Inflow(s.cfg, token, amount, held).value;
    InflowScales(s.cfg, token, amount, held, internal);
    BalanceOwes(s, user, token, internal, t, r);
    ScaledOn(token, t, amount, Scale(s.cfg, token));
  }

  lemma {:induction false} DepositSubOwes(
    s: VaultState, user: Address, sub: u32, token: Address, amount: i128, held: Option<i128>, calls: bool, t: Address,
    r: VaultState)
    requires Sound(s) && DepositSub(s, user, sub, token, amount, held, calls) == Ok(r)
    ensures FlowOwes(s, r, t, On(token, t, amount))
  {
    var internal := Inflow(s.cfg, token, amount, held).value;
    InflowScales(s.cfg, token, amount, held, internal);
    SubOwes(s, user, sub, token, internal, t, r);
    ScaledOn(token, t, amount, Scale(s.cfg, token));
  }

  lemma {:induction false} WithdrawOwes(
    s: VaultState, user: Address, token: Address, amount: i128, riskLocked: i128, calls: bool, t: Address,
    r: VaultState)
    requires Sound(s) && Withdraw(s, user, token, amount, riskLocked, calls) == Ok(r)
    ensures NativePaid(s, token, amount) == amount && FlowOwes(s, r, t, On(token, t, -(amount as int)))
  {
    var balance := Get(s.balances, (user, token));
    var internal := Outflow(s.cfg, token, amount, balance).value;
    OutflowScales(s.cfg, token, amount, balance, internal);
    BalanceOwes(s, user, token, -internal, t, r);
    ScaledOn(token, t, amount, Scale(s.cfg, token));
  }

  lemma {:induction false} WithdrawSubOwes(
    s: VaultState, user: Address, sub: u32, token: Address, amount: i128, calls: bool, t: Address, r: VaultState)
    requires Sound(s) && WithdrawSub(s, user, sub, token, amount, calls) == Ok(r)
    ensures NativePaid(s, token, amount) == amount && FlowOwes(s, r, t, On(token, t, -(amount as int)))
  {
    var balance := Get(s.subs, (user, sub, token));
    var internal := Outflow(s.cfg, token, amount, balance).value;
    OutflowScales(s.cfg, token, amount, balance, internal);
    SubOwes(s, user, sub, token, -internal, t, r);
    ScaledOn(token, t, amount, Scale(s.cfg, token));
  }

  lemma {:induction false} DebitOwes(
    s: VaultState, caller: Address, user: Address, token: Address, amount: i128, t: Address, r: VaultState)
    requires Sound(s) && Debit(s, caller, user, token, amount) == Ok(r)
    ensures FlowOwes(s, r, t, On(token, t, -(amount as int)))
  {
    var balance := Get(s.balances, (user, token));
    var internal := Outflow(s.cfg, token, amount, balance).value;
    OutflowScales(s.cfg, token, amount, balance, internal);
    BalanceOwes(s, user, token, -internal, t, r);
    ScaledOn(token, t, amount, Scale(s.cfg, token));
  }

  lemma {:induction false} TransferSubsOwes(
    s: VaultState, user: Address, fromSub: u32, toSub: u32, token: Address, amount: i128, t: Address, r: VaultState)
    requires Sound(s) && TransferBetweenSubs(s, user, fromSub, toSub, token, amount) == Ok(r)
    ensures Owes(s, r, t, 0)
  {
    var mid := AddSub(s, user, fromSub, token, -(amount as int)).value;
    SubOwes(s, user, fromSub, token, -(amount as int), t, mid);
    SubOwes(mid, user, toSub, token, amount, t, r);
  }

  lemma {:induction false} SwapOwes(
    s: VaultState, caller: Address, a: Address, b: Address, tokenA: Address, amountA: i128, tokenB: Address,
    amountB: i128, t: Address, r: VaultState)
    requires Sound(s) && AtomicSwap(s, caller, a, b, tokenA, amountA, tokenB, amountB) == Ok(r)
    ensures Owes(s, r, t, 0)
  {
    var mid := TakeMargin(s, a, b, tokenA, amountA).value;
    TakeOwes(s, a, b, tokenA, amountA, t, mid);
    TakeOwes(mid, b, a, tokenB, amountB, t, r);
  }

  /** Custody changes by delta; locks may change too. */
  ghost predicate Keeps(s: VaultState, r: VaultState, t: Address, delta: int) {
    && Sound(r) && r.cfg == s.cfg && Custody(r, t) == Custody(s, t) + delta
  }

  lemma {:induction false} TransferMarginKeeps(
    s: VaultState, caller: Address, user: Address, toInsurance: bool, amount: i128, t: Address, r: VaultState)
    requires Sound(s) && TransferMargin(s, caller, user, toInsurance, amount) == Ok(r)
    ensures Keeps(s, r, t, 0)
  {
    var token := FirstHeld(s, user, 0);
    var recipient := if toInsurance then s.cfg.insurance else s.cfg.treasury;
    if token.Some? {
      var taken := Min(Get(s.balances, (user, token.value)), amount);
      TakeOwes(s, user, recipient, token.value, taken, t, TakeMargin(s, user, recipient, token.value, taken).value);
    }
  }

  lemma {:induction false} LocksKeep(s: VaultState, r: VaultState, t: Address)
    requires Sound(s) && r.balances == s.balances && r.subs == s.subs && r.cfg == s.cfg
    ensures Keeps(s, r, t, 0)
  {
  }

  predicate BringsIn(op: VaultOp) { op.DoDeposit? || op.DoSeed? || op.DoCredit? || op.DoDepositSub? }

  predicate LetsOut(op: VaultOp) { op.DoWithdraw? || op.DoWithdrawSub? || op.DoDebit? }

  lemma {:induction false} InStep(s: VaultState, op: VaultOp, t: Address, r: VaultState, native: int)
    requires BringsIn(op) && Sound(s) && Effect(s, op) == Ok(r) && native == NativeFlow(s, op, t)
    ensures FlowOwes(s, r, t, native)
  {
    match op
    case DoDeposit(user, token, amount, held, calls) => DepositOwes(s, user, token, amount, held, calls, t, r);
    case DoSeed(_, token, amount, held, calls) => DepositOwes(s, s.cfg.treasury, token, amount, held, calls, t, r);
    case DoCredit(_, user, token, amount, held) => DepositOwes(s, user, token, amount, held, true, t, r);
    case DoDepositSub(user, sub, token, amount, held, calls) =>
        DepositSubOwes(s, user, sub, token, amount, held, calls, t, r);
    case _ =>
  }

  lemma {:induction false} OutStep(s: VaultState, op: VaultOp, t: Address, r: VaultState, native: int)
    requires LetsOut(op) && Sound(s) && Effect(s, op) == Ok(r) && native == NativeFlow(s, op, t)
    ensures FlowOwes(s, r, t, native)
  {
    match op
    case DoWithdraw(user, token, amount, riskLocked, calls) =>
        WithdrawOwes(s, user, token, amount, riskLocked, calls, t, r);
    case DoWithdrawSub(user, sub, token, amount, calls) => WithdrawSubOwes(s, user, sub, token, amount, calls, t, r);
    case DoDebit(caller, user, token, amount) => DebitOwes(s, caller, user, token, amount, t, r);
    case _ =>
  }

  /** The operations that move tokens inside the vault, or only locks. */
  lemma {:induction false} InnerStep(s: VaultState, op: VaultOp, t: Address, r: VaultState)
    requires !BringsIn(op) && !LetsOut(op)
    requires Sound(s) && Effect(s, op) == Ok(r)
    ensures Keeps(s, r, t, 0) && NativeFlow(s, op, t) == 0
  {
    match op
    case DoTransferMargin(caller, user, toInsurance, amount) =>
        TransferMarginKeeps(s, caller, user, toInsurance, amount, t, r);
    case DoMove(_, source, dest, token, amount) => TakeOwes(s, source, dest, token, amount, t, r);
    case DoTransferSubs(user, fromSub, toSub, token, amount) =>
        TransferSubsOwes(s, user, fromSub, toSub, token, amount, t, r);
    case DoSwap(caller, a, b, tokenA, amountA, tokenB, amountB) =>
      SwapOwes(s, caller, a, b, tokenA, amountA, tokenB, amountB, t, r);
    case _ => LocksKeep(s, r, t);
  }

  lemma {:induction false} StepCustody(s: VaultState, op: VaultOp, t: Address, r: VaultState, native: int)
    requires Sound(s) && r == Step(s, op) && native == NativeFlow(s, op, t)
    ensures Keeps(s, r, t, native * Scale(s.cfg, t))
  {
    if Effect(s, op).Err? {
    } else if BringsIn(op) {
      InStep(s, op, t, r, native);
    } else if LetsOut(op) {
      OutStep(s, op, t, r, native);
    } else {
      InnerStep(s, op, t, r);
    }
  }

  /** Native units in less native units out, over a run. */
  function NativeFlows(s: VaultState, ops: seq<VaultOp>, t: Address): int
    decreases |ops|
  {
    if ops == [] then 0 else NativeFlow(s, ops[0], t) + NativeFlows(Step(s, ops[0]), ops[1..], t)
  }

  /** Over every run, what the vault owes of a token, to master accounts and sub-accounts together, changes by
      exactly 10^(18 - d) for each native unit that came in, less each that went out, and no balance is ever
      negative. Swaps, moves, sub-account transfers and `transfer_margin` are inside. */
  lemma {:induction false} CustodyMatchesFlows(s: VaultState, ops: seq<VaultOp>, t: Address, r: VaultState, native: int)
    requires Sound(s) && r == Run(s, ops) && native == NativeFlows(s, ops, t)
    ensures Sound(r) && Custody(r, t) == Custody(s, t) + native * Scale(s.cfg, t)
    decreases |ops|
  {
    if ops == [] {
      assert 0 * Scale(s.cfg, t) == 0;
    } else {
      var next, first := Step(s, ops[0]), NativeFlow(s, ops[0], t);
      StepCustody(s, ops[0], t, next, first);
      CustodyMatchesFlows(next, ops[1..], t, r, native - first);
      DistributeScale(first, native - first, native, Scale(s.cfg, t));
    }
  }

  lemma {:induction false} DistributeScale(a: int, b: int, sum: int, scale: int)
    requires sum == a + b
    ensures a * scale + b * scale == sum * scale
  {
  }

  // ----- margin locks -----

  ghost function OwnedBy(user: Address): ((Address, u64)) -> bool { (k: (Address, u64)) => k.0 == user }

  /** What the per-position buckets of a user hold beyond the user's locked total. */
  ghost function CrossGap(s: VaultState, user: Address): int {
    Total(s.locked, OwnedBy(user)) - Get(s.lockedTotal, user)
  }

  ghost function IsolatedGap(s: VaultState, user: Address): int {
    Total(s.isolated, OwnedBy(user)) - Get(s.isolatedTotal, user)
  }

  /** What one operation takes out of a user's locked total without touching a bucket. */
  function MarginTaken(s: VaultState, op: VaultOp, user: Address): int {
    if Effect(s, op).Ok? && op.DoTransferMargin? && op.user == user then op.amount else 0
  }

  function MarginTakenBy(s: VaultState, ops: seq<VaultOp>, user: Address): int
    decreases |ops|
  {
    if ops == [] then 0 else MarginTaken(s, ops[0], user) + MarginTakenBy(Step(s, ops[0]), ops[1..], user)
  }

  /** No bucket is negative. */
  ghost predicate SoundBuckets(s: VaultState) { NonNegative(s.locked) && NonNegative(s.isolated) }

  lemma {:induction false} ReleasedTotals(m: map<(Address, u64), int>, key: (Address, u64), amount: int, user: Address)
    requires key in m && NonNegative(m) && amount <= m[key]
    ensures NonNegative(Vault.Released(m, key, amount))
    ensures Total(Vault.Released(m, key, amount), OwnedBy(user))
         == Total(m, OwnedBy(user)) - if key.0 == user then amount else 0
  {
    TotalDrop(m, OwnedBy(user), key);
    TotalUpdate(m, OwnedBy(user), key, m[key] - amount);
  }

  lemma {:induction false} ConsumedBounds(bucket: int, pnl: i128)
    requires bucket >= 0
    ensures Consumed(bucket, pnl) <= bucket
    ensures pnl < 0 ==> Consumed(bucket, pnl) + Shortfall(bucket, pnl) == -(pnl as int)
  {
  }

  ghost predicate LocksMove(s: VaultState, r: VaultState, user: Address, taken: int) {
    && SoundBuckets(r)
    && CrossGap(r, user) == CrossGap(s, user) + taken
    && IsolatedGap(r, user) == IsolatedGap(s, user)
  }

  lemma {:induction false} LockMoves(
    s: VaultState, caller: Address, u: Address, id: u64, amount: i128, prices: map<Address, i128>, user: Address,
    r: VaultState)
    requires SoundBuckets(s) && LockMargin(s, caller, u, id, amount, prices) == Ok(r)
    ensures LocksMove(s, r, user, 0)
  {
    TotalUpdate(s.locked, OwnedBy(user), (u, id), Get(s.locked, (u, id)) + amount);
  }

  lemma {:induction false} UnlockMoves(
    s: VaultState, caller: Address, u: Address, id: u64, amount: i128, user: Address, r: VaultState)
    requires SoundBuckets(s) && UnlockMargin(s, caller, u, id, amount) == Ok(r)
    ensures LocksMove(s, r, user, 0)
  {
    ReleasedTotals(s.locked, (u, id), amount, user);
  }

  lemma {:induction false} LockIsolatedMoves(
    s: VaultState, caller: Address, u: Address, id: u64, amount: i128, prices: map<Address, i128>, user: Address,
    r: VaultState)
    requires SoundBuckets(s) && LockIsolated(s, caller, u, id, amount, prices) == Ok(r)
    ensures LocksMove(s, r, user, 0)
  {
    TotalUpdate(s.isolated, OwnedBy(user), (u, id), Get(s.isolated, (u, id)) + amount);
  }

  lemma {:induction false} DrainMoves(s: VaultState, u: Address, id: u64, amount: int, user: Address, r: VaultState)
    requires SoundBuckets(s) && DrainIsolated(s, u, id, amount) == Ok(r)
    requires (u, id) in s.isolated && amount <= s.isolated[(u, id)]
    ensures LocksMove(s, r, user, 0)
  {
    ReleasedTotals(s.isolated, (u, id), amount, user);
  }

  lemma {:induction false} RealizeMoves(
    s: VaultState, caller: Address, u: Address, id: u64, pnl: i128, user: Address, r: VaultState)
    requires SoundBuckets(s) && RealizeIsolated(s, caller, u, id, pnl) == Ok(r)
    ensures LocksMove(s, r, user, 0)
  {
    ConsumedBounds(s.isolated[(u, id)], pnl);
    DrainMoves(s, u, id, Consumed(s.isolated[(u, id)], pnl), user, r);
  }

  /** Balance updates leave the locks alone. */
  ghost predicate SameLocks(s: VaultState, r: VaultState) {
    && r.locked == s.locked && r.lockedTotal == s.lockedTotal
    && r.isolated == s.isolated && r.isolatedTotal == s.isolatedTotal
  }

  lemma {:induction false} TransferMarginMoves(
    s: VaultState, caller: Address, u: Address, toInsurance: bool, amount: i128, user: Address, r: VaultState)
    requires SoundBuckets(s) && TransferMargin(s, caller, u, toInsurance, amount) == Ok(r)
    ensures LocksMove(s, r, user, if u == user then amount else 0)
  {
    TransferMarginEffect(s, caller, u, toInsurance, amount, r);
  }

  lemma {:induction false} TransferMarginEffect(
    s: VaultState, caller: Address, u: Address, toInsurance: bool, amount: i128, r: VaultState)
    requires TransferMargin(s, caller, u, toInsurance, amount) == Ok(r)
    ensures r.locked == s.locked && r.isolated == s.isolated && r.isolatedTotal == s.isolatedTotal
    ensures r.lockedTotal == s.lockedTotal[u := Get(s.lockedTotal, u) - amount]
  {
  }

  lemma {:induction false} SwapsLeaveLocks(s: VaultState, op: VaultOp, r: VaultState)
    requires op.DoMove? || op.DoSwap? || op.DoTransferSubs?
    requires Effect(s, op) == Ok(r)
    ensures SameLocks(s, r)
  {
  }

  lemma {:induction false} FlowsLeaveLocks(s: VaultState, op: VaultOp, r: VaultState)
    requires BringsIn(op) || LetsOut(op)
    requires Effect(s, op) == Ok(r)
    ensures SameLocks(s, r)
  {
  }

  lemma {:induction false} StepLocks(s: VaultState, op: VaultOp, user: Address, r: VaultState, taken: int)
    requires SoundBuckets(s) && Effect(s, op) == Ok(r) && taken == MarginTaken(s, op, user)
    ensures LocksMove(s, r, user, taken)
  {
    match op
    case DoLock(caller, u, id, amount, prices) => LockMoves(s, caller, u, id, amount, prices, user, r);
    case DoUnlock(caller, u, id, amount) => UnlockMoves(s, caller, u, id, amount, user, r);
    case DoLockIsolated(caller, u, id, amount, prices) => LockIsolatedMoves(s, caller, u, id, amount, prices, user, r);
    case DoUnlockIsolated(_, u, id, amount) => DrainMoves(s, u, id, amount, user, r);
    case DoRealizeIsolated(caller, u, id, pnl) => RealizeMoves(s, caller, u, id, pnl, user, r);
    case DoTransferMargin(caller, u, toInsurance, amount) =>
        TransferMarginMoves(s, caller, u, toInsurance, amount, user, r);
    case _ =>
      if BringsIn(op) || LetsOut(op) {
        FlowsLeaveLocks(s, op, r);
      } else {
        SwapsLeaveLocks(s, op, r);
      }
  }

  /** Over every run a user's isolated total is the sum of the isolated buckets, and the cross buckets exceed the
      locked total by exactly what `transfer_margin` took: with none, the two are equal. */
  lemma {:induction false} LockTotalsMatchBuckets(
    s: VaultState, ops: seq<VaultOp>, user: Address, r: VaultState, taken: int)
    requires SoundBuckets(s) && r == Run(s, ops) && taken == MarginTakenBy(s, ops, user)
    ensures SoundBuckets(r)
    ensures CrossGap(r, user) == CrossGap(s, user) + taken
    ensures IsolatedGap(r, user) == IsolatedGap(s, user)
    decreases |ops|
  {
    if ops != [] {
      var next, first := Step(s, ops[0]), MarginTaken(s, ops[0], user);
      if Effect(s, ops[0]).Ok? {
        StepLocks(s, ops[0], user, next, first);
      }
      LockTotalsMatchBuckets(next, ops[1..], user, r, taken - first);
    }
  }
}
