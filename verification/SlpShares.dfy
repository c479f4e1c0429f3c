/** What the liquidity shares keep: their sum, their value, and what a deposit followed by a redemption returns. */
module SlpShares {
  import opened Int128
  import opened Host
  import opened FixedPoint
  import opened MapSums
  import opened SlpVault

  // ----- value per share -----

  /** Assets per share do not fall from (shares, assets) to (shares', assets'), compared without a division. */
  predicate NavKept(shares: int, assets: int, shares': int, assets': int) { assets * shares' <= assets' * shares }

  /** Shares minted against positive assets are at most in proportion. */
  lemma {:induction false} MintKeepsNav(amount: i128, shares: int, assets: int, minted: int)
    requires amount > 0 && shares >= 0 && SharesFor(amount, shares, assets) == Some(minted) && minted > 0
    ensures shares > 0 ==> assets >= 0 && minted * assets <= amount * shares
    ensures shares > 0 ==> NavKept(shares, assets, shares + minted, assets + amount)
    ensures shares == 0 ==> minted == amount
  {
    if shares > 0 {
      MintedShare(amount, shares, assets, minted);
      assert assets * (shares + minted) == assets * shares + minted * assets;
      assert (assets + amount) * shares == assets * shares + amount * shares;
    }
  }

  lemma {:induction false} MintedShare(amount: i128, shares: int, assets: int, minted: int)
    requires amount > 0 && shares > 0 && SharesFor(amount, shares, assets) == Some(minted) && minted > 0
    ensures assets >= 0 && minted * assets <= amount * shares
  {
    MagnitudeOfProduct(amount, shares);
    if assets > 0 {
      DivBounds(amount * shares, assets);
    } else if assets < 0 {
      QuotientBelow(amount * shares, Abs(assets), 0);
    } else {
      assert minted * 0 == 0 <= amount * shares;
    }
  }

  /** A redemption pays at most its proportion, so the rest keep theirs. */
  lemma {:induction false} BurnKeepsNav(burnt: i128, shares: int, assets: int, underlying: int)
    requires 0 < burnt <= shares && Underlying(burnt, shares, assets) == Some(underlying) && ToNative(underlying) > 0
    ensures assets > 0 && 0 < underlying && underlying * shares <= burnt * assets && underlying <= assets
    ensures NavKept(shares, assets, shares - burnt, assets - underlying)
  {
    RedeemedShare(burnt, shares, assets, underlying);
    assert assets * (shares - burnt) == assets * shares - burnt * assets;
    assert (assets - underlying) * shares == assets * shares - underlying * shares;
  }

  lemma {:induction false} RedeemedShare(burnt: i128, shares: int, assets: int, underlying: int)
    requires 0 < burnt <= shares && Underlying(burnt, shares, assets) == Some(underlying) && ToNative(underlying) > 0
    ensures assets > 0 && 0 < underlying && underlying * shares <= burnt * assets && underlying <= assets
  {
    PositiveNative(underlying);
    MagnitudeOfProduct(burnt, assets);
    if assets <= 0 {
      NotPositive(burnt, assets);
      QuotientBelow(Abs(burnt * assets), shares, 0);
    }
    assert burnt * assets >= 0 by { MulMonotone(0, 0, burnt, assets); }
    DivBounds(burnt * assets, shares);
    MulMonotone(burnt, assets, shares, assets);
    QuotientAbove(burnt * assets, shares, assets);
    assert (assets + 1) * shares == assets * shares + shares;
  }

  lemma {:induction false} NotPositive(a: nat, b: int)
    requires b <= 0
    ensures a * b <= 0
  {
  }

  lemma {:induction false} PositiveNative(underlying: int)
    requires ToNative(underlying) > 0
    ensures underlying >= NATIVE_TO_INTERNAL
  {
    QuotientBelow(Abs(underlying), NATIVE_TO_INTERNAL, 1);
    QuotientBelow(Abs(underlying), NATIVE_TO_INTERNAL, 0);
  }

  // ----- deposit, then redeem -----

  /** What the shares minted for an amount are worth right after the deposit. */
  function RedeemedAtOnce(amount: i128, shares: int, assets: int): Option<i128> {
    var minted :- SharesFor(amount, shares, assets);
    Underlying(minted, shares + minted, assets + amount)
  }

  /** Depositing and at once redeeming the minted shares pays back more native units than were put in exactly when
      nobody held a share while the vault held at least one native unit of assets. */
  lemma {:induction false} DepositThenRedeem(native: i128, amount: i128, shares: int, assets: int, paid: int)
    requires native > 0 && amount == native * NATIVE_TO_INTERNAL && shares >= 0
    requires SharesFor(amount, shares, assets).Some? && SharesFor(amount, shares, assets).value > 0
    requires RedeemedAtOnce(amount, shares, assets) == Some(paid)
    ensures ToNative(paid) > native <==> shares == 0 && assets >= NATIVE_TO_INTERNAL
  {
    var minted := SharesFor(amount, shares, assets).value;
    MintKeepsNav(amount, shares, assets, minted);
    if shares == 0 {
      SoleHolder(amount, amount + assets, paid);
      NativeAbove(native, paid);
    } else {
      assert minted * (assets + amount) == minted * assets + minted * amount;
      assert amount * (shares + minted) == amount * shares + minted * amount;
      MulMonotone(0, 0, minted, assets + amount);
      NotAbove(minted * (assets + amount), shares + minted, amount, paid);
      NativeAbove(native, paid);
    }
  }

  lemma {:induction false} SoleHolder(minted: i128, assets: int, paid: int)
    requires minted > 0 && Underlying(minted, minted, assets) == Some(paid)
    ensures paid == assets
  {
    MagnitudeOfProduct(minted, assets);
    var n := Abs(assets);
    DivUnique(minted * n, minted, n) by {
      assert (n + 1) * minted == minted * n + minted;
    }
    assert Abs(minted * assets) == minted * n;
  }

  lemma {:induction false} NotAbove(n: nat, d: nat, bound: nat, q: int)
    requires d > 0 && n <= bound * d && q == TruncDiv(n, d)
    ensures 0 <= q <= bound
  {
    QuotientBelow(n, d, 0);
    QuotientAbove(n, d, bound);
    assert (bound + 1) * d == bound * d + d;
  }

  lemma {:induction false} NativeAbove(native: nat, paid: int)
    ensures ToNative(paid) > native <==> paid >= (native + 1) * NATIVE_TO_INTERNAL
  {
    QuotientBelow(Abs(paid), NATIVE_TO_INTERNAL, native + 1);
    QuotientBelow(Abs(paid), NATIVE_TO_INTERNAL, 0);
  }

  // ----- bad debt -----

  /** A loss above the assets takes them below zero, down to i128::MIN; the shares stay outstanding. */
  lemma {:induction false} LossSinksAssets(s: SlpState, caller: Address, amount: i128, r: SlpState)
    requires RecordLoss(s, caller, amount) == Ok(r)
    ensures r == s.(totalAssets := r.totalAssets) && r.totalAssets == Max(s.totalAssets - amount, I128_MIN)
    ensures r.totalAssets < 0 <==> amount > s.totalAssets
  {
  }

  /** With shares outstanding and negative assets nobody gets in or out, whatever the amounts: every deposit, seed,
      withdrawal and profit is refused. */
  lemma {:induction false} UnderwaterRefusesAll(
    s: SlpState, user: Address, amount: i128, now: u64, openInterest: i128, calls: bool)
    requires s.totalShares > 0 && s.totalAssets < 0
    ensures Deposit(s, user, amount, now, calls).Err? && Seed(s, user, amount, calls).Err?
    ensures Withdraw(s, user, amount, now, openInterest, calls).Err?
    ensures DrawPnl(s, user, amount, calls).Err?
  {
    var internal := amount * NATIVE_TO_INTERNAL;
    if amount > 0 {
      if InI128(internal) {
        NoShares(internal, s.totalShares, s.totalAssets);
      }
      NoShares(amount, s.totalAssets, s.totalShares);
    }
  }

  /** A product of unlike signs is not positive, and neither is its quotient. */
  lemma {:induction false} NoShares(a: i128, b: i128, d: i128)
    requires a > 0 && b != 0 && d != 0 && (b < 0) != (d < 0)
    ensures MulDiv(a, b, d).Some? && b > 0 ==> MulDiv(a, b, d).value <= 0
    ensures MulDiv(a, b, d).Some? && d > 0 ==> ToNative(MulDiv(a, b, d).value) <= 0
  {
    MagnitudeOfProduct(a, b);
    assert b < 0 ==> a * b < 0 by { MulMonotone(1, 1, a, Abs(b)); }
    assert b > 0 ==> a * b > 0 by { MulMonotone(1, 1, a, Abs(b)); }
    QuotientBelow(Abs(a * b), Abs(d), 0);
    var q := TruncDiv(a * b, d);
    QuotientBelow(Abs(q), NATIVE_TO_INTERNAL, 0);
  }

  // ----- runs -----

  datatype SlpOp =
    | DoDeposit(user: Address, amountNative: i128, now: u64, calls: bool)
    | DoSeed(caller: Address, amountNative: i128, calls: bool)
    | DoWithdraw(user: Address, amount: i128, now: u64, openInterest: i128, calls: bool)
    | DoSweep(caller: Address, amountNative: i128, calls: bool)
    | DoCredit(caller: Address, amount: i128)
    | DoDraw(caller: Address, amount: i128, calls: bool)
    | DoRecordLoss(caller: Address, amount: i128)
    | DoTransfer(user: Address, dest: Address, amount: i128)
    | DoApprove(user: Address, spender: Address, amount: i128)
    | DoTransferFrom(spender: Address, user: Address, dest: Address, amount: i128)

  function First(r: Result<(SlpState, int), SlpError>): SlpResult {
    if r.Ok? then Ok(r.value.0) else Err(r.error)
  }

  function Effect(s: SlpState, op: SlpOp): SlpResult {
    match op
    case DoDeposit(user, amount, now, calls) => Deposit(s, user, amount, now, calls)
    case DoSeed(caller, amount, calls) => Seed(s, caller, amount, calls)
    case DoWithdraw(user, amount, now, oi, calls) => First(Withdraw(s, user, amount, now, oi, calls))
    case DoSweep(caller, amount, calls) => SweepFees(s, caller, amount, calls)
    case DoCredit(caller, amount) => CreditPnl(s, caller, amount)
    case DoDraw(caller, amount, calls) => DrawPnl(s, caller, amount, calls)
    case DoRecordLoss(caller, amount) => RecordLoss(s, caller, amount)
    case DoTransfer(user, dest, amount) => Transfer(s, user, dest, amount)
    case DoApprove(user, spender, amount) => Ok(Approve(s, user, spender, amount))
    case DoTransferFrom(spender, user, dest, amount) => TransferFrom(s, spender, user, dest, amount)
  }

  function Step(s: SlpState, op: SlpOp): SlpState { After(s, Effect(s, op)) }

  function Run(s: SlpState, ops: seq<SlpOp>): SlpState
    decreases |ops|
  {
    if ops == [] then s else Run(Step(s, ops[0]), ops[1..])
  }

  ghost function Everyone(): Address -> bool { (user: Address) => true }

  /** Share balances are not negative and add up to the total. */
  ghost predicate SharesAddUp(s: SlpState) {
    NonNegative(s.shares) && Total(s.shares, Everyone()) == s.totalShares
  }

  /** The share books after adding delta to one balance and to the total. */
  ghost predicate Issued(s: SlpState, r: SlpState, user: Address, delta: int) {
    && r.shares == s.shares[user := Get(s.shares, user) + delta] && r.totalShares == s.totalShares + delta
    && Get(s.shares, user) + delta >= 0
  }

  lemma {:induction false} IssuedAddsUp(s: SlpState, r: SlpState, user: Address, delta: int)
    requires SharesAddUp(s) && Issued(s, r, user, delta)
    ensures SharesAddUp(r)
  {
    TotalUpdate(s.shares, Everyone(), user, Get(s.shares, user) + delta);
  }

  lemma {:induction false} MovedAddsUp(s: SlpState, r: SlpState, user: Address, dest: Address, amount: i128)
    requires SharesAddUp(s) && amount > 0 && MoveShares(s, user, dest, amount) == Ok(r)
    ensures SharesAddUp(r) && (user == dest ==> r == s)
  {
    var taken := s.shares[user := Get(s.shares, user) - amount];
    TotalUpdate(s.shares, Everyone(), user, Get(s.shares, user) - amount);
    TotalUpdate(taken, Everyone(), dest, Get(taken, dest) + amount);
    if user == dest {
      EntryAtMostTotal(s.shares, Everyone(), user);
      assert user in s.shares && r.shares == s.shares;
    }
  }

  lemma {:induction false} MintAddsUp(s: SlpState, r: SlpState, user: Address, amount: i128)
    requires SharesAddUp(s) && MintShares(s, user, amount) == Ok(r)
    ensures SharesAddUp(r)
  {
    IssuedAddsUp(s, r, user, SharesFor(amount, s.totalShares, s.totalAssets).value);
  }

  /** Over every run, mints, burns and transfers keep the balances adding up to the total. */
  lemma {:induction false} StepAddsUp(s: SlpState, op: SlpOp)
    requires SharesAddUp(s)
    ensures SharesAddUp(Step(s, op))
  {
    var r := Step(s, op);
    if Effect(s, op).Ok? {
      match op
      case DoDeposit(user, amount, _, _) =>
          MintAddsUp(s, r.(unlockAt := s.unlockAt), user, amount * NATIVE_TO_INTERNAL);
      case DoSeed(_, amount, _) => MintAddsUp(s, r, s.cfg.admin, amount * NATIVE_TO_INTERNAL);
      case DoWithdraw(user, amount, _, _, _) => IssuedAddsUp(s, r, user, -(amount as int));
      case DoTransfer(user, dest, amount) => MovedAddsUp(s, r, user, dest, amount);
      case DoTransferFrom(spender, user, dest, amount) =>
        var allowed := s.(allowances := r.allowances);
        assert SharesAddUp(allowed);
        MovedAddsUp(allowed, r, user, dest, amount);
      case _ =>
    }
  }

  lemma {:induction false} RunAddsUp(s: SlpState, ops: seq<SlpOp>)
    requires SharesAddUp(s)
    ensures SharesAddUp(Run(s, ops))
    decreases |ops|
  {
    if ops != [] {
      StepAddsUp(s, ops[0]);
      RunAddsUp(Step(s, ops[0]), ops[1..]);
    }
  }

  /** Deposits and withdrawals never lower the value of a share; from an empty vault they leave it at one. */
  lemma {:induction false} NavNeverLowered(s: SlpState, op: SlpOp, r: SlpState)
    requires SharesAddUp(s) && Effect(s, op) == Ok(r) && (op.DoDeposit? || op.DoSeed? || op.DoWithdraw?)
    ensures s.totalShares > 0 ==> NavKept(s.totalShares, s.totalAssets, r.totalShares, r.totalAssets)
    ensures s.totalShares == 0 && s.totalAssets == 0 ==> r.totalShares == r.totalAssets
  {
    SumNonNegative<Address, int>(s.shares, Where(Everyone()));
    if op.DoWithdraw? {
      WithdrawKeepsNav(s, op, r);
    } else {
      var amount := op.amountNative * NATIVE_TO_INTERNAL;
      MintKeepsNav(amount, s.totalShares, s.totalAssets, r.totalShares - s.totalShares);
    }
  }

  lemma {:induction false} WithdrawKeepsNav(s: SlpState, op: SlpOp, r: SlpState)
    requires SharesAddUp(s) && Effect(s, op) == Ok(r) && op.DoWithdraw?
    ensures s.totalShares > 0 && NavKept(s.totalShares, s.totalAssets, r.totalShares, r.totalAssets)
  {
    EntryAtMostTotal(s.shares, Everyone(), op.user);
    BurnKeepsNav(op.amount, s.totalShares, s.totalAssets, s.totalAssets - r.totalAssets);
  }

  /** The guard is needed: a deposit into a vault with no shares and positive assets can be redeemed at a gain. */
  lemma {:induction false} DonatedAssetsGoToTheNextDepositor()
    ensures RedeemedAtOnce(NATIVE_TO_INTERNAL, 0, NATIVE_TO_INTERNAL) == Some(2 * NATIVE_TO_INTERNAL)
  {
    SoleHolderWorth(NATIVE_TO_INTERNAL, 2 * NATIVE_TO_INTERNAL);
  }

  lemma {:induction false} SoleHolderWorth(minted: i128, assets: i128)
    requires minted > 0 && assets > 0
    ensures Underlying(minted, minted, assets) == Some(assets)
  {
    MulMonotone(1, assets, minted, assets);
    DivUnique(minted * assets, minted, assets) by {
      assert (assets + 1) * minted == minted * assets + minted;
    }
  }

  // ----- deposits and withdrawals, to the unit -----

  /** q is n / d rounded down. */
  predicate IsFloor(q: int, n: int, d: int) { q * d <= n < (q + 1) * d }

  lemma {:induction false} QuotientIsFloor(a: nat, b: nat, d: nat)
    requires d > 0
    ensures IsFloor(TruncDiv(a * b, d), a * b, d)
  {
    MulMonotone(0, 0, a, b);
    DivBounds(a * b, d);
  }

  /** A deposit mints the depositor's proportion rounded down, or one share for each unit of an empty vault, adds the
      whole deposit to the assets, and starts the cool-down. */
  lemma {:induction false} DepositOutcome(s: SlpState, user: Address, native: i128, now: u64, calls: bool, r: SlpState)
    requires s.totalShares >= 0 && s.totalAssets >= 0 && Deposit(s, user, native, now, calls) == Ok(r)
    ensures native > 0
    ensures var amount, minted := native * 100_000_000_000, Get(r.shares, user) - Get(s.shares, user);
            && minted > 0 && r.totalShares == s.totalShares + minted && r.totalAssets == s.totalAssets + amount
            && (if s.totalShares == 0 || s.totalAssets == 0 then minted == amount
                else IsFloor(minted, amount * s.totalShares, s.totalAssets))
            && r.shares == s.shares[user := Get(r.shares, user)]
            && r.unlockAt == s.unlockAt[user := Min(now + s.cfg.cooldownSecs, 18_446_744_073_709_551_615)]
  {
    var amount := native * NATIVE_TO_INTERNAL;
    if s.totalShares > 0 && s.totalAssets > 0 {
      QuotientIsFloor(amount, s.totalShares, s.totalAssets);
    }
  }

  /** A withdrawal takes the holder's proportion of the assets rounded down and pays its whole native units, once the
      cool-down is over. */
  lemma {:induction false} WithdrawOutcome(
    s: SlpState, user: Address, shares: i128, now: u64, openInterest: i128, calls: bool, r: SlpState, paid: int)
    requires s.totalShares >= 0 && s.totalAssets >= 0
    requires Withdraw(s, user, shares, now, openInterest, calls) == Ok((r, paid))
    ensures 0 < shares <= Get(s.shares, user) && s.totalShares > 0 && now >= Get(s.unlockAt, user)
    ensures var taken := s.totalAssets - r.totalAssets;
            && IsFloor(taken, shares * s.totalAssets, s.totalShares) && IsFloor(paid, taken, 100_000_000_000)
            && r.totalShares == s.totalShares - shares && r.unlockAt == s.unlockAt
            && r.shares == s.shares[user := Get(s.shares, user) - shares]
  {
    QuotientIsFloor(shares, s.totalAssets, s.totalShares);
    var taken := s.totalAssets - r.totalAssets;
    MulMonotone(0, 0, shares, s.totalAssets);
    QuotientBelow(shares * s.totalAssets, s.totalShares, 0);
    DivBounds(taken, NATIVE_TO_INTERNAL);
  }

  /** Shares move from the one account to the other; a transfer to oneself changes nothing. */
  lemma {:induction false} TransferOutcome(s: SlpState, op: SlpOp, r: SlpState, account: Address)
    requires (op.DoTransfer? || op.DoTransferFrom?) && Effect(s, op) == Ok(r)
    ensures 0 < op.amount <= Get(s.shares, op.user)
    ensures Get(r.shares, account) == Get(s.shares, account) + Flow(account, op.user, op.dest, op.amount)
    ensures r.totalShares == s.totalShares && r.totalAssets == s.totalAssets && r.unlockAt == s.unlockAt
    ensures op.DoTransferFrom? ==>
              && op.amount <= Get(s.allowances, (op.user, op.spender))
              && Get(r.allowances, (op.user, op.spender)) == Get(s.allowances, (op.user, op.spender)) - op.amount
  {
  }

  lemma {:induction false} SkewCovers(s: SlpState, shares: i128, openInterest: i128, left: i128)
    requires s.cfg.skewCapBps > 0 && s.cfg.markets > 0 && s.totalShares > 0 && s.totalAssets > 0
    requires Underlying(shares, s.totalShares, s.totalAssets) == Some(s.totalAssets - left)
    requires SkewAllows(s, shares, openInterest).Ok? && openInterest >= 0 && left > 0
    ensures Min(openInterest * 10_000, I128_MAX) <= Min(left * s.cfg.skewCapBps, I128_MAX)
  {
    MulMonotone(0, 0, left, s.cfg.skewCapBps);
  }

  lemma {:induction false} WithdrawStages(
    s: SlpState, user: Address, shares: i128, now: u64, openInterest: i128, calls: bool, r: SlpState, paid: int)
    requires Withdraw(s, user, shares, now, openInterest, calls) == Ok((r, paid))
    ensures SkewAllows(s, shares, openInterest).Ok? && s.totalShares != 0
    ensures InI128(r.totalAssets)
    ensures Underlying(shares, s.totalShares, s.totalAssets) == Some(s.totalAssets - r.totalAssets)
  {
  }

  /** With a skew cap, an accepted withdrawal leaves assets that carry the open interest: unless nothing is left, the
      open interest is at most the cap's share of what is, a product that leaves i128 counting as the largest i128. */
  lemma {:induction false} WithdrawalKeepsCover(
    s: SlpState, user: Address, shares: i128, now: u64, openInterest: i128, calls: bool, r: SlpState, paid: int)
    requires s.cfg.skewCapBps > 0 && s.cfg.markets > 0 && s.totalAssets > 0
    requires Withdraw(s, user, shares, now, openInterest, calls) == Ok((r, paid))
    ensures openInterest >= 0 && r.totalAssets > 0 && s.totalShares > 0 ==>
              Min(openInterest * 10_000, I128_MAX) <= Min(r.totalAssets * s.cfg.skewCapBps, I128_MAX)
  {
    WithdrawStages(s, user, shares, now, openInterest, calls, r, paid);
    if openInterest >= 0 && r.totalAssets > 0 && s.totalShares > 0 {
      SkewCovers(s, shares, openInterest, r.totalAssets);
    }
  }

  // ----- the cool-down -----

  /** No deposit of this account comes before time t. */
  predicate DepositsFrom(ops: seq<SlpOp>, user: Address, t: u64) {
    forall i :: 0 <= i < |ops| && ops[i].DoDeposit? && ops[i].user == user ==> ops[i].now >= t
  }

  lemma {:induction false} StepKeepsUnlock(s: SlpState, op: SlpOp, user: Address, t: u64)
    requires op.DoDeposit? && op.user == user ==> op.now >= t
    requires Get(s.unlockAt, user) >= Min(t + s.cfg.cooldownSecs, 18_446_744_073_709_551_615)
    ensures Step(s, op).cfg == s.cfg
    ensures Get(Step(s, op).unlockAt, user) >= Min(t + s.cfg.cooldownSecs, 18_446_744_073_709_551_615)
  {
  }

  lemma {:induction false} RunKeepsUnlock(s: SlpState, ops: seq<SlpOp>, user: Address, t: u64)
    requires DepositsFrom(ops, user, t)
    requires Get(s.unlockAt, user) >= Min(t + s.cfg.cooldownSecs, 18_446_744_073_709_551_615)
    ensures Get(Run(s, ops).unlockAt, user) >= Min(t + s.cfg.cooldownSecs, 18_446_744_073_709_551_615)
    decreases |ops|
  {
    if ops != [] {
      StepKeepsUnlock(s, ops[0], user, t);
      assert forall i :: 0 <= i < |ops[1..]| ==> ops[1..][i] == ops[i + 1];
      RunKeepsUnlock(Step(s, ops[0]), ops[1..], user, t);
    }
  }

  /** After a deposit at time t and any run of calls, the depositor withdraws nothing before the cool-down is over. */
  lemma {:induction false} CooldownHolds(
    s: SlpState, user: Address, native: i128, t: u64, calls: bool, r: SlpState, ops: seq<SlpOp>, shares: i128, now: u64,
    openInterest: i128)
    requires Deposit(s, user, native, t, calls) == Ok(r) && DepositsFrom(ops, user, t)
    requires Withdraw(Run(r, ops), user, shares, now, openInterest, true).Ok?
    ensures now >= Min(t + s.cfg.cooldownSecs, 18_446_744_073_709_551_615)
  {
    RunKeepsUnlock(r, ops, user, t);
  }
}
