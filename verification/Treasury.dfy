/** The fee treasury as one ledger (stellax-treasury/src/lib.rs). */
module Treasury {
  import opened Int128
  import opened Host
  import opened FixedPoint

  /** `Panic` is a failed transfer, a failed call into another contract, or an unchecked operation that overflows. */
  datatype TreasuryError = InvalidAmount | InvalidConfig | UnauthorizedSource | InsufficientBalance | StakingNotSet
      | Panic

  /** The counters of one token. */
  datatype Ledger = Ledger(pending: i128, treasury: i128, staker: i128, insuranceSent: i128, referralPaid: i128)

  datatype Splits = Splits(insuranceBps: u32, treasuryBps: u32, stakerBps: u32)

  datatype Target = Target(softCap: i128, hardCap: i128)

  datatype Settings = Settings(
    insuranceCap: i128, splits: Splits, sources: seq<Address>, target: Option<Target>,
    hasRisk: bool, hasStaking: bool, hasReferrals: bool)

  datatype TreasuryState = TreasuryState(settings: Settings, ledgers: map<Address, Ledger>)

  type SettingsResult = Result<Settings, TreasuryError>
  type LedgerResult = Result<Ledger, TreasuryError>
  type TreasuryResult = Result<TreasuryState, TreasuryError>

  const EMPTY: Ledger := Ledger(0, 0, 0, 0, 0)

  function LedgerOf(s: TreasuryState, token: Address): Ledger {
    if token in s.ledgers then s.ledgers[token] else EMPTY
  }

  /** An operation on one token writes that token's counters only. */
  function Write(s: TreasuryState, token: Address, r: LedgerResult): TreasuryResult {
    if r.Ok? then Ok(s.(ledgers := s.ledgers[token := r.value])) else Err(r.error)
  }

  function Configure(s: TreasuryState, r: SettingsResult): TreasuryResult {
    if r.Ok? then Ok(s.(settings := r.value)) else Err(r.error)
  }

  function UpdateSplit(c: Settings, splits: Splits): SettingsResult {
    var _ :- Need(splits.insuranceBps + splits.treasuryBps + splits.stakerBps < TWO_32, Panic);
    var _ :- Need(splits.insuranceBps + splits.treasuryBps + splits.stakerBps == BPS_DENOMINATOR, InvalidConfig);
    Ok(c.(splits := splits))
  }

  function SetTarget(c: Settings, target: Target): SettingsResult {
    var _ :- Need(0 <= target.softCap <= target.hardCap, InvalidConfig);
    Ok(c.(target := Some(target)))
  }

  function Book(l: Ledger, residual: i128, rebate: i128): LedgerResult {
    var _ :- Need(InI128(l.pending + residual) && InI128(l.referralPaid + rebate), Panic);
    Ok(l.(pending := l.pending + residual, referralPaid := l.referralPaid + rebate))
  }

  function CollectFee(c: Settings, l: Ledger, source: Address, amount: i128): LedgerResult {
    var _ :- Need(amount > 0, InvalidAmount);
    var _ :- Need(source in c.sources, UnauthorizedSource);
    Book(l, amount, 0)
  }

  /** The referrer's share, given the rate the registry reports for the trader, if there is a referrer. */
  function Rebate(hasReferrals: bool, amount: i128, rate: Option<u32>): Option<i128> {
    if hasReferrals && rate.Some? && 0 < rate.value <= BPS_DENOMINATOR then
      var rebate :- ApplyBps(amount, rate.value);
      Some(Min(rebate, amount))
    else Some(0)
  }

  /** `collect_fee_with_trader`; `calls` tells whether the transfers and the calls it makes succeed. */
  function CollectFeeWithTrader(
    c: Settings, l: Ledger, source: Address, notional: i128, amount: i128, rate: Option<u32>, calls: bool): LedgerResult
  {
    var _ :- Need(amount > 0 && notional >= 0, InvalidAmount);
    var _ :- Need(source in c.sources, UnauthorizedSource);
    var rebate := Rebate(c.hasReferrals, amount, rate);
    var _ :- Need(rebate.Some? && InI128(amount - rebate.value) && (c.hasReferrals ==> calls), Panic);
    Book(l, amount - rebate.value, rebate.value)
  }

  /** The share of the insurance fund given its live balance: full, half, or none. */
  function InsuranceBps(full: u32, hasRisk: bool, target: Option<Target>, live: i128): u32 {
    if hasRisk && target.Some? then
      if live < target.value.softCap then full else if live < target.value.hardCap then full / 2 else 0
    else full
  }

  datatype Portions = Portions(insurance: i128, treasury: i128, staker: i128)

  /** Insurance up to what its cap leaves, the excess to the treasury, the rest to the stakers. */
  function Split(pending: i128, insuranceBps: u32, treasuryBps: u32, room: nat): Option<Portions> {
    var rawInsurance :- ApplyBps(pending, insuranceBps);
    var insurance := Min(rawInsurance, room);
    var rawTreasury :- ApplyBps(pending, treasuryBps);
    var overflow :- Checked(rawInsurance - insurance);
    var treasury :- Checked(rawTreasury + overflow);
    var rest :- Checked(pending - insurance);
    var staker :- Checked(rest - treasury);
    if InI128(insurance) then Some(Portions(insurance, treasury, staker)) else None
  }

  /** The portions of everything pending, written; the insurance portion is sent at once. */
  function Distributed(l: Ledger, p: Portions, calls: bool): LedgerResult {
    var sent := if p.insurance > 0 then l.insuranceSent + p.insurance else l.insuranceSent;
    var _ :- Need(InI128(sent) && (p.insurance > 0 ==> calls), Panic);
    var _ :- Need(InI128(l.treasury + p.treasury) && InI128(l.staker + p.staker), Panic);
    Ok(Ledger(0, l.treasury + p.treasury, l.staker + p.staker, sent, l.referralPaid))
  }

  function Distribute(c: Settings, l: Ledger, live: i128, calls: bool): LedgerResult {
    if l.pending == 0 then Ok(l)
    else
      var _ :- Need(InI128(c.insuranceCap - l.insuranceSent), Panic);
      var insuranceBps := InsuranceBps(c.splits.insuranceBps, c.hasRisk, c.target, live);
      var parts := Split(l.pending, insuranceBps, c.splits.treasuryBps, Max(c.insuranceCap - l.insuranceSent, 0));
      var _ :- Need(parts.Some?, Panic);
      Distributed(l, parts.value, calls)
  }

  function WithdrawTreasury(l: Ledger, amount: i128, calls: bool): LedgerResult {
    var _ :- Need(amount > 0, InvalidAmount);
    var _ :- Need(l.treasury >= amount, InsufficientBalance);
    var _ :- Need(calls, Panic);
    Ok(l.(treasury := l.treasury - amount))
  }

  function FlushStakerRewards(c: Settings, l: Ledger, calls: bool): LedgerResult {
    var _ :- Need(c.hasStaking, StakingNotSet);
    if l.staker <= 0 then Ok(l)
    else
      var _ :- Need(calls, Panic);
      Ok(l.(staker := 0))
  }

  class TreasuryContract {
    const insuranceCap: i128
    var splits: Splits
    var sources: seq<Address>
    var target: Option<Target>
    var hasRisk: bool
    var hasStaking: bool
    var hasReferrals: bool
    var ledgers: map<Address, Ledger>

    ghost function Config(): Settings
      reads this
    {
      Settings(insuranceCap, splits, sources, target, hasRisk, hasStaking, hasReferrals)
    }

    ghost function Model(): TreasuryState
      reads this
    {
      TreasuryState(Config(), ledgers)
    }

    constructor (cap: i128)
      ensures Model() == TreasuryState(Settings(cap, Splits(6000, 2000, 2000), [], None, false, false, false), map[])
    {
      insuranceCap, splits, sources, target := cap, Splits(6000, 2000, 2000), [], None;
      hasRisk, hasStaking, hasReferrals, ledgers := false, false, false, map[];
    }

    /** The allow-list scan. */
    method IsSource(source: Address) returns (found: bool)
      ensures found <==> source in sources
    {
      for i := 0 to |sources|
        invariant source !in sources[..i]
      {
        if sources[i] == source {
          return true;
        }
      }
      return false;
    }

    method Read(token: Address) returns (l: Ledger)
      ensures l == LedgerOf(Model(), token)
    {
      l := Ledger(0, 0, 0, 0, 0);
      if token in ledgers {
        l := ledgers[token];
      }
    }

    method DoUpdateSplit(s: Splits) returns (r: Result<(), TreasuryError>)
      modifies this
      ensures r == Status(Configure(old(Model()), UpdateSplit(old(Config()), s)))
      ensures Model() == After(old(Model()), Configure(old(Model()), UpdateSplit(old(Config()), s)))
    {
      var sum := s.insuranceBps + s.treasuryBps + s.stakerBps;
      if sum >= TWO_32 {
        return Err(Panic);
      }
      if sum != BPS_DENOMINATOR {
        return Err(InvalidConfig);
      }
      splits := s;
      return Ok(());
    }

    method DoCollectFee(source: Address, token: Address, amount: i128) returns (r: Result<(), TreasuryError>)
      modifies this
      ensures r == Status(Write(old(Model()), token,
          CollectFee(old(Config()), LedgerOf(old(Model()), token), source, amount)))
      ensures Model() == After(old(Model()),
          Write(old(Model()), token, CollectFee(old(Config()), LedgerOf(old(Model()), token), source, amount)))
    {
      if amount <= 0 {
        return Err(InvalidAmount);
      }
      var allowed := IsSource(source);
      if !allowed {
        return Err(UnauthorizedSource);
      }
      var l := Read(token);
      if !InI128(l.pending + amount) {
        return Err(Panic);
      }
      ledgers := ledgers[token := l.(pending := l.pending + amount)];
      return Ok(());
    }

    method DoCollectFeeWithTrader(
      source: Address, token: Address, notional: i128, amount: i128, rate: Option<u32>, calls: bool)
      returns (r: Result<(), TreasuryError>)
      modifies this
      ensures r == Status(Write(old(Model()), token,
        CollectFeeWithTrader(old(Config()), LedgerOf(old(Model()), token), source, notional, amount, rate, calls)))
      ensures Model() == After(old(Model()), Write(old(Model()), token,
        CollectFeeWithTrader(old(Config()), LedgerOf(old(Model()), token), source, notional, amount, rate, calls)))
    {
      if amount <= 0 || notional < 0 {
        return Err(InvalidAmount);
      }
      var allowed := IsSource(source);
      if !allowed {
        return Err(UnauthorizedSource);
      }
      var rebate := Rebate(hasReferrals, amount, rate);
      if rebate.None? || !InI128(amount - rebate.value) || (hasReferrals && !calls) {
        return Err(Panic);
      }
      var l := Read(token);
      if !InI128(l.referralPaid + rebate.value) || !InI128(l.pending + (amount - rebate.value)) {
        return Err(Panic);
      }
      l := l.(referralPaid := l.referralPaid + rebate.value);
      l := l.(pending := l.pending + (amount - rebate.value));
      ledgers := ledgers[token := l];
      return Ok(());
    }

    method DoDistribute(token: Address, live: i128, calls: bool) returns (r: Result<(), TreasuryError>)
      modifies this
      ensures r == Status(Write(old(Model()), token,
          Distribute(old(Config()), LedgerOf(old(Model()), token), live, calls)))
      ensures Model() == After(old(Model()),
          Write(old(Model()), token, Distribute(old(Config()), LedgerOf(old(Model()), token), live, calls)))
    {
      var l := Read(token);
      if l.pending == 0 {
        ledgers := ledgers[token := l];
        return Ok(());
      }
      if !InI128(insuranceCap - l.insuranceSent) {
        return Err(Panic);
      }
      var room: nat := Max(insuranceCap - l.insuranceSent, 0);
      var insuranceBps := InsuranceBps(splits.insuranceBps, hasRisk, target, live);
      var parts := Split(l.pending, insuranceBps, splits.treasuryBps, room);
      if parts.None? {
        return Err(Panic);
      }
      var written := WritePortions(l, parts.value, calls);
      if written.Err? {
        return Err(written.error);
      }
      ledgers := ledgers[token := written.value];
      return Ok(());
    }

    /** The counters one after the other, the insurance portion sent first. */
    static method WritePortions(before: Ledger, p: Portions, calls: bool) returns (r: LedgerResult)
      ensures r == Distributed(before, p, calls)
    {
      var l := before;
      if p.insurance > 0 {
        if !InI128(l.insuranceSent + p.insurance) || !calls {
          return Err(Panic);
        }
        l := l.(insuranceSent := l.insuranceSent + p.insurance);
      }
      if !InI128(l.treasury + p.treasury) || !InI128(l.staker + p.staker) {
        return Err(Panic);
      }
      l := l.(treasury := l.treasury + p.treasury);
      l := l.(staker := l.staker + p.staker);
      l := l.(pending := 0);
      return Ok(l);
    }

    method DoWithdrawTreasury(token: Address, amount: i128, calls: bool) returns (r: Result<(), TreasuryError>)
      modifies this
      ensures r == Status(Write(old(Model()), token, WithdrawTreasury(LedgerOf(old(Model()), token), amount, calls)))
      ensures Model() == After(old(Model()),
          Write(old(Model()), token, WithdrawTreasury(LedgerOf(old(Model()), token), amount, calls)))
    {
      if amount <= 0 {
        return Err(InvalidAmount);
      }
      var l := Read(token);
      if l.treasury < amount {
        return Err(InsufficientBalance);
      }
      if !calls {
        return Err(Panic);
      }
      ledgers := ledgers[token := l.(treasury := l.treasury - amount)];
      return Ok(());
    }

    method DoFlushStakerRewards(token: Address, calls: bool) returns (r: Result<i128, TreasuryError>)
      modifies this
      ensures Model() == After(old(Model()),
          Write(old(Model()), token, FlushStakerRewards(old(Config()), LedgerOf(old(Model()), token), calls)))
      ensures r == match Write(old(Model()), token,
          FlushStakerRewards(old(Config()), LedgerOf(old(Model()), token), calls))
                   case Err(e) => Err(e)
                   case Ok(_) => Ok(Max(LedgerOf(old(Model()), token).staker, 0))
    {
      if !hasStaking {
        return Err(StakingNotSet);
      }
      var l := Read(token);
      if l.staker <= 0 {
        ledgers := ledgers[token := l];
        return Ok(0);
      }
      if !calls {
        return Err(Panic);
      }
      ledgers := ledgers[token := l.(staker := 0)];
      return Ok(l.staker);
    }
  }

  // ----- the split -----

  lemma {:induction false} Share(pending: nat, bps: nat)
    requires pending <= I128_MAX && bps <= BPS_DENOMINATOR
    ensures ApplyBps(pending, bps) == Some(pending * bps / BPS_DENOMINATOR)
    ensures 0 <= pending * bps / BPS_DENOMINATOR <= pending
  {
    MulMonotone(pending, bps, pending, BPS_DENOMINATOR);
    MulMonotone(0, 0, pending, bps);
    QuotientBelow(pending * bps, BPS_DENOMINATOR, 0);
    QuotientAbove(pending * bps, BPS_DENOMINATOR, pending);
  }

  /** Every portion is non-negative, they add up to what was pending, insurance respects its cap, and the stakers
      get their share exactly, up to the two roundings, which go to them. */
  lemma {:induction false} SplitSound(pending: i128, insuranceBps: u32, treasuryBps: u32, room: nat)
    requires 0 <= pending && insuranceBps + treasuryBps <= BPS_DENOMINATOR
    ensures Split(pending, insuranceBps, treasuryBps, room).Some?
    ensures var p := Split(pending, insuranceBps, treasuryBps, room).value;
            && 0 <= p.insurance <= room && 0 <= p.treasury && 0 <= p.staker
            && p.insurance + p.treasury + p.staker == pending
            && 0 <= p.staker * BPS_DENOMINATOR - pending * (BPS_DENOMINATOR - insuranceBps - treasuryBps)
                 < 2 * BPS_DENOMINATOR
  {
    Share(pending, insuranceBps);
    Share(pending, treasuryBps);
    var a, b := pending * insuranceBps, pending * treasuryBps;
    assert pending * (BPS_DENOMINATOR - insuranceBps - treasuryBps) == pending * BPS_DENOMINATOR - a - b;
    assert a + b <= pending * BPS_DENOMINATOR by {
      assert a + b == pending * (insuranceBps + treasuryBps);
      MulMonotone(pending, insuranceBps + treasuryBps, pending, BPS_DENOMINATOR);
    }
    TwoFloors(a, b, pending);
  }

  lemma {:induction false} TwoFloors(a: nat, b: nat, pending: nat)
    requires a + b <= pending * BPS_DENOMINATOR
    ensures var rest := pending - a / BPS_DENOMINATOR - b / BPS_DENOMINATOR;
            0 <= rest * BPS_DENOMINATOR - (pending * BPS_DENOMINATOR - a - b) < 2 * BPS_DENOMINATOR && rest >= 0
  {
  }

  // ----- runs -----

  datatype TreasuryOp =
    | SetSplits(splits: Splits)
    | SetCaps(target: Target)
    | Wire(risk: bool, staking: bool, referrals: bool, sources: seq<Address>)
    | Collect(source: Address, token: Address, amount: i128)
    | CollectFor(source: Address, token: Address, notional: i128, amount: i128, rate: Option<u32>, calls: bool)
    | DistributeFees(token: Address, live: i128, calls: bool)
    | WithdrawTo(token: Address, amount: i128, calls: bool)
    | Flush(token: Address, calls: bool)

  /** The settings an operation leaves. */
  function SettingsEffect(c: Settings, op: TreasuryOp): SettingsResult {
    match op
    case SetSplits(splits) => UpdateSplit(c, splits)
    case SetCaps(target) => SetTarget(c, target)
    case Wire(risk, staking, referrals, sources) =>
      Ok(c.(hasRisk := risk, hasStaking := staking, hasReferrals := referrals, sources := sources))
    case _ => Ok(c)
  }

  /** The ledger an operation leaves of the token it is on. */
  function LedgerEffect(c: Settings, l: Ledger, op: TreasuryOp): LedgerResult {
    match op
    case Collect(source, _, amount) => CollectFee(c, l, source, amount)
    case CollectFor(source, _, notional, amount, rate, calls) =>
      CollectFeeWithTrader(c, l, source, notional, amount, rate, calls)
    case DistributeFees(_, live, calls) => Distribute(c, l, live, calls)
    case WithdrawTo(_, amount, calls) => WithdrawTreasury(l, amount, calls)
    case Flush(_, calls) => FlushStakerRewards(c, l, calls)
    case _ => Ok(l)
  }

  function TokenOf(op: TreasuryOp): Option<Address> {
    match op
    case Collect(_, t, _) => Some(t)
    case CollectFor(_, t, _, _, _, _) => Some(t)
    case DistributeFees(t, _, _) => Some(t)
    case WithdrawTo(t, _, _) => Some(t)
    case Flush(t, _) => Some(t)
    case _ => None
  }

  function Step(s: TreasuryState, op: TreasuryOp): TreasuryState {
    if TokenOf(op).Some? then
      var t := TokenOf(op).value;
      After(s, Write(s, t, LedgerEffect(s.settings, LedgerOf(s, t), op)))
    else After(s, Configure(s, SettingsEffect(s.settings, op)))
  }

  function Run(s: TreasuryState, ops: seq<TreasuryOp>): TreasuryState
    decreases |ops|
  {
    if ops == [] then s else Run(Step(s, ops[0]), ops[1..])
  }

  /** What came in and what went out for good. */
  datatype Flow = Flow(received: int, rebates: int, withdrawn: int, flushed: int)

  const NOTHING: Flow := Flow(0, 0, 0, 0)

  /** The tokens one operation moves. */
  function FlowOf(c: Settings, l: Ledger, op: TreasuryOp): Flow {
    if LedgerEffect(c, l, op).Err? then NOTHING
    else match op
      case Collect(_, _, amount) => Flow(amount, 0, 0, 0)
      case CollectFor(_, _, _, amount, rate, _) => Flow(amount, Rebate(c.hasReferrals, amount, rate).value, 0, 0)
      case WithdrawTo(_, amount, _) => Flow(0, 0, amount, 0)
      case Flush(_, _) => Flow(0, 0, 0, Max(l.staker, 0))
      case _ => NOTHING
  }

  function Plus(f: Flow, g: Flow): Flow {
    Flow(f.received + g.received, f.rebates + g.rebates, f.withdrawn + g.withdrawn, f.flushed + g.flushed)
  }

  /** The tokens a run moves. */
  function Flows(s: TreasuryState, ops: seq<TreasuryOp>, token: Address): Flow
    decreases |ops|
  {
    if ops == [] then NOTHING
    else
      var first := if TokenOf(ops[0]) == Some(token) then FlowOf(s.settings, LedgerOf(s, token), ops[0]) else NOTHING;
      Plus(first, Flows(Step(s, ops[0]), ops[1..], token))
  }

  /** The splits add up. */
  predicate SoundSettings(c: Settings) {
    && c.insuranceCap >= 0
    && c.splits.insuranceBps + c.splits.treasuryBps + c.splits.stakerBps == BPS_DENOMINATOR
  }

  /** No counter is negative, and the insurance fund has not been sent more than its cap. */
  predicate SoundLedger(l: Ledger, cap: i128) {
    && 0 <= l.pending && 0 <= l.treasury && 0 <= l.staker && 0 <= l.referralPaid
    && 0 <= l.insuranceSent <= cap
  }

  /** What the buckets hold, with what went to the insurance fund. */
  function Held(l: Ledger): int { l.pending + l.treasury + l.staker + l.insuranceSent }

  /** Fees received are held, or were paid as rebates, withdrawn or flushed. */
  predicate Balances(l: Ledger, l': Ledger, f: Flow) {
    && Held(l') + f.rebates + f.withdrawn + f.flushed == Held(l) + f.received
    && l'.referralPaid == l.referralPaid + f.rebates
  }

  lemma {:induction false} DistributedMoves(l: Ledger, p: Portions, calls: bool, cap: i128, l': Ledger)
    requires SoundLedger(l, cap) && Distributed(l, p, calls) == Ok(l')
    requires 0 <= p.insurance <= cap - l.insuranceSent && 0 <= p.treasury && 0 <= p.staker
    requires p.insurance + p.treasury + p.staker == l.pending
    ensures SoundLedger(l', cap) && Balances(l, l', NOTHING)
  {
  }

  lemma {:induction false} DistributeMoves(c: Settings, l: Ledger, live: i128, calls: bool)
    requires SoundSettings(c) && SoundLedger(l, c.insuranceCap) && Distribute(c, l, live, calls).Ok?
    ensures var l' := Distribute(c, l, live, calls).value;
            SoundLedger(l', c.insuranceCap) && Balances(l, l', NOTHING)
  {
    if l.pending != 0 {
      var p := PortionsOf(c, l, live);
      assert Distribute(c, l, live, calls) == Distributed(l, p, calls);
      DistributedMoves(l, p, calls, c.insuranceCap, Distributed(l, p, calls).value);
    }
  }

  /** The portions of a distribution are non-negative, complete, and inside the cap. */
  lemma {:induction false} PortionsOf(c: Settings, l: Ledger, live: i128) returns (p: Portions)
    requires SoundSettings(c) && SoundLedger(l, c.insuranceCap)
    ensures Split(l.pending, InsuranceBps(c.splits.insuranceBps, c.hasRisk, c.target, live), c.splits.treasuryBps,
                  Max(c.insuranceCap - l.insuranceSent, 0)) == Some(p)
    ensures 0 <= p.insurance <= c.insuranceCap - l.insuranceSent && 0 <= p.treasury && 0 <= p.staker
    ensures p.insurance + p.treasury + p.staker == l.pending
  {
    var bps := InsuranceBps(c.splits.insuranceBps, c.hasRisk, c.target, live);
    var room := c.insuranceCap - l.insuranceSent;
    SplitSound(l.pending, bps, c.splits.treasuryBps, room);
    p := Split(l.pending, bps, c.splits.treasuryBps, room).value;
  }

  lemma {:induction false} RebateBounds(hasReferrals: bool, amount: i128, rate: Option<u32>)
    requires amount > 0
    ensures Rebate(hasReferrals, amount, rate).Some? ==> 0 <= Rebate(hasReferrals, amount, rate).value <= amount
  {
    if rate.Some? && rate.value <= BPS_DENOMINATOR {
      Share(amount, rate.value);
    }
  }

  lemma {:induction false} CollectMoves(
    c: Settings, l: Ledger, source: Address, notional: i128, amount: i128, rate: Option<u32>, calls: bool)
    requires SoundLedger(l, c.insuranceCap) && CollectFeeWithTrader(c, l, source, notional, amount, rate, calls).Ok?
    ensures var l' := CollectFeeWithTrader(c, l, source, notional, amount, rate, calls).value;
            SoundLedger(l', c.insuranceCap)
            && Balances(l, l', Flow(amount, Rebate(c.hasReferrals, amount, rate).value, 0, 0))
  {
    RebateBounds(c.hasReferrals, amount, rate);
  }

  /** An operation keeps the ledger of its token sound, and changes it by the tokens it moves. */
  lemma {:induction false} LedgerStep(c: Settings, l: Ledger, op: TreasuryOp)
    requires SoundSettings(c) && SoundLedger(l, c.insuranceCap)
    ensures var l' := After(l, LedgerEffect(c, l, op));
            SoundLedger(l', c.insuranceCap) && Balances(l, l', FlowOf(c, l, op))
  {
    if LedgerEffect(c, l, op).Ok? {
      match op
      case CollectFor(source, _, notional, amount, rate, calls) =>
        CollectMoves(c, l, source, notional, amount, rate, calls);
      case DistributeFees(_, live, calls) => DistributeMoves(c, l, live, calls);
      case _ =>
    }
  }

  /** With a referral rate the referrer gets exactly that share of the fee, rounded down; the rest becomes pending. */
  lemma {:induction false} ReferralOutcome(
    c: Settings, l: Ledger, source: Address, notional: i128, amount: i128, rate: Option<u32>, calls: bool, l': Ledger)
    requires CollectFeeWithTrader(c, l, source, notional, amount, rate, calls) == Ok(l')
    ensures amount > 0 && source in c.sources
    ensures var rebate := if c.hasReferrals && rate.Some?
        && rate.value <= 10_000 then amount * rate.value / 10_000 else 0;
            && l'.pending == l.pending + amount - rebate && l'.referralPaid == l.referralPaid + rebate
            && l'.treasury == l.treasury && l'.staker == l.staker && l'.insuranceSent == l.insuranceSent
  {
    if c.hasReferrals && rate.Some? && 0 < rate.value <= 10_000 {
      Share(amount, rate.value);
    }
  }

  /** The insurance fund's share by its live balance: full below the soft cap, half below the hard cap, nothing above;
      always full without a risk engine or a target. */
  lemma {:induction false} DistributionOutcome(c: Settings, l: Ledger, live: i128, calls: bool, l': Ledger)
    requires SoundSettings(c) && SoundLedger(l, c.insuranceCap) && Distribute(c, l, live, calls) == Ok(l')
    ensures var full := c.splits.insuranceBps;
            var share := if !c.hasRisk || c.target.None? || live < c.target.value.softCap then full
                         else if live < c.target.value.hardCap then full / 2
                         else 0;
            var due := l.pending * share / 10_000;
            var sent := Min(due, c.insuranceCap - l.insuranceSent);
            var kept := l.pending * c.splits.treasuryBps / 10_000 + due - sent;
            && l'.pending == 0 && l'.insuranceSent == l.insuranceSent + sent
            && l'.treasury == l.treasury + kept && l'.staker == l.staker + l.pending - sent - kept
            && l'.referralPaid == l.referralPaid
  {
    var bps := InsuranceBps(c.splits.insuranceBps, c.hasRisk, c.target, live);
    if l.pending != 0 {
      Share(l.pending, bps);
      Share(l.pending, c.splits.treasuryBps);
    }
  }

  /** The more the fund holds, the smaller its share. */
  lemma {:induction false} ShareFalls(full: u32, hasRisk: bool, target: Option<Target>, live: i128, more: i128)
    requires live <= more
    ensures InsuranceBps(full, hasRisk, target, more) <= InsuranceBps(full, hasRisk, target, live) <= full
  {
  }

  lemma {:induction false} SettingsStaySound(c: Settings, op: TreasuryOp)
    requires SoundSettings(c)
    ensures SoundSettings(After(c, SettingsEffect(c, op)))
    ensures After(c, SettingsEffect(c, op)).insuranceCap == c.insuranceCap
  {
  }

  /** What a step does to the ledger of any token. */
  lemma {:induction false} StepBalances(s: TreasuryState, op: TreasuryOp, token: Address, l: Ledger, m: Ledger)
    returns (f: Flow)
    requires SoundSettings(s.settings) && SoundLedger(l, s.settings.insuranceCap)
    requires l == LedgerOf(s, token) && m == LedgerOf(Step(s, op), token)
    ensures f == if TokenOf(op) == Some(token) then FlowOf(s.settings, LedgerOf(s, token), op) else NOTHING
    ensures SoundLedger(m, s.settings.insuranceCap) && Balances(l, m, f)
    ensures SoundSettings(Step(s, op).settings) && Step(s, op).settings.insuranceCap == s.settings.insuranceCap
  {
    f := if TokenOf(op) == Some(token) then FlowOf(s.settings, l, op) else NOTHING;
    SettingsStaySound(s.settings, op);
    StepOnToken(s, op, token, l, m);
    LedgerStep(s.settings, l, op);
  }

  lemma {:induction false} BalancesAdd(l: Ledger, m: Ledger, n: Ledger, f: Flow, g: Flow)
    requires Balances(l, m, f) && Balances(m, n, g)
    ensures Balances(l, n, Plus(f, g))
  {
  }

  /** Over every run, whatever the splits, caps and live insurance balance do: fees received, less the rebates, are
      pending, in a bucket, sent to insurance, withdrawn or flushed; no bucket is negative; and the insurance fund
      never gets more than its cap. */
  lemma {:induction false} LedgerBalances(
    s: TreasuryState, ops: seq<TreasuryOp>, token: Address, l: Ledger, l': Ledger, total: Flow)
    requires SoundSettings(s.settings) && SoundLedger(l, s.settings.insuranceCap)
    requires l == LedgerOf(s, token) && l' == LedgerOf(Run(s, ops), token) && total == Flows(s, ops, token)
    ensures SoundLedger(l', s.settings.insuranceCap)
    ensures Balances(l, l', total)
    decreases |ops|
  {
    if ops != [] {
      var next := Step(s, ops[0]);
      var m, rest := LedgerOf(next, token), Flows(next, ops[1..], token);
      var f := StepBalances(s, ops[0], token, l, m);
      assert total == Plus(f, rest);
      LedgerBalances(next, ops[1..], token, m, l', rest);
      BalancesAdd(l, m, l', f, rest);
    }
  }

  lemma {:induction false} StepOnToken(s: TreasuryState, op: TreasuryOp, token: Address, l: Ledger, m: Ledger)
    requires l == LedgerOf(s, token) && m == LedgerOf(Step(s, op), token)
    ensures m == if TokenOf(op) == Some(token) then After(l, LedgerEffect(s.settings, l, op)) else l
    ensures Step(s, op).settings == After(s.settings, SettingsEffect(s.settings, op))
  {
  }
}
