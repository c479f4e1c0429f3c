/** Epoch-based staking: the entries that carry vote weight (stellax-staking/src/lib.rs). */
module Staking {
  import opened Int128
  import opened Host
  import opened MapSums

  datatype StakingError = InvalidAmount | InsufficientStake | UnstakeLocked | MathOverflow

  datatype StakeEntry = StakeEntry(amount: i128, stakeEpoch: u32, lastClaimEpoch: u32)

  datatype StakingState = StakingState(
    totalStaked: i128, stakes: map<Address, StakeEntry>, epochZero: u64, epochSecs: u64)

  type StakingResult = Result<StakingState, StakingError>

  /** The epoch before it is cast to u32. */
  function RawEpoch(s: StakingState, now: nat): nat
    requires s.epochSecs > 0
  {
    Max(now - s.epochZero, 0) / s.epochSecs
  }

  /** `compute_current_epoch`: the `as u32` cast keeps the low 32 bits. */
  function CurrentEpoch(s: StakingState, now: nat): u32
    requires s.epochSecs > 0
  {
    RawEpoch(s, now) % TWO_32
  }

  function StakeAmount(s: StakingState, user: Address): i128 {
    if user in s.stakes then s.stakes[user].amount else 0
  }

  function StakeEpoch(s: StakingState, user: Address): u32 {
    if user in s.stakes then s.stakes[user].stakeEpoch else TWO_32 - 1
  }

  function Stake(s: StakingState, user: Address, amount: i128, now: nat): StakingResult
    requires s.epochSecs > 0
  {
    var _ :- Need(amount > 0, InvalidAmount);
    var epoch := CurrentEpoch(s, now);
    var entry := if user in s.stakes then s.stakes[user] else StakeEntry(0, epoch, epoch);
    var _ :- Need(InI128(entry.amount + amount), MathOverflow);
    var _ :- Need(InI128(s.totalStaked + amount), MathOverflow);
    Ok(s.(stakes := s.stakes[user := entry.(amount := entry.amount + amount, stakeEpoch := epoch)],
          totalStaked := s.totalStaked + amount))
  }

  function Unstake(s: StakingState, user: Address, amount: i128, now: nat): StakingResult
    requires s.epochSecs > 0
  {
    var _ :- Need(amount > 0, InvalidAmount);
    var _ :- Need(user in s.stakes && s.stakes[user].amount >= amount, InsufficientStake);
    var entry := s.stakes[user];
    var _ :- Need(entry.stakeEpoch < CurrentEpoch(s, now), UnstakeLocked);
    var _ :- Need(InI128(entry.amount - amount) && InI128(s.totalStaked - amount), MathOverflow);
    Ok(s.(stakes := s.stakes[user := entry.(amount := entry.amount - amount)],
          totalStaked := s.totalStaked - amount))
  }

  function Amounts(): (Address, StakeEntry) -> int { (user: Address, e: StakeEntry) => e.amount }

  /** The books balance: no entry is negative and the total is their sum. */
  ghost predicate Balanced(s: StakingState) {
    && s.epochSecs > 0
    && (forall user :: user in s.stakes ==> s.stakes[user].amount >= 0)
    && s.totalStaked == Sum(s.stakes, Amounts())
  }

  lemma {:induction false} StakeKeepsBalance(s: StakingState, user: Address, amount: i128, now: nat)
    requires Balanced(s)
    ensures Balanced(After(s, Stake(s, user, amount, now)))
    ensures Balanced(After(s, Unstake(s, user, amount, now)))
  {
    var epoch := CurrentEpoch(s, now);
    var entry := if user in s.stakes then s.stakes[user] else StakeEntry(0, epoch, epoch);
    if Stake(s, user, amount, now).Ok? {
      SumUpdate(s.stakes, Amounts(), user, entry.(amount := entry.amount + amount, stakeEpoch := epoch));
    }
    if Unstake(s, user, amount, now).Ok? {
      SumUpdate(s.stakes, Amounts(), user, entry.(amount := entry.amount - amount));
    }
  }

  class StakingContract {
    const epochZero: u64
    const epochSecs: u64
    var totalStaked: i128
    var stakes: map<Address, StakeEntry>

    function Model(): StakingState
      reads this
    {
      StakingState(totalStaked, stakes, epochZero, epochSecs)
    }

    constructor (zero: u64, secs: u64)
      ensures Model() == StakingState(0, map[], zero, secs)
    {
      epochZero, epochSecs := zero, secs;
      totalStaked, stakes := 0, map[];
    }

    method ComputeCurrentEpoch(now: nat) returns (epoch: u32)
      requires epochSecs > 0
      ensures epoch == CurrentEpoch(Model(), now)
    {
      var elapsed := if now < epochZero then 0 else now - epochZero;
      epoch := (elapsed / epochSecs) % TWO_32;
    }

    method DoStake(user: Address, amount: i128, now: nat) returns (r: Result<(), StakingError>)
      requires epochSecs > 0
      modifies this
      ensures r == Status(Stake(old(Model()), user, amount, now))
      ensures Model() == After(old(Model()), Stake(old(Model()), user, amount, now))
    {
      if amount <= 0 {
        return Err(InvalidAmount);
      }
      var epoch := ComputeCurrentEpoch(now);
      var entry := StakeEntry(0, epoch, epoch);
      if user in stakes {
        entry := stakes[user];
      }
      if !InI128(entry.amount + amount) || !InI128(totalStaked + amount) {
        return Err(MathOverflow);
      }
      entry := entry.(amount := entry.amount + amount);
      entry := entry.(stakeEpoch := epoch);
      stakes := stakes[user := entry];
      totalStaked := totalStaked + amount;
      return Ok(());
    }

    method DoUnstake(user: Address, amount: i128, now: nat) returns (r: Result<(), StakingError>)
      requires epochSecs > 0
      modifies this
      ensures r == Status(Unstake(old(Model()), user, amount, now))
      ensures Model() == After(old(Model()), Unstake(old(Model()), user, amount, now))
    {
      if amount <= 0 {
        return Err(InvalidAmount);
      }
      var epoch := ComputeCurrentEpoch(now);
      if user !in stakes {
        return Err(InsufficientStake);
      }
      var entry := stakes[user];
      if entry.amount < amount {
        return Err(InsufficientStake);
      }
      if entry.stakeEpoch >= epoch {
        return Err(UnstakeLocked);
      }
      if !InI128(entry.amount - amount) || !InI128(totalStaked - amount) {
        return Err(MathOverflow);
      }
      entry := entry.(amount := entry.amount - amount);
      stakes := stakes[user := entry];
      totalStaked := totalStaked - amount;
      return Ok(());
    }
  }
}
