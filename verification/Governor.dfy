/** Stake-weighted proposals of the governor (stellax-governor/src/lib.rs). */
module Governor {
  import opened Int128
  import opened Host
  import opened Staking

  datatype GovernorError =
    | ProposalNotFound | TimelockNotExpired | AlreadyExecuted | InvalidCalldata | StakingNotConfigured
    | NotEligibleVoter | AlreadyVoted | ProposalNotActive | VotingPeriodActive | PassThresholdNotMet
    | InvalidGovParams | NoStake | Unauthorized | MathOverflow | UpgradeFailed

  datatype Status = Active | Passed | Failed | Executed | Cancelled

  /** What a proposal does when executed; `Notify` is every action that only emits an event. */
  datatype Action = PauseProtocol | UnpauseProtocol | UpgradeContract(calldataLength: nat) | TransferAdmin | Notify

  datatype Proposal = Proposal(
    proposer: Address, action: Action, createdLedger: u32, snapshotEpoch: u32, totalStakeSnapshot: i128,
    votesFor: i128, votesAgainst: i128, status: Status)

  datatype GovParams = GovParams(votingLedgers: u32, timelockLedgers: u32, quorumBps: u32, passBps: u32)

  datatype GovState = GovState(
    multisig: seq<Address>, threshold: u32, pendingAdmin: Option<(seq<Address>, u32)>, paused: bool,
    params: Option<GovParams>, count: u64, proposals: map<u64, Proposal>, voted: set<(u64, Address)>)

  type GovResult = Result<GovState, GovernorError>

  function Deadline(p: Proposal, params: GovParams): u32 {
    SaturateU32(p.createdLedger + params.votingLedgers)
  }

  function Configure(g: GovState, caller: Address, params: GovParams): GovResult {
    var _ :- Need(caller in g.multisig, Unauthorized);
    var _ :- Need(params.votingLedgers > 0 && params.quorumBps <= BPS_DENOMINATOR && params.passBps <= BPS_DENOMINATOR,
                  InvalidGovParams);
    Ok(g.(params := Some(params)))
  }

  /** Stage the signer set that a TransferAdmin proposal will install. */
  function QueueAdminTransfer(g: GovState, caller: Address, signers: seq<Address>, threshold: u32): GovResult {
    var _ :- Need(caller in g.multisig, Unauthorized);
    Ok(g.(pendingAdmin := Some((signers, threshold))))
  }

  /** The documentation also asks for a stake from an earlier epoch; the code checks only that it is positive. */
  function CreateProposal(
    g: GovState, s: StakingState, proposer: Address, action: Action, now: nat, ledger: u32): GovResult
    requires s.epochSecs > 0
  {
    var _ :- Need(g.params.Some?, StakingNotConfigured);
    var _ :- Need(StakeAmount(s, proposer) > 0, NoStake);
    var _ :- Need(g.count + 1 < TWO_64, GovernorError.MathOverflow);
    var p := Proposal(proposer, action, ledger, CurrentEpoch(s, now), s.totalStaked, 0, 0, Active);
    Ok(g.(count := g.count + 1, proposals := g.proposals[g.count + 1 := p]))
  }

  function Support(p: Proposal, support: bool, weight: i128): Proposal {
    if support then p.(votesFor := Saturate(p.votesFor + weight))
    else p.(votesAgainst := Saturate(p.votesAgainst + weight))
  }

  function CastVote(g: GovState, s: StakingState, voter: Address, id: u64, support: bool, ledger: u32): GovResult {
    var _ :- Need(g.params.Some?, StakingNotConfigured);
    var _ :- Need(id in g.proposals, ProposalNotFound);
    var p := g.proposals[id];
    var _ :- Need(p.status == Active, ProposalNotActive);
    var _ :- Need(ledger < Deadline(p, g.params.value), VotingPeriodActive);
    var _ :- Need((id, voter) !in g.voted, AlreadyVoted);
    var _ :- Need(StakeEpoch(s, voter) < p.snapshotEpoch, NotEligibleVoter);
    var _ :- Need(StakeAmount(s, voter) > 0, NotEligibleVoter);
    Ok(Voted(g, voter, id, support, StakeAmount(s, voter)))
  }

  /** The effect of an accepted vote. */
  function Voted(g: GovState, voter: Address, id: u64, support: bool, weight: i128): GovState
    requires id in g.proposals
  {
    g.(proposals := g.proposals[id := Support(g.proposals[id], support, weight)], voted := g.voted + {(id, voter)})
  }

  /** Quorum and majority, with the saturating products of the code. */
  function Carries(p: Proposal, params: GovParams): bool {
    var turnout := Saturate(p.votesFor + p.votesAgainst);
    && turnout >= TruncDiv(Saturate(p.totalStakeSnapshot * params.quorumBps), BPS_DENOMINATOR)
    && turnout != 0
    && Saturate(p.votesFor * BPS_DENOMINATOR) >= Saturate(turnout * params.passBps)
  }

  function Tally(g: GovState, id: u64, ledger: u32): GovResult {
    var _ :- Need(id in g.proposals, ProposalNotFound);
    var p := g.proposals[id];
    var _ :- Need(p.status == Active, ProposalNotActive);
    var _ :- Need(g.params.Some?, StakingNotConfigured);
    var _ :- Need(ledger >= Deadline(p, g.params.value), VotingPeriodActive);
    var verdict := if Carries(p, g.params.value) then Passed else Failed;
    Ok(g.(proposals := g.proposals[id := p.(status := verdict)]))
  }

  /** `dispatch_action`. `upgrades` tells whether the target contract accepts the upgrade; its new code is outside
      this model. */
  function Dispatch(g: GovState, action: Action, upgrades: bool): GovResult {
    match action
    case PauseProtocol => Ok(g.(paused := true))
    case UnpauseProtocol => Ok(g.(paused := false))
    case UpgradeContract(n) => if n != 32 then Err(InvalidCalldata) else if upgrades then Ok(g) else Err(UpgradeFailed)
    case TransferAdmin =>
      if g.pendingAdmin.None? then Err(InvalidCalldata)
      else Ok(g.(multisig := g.pendingAdmin.value.0, threshold := g.pendingAdmin.value.1, pendingAdmin := None))
    case Notify => Ok(g)
  }

  function NotPassed(status: Status): GovernorError
    requires status != Passed
  {
    match status
    case Executed => AlreadyExecuted
    case Active => VotingPeriodActive
    case Failed => PassThresholdNotMet
    case Cancelled => PassThresholdNotMet
  }

  function Execute(g: GovState, id: u64, ledger: u32, upgrades: bool): GovResult {
    var _ :- Need(id in g.proposals, ProposalNotFound);
    var p := g.proposals[id];
    if p.status != Passed then Err(NotPassed(p.status))
    else
      var _ :- Need(g.params.Some?, StakingNotConfigured);
      var _ :- Need(ledger >= SaturateU32(Deadline(p, g.params.value) + g.params.value.timelockLedgers),
          TimelockNotExpired);
      var done :- Dispatch(g, p.action, upgrades);
      Ok(done.(proposals := done.proposals[id := p.(status := Executed)]))
  }

  /** The staking contract is set together with the parameters and may be replaced with them. */
  class GovernorContract {
    var staking: StakingContract?
    var multisig: seq<Address>
    var threshold: u32
    var pendingAdmin: Option<(seq<Address>, u32)>
    var paused: bool
    var params: Option<GovParams>
    var count: u64
    var proposals: map<u64, Proposal>
    var voted: set<(u64, Address)>

    ghost function Model(): GovState
      reads this
    {
      GovState(multisig, threshold, pendingAdmin, paused, params, count, proposals, voted)
    }

    /** There are parameters only when there is a staking contract to read stakes from. */
    ghost predicate Valid()
      reads this, staking
    {
      (params.Some? ==> staking != null) && (staking != null ==> staking.epochSecs > 0)
    }

    constructor (multisig: seq<Address>, threshold: u32)
      ensures Model() == GovState(multisig, threshold, None, false, None, 0, map[], {}) && Valid()
    {
      this.staking, this.multisig, this.threshold := null, multisig, threshold;
      pendingAdmin, paused, params, count := None, false, None, 0;
      proposals, voted := map[], {};
    }

    /** `require_multisig_member`: a scan of the signer list. */
    method IsMember(caller: Address) returns (found: bool)
      ensures found <==> caller in multisig
    {
      for i := 0 to |multisig|
        invariant caller !in multisig[..i]
      {
        if multisig[i] == caller {
          return true;
        }
      }
      return false;
    }

    method DoConfigure(
      caller: Address, newStaking: StakingContract, p: GovParams) returns (r: Result<(), GovernorError>)
      requires Valid() && newStaking.epochSecs > 0
      modifies this
      ensures r == Host.Status(Configure(old(Model()), caller, p)) && Valid()
      ensures Model() == After(old(Model()), Configure(old(Model()), caller, p))
      ensures staking == if r.Ok? then newStaking else old(staking)
    {
      var member := IsMember(caller);
      if !member {
        return Err(Unauthorized);
      }
      if p.votingLedgers == 0 || p.quorumBps > BPS_DENOMINATOR || p.passBps > BPS_DENOMINATOR {
        return Err(InvalidGovParams);
      }
      staking, params := newStaking, Some(p);
      return Ok(());
    }

    method DoQueueAdminTransfer(
      caller: Address, signers: seq<Address>, limit: u32) returns (r: Result<(), GovernorError>)
      modifies this
      ensures r == Host.Status(QueueAdminTransfer(old(Model()), caller, signers, limit))
      ensures Model() == After(old(Model()), QueueAdminTransfer(old(Model()), caller, signers, limit))
      ensures unchanged(`staking)
    {
      var member := IsMember(caller);
      if !member {
        return Err(Unauthorized);
      }
      pendingAdmin := Some((signers, limit));
      return Ok(());
    }

    method DoCreateProposal(proposer: Address, action: Action, now: nat, ledger: u32)
      returns (r: Result<u64, GovernorError>)
      requires Valid()
      modifies this
      ensures Valid() && unchanged(`staking)
      ensures old(params).None? ==> r == Err(StakingNotConfigured) && Model() == old(Model())
      ensures old(params).Some? ==>
                var created := CreateProposal(old(Model()), staking.Model(), proposer, action, now, ledger);
                && Model() == After(old(Model()), created)
                && r == if created.Ok? then Ok(old(count) + 1) else Err(created.error)
    {
      if params.None? {
        return Err(StakingNotConfigured);
      }
      var stake := if proposer in staking.stakes then staking.stakes[proposer].amount else 0;
      if stake <= 0 {
        return Err(NoStake);
      }
      var epoch := staking.ComputeCurrentEpoch(now);
      if count + 1 >= TWO_64 {
        return Err(GovernorError.MathOverflow);
      }
      var id := count + 1;
      proposals := proposals[id := Proposal(proposer, action, ledger, epoch, staking.totalStaked, 0, 0, Active)];
      count := id;
      return Ok(id);
    }

    method DoCastVote(voter: Address, id: u64, support: bool, ledger: u32) returns (r: Result<(), GovernorError>)
      requires Valid()
      modifies this
      ensures Valid() && unchanged(`staking)
      ensures old(params).None? ==> r == Err(StakingNotConfigured) && Model() == old(Model())
      ensures old(params).Some? ==>
                var cast := CastVote(old(Model()), staking.Model(), voter, id, support, ledger);
                r == Host.Status(cast) && Model() == After(old(Model()), cast)
    {
      if params.None? {
        return Err(StakingNotConfigured);
      }
      if id !in proposals {
        return Err(ProposalNotFound);
      }
      var p := proposals[id];
      if p.status != Active {
        return Err(ProposalNotActive);
      }
      if ledger >= SaturateU32(p.createdLedger + params.value.votingLedgers) {
        return Err(VotingPeriodActive);
      }
      if (id, voter) in voted {
        return Err(AlreadyVoted);
      }
      var epoch := StakeEpoch(staking.Model(), voter);
      if epoch >= p.snapshotEpoch {
        return Err(NotEligibleVoter);
      }
      var weight := StakeAmount(staking.Model(), voter);
      if weight <= 0 {
        return Err(NotEligibleVoter);
      }
      if support {
        p := p.(votesFor := Saturate(p.votesFor + weight));
      } else {
        p := p.(votesAgainst := Saturate(p.votesAgainst + weight));
      }
      proposals := proposals[id := p];
      voted := voted + {(id, voter)};
      return Ok(());
    }

    method DoTally(id: u64, ledger: u32) returns (r: Result<Status, GovernorError>)
      modifies this
      ensures Model() == After(old(Model()), Tally(old(Model()), id, ledger)) && unchanged(`staking)
      ensures r == match Tally(old(Model()), id, ledger)
                   case Ok(g) => Ok(g.proposals[id].status)
                   case Err(e) => Err(e)
    {
      if id !in proposals {
        return Err(ProposalNotFound);
      }
      var p := proposals[id];
      if p.status != Active {
        return Err(ProposalNotActive);
      }
      if params.None? {
        return Err(StakingNotConfigured);
      }
      if ledger < SaturateU32(p.createdLedger + params.value.votingLedgers) {
        return Err(VotingPeriodActive);
      }
      var turnout := Saturate(p.votesFor + p.votesAgainst);
      var quorum := TruncDiv(Saturate(p.totalStakeSnapshot * params.value.quorumBps), BPS_DENOMINATOR);
      var majority := false;
      if turnout != 0 {
        majority := Saturate(p.votesFor * BPS_DENOMINATOR) >= Saturate(turnout * params.value.passBps);
      }
      p := p.(status := if turnout >= quorum && majority then Passed else Failed);
      proposals := proposals[id := p];
      return Ok(p.status);
    }

    method DoExecute(id: u64, ledger: u32, upgrades: bool) returns (r: Result<(), GovernorError>)
      modifies this
      ensures r == Host.Status(Execute(old(Model()), id, ledger, upgrades))
      ensures Model() == After(old(Model()), Execute(old(Model()), id, ledger, upgrades)) && unchanged(`staking)
    {
      if id !in proposals {
        return Err(ProposalNotFound);
      }
      var p := proposals[id];
      if p.status != Passed {
        return Err(NotPassed(p.status));
      }
      if params.None? {
        return Err(StakingNotConfigured);
      }
      var earliest := SaturateU32(Deadline(p, params.value) + params.value.timelockLedgers);
      if ledger < earliest {
        return Err(TimelockNotExpired);
      }
      r := DoDispatch(p.action, upgrades);
      if r.Err? {
        return;
      }
      p := p.(status := Executed);
      proposals := proposals[id := p];
      return Ok(());
    }

    method DoDispatch(action: Action, upgrades: bool) returns (r: Result<(), GovernorError>)
      modifies this
      ensures r == Host.Status(Dispatch(old(Model()), action, upgrades))
      ensures Model() == After(old(Model()), Dispatch(old(Model()), action, upgrades)) && unchanged(`staking)
    {
      match action {
        case PauseProtocol => paused := true;
        case UnpauseProtocol => paused := false;
        case UpgradeContract(n) =>
          if n != 32 {
            return Err(InvalidCalldata);
          }
          if !upgrades {
            return Err(UpgradeFailed);
          }
        case TransferAdmin =>
          if pendingAdmin.None? {
            return Err(InvalidCalldata);
          }
          multisig, threshold, pendingAdmin := pendingAdmin.value.0, pendingAdmin.value.1, None;
        case Notify =>
      }
      return Ok(());
    }
  }
}
