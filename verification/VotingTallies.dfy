/** Whose stakes the two tallies of a proposal are: read off the calls of a run. */
module VotingTallies {
  import opened Int128
  import opened Host
  import opened MapSums
  import opened Staking
  import opened Governor
  import opened VotingRuns

  /** The vote of this account is taken: an active proposal inside its window, a first vote, and a stake from an epoch
      before the snapshot. */
  predicate Takes(w: World, voter: Address, id: u64) {
    && w.gov.params.Some? && id in w.gov.proposals
    && var p := w.gov.proposals[id];
       && p.status == Active
       && w.ledger < Min(p.createdLedger + w.gov.params.value.votingLedgers, 4_294_967_295)
       && (id, voter) !in w.gov.voted
       && voter in w.staking.stakes && w.staking.stakes[voter].amount > 0
       && w.staking.stakes[voter].stakeEpoch < p.snapshotEpoch
  }

  /** The stake a call adds to one side of a proposal. */
  function Cast(w: World, op: Op, id: u64, side: bool): (stake: nat)
    ensures stake <= I128_MAX
  {
    if op.Vote? && op.id == id && op.support == side && Takes(w, op.voter, id) then w.staking.stakes[op.voter].amount
    else 0
  }

  /** The stakes, each as it was when its holder voted, of all votes a run takes on one side of a proposal. */
  function CastBy(w: World, ops: seq<Op>, id: u64, side: bool): nat
    requires w.staking.epochSecs > 0
    decreases |ops|
  {
    if ops == [] then 0 else Cast(w, ops[0], id, side) + CastBy(Step(w, ops[0]), ops[1..], id, side)
  }

  /** What the proposal shows for a side. */
  function Shown(g: GovState, id: u64, side: bool): int {
    if id !in g.proposals then 0 else if side then g.proposals[id].votesFor else g.proposals[id].votesAgainst
  }

  /** Ids are used in order, and no tally is negative. */
  ghost predicate Sound(g: GovState) {
    forall id :: id in g.proposals ==> id <= g.count && Shown(g, id, true) >= 0 && Shown(g, id, false) >= 0
  }

  lemma {:induction false} VoteShows(w: World, op: Op, id: u64, side: bool)
    requires w.staking.epochSecs > 0 && op.Vote? && Sound(w.gov)
    ensures Shown(Step(w, op).gov, id, side) == Min(Shown(w.gov, id, side) + Cast(w, op, id, side), I128_MAX)
    ensures Sound(Step(w, op).gov)
  {
  }

  lemma {:induction false} OtherCallsShow(w: World, op: Op, id: u64, side: bool)
    requires w.staking.epochSecs > 0 && !op.Vote? && Sound(w.gov)
    ensures Shown(Step(w, op).gov, id, side) == Shown(w.gov, id, side)
    ensures Sound(Step(w, op).gov)
  {
  }

  /** From any state with ids in order: each side gains exactly the stakes of the votes taken on it, up to i128. */
  lemma {:induction false} RunShows(w: World, ops: seq<Op>, id: u64, side: bool)
    requires w.staking.epochSecs > 0 && Sound(w.gov)
    ensures Shown(Run(w, ops).gov, id, side) == Min(Shown(w.gov, id, side) + CastBy(w, ops, id, side), I128_MAX)
    ensures Sound(Run(w, ops).gov)
    decreases |ops|
  {
    if ops != [] {
      if ops[0].Vote? {
        VoteShows(w, ops[0], id, side);
      } else {
        OtherCallsShow(w, ops[0], id, side);
      }
      RunShows(Step(w, ops[0]), ops[1..], id, side);
    }
  }

  // ----- while epochs fit, nothing is capped -----

  lemma {:induction false} VoteFits(w: World, h: map<u64, Record>, voter: Address, id: u64)
    requires Inv(w, h) && Takes(w, voter, id)
    ensures var p := w.gov.proposals[id];
            p.votesFor + p.votesAgainst + w.staking.stakes[voter].amount <= p.totalStakeSnapshot
  {
    var weight, r := w.staking.stakes[voter].amount, h[id];
    assert Explained(w, id, r);
    SumUpdate(r.weights, Plain(), voter, weight);
    SumAtMost(r.weights[voter := weight], Plain(), r.stakes, Plain());
  }

  lemma {:induction false} StepShowsExactly(w: World, h: map<u64, Record>, op: Op, id: u64, side: bool)
    requires Inv(w, h) && Sound(w.gov)
    ensures Shown(Step(w, op).gov, id, side) == Shown(w.gov, id, side) + Cast(w, op, id, side)
  {
    if op.Vote? {
      VoteShows(w, op, id, side);
      if Cast(w, op, id, side) > 0 {
        VoteFits(w, h, op.voter, id);
      }
    } else {
      OtherCallsShow(w, op, id, side);
    }
  }

  lemma {:induction false} RunShowsExactly(w: World, h: map<u64, Record>, ops: seq<Op>, id: u64, side: bool)
    requires Inv(w, h) && Sound(w.gov) && EpochsFit(Run(w, ops))
    ensures Shown(Run(w, ops).gov, id, side) == Shown(w.gov, id, side) + CastBy(w, ops, id, side)
    decreases |ops|
  {
    if ops != [] {
      EpochMonotone(w.staking, Run(w, ops).staking, w.now, Run(w, ops).now);
      StepShowsExactly(w, h, ops[0], id, side);
      StepSound(w, ops[0], id);
      var next := StepKeepsInv(w, h, ops[0]);
      RunShowsExactly(Step(w, ops[0]), next, ops[1..], id, side);
    }
  }

  lemma {:induction false} StepSound(w: World, op: Op, id: u64)
    requires w.staking.epochSecs > 0 && Sound(w.gov)
    ensures Sound(Step(w, op).gov)
  {
    if op.Vote? {
      VoteShows(w, op, id, true);
    } else {
      OtherCallsShow(w, op, id, true);
    }
  }

  /** After any run from an empty system whose epochs fit, the votes for a proposal are the stakes of exactly the
      accounts
      whose vote in support was taken, each stake as it was at that moment, and the votes against likewise. Epochs that
      no longer fit can only cap the sums at the largest i128. */
  lemma {:induction false} TalliesAreStakes(
    zero: u64, secs: u64, multisig: seq<Address>, threshold: u32, now: nat, ledger: u32, ops: seq<Op>, id: u64)
    requires secs > 0
    ensures var w := Genesis(zero, secs, multisig, threshold, now, ledger);
            var g, yes, no := Run(w, ops).gov, CastBy(w, ops, id, true), CastBy(w, ops, id, false);
            id in g.proposals ==>
              && g.proposals[id].votesFor == Min(yes, I128_MAX) && g.proposals[id].votesAgainst == Min(no, I128_MAX)
              && (EpochsFit(Run(w, ops)) ==>
                    g.proposals[id].votesFor == yes && g.proposals[id].votesAgainst == no
                    && yes + no <= g.proposals[id].totalStakeSnapshot)
  {
    var w := Genesis(zero, secs, multisig, threshold, now, ledger);
    RunShows(w, ops, id, true);
    RunShows(w, ops, id, false);
    if EpochsFit(Run(w, ops)) && id in Run(w, ops).gov.proposals {
      RunShowsExactly(w, map[], ops, id, true);
      RunShowsExactly(w, map[], ops, id, false);
      VotesNeverExceedSnapshot(zero, secs, multisig, threshold, now, ledger, ops, id);
    }
  }

  // ----- verdicts -----

  /** What a tally after a run decides, from the votes the run took. */
  lemma {:induction false} VerdictFollowsVotes(
    zero: u64, secs: u64, multisig: seq<Address>, threshold: u32, now: nat, ledger: u32, ops: seq<Op>, id: u64,
    g: GovState)
    requires secs > 0 && EpochsFit(Run(Genesis(zero, secs, multisig, threshold, now, ledger), ops))
    requires var r := Run(Genesis(zero, secs, multisig, threshold, now, ledger), ops);
        Tally(r.gov, id, r.ledger) == Ok(g)
    ensures var w := Genesis(zero, secs, multisig, threshold, now, ledger);
            var yes, no := CastBy(w, ops, id, true), CastBy(w, ops, id, false);
            && id in g.proposals && Run(w, ops).gov.params.Some? && id in Run(w, ops).gov.proposals
            && var params, snapshot := Run(w, ops).gov.params.value, g.proposals[id].totalStakeSnapshot;
               && (g.proposals[id].status == Passed || g.proposals[id].status == Failed)
               && (g.proposals[id].status == Passed <==>
                     && yes + no > 0 && (yes + no + 1) * 10_000 > Min(snapshot * params.quorumBps, I128_MAX)
                     && (yes * 10_000 >= (yes + no) * params.passBps || yes * 10_000 >= I128_MAX))
               && (yes == 0 && params.passBps > 0 ==> g.proposals[id].status == Failed)
  {
    var r := Run(Genesis(zero, secs, multisig, threshold, now, ledger), ops);
    TalliesAreStakes(zero, secs, multisig, threshold, now, ledger, ops, id);
    TallyIsExact(r.gov.proposals[id], r.gov.params.value);
    var total := r.gov.proposals[id].votesFor + r.gov.proposals[id].votesAgainst;
    if total > 0 && r.gov.params.value.passBps > 0 {
      MulMonotone(1, 1, total, r.gov.params.value.passBps);
    }
  }

  // ----- execution -----

  /** Only a passed proposal is executed, once its window and then the timelock are over, and its action takes effect.
      */
  lemma {:induction false} ExecutionOutcome(g: GovState, id: u64, ledger: u32, upgrades: bool, g': GovState)
    requires Execute(g, id, ledger, upgrades) == Ok(g')
    ensures id in g.proposals && g.params.Some? && g.proposals[id].status == Passed
    ensures var p, last := g.proposals[id], 4_294_967_295;
            && ledger >= Min(Min(p.createdLedger + g.params.value.votingLedgers, last)
                             + g.params.value.timelockLedgers, last)
            && g'.proposals == g.proposals[id := p.(status := Executed)]
            && g'.voted == g.voted && g'.params == g.params && g'.count == g.count
            && (p.action == PauseProtocol ==> g'.paused) && (p.action == UnpauseProtocol ==> !g'.paused)
            && (p.action != PauseProtocol && p.action != UnpauseProtocol ==> g'.paused == g.paused)
            && (p.action.UpgradeContract? ==> p.action.calldataLength == 32 && upgrades)
            && (if p.action == TransferAdmin then
                  g.pendingAdmin == Some((g'.multisig, g'.threshold)) && g'.pendingAdmin == None
                else
                  g'.multisig == g.multisig && g'.threshold == g.threshold && g'.pendingAdmin == g.pendingAdmin)
  {
  }
}
