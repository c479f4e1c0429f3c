/** The voting protocol as one state machine: staking, time and proposals in any interleaving. */
module VotingRuns {
  import opened Int128
  import opened Host
  import opened MapSums
  import opened Staking
  import opened Governor

  datatype World = World(staking: StakingState, gov: GovState, now: nat, ledger: u32)

  datatype Op =
    | Advance(seconds: nat, ledgers: nat)
    | StakeMore(user: Address, amount: i128)
    | UnstakeSome(user: Address, amount: i128)
    | SetParams(caller: Address, params: GovParams)
    | QueueAdmin(caller: Address, signers: seq<Address>, threshold: u32)
    | Propose(proposer: Address, action: Action)
    | Vote(voter: Address, id: u64, support: bool)
    | TallyVotes(id: u64)
    | ExecuteProposal(id: u64, upgrades: bool)

  /** One transaction; a failed one leaves the world as it was. */
  function Step(w: World, op: Op): World
    requires w.staking.epochSecs > 0
  {
    match op
    case Advance(s, l) => w.(now := w.now + s, ledger := SaturateU32(w.ledger + l))
    case StakeMore(u, a) => w.(staking := After(w.staking, Stake(w.staking, u, a, w.now)))
    case UnstakeSome(u, a) => w.(staking := After(w.staking, Unstake(w.staking, u, a, w.now)))
    case SetParams(c, p) => w.(gov := After(w.gov, Configure(w.gov, c, p)))
    case QueueAdmin(c, s, t) => w.(gov := After(w.gov, QueueAdminTransfer(w.gov, c, s, t)))
    case Propose(p, a) => w.(gov := After(w.gov, CreateProposal(w.gov, w.staking, p, a, w.now, w.ledger)))
    case Vote(v, id, yes) => w.(gov := After(w.gov, CastVote(w.gov, w.staking, v, id, yes, w.ledger)))
    case TallyVotes(id) => w.(gov := After(w.gov, Tally(w.gov, id, w.ledger)))
    case ExecuteProposal(id, ok) => w.(gov := After(w.gov, Execute(w.gov, id, w.ledger, ok)))
  }

  function Run(w: World, ops: seq<Op>): (r: World)
    requires w.staking.epochSecs > 0
    ensures r.staking.epochSecs == w.staking.epochSecs && r.staking.epochZero == w.staking.epochZero
    ensures r.now >= w.now
    decreases |ops|
  {
    if ops == [] then w else Run(Step(w, ops[0]), ops[1..])
  }

  function Genesis(zero: u64, secs: u64, multisig: seq<Address>, threshold: u32, now: nat, ledger: u32): World {
    World(StakingState(0, map[], zero, secs), GovState(multisig, threshold, None, false, None, 0, map[], {}), now,
        ledger)
  }

  /** The `as u32` cast of the epoch loses nothing yet. */
  ghost predicate EpochsFit(w: World)
    requires w.staking.epochSecs > 0
  {
    RawEpoch(w.staking, w.now) < TWO_32
  }

  // ----- the invariant -----

  /** What a proposal owes its history: every account's stake when it was created, and the weight each voter cast. */
  datatype Record = Record(stakes: map<Address, int>, weights: map<Address, int>)

  function Plain(): (Address, int) -> int { (user: Address, amount: int) => amount }

  /** Accounts that have not staked since the snapshot hold no more than they did then. */
  ghost predicate OnlyShrunk(s: StakingState, p: Proposal, r: Record) {
    forall user :: user in s.stakes && s.stakes[user].stakeEpoch < p.snapshotEpoch ==>
      user in r.stakes && s.stakes[user].amount <= r.stakes[user]
  }

  ghost predicate VotesExplained(g: GovState, id: u64, p: Proposal, r: Record) {
    && (forall user :: user in r.stakes ==> 0 <= r.stakes[user])
    && p.totalStakeSnapshot == Sum(r.stakes, Plain())
    && (forall user :: user in r.weights ==> user in r.stakes && 0 <= r.weights[user] <= r.stakes[user])
    && (forall user :: user in r.weights <==> (id, user) in g.voted)
    && 0 <= p.votesFor && 0 <= p.votesAgainst
    && p.votesFor + p.votesAgainst == Sum(r.weights, Plain())
  }

  ghost predicate Explained(w: World, id: u64, r: Record)
    requires w.staking.epochSecs > 0 && id in w.gov.proposals
  {
    var p := w.gov.proposals[id];
    && p.snapshotEpoch <= RawEpoch(w.staking, w.now)
    && OnlyShrunk(w.staking, p, r)
    && VotesExplained(w.gov, id, p, r)
  }

  ghost predicate Inv(w: World, h: map<u64, Record>) {
    && Balanced(w.staking)
    && (forall id :: id in w.gov.proposals ==> id in h && Explained(w, id, h[id]))
    && Numbered(w.gov)
  }

  /** Ids are fresh: proposals are numbered up to the count, and only proposals have voters. */
  ghost predicate Numbered(g: GovState) {
    && (forall id :: id in g.proposals ==> id <= g.count)
    && (forall v :: v in g.voted ==> v.0 in g.proposals)
  }

  /** Votes never exceed the snapshot: each address counts once, with at most the stake it then had. */
  lemma {:induction false} InvBoundsVotes(w: World, h: map<u64, Record>, id: u64)
    requires Inv(w, h) && id in w.gov.proposals
    ensures var p := w.gov.proposals[id];
            0 <= p.votesFor && 0 <= p.votesAgainst && p.votesFor + p.votesAgainst <= p.totalStakeSnapshot
  {
    assert Explained(w, id, h[id]);
    SumAtMost(h[id].weights, Plain(), h[id].stakes, Plain());
  }

  lemma {:induction false} EpochMonotone(s: StakingState, t: StakingState, early: nat, late: nat)
    requires s.epochSecs == t.epochSecs > 0 && s.epochZero == t.epochZero && early <= late
    ensures RawEpoch(s, early) <= RawEpoch(t, late)
  {
    DivMonotone(Max(early - s.epochZero, 0), Max(late - s.epochZero, 0), s.epochSecs);
  }

  /** A new stake is stamped with the current epoch, which disqualifies it from every open proposal; an
      unstake only shrinks the entry. */
  lemma {:induction false} StakingKeepsShrunk(
    w: World, t: StakingState, user: Address, amount: i128, p: Proposal, r: Record)
    requires Balanced(w.staking) && EpochsFit(w) && OnlyShrunk(w.staking, p, r)
    requires p.snapshotEpoch <= RawEpoch(w.staking, w.now)
    requires t == After(w.staking, Stake(w.staking, user, amount, w.now))
          || t == After(w.staking, Unstake(w.staking, user, amount, w.now))
    ensures OnlyShrunk(t, p, r)
  {
    assert CurrentEpoch(w.staking, w.now) == RawEpoch(w.staking, w.now);
  }

  lemma {:induction false} StakingStepKeepsInv(
    w: World, h: map<u64, Record>, t: StakingState, user: Address, amount: i128)
    requires Inv(w, h) && EpochsFit(w)
    requires t == After(w.staking, Stake(w.staking, user, amount, w.now))
          || t == After(w.staking, Unstake(w.staking, user, amount, w.now))
    ensures Inv(w.(staking := t), h)
  {
    StakeKeepsBalance(w.staking, user, amount, w.now);
    forall id | id in w.gov.proposals
      ensures Explained(w.(staking := t), id, h[id])
    {
      assert Explained(w, id, h[id]);
      StakingKeepsShrunk(w, t, user, amount, w.gov.proposals[id], h[id]);
    }
  }

  lemma {:induction false} AdvanceKeepsInv(w: World, h: map<u64, Record>, now: nat, ledger: u32)
    requires Inv(w, h) && w.now <= now
    ensures Inv(w.(now := now, ledger := ledger), h)
  {
    EpochMonotone(w.staking, w.staking, w.now, now);
    forall id | id in w.gov.proposals
      ensures Explained(w.(now := now, ledger := ledger), id, h[id])
    {
      assert Explained(w, id, h[id]);
    }
  }

  /** At most the status of proposals and the configuration differ. */
  ghost predicate SameVotes(g: GovState, g': GovState) {
    && g'.count == g.count && g'.voted == g.voted && g'.proposals.Keys == g.proposals.Keys
    && forall id :: id in g.proposals ==> g'.proposals[id] == g.proposals[id].(status := g'.proposals[id].status)
  }

  lemma {:induction false} QuietStepKeepsInv(w: World, h: map<u64, Record>, g: GovState)
    requires Inv(w, h) && SameVotes(w.gov, g)
    ensures Inv(w.(gov := g), h)
  {
    forall id | id in g.proposals
      ensures Explained(w.(gov := g), id, h[id])
    {
      assert Explained(w, id, h[id]);
    }
  }

  /** A new proposal starts with the stakes of that moment and no weights. */
  lemma {:induction false} ProposeKeepsInv(w: World, h: map<u64, Record>, proposer: Address, action: Action)
    returns (h': map<u64, Record>)
    requires Inv(w, h) && EpochsFit(w)
    ensures Inv(Step(w, Propose(proposer, action)), h')
  {
    var result := CreateProposal(w.gov, w.staking, proposer, action, w.now, w.ledger);
    if result.Err? {
      return h;
    }
    var id := w.gov.count + 1;
    var r := Record(Snapshot(w.staking), map[]);
    h' := h[id := r];
    var after := w.(gov := result.value);
    assert Explained(after, id, r) by {
      SnapshotExplains(w.staking);
      assert CurrentEpoch(w.staking, w.now) == RawEpoch(w.staking, w.now);
      assert Sum(r.weights, Plain()) == 0;
    }
    forall other | other in w.gov.proposals
      ensures other != id && Explained(after, other, h'[other])
    {
      assert Explained(w, other, h[other]);
    }
  }

  ghost function Snapshot(s: StakingState): map<Address, int> {
    map user | user in s.stakes :: s.stakes[user].amount
  }

  lemma {:induction false} SnapshotExplains(s: StakingState)
    requires Balanced(s)
    ensures Sum(Snapshot(s), Plain()) == s.totalStaked
  {
    SumSame(Snapshot(s), Plain(), s.stakes, Amounts());
  }

  /** The voter has not staked since the snapshot, holds a stake, and has not voted yet. */
  ghost predicate MayVote(w: World, voter: Address, id: u64) {
    && id in w.gov.proposals && (id, voter) !in w.gov.voted
    && voter in w.staking.stakes && w.staking.stakes[voter].amount > 0
    && w.staking.stakes[voter].stakeEpoch < w.gov.proposals[id].snapshotEpoch
  }

  lemma {:induction false} AcceptedVote(w: World, voter: Address, id: u64, support: bool)
    requires w.staking.epochSecs > 0
    ensures CastVote(w.gov, w.staking, voter, id, support, w.ledger).Ok? ==>
              MayVote(w, voter, id) &&
              Step(w, Vote(voter, id, support)).gov == Voted(w.gov, voter, id, support, w.staking.stakes[voter].amount)
  {
  }

  /** The weight of an eligible vote fits under the voter's snapshot stake, so nothing saturates. */
  lemma {:induction false} VoteExplained(w: World, voter: Address, id: u64, support: bool, r: Record)
    returns (r': Record)
    requires w.staking.epochSecs > 0 && MayVote(w, voter, id) && Explained(w, id, r)
    ensures Explained(w.(gov := Voted(w.gov, voter, id, support, w.staking.stakes[voter].amount)), id, r')
  {
    var weight := w.staking.stakes[voter].amount;
    assert voter in r.stakes && 0 < weight <= r.stakes[voter];
    assert voter !in r.weights;
    r' := r.(weights := r.weights[voter := weight]);
    SumUpdate(r.weights, Plain(), voter, weight);
    SumAtMost(r'.weights, Plain(), r.stakes, Plain());
  }

  lemma {:induction false} VoteLeavesOthers(w: World, r: Record, g: GovState, voter: Address, id: u64, other: u64)
    requires w.staking.epochSecs > 0 && other in w.gov.proposals && other != id && Explained(w, other, r)
    requires other in g.proposals && g.proposals[other] == w.gov.proposals[other]
    requires g.voted == w.gov.voted + {(id, voter)}
    ensures Explained(w.(gov := g), other, r)
  {
    assert forall user :: (other, user) in g.voted <==> (other, user) in w.gov.voted;
  }

  lemma {:induction false} VoteKeepsInv(w: World, h: map<u64, Record>, voter: Address, id: u64, support: bool)
    returns (h': map<u64, Record>)
    requires Inv(w, h) && MayVote(w, voter, id)
    ensures Inv(w.(gov := Voted(w.gov, voter, id, support, w.staking.stakes[voter].amount)), h')
  {
    var g := Voted(w.gov, voter, id, support, w.staking.stakes[voter].amount);
    assert Explained(w, id, h[id]);
    var r := VoteExplained(w, voter, id, support, h[id]);
    h' := h[id := r];
    forall other | other in w.gov.proposals && other != id
      ensures Explained(w.(gov := g), other, h'[other])
    {
      VoteLeavesOthers(w, h[other], g, voter, id, other);
    }
    assert Numbered(g);
  }

  ghost predicate IsQuiet(op: Op) {
    op.SetParams? || op.QueueAdmin? || op.TallyVotes? || op.ExecuteProposal?
  }

  lemma {:induction false} QuietOps(w: World, h: map<u64, Record>, op: Op)
    requires Inv(w, h) && IsQuiet(op)
    ensures Inv(Step(w, op), h)
  {
    QuietOpsKeepVotes(w, op);
    assert Step(w, op) == w.(gov := Step(w, op).gov);
    QuietStepKeepsInv(w, h, Step(w, op).gov);
  }

  lemma {:induction false} QuietOpsKeepVotes(w: World, op: Op)
    requires w.staking.epochSecs > 0 && IsQuiet(op)
    ensures SameVotes(w.gov, Step(w, op).gov)
  {
  }

  lemma {:induction false} OutsideOps(w: World, h: map<u64, Record>, op: Op)
    requires Inv(w, h) && EpochsFit(w) && (op.Advance? || op.StakeMore? || op.UnstakeSome?)
    ensures Inv(Step(w, op), h)
  {
    match op
    case Advance(s, l) => AdvanceKeepsInv(w, h, w.now + s, SaturateU32(w.ledger + l));
    case StakeMore(u, a) => StakingStepKeepsInv(w, h, Step(w, op).staking, u, a);
    case UnstakeSome(u, a) => StakingStepKeepsInv(w, h, Step(w, op).staking, u, a);
  }

  lemma {:induction false} StepKeepsInv(w: World, h: map<u64, Record>, op: Op) returns (h': map<u64, Record>)
    requires Inv(w, h) && EpochsFit(w)
    ensures Inv(Step(w, op), h')
  {
    h' := h;
    if IsQuiet(op) {
      QuietOps(w, h, op);
    } else if op.Propose? {
      h' := ProposeKeepsInv(w, h, op.proposer, op.action);
    } else if op.Vote? {
      AcceptedVote(w, op.voter, op.id, op.support);
      if CastVote(w.gov, w.staking, op.voter, op.id, op.support, w.ledger).Ok? {
        h' := VoteKeepsInv(w, h, op.voter, op.id, op.support);
      }
    } else {
      OutsideOps(w, h, op);
    }
  }

  lemma {:induction false} RunKeepsInv(w: World, h: map<u64, Record>, ops: seq<Op>) returns (h': map<u64, Record>)
    requires Inv(w, h) && EpochsFit(Run(w, ops))
    ensures Inv(Run(w, ops), h')
    decreases |ops|
  {
    if ops == [] {
      h' := h;
    } else {
      EpochMonotone(w.staking, Run(w, ops).staking, w.now, Run(w, ops).now);
      var next := StepKeepsInv(w, h, ops[0]);
      h' := RunKeepsInv(Step(w, ops[0]), next, ops[1..]);
    }
  }

  /** The safety of the vote: from an empty system, after any interleaving of stakes, unstakes, time and
      proposals, no proposal holds more votes than the stake it snapshotted. */
  lemma {:induction false} VotesNeverExceedSnapshot(
    zero: u64, secs: u64, multisig: seq<Address>, threshold: u32, now: nat, ledger: u32, ops: seq<Op>, id: u64)
    requires secs > 0
    requires EpochsFit(Run(Genesis(zero, secs, multisig, threshold, now, ledger), ops))
    requires id in Run(Genesis(zero, secs, multisig, threshold, now, ledger), ops).gov.proposals
    ensures var p := Run(Genesis(zero, secs, multisig, threshold, now, ledger), ops).gov.proposals[id];
            0 <= p.votesFor && 0 <= p.votesAgainst && p.votesFor + p.votesAgainst <= p.totalStakeSnapshot
  {
    var w := Genesis(zero, secs, multisig, threshold, now, ledger);
    var h := RunKeepsInv(w, map[], ops);
    InvBoundsVotes(Run(w, ops), h, id);
  }

  // ----- exactly when the bound holds -----

  /** No proposal holds more votes than the stake it snapshotted. */
  ghost predicate BoundKept(g: GovState) {
    forall id :: id in g.proposals ==>
      var p := g.proposals[id];
      0 <= p.votesFor && 0 <= p.votesAgainst && p.votesFor + p.votesAgainst <= p.totalStakeSnapshot
  }

  /** Every run that ends by the time t keeps the bound. */
  ghost predicate SafeUntil(w: World, t: nat)
    requires w.staking.epochSecs > 0
  {
    forall ops :: Run(w, ops).now <= t ==> BoundKept(Run(w, ops).gov)
  }

  lemma {:induction false} FitsUntil(w: World, ops: seq<Op>, t: nat)
    requires w.staking.epochSecs > 0 && Run(w, ops).now <= t && RawEpoch(w.staking, t) < TWO_32
    ensures EpochsFit(Run(w, ops))
  {
    EpochMonotone(Run(w, ops).staking, w.staking, Run(w, ops).now, t);
  }

  lemma {:induction false} SafeWhileEpochsFit(
    zero: u64, secs: u64, multisig: seq<Address>, threshold: u32, now: nat, ledger: u32, t: nat)
    requires secs > 0 && RawEpoch(Genesis(zero, secs, multisig, threshold, now, ledger).staking, t) < TWO_32
    ensures SafeUntil(Genesis(zero, secs, multisig, threshold, now, ledger), t)
  {
    var w := Genesis(zero, secs, multisig, threshold, now, ledger);
    forall ops | Run(w, ops).now <= t
      ensures BoundKept(Run(w, ops).gov)
    {
      FitsUntil(w, ops, t);
      forall id | id in Run(w, ops).gov.proposals
        ensures var p := Run(w, ops).gov.proposals[id];
                0 <= p.votesFor && 0 <= p.votesAgainst && p.votesFor + p.votesAgainst <= p.totalStakeSnapshot
      {
        VotesNeverExceedSnapshot(zero, secs, multisig, threshold, now, ledger, ops, id);
      }
    }
  }

  /** A governor nobody signs for is never configured. */
  predicate Unsigned(g: GovState) { g.multisig == [] && g.params.None? && g.proposals == map[] }

  lemma {:induction false} UnsignedStays(w: World, ops: seq<Op>)
    requires w.staking.epochSecs > 0 && Unsigned(w.gov)
    ensures Unsigned(Run(w, ops).gov)
    decreases |ops|
  {
    if ops != [] {
      UnsignedStays(Step(w, ops[0]), ops[1..]);
    }
  }

  /** At the last ledger number no voting window is open. */
  ghost predicate Closed(w: World) {
    && w.ledger == TWO_32 - 1 && Balanced(w.staking)
    && forall id :: id in w.gov.proposals ==>
         var p := w.gov.proposals[id]; p.votesFor == p.votesAgainst == 0 <= p.totalStakeSnapshot
  }

  lemma {:induction false} StaysClosed(w: World, op: Op)
    requires Closed(w)
    ensures Closed(Step(w, op))
  {
    match op
    case StakeMore(u, a) => StakeKeepsBalance(w.staking, u, a, w.now);
    case UnstakeSome(u, a) => StakeKeepsBalance(w.staking, u, a, w.now);
    case Propose(_, _) => SumNonNegative(w.staking.stakes, Amounts());
    case _ =>
  }

  lemma {:induction false} ClosedRun(w: World, ops: seq<Op>)
    requires Closed(w)
    ensures Closed(Run(w, ops))
    decreases |ops|
  {
    if ops != [] {
      StaysClosed(w, ops[0]);
      ClosedRun(Step(w, ops[0]), ops[1..]);
    }
  }

  lemma {:induction false} ClosedGenesis(w: World)
    requires w.ledger == TWO_32 - 1 && w.staking.epochSecs > 0 && w.staking.stakes == map[]
        && w.staking.totalStaked == 0
    requires w.gov.proposals == map[]
    ensures Closed(w)
  {
  }

  /** From an empty system whose clock starts before the epochs wrap: every run that ends by t keeps the bound exactly
      when the epoch at t still fits 32 bits, or nobody can configure the governor, or no ledger is left to vote in. */
  lemma {:induction false} SafeExactlyUntilEpochsWrap(
    zero: u64, secs: u64, multisig: seq<Address>, threshold: u32, now: nat, ledger: u32, t: nat)
    requires secs > 0 && EpochsFit(Genesis(zero, secs, multisig, threshold, now, ledger))
    ensures var w := Genesis(zero, secs, multisig, threshold, now, ledger);
            SafeUntil(w, t) <==> RawEpoch(w.staking, t) < TWO_32 || multisig == [] || ledger == TWO_32 - 1
  {
    var w := Genesis(zero, secs, multisig, threshold, now, ledger);
    if RawEpoch(w.staking, t) < TWO_32 {
      SafeWhileEpochsFit(zero, secs, multisig, threshold, now, ledger, t);
    } else if multisig == [] {
      forall ops
        ensures BoundKept(Run(w, ops).gov)
      {
        UnsignedStays(w, ops);
      }
    } else if ledger == TWO_32 - 1 {
      ClosedGenesis(w);
      forall ops
        ensures BoundKept(Run(w, ops).gov)
      {
        ClosedRun(w, ops);
      }
    } else {
      var a := multisig[0];
      var b := Address(a.id + 1);
      WrapReached(w.staking, t);
      WrappedVoteExceeds(zero, secs, multisig, threshold, now, ledger, a, b);
      assert Run(w, WrappingOps(zero, secs, now, a, b)).now <= t;
    }
  }

  lemma {:induction false} WrapReached(s: StakingState, t: nat)
    requires s.epochSecs > 0 && RawEpoch(s, t) >= TWO_32
    ensures EpochStart(s.epochZero, s.epochSecs, TWO_32) <= t
  {
    QuotientBelow(Max(t - s.epochZero, 0), s.epochSecs, TWO_32);
    MulMonotone(TWO_32, 1, TWO_32, s.epochSecs);
  }

  /** The time at which an epoch starts. */
  function EpochStart(zero: u64, secs: u64, epoch: nat): (t: nat)
    ensures t >= 0
  {
    MulMonotone(0, 0, epoch, secs);
    zero + epoch * secs
  }

  lemma {:induction false} StartedEpoch(s: StakingState, epoch: nat)
    requires s.epochSecs > 0
    ensures RawEpoch(s, EpochStart(s.epochZero, s.epochSecs, epoch)) == epoch
  {
    DivUnique(epoch * s.epochSecs, s.epochSecs, epoch) by {
      assert (epoch + 1) * s.epochSecs == epoch * s.epochSecs + s.epochSecs;
    }
  }

  /** The last moment the witness below proposes in: the last epoch that fits. */
  function ProposalTime(zero: u64, secs: u64, now: nat): nat { Max(now, EpochStart(zero, secs, TWO_32 - 1)) }

  function VoteTime(zero: u64, secs: u64, now: nat): nat {
    Max(ProposalTime(zero, secs, now), EpochStart(zero, secs, TWO_32))
  }

  lemma {:induction false} LastEpochs(s: StakingState, now: nat)
    requires s.epochSecs > 0 && RawEpoch(s, now) < TWO_32
    ensures RawEpoch(s, ProposalTime(s.epochZero, s.epochSecs, now)) == TWO_32 - 1
    ensures VoteTime(s.epochZero, s.epochSecs, now) == EpochStart(s.epochZero, s.epochSecs, TWO_32)
    ensures RawEpoch(s, VoteTime(s.epochZero, s.epochSecs, now)) == TWO_32
  {
    var last, wrap := EpochStart(s.epochZero, s.epochSecs, TWO_32 - 1), EpochStart(s.epochZero, s.epochSecs, TWO_32);
    StartedEpoch(s, TWO_32 - 1);
    StartedEpoch(s, TWO_32);
    if last <= now {
      EpochMonotone(s, s, last, now);
    }
    if wrap <= now {
      EpochMonotone(s, s, wrap, now);
      assert false;
    }
    assert wrap == last + s.epochSecs;
  }

  /** One account stakes and proposes in the last epoch that fits; another stakes just after, when the epoch has
      wrapped to zero, and its stake looks older than the proposal. */
  function WrappingOps(zero: u64, secs: u64, now: nat, a: Address, b: Address): seq<Op> {
    var proposed, voted := ProposalTime(zero, secs, now), VoteTime(zero, secs, now);
    [SetParams(a, GovParams(10, 0, 0, 0)), StakeMore(a, 1), Advance(proposed - now, 0), Propose(a, Notify),
     Advance(voted - proposed, 0), StakeMore(b, 2), Vote(b, 1, true), Advance(0, 0)]
  }

  lemma {:induction false} WrappedVoteExceeds(
    zero: u64, secs: u64, multisig: seq<Address>, threshold: u32, now: nat, ledger: u32, a: Address, b: Address)
    requires secs > 0 && EpochsFit(Genesis(zero, secs, multisig, threshold, now, ledger))
    requires a in multisig && a != b && ledger < TWO_32 - 1
    ensures var r := Run(Genesis(zero, secs, multisig, threshold, now, ledger), WrappingOps(zero, secs, now, a, b));
            r.now == EpochStart(zero, secs, TWO_32) && !BoundKept(r.gov)
  {
    var w, ops := Genesis(zero, secs, multisig, threshold, now, ledger), WrappingOps(zero, secs, now, a, b);
    LastEpochs(w.staking, now);
    var w4 := ProposedInTime(w, ops, a, ProposalTime(zero, secs, now));
    var voted := VoteTime(zero, secs, now);
    assert RawEpoch(w4.staking, voted) == RawEpoch(w.staking, voted);
    var w8 := VotedAfterWrap(w4, ops[4..], a, b, voted);
  }

  /** The first four steps. */
  lemma {:induction false} ProposedInTime(w: World, ops: seq<Op>, a: Address, proposed: nat) returns (w4: World)
    requires w.staking == StakingState(0, map[], w.staking.epochZero, w.staking.epochSecs) && w.staking.epochSecs > 0
    requires EpochsFit(w) && w.now <= proposed && RawEpoch(w.staking, proposed) == TWO_32 - 1
    requires a in w.gov.multisig && w.gov.proposals == map[] && w.gov.voted == {} && w.gov.count == 0
    requires |ops| >= 4
    requires ops[0] == SetParams(a, GovParams(10, 0, 0, 0)) && ops[1] == StakeMore(a, 1)
    requires ops[2] == Advance(proposed - w.now, 0) && ops[3] == Propose(a, Notify)
    ensures w4.staking.epochZero == w.staking.epochZero && w4.staking.epochSecs == w.staking.epochSecs
    ensures Run(w, ops) == Run(w4, ops[4..]) && w4.now == proposed && w4.ledger == w.ledger
    ensures w4.staking.stakes.Keys == {a} && w4.staking.totalStaked == 1
    ensures w4.gov.params == Some(GovParams(10, 0, 0, 0)) && w4.gov.voted == {}
    ensures w4.gov.proposals == map[1 := Proposal(a, Notify, w.ledger, TWO_32 - 1, 1, 0, 0, Active)]
  {
    var half := TwoSteps(w, ops);
    assert half.staking == StakingState(1, half.staking.stakes, w.staking.epochZero, w.staking.epochSecs);
    assert half.staking.stakes.Keys == {a} && half.staking.stakes[a].amount == 1;
    w4 := TwoSteps(half, ops[2..]);
    assert RawEpoch(half.staking, proposed) == TWO_32 - 1;
    assert ops[2..][2..] == ops[4..];
  }

  /** The last four: the second stake is stamped with epoch zero, and its vote counts. */
  lemma {:induction false} VotedAfterWrap(
    w: World, ops: seq<Op>, a: Address, b: Address, voted: nat) returns (w8: World)
    requires w.staking.epochSecs > 0 && w.staking.stakes.Keys == {a} && a != b && w.staking.totalStaked == 1
    requires w.now <= voted && RawEpoch(w.staking, voted) == TWO_32 && w.ledger < TWO_32 - 1
    requires w.gov.params == Some(GovParams(10, 0, 0, 0)) && w.gov.voted == {}
    requires w.gov.proposals == map[1 := Proposal(a, Notify, w.ledger, TWO_32 - 1, 1, 0, 0, Active)]
    requires ops == [Advance(voted - w.now, 0), StakeMore(b, 2), Vote(b, 1, true), Advance(0, 0)]
    ensures Run(w, ops) == w8 && w8.now == voted && !BoundKept(w8.gov)
  {
    var w6 := TwoSteps(w, ops);
    assert CurrentEpoch(w.staking, voted) == 0;
    assert w6.staking.stakes[b] == StakeEntry(2, 0, 0);
    w8 := TwoSteps(w6, ops[2..]);
    assert ops[2..][2..] == [];
    assert w8.gov.proposals[1].votesFor == 2;
  }

  /** Two steps of a run, taken one at a time. */
  lemma {:induction false} TwoSteps(w: World, ops: seq<Op>) returns (r: World)
    requires w.staking.epochSecs > 0 && |ops| >= 2
    ensures r == Step(Step(w, ops[0]), ops[1])
    ensures Run(w, ops) == Run(r, ops[2..])
  {
    var next := Step(w, ops[0]);
    r := Step(next, ops[1]);
    assert ops[1..][0] == ops[1] && ops[1..][1..] == ops[2..];
    assert Run(w, ops) == Run(next, ops[1..]);
    assert Run(next, ops[1..]) == Run(r, ops[2..]);
  }

  // ----- verdicts -----

  /** A proposal stays; once it is no longer active nothing about it changes, except Passed to Executed. */
  ghost predicate Progress(g: GovState, g': GovState, id: u64)
    requires id in g.proposals
  {
    && id in g'.proposals && g.count <= g'.count
    && var p, q := g.proposals[id], g'.proposals[id];
       p.status != Active ==>
         q == p.(status := q.status) && (q.status == p.status || (p.status == Passed && q.status == Executed))
  }

  lemma {:induction false} StepProgress(w: World, op: Op, id: u64)
    requires w.staking.epochSecs > 0 && id in w.gov.proposals && id <= w.gov.count
    ensures Progress(w.gov, Step(w, op).gov, id)
  {
  }

  /** Once tallied, a proposal's votes never change again, over any run, and its status can only become Executed. */
  lemma {:induction false} TalliedVotesAreFinal(w: World, ops: seq<Op>, id: u64)
    requires w.staking.epochSecs > 0 && id in w.gov.proposals && id <= w.gov.count
    ensures Progress(w.gov, Run(w, ops).gov, id)
    decreases |ops|
  {
    if ops != [] {
      StepProgress(w, ops[0], id);
      TalliedVotesAreFinal(Step(w, ops[0]), ops[1..], id);
    }
  }

  /** The tally for every proposal whose votes fit its snapshot: turnout reaches the quorum share of the snapshot, and
      the supporters reach the pass share of the turnout. A product that leaves i128 counts as the largest i128, so a
      large enough support passes by itself. */
  lemma {:induction false} TallyIsExact(p: Proposal, params: GovParams)
    requires 0 <= p.votesFor && 0 <= p.votesAgainst && p.votesFor + p.votesAgainst <= p.totalStakeSnapshot
    ensures Carries(p, params) <==>
            var turnout := p.votesFor + p.votesAgainst;
            && turnout > 0
            && (turnout + 1) * BPS_DENOMINATOR > Min(p.totalStakeSnapshot * params.quorumBps, I128_MAX)
            && (p.votesFor * BPS_DENOMINATOR >= turnout * params.passBps || p.votesFor * BPS_DENOMINATOR >= I128_MAX)
  {
    var turnout := p.votesFor + p.votesAgainst;
    MulMonotone(0, 0, p.totalStakeSnapshot, params.quorumBps);
    MulMonotone(0, 0, turnout, params.passBps);
    QuotientAbove(Min(p.totalStakeSnapshot * params.quorumBps, I128_MAX), BPS_DENOMINATOR, turnout);
  }

  /** With snapshots above 2^127 / 10000, two in a hundred can pass a vote that asks for half. */
  lemma {:induction false} SaturatedTallyPasses(p: Proposal)
    requires p.votesFor == I128_MAX / 50 && p.votesAgainst == I128_MAX - p.votesFor && p.totalStakeSnapshot == I128_MAX
    ensures Carries(p, GovParams(1, 0, 5000, 5000))
  {
    TallyIsExact(p, GovParams(1, 0, 5000, 5000));
  }
}
