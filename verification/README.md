# StellaX contracts: a verified model

StellaX is a set of Soroban contracts: perpetual futures against a liquidity vault, a collateral vault, a risk engine,
an off-chain-matched order book, a treasury, a bridge, and stake-weighted governance, all over one 18-decimal
fixed-point library. This project models them in Dafny and proves what their design relies on.

* **Fixed-point library.** `FixedPoint`, `SquareRoot`, `PowFixed`, `Exponential`, `Normal`, `Logarithm`: the source's
  loops on bounded integers, with every truncation, dropped bit and overflow, proved against exact references on reals.
* **Governance.** `Staking`, `Governor` are the two contracts; `VotingRuns` is every interleaving of their calls, and
  `VotingTallies` reads the two tallies and the verdict of a proposal off the calls.
* **Collateral.** `Vault` is the specification, `VaultContract` the contract in place, `VaultRuns` and `VaultInverses`
  what its calls keep and undo, `VaultOutcomes` what collateral is worth and where it goes.
* **Liquidity.** `SlpVault` (specification and contract) and `SlpShares`.
* **Trading.** `Pricing`, `SlicedTrades`, `PerpBooks` (books), `Trading` (entry points), `Clob`, `Liquidation` are
  specifications over several contracts' states at once; `PerpContract`, `ClobContract`, `RiskContract` are the
  contracts that change those states step by step. `FundsLemmas`, `DeskInvariants`, `DeskCloses`,
  `LiquidationInvariants` take one entry point at a time, `SystemRuns` every interleaving, `LedgerTheorems` states the
  results from an empty deployment, `Histories` what never comes back in a run, `TradeOutcomes` what a trade and its
  close do together, and `Scenarios` runs with figures. `PositionOutcomes` and `LiquidationOutcomes` state in plain
  arithmetic who ends up with which position, lock and payment.
* **The rest.** `Funding`, `Netting`, `Treasury`, `Codec`. `Int128`, `Reals`, `Host`, `MapSums` are shared vocabulary.

An entry point that returns an error leaves all state as it was: `Host.After` says so of a specification, and a contract
that has already written to other contracts restores them (`PerpEngine.Rollback`, which stands for the host's rollback).
A panic is an error like any other, and an overflow that panics is not told apart from one that is reported.
Oracle prices, funding indices, clock, ledger number, token transfers and external calls are inputs of each step and may
change freely between steps. Division truncates toward zero.

## What the main results say

* **Solvency** (`LedgerTheorems.SlpAssetsAreCovered`). After any run from an empty deployment, the assets the SLP vault
  reports are covered by its balance in the collateral vault. **Locks** (`MarginsAreLocked`): the vault's
  lock under an open position's owner and id is its margin plus exactly what deleveraging took out of that margin, which
  is nothing when nobody was deleveraged. **Books** (`OpenInterestIsExact`, `IdListsAreExact`): open interest, skew and id
  lists are those of the open positions.
  These assume what `SystemRuns.WellWired` and `SystemRuns.Allowed` say: the SLP does not trade and is none of the
  treasury, the insurance fund and the funding pool; the settlement token has seven decimals; no other caller takes from
  the SLP's vault account or uses the cross-margin locks. Only the perp engine and the risk engine call `credit_pnl`,
  `draw_pnl` and `record_loss`; `admin_credit_assets` and the storage migration are not steps.
* **What never comes back** (`Histories`). Position ids are used once, and no order is accepted twice, over every run from
  every state. Once an owner closes a position, its id stays on the market's list for good, and nothing is ever
  deleveraged in that market again (`OwnCloseEndsDeleveraging`).
* **Voting** (`VotingRuns.SafeExactlyUntilEpochsWrap`). From an empty system, every interleaving of stakes, unstakes, time,
  proposals and votes that ends by a time t keeps the votes on a proposal within the stake it snapshotted if and only if
  the epoch at t fits 32 bits (or nobody can configure the governor, or no ledger number is left to vote in). It assumes
  that the governor's staking contract is never replaced.
* **Votes** (`VotingTallies.TalliesAreStakes`, `VerdictFollowsVotes`). After any run the votes for a proposal are the
  stakes, each as it was at that moment, of exactly the accounts whose vote in support was taken, and a tally passes if
  and only if those sums reach quorum and majority.
* **Liquidation** (`LiquidationOutcomes.LiquidatableExactly`). A liquidation answers that a position is not liquidatable
  if and only if margin, trade result and funding together reach half of the notional over the leverage cap. What the
  keeper, the SLP and a deleveraged winner get is stated to the unit for every account, and the winner is the first of
  those with the highest leverage-weighted return (`LiquidationPays`, `DeleveragesBestWinner`, `DeleveragingPays`).
* **Trades** (`PositionOutcomes`). A settled match opens exactly a long for the trader of the buy order and a short for
  the trader of the sell order; openings, executed orders, closes, partial closes and funding payments are stated for
  every account in the same way.
* **Round trips** (`Pricing.RoundTripProfit`, `TradeOutcomes.RoundTripPays`). Opening and at once closing at one price
  profits if and only if the rebate of the one leg exceeds the fee of the other by enough for the size, and pays the
  trader if and only if that also covers both fees; `Scenarios.RebatePaysRoundTrip` is a run in which it does.
* **Arithmetic.** `mul_div_checked` is exact on all of i128; the divider under it is right exactly for divisors up to
  2^127. `ln_fixed` is monotone everywhere, adds exactly LN2 per doubling, and is at most 132 units of 10^-18 below the
  exact 40-term series. `exp_fixed` is within stated units of the exact 25-term sum. The normal CDF is within 50 units of
  its formula on reals, a probability, and its values at x and -x add up to one if and only if x is not zero: at zero it
  is 0.500000000524808672. `sqrt_fixed` is the exact floor root exactly when its scaled argument fits
  128 bits.
* **Shares** (`SlpShares.DepositThenRedeem`). Redeeming a deposit at once gains exactly when nobody held a share while
  the vault held at least one native unit; `DonatedAssetsGoToTheNextDepositor` is such a state.

## Where the code and its documentation differ

The model follows the code.

* `create_proposal` documents a check of the proposer's stake epoch (contracts/stellax-governor/src/lib.rs:520-523); the
  code checks the stake alone.
* `exp_fixed` documents an overflow above 88 (contracts/stellax-math/src/advanced.rs:131); the code refuses 46 and above.
* `record_loss` is described as stopping at zero; its signed saturating subtraction stops at i128::MIN
  (contracts/stellax-slp-vault/src/lib.rs:551). `LiquidationInvariants.LiquidationSinksAssets` says exactly when a
  liquidation leaves less than nothing, `Scenarios.LiquidationSinksSlp` is a run in which it does, and
  `SlpShares.UnderwaterRefusesAll` what follows while shares are outstanding: no deposit, withdrawal or profit.
* `settle_matched_orders` marks an order expired and then returns an error, which undoes the mark: no stored order is
  ever expired.
* A position its owner closes stays on the market's id list, and deleveraging reads every id on that list. Nothing takes
  such an id off again, so from then on a liquidation in that market closes the whole position, or leaves a rest that is
  short of nothing, or reverts (`LiquidationInvariants.DeadIdStopsLiquidation`, `Histories.OwnCloseEndsDeleveraging`).
* A partial close settles funding on the closed size and moves the checkpoint of the whole position, so what was owed on
  the rest, a debt or a credit, is dropped (`TradeOutcomes.PartialCloseDropsFunding`, `Scenarios.PartialCloseWipesDebt`).

## Model

| member | source | states |
|---|---|---|
| FixedPoint.UMul | contracts/stellax-math/src/fixed.rs:77-95 | the two words recombine to the exact 256-bit product, and no intermediate sum of limbs overflows |
| FixedPoint.UDiv | contracts/stellax-math/src/fixed.rs:99-131 | the early exits and the 128-step loop compute the specified division |
| FixedPoint.ShiftSubtract | contracts/stellax-math/src/fixed.rs:109-130 | the loop in place is 128 shift-subtract steps, dropped bits included |
| FixedPoint.DivStepsInvariant | contracts/stellax-math/src/fixed.rs:113-128 | after n steps quotient and remainder divide the 128 + n high bits, the rest still aligned |
| FixedPoint.UDivExact | contracts/stellax-math/src/fixed.rs:99-131 | for every divisor up to 2^127 the result is the exact 256-bit quotient, or none when it needs more than 128 bits |
| FixedPoint.UDivSafeDivisors | contracts/stellax-math/src/fixed.rs:99-131 | a divisor is safe for all dividends if and only if it is at most 2^127 |
| FixedPoint.MulDivChecked | contracts/stellax-math/src/fixed.rs:35-69 | the truncated exact quotient of a 256-bit product for all i128 inputs, i128::MIN included, and none exactly when it is undefined or does not fit |
| FixedPoint.Pow10Checked | contracts/stellax-math/src/fixed.rs:192-199 | the power of ten when it fits i128, none otherwise |
| FixedPoint.ToPrecisionRoundTrip | contracts/stellax-math/src/fixed.rs:176-189 | scaling up to more decimals and back is the identity whenever the scaled value exists |
| FixedPoint.MulPrecisionBounds | contracts/stellax-math/src/fixed.rs:138-145 | a product of non-negative numbers exists within the product of their bounds, and a factor of at most one never enlarges |
| SquareRoot.Isqrt | contracts/stellax-math/src/advanced.rs:103-117 | Newton's loop ends on every u128 with r^2 <= n < (r+1)^2, with no overflow on the way |
| SquareRoot.FirstGuess | contracts/stellax-math/src/advanced.rs:107-109 | the first guess from the bit length is never below the root |
| SquareRoot.SqrtFixed | contracts/stellax-math/src/advanced.rs:70-100 | the floor root of x * 10^18 if and only if that product fits u128; beyond it, the root of what the shifted fallback keeps, or a failure |
| PowFixed.Pow | contracts/stellax-math/src/advanced.rs:35-52 | for a base >= 0 never above the exact power, failing only when that does not fit i128; for a base in [0, 1] it exists and is short by at most n - 1 units |
| PowFixed.ProductApproximates | contracts/stellax-math/src/advanced.rs:42-49 | multiplying two approximations from below adds their shortfalls and at most one unit |
| Exponential.RangeReduction | contracts/stellax-math/src/advanced.rs:143-153 | x is k * LN2 plus a residue of at most LN2 / 2, k has the sign of x or is zero, and is between -60 and 66 on the domain |
| Exponential.Taylor | contracts/stellax-math/src/advanced.rs:155-164 | the loop with its early exit is the full truncated 25-term sum, and no term or sum overflows |
| Exponential.TaylorAccuracy | contracts/stellax-math/src/advanced.rs:155-164 | every computed term is within 2 units of the exact rational term, so 25 terms are within 48 |
| Exponential.ExpAccuracy | contracts/stellax-math/src/advanced.rs:132-183 | the result is within 48 units of the exact sum, scaled by the power of two, plus one when shifting right |
| Exponential.ExpFixed | contracts/stellax-math/src/advanced.rs:132-183 | the reduction, loop and shifts compute the specified exponential |
| Exponential.ExpBounds | contracts/stellax-math/src/advanced.rs:132-183 | defined if and only if x is below 46, zero up to -41.446531673892822312, never negative, no bit lost in the left shift, and at most one for x <= 0 |
| Normal.CdfAccuracy | contracts/stellax-math/src/advanced.rs:260-308 | up to eight standard deviations the result is within 50 units of the rational formula written out on reals, with the exact 25-term exponential; beyond, it is zero or one |
| Normal.DensityAccuracy | contracts/stellax-math/src/advanced.rs:283-285 | the density is within 21 units of the exact one at -x^2 / 2 |
| Normal.PolynomialAccuracy | contracts/stellax-math/src/advanced.rs:294-300 | the nested truncated products are within 15 units of the quintic |
| Exponential.SumsClose | contracts/stellax-math/src/advanced.rs:155-164 | the exact sums at two arguments next to zero differ by at most twice their distance |
| Normal.CdfIsProbability | contracts/stellax-math/src/advanced.rs:260-332 | defined except at i128::MIN, always in [0, 1], and the values at x and -x add up to one if and only if x is not zero |
| Normal.CdfAtZero | contracts/stellax-math/src/advanced.rs:260-308 | the value at zero is 524808672 units of 10^-18 above one half |
| Logarithm.LnFixed | contracts/stellax-math/src/advanced.rs:198-238 | the three loops with the early exit return a value at most 132 units below the exact series of a mantissa m and a count k with x = m * 2^k up to the halvings, plus k times LN2; they fail exactly for x <= 0 |
| Logarithm.LnAccuracy | contracts/stellax-math/src/advanced.rs:198-238 | the same of the specified logarithm, with its own mantissa and count |
| Logarithm.SeriesShort | contracts/stellax-math/src/advanced.rs:219-234 | the truncated series never exceeds the exact one, and falls short by at most 5/3 units for each term after the first |
| Logarithm.LnMonotone | contracts/stellax-math/src/advanced.rs:198-238 | ln_fixed is monotone over all x > 0, across powers of two as well |
| Logarithm.LnDoubling | contracts/stellax-math/src/advanced.rs:198-238 | doubling the argument adds exactly LN2 |
| Logarithm.TopOfOctave | contracts/stellax-math/src/advanced.rs:219-236 | the truncated series of a mantissa never exceeds LN2 |
| Logarithm.LnFits | contracts/stellax-math/src/advanced.rs:198-238 | at most 127 halvings or 64 doublings, and the result fits i128 |
| Codec.U32ToBytes | contracts/stellax-bridge/src/lib.rs:776-783 | the four bytes pushed are the big-endian number |
| Codec.I128ToBytes32 | contracts/stellax-bridge/src/lib.rs:786-797 | sixteen zeros, then the two's-complement bytes, most significant first |
| Codec.DecodeU32 | contracts/stellax-bridge/src/lib.rs:750-759 | the loop reads the big-endian number at an offset, and fails exactly on a short buffer |
| Codec.DecodeI128 | contracts/stellax-bridge/src/lib.rs:762-773 | the loop of wrapping shifts reads the signed number, and fails exactly on a short buffer |
| Codec.FieldRoundTrip | contracts/stellax-bridge/src/lib.rs:762-797 | decoding an encoded amount returns it, for every i128, negatives included |
| Codec.U32RoundTrip | contracts/stellax-bridge/src/lib.rs:750-783 | decoding an encoded u32 returns it |
| Codec.EncodePayload | contracts/stellax-bridge/src/lib.rs:625-656 | the payload is action, user, token, amount, in that order |
| Codec.PayloadRoundTrip | contracts/stellax-bridge/src/lib.rs:411-471 | a built payload is 100 bytes and decodes to its own action and amount |
| Codec.AppendU32 | contracts/stellax-clob/src/lib.rs:453-458 | appends the four big-endian bytes |
| Codec.AppendU64 | contracts/stellax-clob/src/lib.rs:460-463 | the two halves appended are the eight big-endian bytes |
| Codec.AppendI128 | contracts/stellax-clob/src/lib.rs:465-470 | the two cast halves appended are the sixteen two's-complement bytes |
| Codec.CanonicalBytes | contracts/stellax-clob/src/lib.rs:429-451 | the hashed buffer holds the eight fields in the documented order |
| Codec.OrderBytesInjective | contracts/stellax-clob/src/lib.rs:429-470 | the encoding is 65 bytes and two orders with the same bytes are the same order |
| Staking.StakingContract.ComputeCurrentEpoch | contracts/stellax-staking/src/lib.rs:469-480 | the epoch of the clock, zero before the start, truncated to 32 bits |
| Staking.StakingContract.DoStake | contracts/stellax-staking/src/lib.rs:181-232 | a stake or top-up, its epoch stamp and the total change together, or nothing does |
| Staking.StakingContract.DoUnstake | contracts/stellax-staking/src/lib.rs:236-277 | an unstake lowers stake and total together and keeps the epoch stamp, or nothing changes |
| Staking.StakeKeepsBalance | contracts/stellax-staking/src/lib.rs:181-277 | the total staked stays the sum of the stakes, none of them negative |
| Governor.GovernorContract.IsMember | contracts/stellax-governor/src/lib.rs:771-783 | the scan finds the caller if and only if it is a signer |
| Governor.GovernorContract.DoConfigure | contracts/stellax-governor/src/lib.rs:486-518 | only a signer sets the voting parameters, within their bounds, and the staking contract with them |
| Governor.GovernorContract.DoQueueAdminTransfer | contracts/stellax-governor/src/lib.rs:412-427 | only a signer stages the signers and threshold that a passed transfer action will install |
| Governor.GovernorContract.DoCreateProposal | contracts/stellax-governor/src/lib.rs:524-571 | a new proposal snapshots the epoch and the total stake under the next id |
| Governor.GovernorContract.DoCastVote | contracts/stellax-governor/src/lib.rs:577-635 | one vote for each address, only with a stake from before the snapshot, inside the voting window |
| Governor.GovernorContract.DoTally | contracts/stellax-governor/src/lib.rs:641-689 | after the window an active proposal passes or fails once |
| Governor.GovernorContract.DoExecute | contracts/stellax-governor/src/lib.rs:694-737 | a passed proposal is executed once, after its delay, together with its action, or not at all when the action fails |
| Governor.GovernorContract.DoDispatch | contracts/stellax-governor/src/lib.rs:808-869 | what an executed action does to the governor, and when it fails: bad calldata, no staged signers, or an upgrade the target refuses |
| VotingRuns.VotesNeverExceedSnapshot | contracts/stellax-governor/src/lib.rs:524-635 | over every run from an empty system both tallies are non-negative and together at most the snapshotted stake |
| VotingRuns.RunKeepsInv | contracts/stellax-governor/src/lib.rs:524-635 | the voters of a proposal are distinct, and each one's weight is at most its stake at the snapshot |
| VotingRuns.VoteExplained | contracts/stellax-governor/src/lib.rs:577-635 | an eligible voter has not staked since the snapshot, so its weight has only shrunk and nothing saturates |
| VotingRuns.SafeExactlyUntilEpochsWrap | contracts/stellax-staking/src/lib.rs:469-480 | all runs that end by t keep the bound if and only if the epoch at t fits 32 bits, or there is no signer, or the last ledger number is reached |
| VotingRuns.WrappedVoteExceeds | contracts/stellax-governor/src/lib.rs:577-635 | for every start and epoch length, eight calls that end when the epochs wrap put more votes on a proposal than its snapshot |
| VotingRuns.TalliedVotesAreFinal | contracts/stellax-governor/src/lib.rs:641-737 | once tallied a proposal never changes again, over any run, but from passed to executed |
| VotingRuns.TallyIsExact | contracts/stellax-governor/src/lib.rs:641-689 | for every snapshot a proposal passes if and only if turnout and support reach their shares, a product that leaves i128 counting as the largest i128 |
| VotingRuns.SaturatedTallyPasses | contracts/stellax-governor/src/lib.rs:641-689 | a proposal with two supporters in a hundred that passes a vote asking for half |
| VotingTallies.TalliesAreStakes | contracts/stellax-governor/src/lib.rs:577-635 | over every run each tally is the sum of the stakes, as of the vote, of the accounts whose vote on that side was taken; epochs past 32 bits can only cap the sums |
| VotingTallies.VerdictFollowsVotes | contracts/stellax-governor/src/lib.rs:641-689 | a tally after a run passes if and only if those sums reach quorum and majority; without supporters a proposal with a pass share never does |
| VotingTallies.ExecutionOutcome | contracts/stellax-governor/src/lib.rs:694-869 | only a passed proposal runs, after window and timelock, and what each action changes |
| VaultContract.VaultStorage.UpdateBalance | contracts/stellax-vault/src/lib.rs:1291-1314 | a checked change of one balance, never below zero |
| VaultContract.VaultStorage.UpdateSub | contracts/stellax-vault/src/lib.rs:1333-1356 | the same of one sub-account balance |
| VaultContract.VaultStorage.ComputeTotalCollateral | contracts/stellax-vault/src/lib.rs:1426-1460 | the loop over supported tokens is the haircut value of all holdings, or the first failure on the way |
| VaultContract.VaultStorage.DoDeposit | contracts/stellax-vault/src/lib.rs:203-236 | a deposit inside the cap credits the scaled amount, or nothing changes |
| VaultContract.VaultStorage.DoWithdraw | contracts/stellax-vault/src/lib.rs:238-295 | a withdrawal that leaves the margin in use debits the scaled amount, or nothing changes |
| VaultContract.VaultStorage.DoLockMargin | contracts/stellax-vault/src/lib.rs:340-400 | bucket and total grow together when free collateral covers the lock |
| VaultContract.VaultStorage.DoUnlockMargin | contracts/stellax-vault/src/lib.rs:402-455 | bucket and total shrink together; an empty bucket is removed |
| VaultContract.VaultStorage.DoLockIsolated | contracts/stellax-vault/src/lib.rs:472-528 | the same for an isolated bucket, against what both kinds of lock leave free |
| VaultContract.VaultStorage.DoUnlockIsolated | contracts/stellax-vault/src/lib.rs:532-585 | an isolated bucket and its total shrink together |
| VaultContract.VaultStorage.DoRealizeIsolated | contracts/stellax-vault/src/lib.rs:596-654 | a loss consumes at most its bucket and reports the shortfall; a profit releases the bucket |
| VaultContract.VaultStorage.DoTransferMargin | contracts/stellax-vault/src/lib.rs:676-730 | the locked total falls by the amount, and the first held token pays what it can |
| VaultContract.VaultStorage.DoMoveBalance | contracts/stellax-vault/src/lib.rs:732-757 | one balance falls and the other rises by the same amount |
| VaultContract.VaultStorage.DoSeedTreasury | contracts/stellax-vault/src/lib.rs:805-840 | only the admin, as a deposit for the treasury |
| VaultContract.VaultStorage.DoCredit | contracts/stellax-vault/src/lib.rs:898-930 | an authorised inbound credit under the same cap |
| VaultContract.VaultStorage.DoDebit | contracts/stellax-vault/src/lib.rs:936-966 | an authorised outbound debit of what the balance covers |
| VaultContract.VaultStorage.DoDepositSub | contracts/stellax-vault/src/lib.rs:1007-1046 | a deposit into a sub-account |
| VaultContract.VaultStorage.DoWithdrawSub | contracts/stellax-vault/src/lib.rs:1051-1090 | a withdrawal from a sub-account |
| VaultContract.VaultStorage.DoTransferBetweenSubs | contracts/stellax-vault/src/lib.rs:1095-1127 | one sub-account's fall is the other's rise |
| VaultContract.VaultStorage.DoAtomicSwap | contracts/stellax-vault/src/lib.rs:1159-1197 | both legs of a swap happen, or neither |
| VaultRuns.CustodyMatchesFlows | contracts/stellax-vault/src/lib.rs:203-295 | over every run, balances of a token change by 10^(18-d) for each native unit in less out, and none is ever negative |
| VaultRuns.OutflowScales | contracts/stellax-vault/src/lib.rs:238-295 | what leaves on chain is exactly the native amount asked for |
| VaultRuns.StepCustody | contracts/stellax-vault/src/lib.rs:676-1197 | each call changes what is owed of a token by its native flow; moves, swaps and sub-account transfers by nothing |
| VaultRuns.LockTotalsMatchBuckets | contracts/stellax-vault/src/lib.rs:340-730 | over every run isolated totals are the sums of their buckets, and cross buckets exceed the cross total by exactly what transfer_margin took |
| VaultInverses.LockThenUnlock | contracts/stellax-vault/src/lib.rs:340-455 | a lock just taken can always be released, and every amount is what it was |
| VaultInverses.DepositThenWithdraw | contracts/stellax-vault/src/lib.rs:203-295 | a deposit can be taken out again if and only if the margin in use is at most the balance before it; then balances and native amount are as before |
| VaultOutcomes.CollateralIsDiscounted | contracts/stellax-vault/src/lib.rs:1443-1460 | a holding counts at most for price times what the haircut leaves, and for less only by its last nine decimals and two units |
| VaultOutcomes.TransferOutcome | contracts/stellax-vault/src/lib.rs:676-730 | a transferred margin goes from the first held token to the insurance fund or the treasury as named, as far as it reaches, and lowers the locked total by all of the amount |
| VaultOutcomes.SwapOutcome | contracts/stellax-vault/src/lib.rs:1159-1197 | each token moves its own way between the two accounts, and nothing else moves |
| VaultOutcomes.SubTransferOutcome | contracts/stellax-vault/src/lib.rs:1095-1127 | the amount moves from the one sub-account to the other |
| SlpVault.SlpContract.Mint | contracts/stellax-slp-vault/src/lib.rs:900-925 | shares, holder and assets grow together, or nothing does |
| SlpVault.SlpContract.DoDeposit | contracts/stellax-slp-vault/src/lib.rs:226-285 | a deposit under the cap mints and starts the cool-down |
| SlpVault.SlpContract.DoWithdraw | contracts/stellax-slp-vault/src/lib.rs:345-423 | a redemption after the cool-down that keeps open interest covered |
| SlpVault.SlpContract.Burn | contracts/stellax-slp-vault/src/lib.rs:928-958 | shares, holder and assets fall together and the payment is the native part |
| SlpVault.SlpContract.DoCreditPnl | contracts/stellax-slp-vault/src/lib.rs:474-488 | only an authorised caller adds to the assets |
| SlpVault.SlpContract.DoDrawPnl | contracts/stellax-slp-vault/src/lib.rs:499-534 | only an authorised caller takes from the assets, and at most all of them |
| SlpVault.SlpContract.DoRecordLoss | contracts/stellax-slp-vault/src/lib.rs:542-558 | assets fall by the loss, below zero if need be |
| SlpVault.SlpContract.Move | contracts/stellax-slp-vault/src/lib.rs:732-753 | a share transfer, a self-transfer included, moves exactly the amount |
| SlpVault.SlpContract.DoTransferFrom | contracts/stellax-slp-vault/src/lib.rs:783-817 | allowance and balances change together |
| SlpShares.MintKeepsNav | contracts/stellax-slp-vault/src/lib.rs:900-925 | minted shares are at most in proportion, so a share's value does not fall |
| SlpShares.BurnKeepsNav | contracts/stellax-slp-vault/src/lib.rs:928-958 | a redemption pays at most its proportion and never more than the assets |
| SlpShares.NavNeverLowered | contracts/stellax-slp-vault/src/lib.rs:226-423 | no deposit, seed or withdrawal lowers the value of a share |
| SlpShares.RunAddsUp | contracts/stellax-slp-vault/src/lib.rs:732-958 | over every run share balances are non-negative and add up to the total, self-transfers included |
| SlpShares.DepositThenRedeem | contracts/stellax-slp-vault/src/lib.rs:900-958 | depositing and redeeming at once gains if and only if nobody held shares while at least one native unit of assets was there |
| SlpShares.DonatedAssetsGoToTheNextDepositor | contracts/stellax-slp-vault/src/lib.rs:900-958 | a state where the round trip doubles the deposit |
| SlpShares.LossSinksAssets | contracts/stellax-slp-vault/src/lib.rs:542-558 | a recorded loss takes the assets below zero if and only if it exceeds them |
| SlpShares.UnderwaterRefusesAll | contracts/stellax-slp-vault/src/lib.rs:226-534 | with shares outstanding and negative assets every deposit, seed, withdrawal and profit is refused |
| SlpShares.DepositOutcome | contracts/stellax-slp-vault/src/lib.rs:226-285 | a deposit mints the proportion rounded down, one for one into an empty vault, adds all of it to the assets and sets the cool-down |
| SlpShares.WithdrawOutcome | contracts/stellax-slp-vault/src/lib.rs:345-423 | a withdrawal takes the proportion of the assets rounded down and pays its whole native units, after the cool-down |
| SlpShares.WithdrawalKeepsCover | contracts/stellax-slp-vault/src/lib.rs:366-405 | what an accepted withdrawal leaves still carries the open interest under the skew cap |
| SlpShares.CooldownHolds | contracts/stellax-slp-vault/src/lib.rs:264-360 | after a deposit and any run of calls the depositor withdraws nothing before the cool-down is over |
| SlpShares.TransferOutcome | contracts/stellax-slp-vault/src/lib.rs:732-817 | shares, and the allowance if it is used, move by exactly the amount, from the owner to the receiver |
| Pricing.TakerFeeIsNotNegative | contracts/stellax-perp-engine/src/lib.rs:2287-2334 | the skew fee is non-negative for every mid skew but i128::MIN |
| Pricing.TakerPriceSide | contracts/stellax-perp-engine/src/lib.rs:2287-2334 | a buyer pays less, or a seller gets more, than the oracle price if and only if the trade earns a rebate that is not rounded to nothing |
| Pricing.RoundTripProfit | contracts/stellax-perp-engine/src/lib.rs:2287-2334 | for every size and rebate, the profit of opening and at once closing at one price, to the unit, and so if and only if it is one |
| Pricing.RoundTripPrices | contracts/stellax-perp-engine/src/lib.rs:2287-2334 | the two execution prices differ by the rebate of the leg that reduces the skew less the fee of the other, or by two fees |
| Pricing.RoundTripProfitNeedsRebate | contracts/stellax-perp-engine/src/lib.rs:2287-2334 | whatever the open interest, a profit needs a maker rebate |
| Pricing.RebatedRoundTrip | contracts/stellax-perp-engine/src/lib.rs:2287-2334 | a long of two that a rebate of ten basis points pays for reducing the skew and restoring it |
| SlicedTrades.PathIndependence | contracts/stellax-perp-engine/src/lib.rs:2287-2334 | in exact arithmetic any even slicing of a trade that grows the skew costs what the whole costs |
| SlicedTrades.TradeWithinRounding | contracts/stellax-perp-engine/src/lib.rs:2287-2334 | one trade's integer notional is within its two truncations of the exact cost |
| SlicedTrades.SlicingCostsOnlyRounding | contracts/stellax-perp-engine/src/lib.rs:2287-2334 | in the code's arithmetic slicing changes the notional by rounding alone: a unit for each trade and the fee slack for each unit of size |
| PerpBooks.AddKeepsBooks | contracts/stellax-perp-engine/src/lib.rs:586-659 | a new position written with its open interest keeps sums, lists and ids exact |
| PerpBooks.RemoveKeepsBooks | contracts/stellax-perp-engine/src/lib.rs:2477-2522 | a removed position keeps them, whether or not the market's list forgets it |
| PerpBooks.ResizeKeepsBooks | contracts/stellax-perp-engine/src/lib.rs:856-943 | a resized position keeps them |
| PerpBooks.PairKeepsBooks | contracts/stellax-perp-engine/src/lib.rs:1430-1521 | the two positions of a fill keep them, with the skew as it was |
| PerpBooks.RegisterKeepsBooks | contracts/stellax-perp-engine/src/lib.rs:401-453 | a new market starts with the empty sums it should have |
| PerpContract.PerpEngine.RemoveId | contracts/stellax-perp-engine/src/lib.rs:2512-2522 | the search-and-remove takes out the id's first occurrence and nothing else |
| PerpContract.PerpEngine.AggregateMargins | contracts/stellax-perp-engine/src/lib.rs:2609-2623 | the loop sums the user's margins, or fails as the sum does |
| PerpContract.PerpEngine.Settle | contracts/stellax-perp-engine/src/lib.rs:2685-2760 | unlock, fee, and profit or loss between user and SLP, in the source's order |
| PerpContract.PerpEngine.DoOpenPosition | contracts/stellax-perp-engine/src/lib.rs:517-659 | an opening changes engine, vault and SLP as specified, or none of them |
| PerpContract.PerpEngine.DoClosePosition | contracts/stellax-perp-engine/src/lib.rs:661-751 | the same of a close |
| PerpContract.PerpEngine.DoAddMargin | contracts/stellax-perp-engine/src/lib.rs:807-837 | margin and lock grow together, or nothing changes |
| PerpContract.PerpEngine.DoRemoveMargin | contracts/stellax-perp-engine/src/lib.rs:838-855 | margin and lock shrink together while the leverage stays in its cap |
| PerpContract.PerpEngine.DoPartialClose | contracts/stellax-perp-engine/src/lib.rs:856-943 | a part of the position closes, and the rest keeps its share of the margin with a fresh funding checkpoint |
| PerpContract.PerpEngine.DoCreateOrder | contracts/stellax-perp-engine/src/lib.rs:1529-1584 | a pending order under the next id |
| PerpContract.PerpEngine.DoCancelOrder | contracts/stellax-perp-engine/src/lib.rs:1805-1828 | only its owner removes a pending order |
| PerpContract.PerpEngine.DoExecuteOrder | contracts/stellax-perp-engine/src/lib.rs:1592-1802 | a triggered, unexpired order opens its position and is removed |
| PerpContract.PerpEngine.DoExecuteFill | contracts/stellax-perp-engine/src/lib.rs:1349-1521 | a fill opens both positions with both locks and fees, or nothing in any contract |
| PerpContract.PerpEngine.DoRiskClose | contracts/stellax-perp-engine/src/lib.rs:996-1117 | only the risk engine closes a part or all of a position, and learns what it released |
| PerpContract.PerpEngine.DoUpdateFundingIdx | contracts/stellax-perp-engine/src/lib.rs:1318-1338 | only the funding contract moves a position's checkpoint, and nothing else of it |
| FundsLemmas.PaySlpBacked | contracts/stellax-perp-engine/src/lib.rs:2715-2760 | a credit to the SLP's assets comes with the same amount in its vault account |
| FundsLemmas.DrawBacked | contracts/stellax-slp-vault/src/lib.rs:499-534 | a profit leaves the assets and the account together |
| FundsLemmas.FeeAndLossBounded | contracts/stellax-perp-engine/src/lib.rs:2685-2760 | a closing loser pays in fee and loss at most the released margin, and all of it or the whole loss |
| FundsLemmas.SettleBacked | contracts/stellax-perp-engine/src/lib.rs:2685-2760 | a settlement never worsens the SLP's backing, and what the user gets or pays is stated to the unit |
| DeskInvariants.OpenKept | contracts/stellax-perp-engine/src/lib.rs:517-659 | opening keeps books, locks and backing |
| DeskInvariants.ExecuteOrderKept | contracts/stellax-perp-engine/src/lib.rs:1592-1802 | executing a pending order keeps them |
| DeskCloses.CloseKept | contracts/stellax-perp-engine/src/lib.rs:661-751 | closing keeps them |
| DeskCloses.AddMarginKept | contracts/stellax-perp-engine/src/lib.rs:828-837 | adding margin keeps them |
| DeskCloses.RemoveMarginKept | contracts/stellax-perp-engine/src/lib.rs:838-855 | removing margin keeps them |
| DeskCloses.PartialKept | contracts/stellax-perp-engine/src/lib.rs:856-943 | a partial close keeps them |
| DeskCloses.FundingKept | contracts/stellax-funding/src/lib.rs:358-433 | settling a position's funding keeps them |
| DeskCloses.FillKept | contracts/stellax-perp-engine/src/lib.rs:1349-1521 | a fill keeps them |
| DeskCloses.FillKeepsSkew | contracts/stellax-perp-engine/src/lib.rs:1430-1521 | a fill adds one size to both open interests and leaves the skew alone |
| DeskCloses.DepositSlpKept | contracts/stellax-slp-vault/src/lib.rs:226-285 | a liquidity deposit adds the same to assets and account |
| DeskCloses.SeedSlpKept | contracts/stellax-slp-vault/src/lib.rs:292-335 | so does the seed |
| DeskCloses.WithdrawSlpKept | contracts/stellax-slp-vault/src/lib.rs:345-423 | a redemption takes at least as much from the assets as from the account |
| DeskCloses.SweepSlpKept | contracts/stellax-slp-vault/src/lib.rs:432-464 | a sweep adds the same to assets and account |
| TradeOutcomes.CloseUndoesOpen | contracts/stellax-perp-engine/src/lib.rs:517-751 | closing a just-opened position restores positions, open interest, skew and the owner's list |
| TradeOutcomes.CloseUndoesLock | contracts/stellax-perp-engine/src/lib.rs:517-751 | it restores the vault's locks |
| TradeOutcomes.RoundTripPays | contracts/stellax-perp-engine/src/lib.rs:517-751 | at one price and funding index the trader ends with more of the settlement token if and only if the gain covers both fees and a unit; then by how much; and only with a rebate |
| TradeOutcomes.PartialCloseDropsFunding | contracts/stellax-perp-engine/src/lib.rs:856-943 | a partial close settles funding on the closed size, drops what was owed on the rest, and drops nothing if and only if that is under one unit |
| TradeOutcomes.FreshPositionIsSafe | contracts/stellax-risk/src/lib.rs:434-475 | right after it was opened a position cannot be liquidated at its entry price while its funding index stands |
| TradeOutcomes.SafeAtEntry | contracts/stellax-risk/src/lib.rs:1174-1180 | margin at a leverage within the cap covers maintenance at the entry price |
| TradeOutcomes.PartialShare | contracts/stellax-perp-engine/src/lib.rs:856-900 | a partial close frees its share of the margin rounded down, so the rest is never short of its own |
| PositionOutcomes.OpeningOutcome | contracts/stellax-perp-engine/src/lib.rs:517-659 | one position of the caller at the execution price with notional over leverage as margin, locked under the new id; the taker fee goes from the caller to the SLP |
| PositionOutcomes.ExecutedOrderOutcome | contracts/stellax-perp-engine/src/lib.rs:1592-1802 | the price stands on the side the order waits for, the order is gone, and its owner holds the position on its terms |
| PositionOutcomes.ClosingOutcome | contracts/stellax-perp-engine/src/lib.rs:661-751 | what every account gains or loses: trade result at the execution price and funding, less the fee, loss and fee within the margin; lock released, position gone |
| PositionOutcomes.PartialOutcome | contracts/stellax-perp-engine/src/lib.rs:856-943 | the same for the closed size and its share of the margin, and the position that is left |
| PositionOutcomes.FundingOutcome | contracts/stellax-funding/src/lib.rs:358-433 | an owner whose index rose pays the pool, one whose index fell is paid, to the unit, and only the checkpoint moves |
| PositionOutcomes.SettlementOpens | contracts/stellax-clob/src/lib.rs:269-395 | exactly two new positions: the buyer's long under the next id and the seller's short after it, each with its own leverage and margin, at the midpoint; locks and maker fees for every account |
| Clob.PlaceKeepsClob | contracts/stellax-clob/src/lib.rs:175-223 | a placed order gets an unused id and the book stays sound |
| Clob.CancelKeepsClob | contracts/stellax-clob/src/lib.rs:228-250 | cancelling keeps the book sound |
| Clob.MatchIsFair | contracts/stellax-clob/src/lib.rs:269-350 | a match is an open long and an open short of one market that cross, at a price between their limits, for what is left of the smaller |
| Clob.RecordKeepsClob | contracts/stellax-clob/src/lib.rs:366-395 | a fill is added to both orders, never past their sizes, fills at least one, and touches no other |
| Clob.SettleKeepsClob | contracts/stellax-clob/src/lib.rs:269-395 | a settlement keeps the book sound and every order with its trader |
| Histories.NoReplay | contracts/stellax-clob/src/lib.rs:175-223 | after any run of any calls, no order of the trader with an accepted nonce, or an earlier one, is accepted |
| Histories.NoncesNeverFall | contracts/stellax-clob/src/lib.rs:175-395 | over every run no nonce falls |
| ClobContract.OrderBook.DoPlaceOrder | contracts/stellax-clob/src/lib.rs:175-223 | order, nonce and id counter change together, or nothing does |
| ClobContract.OrderBook.DoCancelOrder | contracts/stellax-clob/src/lib.rs:228-250 | only its trader cancels an open order |
| ClobContract.OrderBook.DoSettle | contracts/stellax-clob/src/lib.rs:269-395 | both orders and the engine's two positions change together, or nothing in any contract |
| RiskContract.RiskEngine.SizeToClose | contracts/stellax-risk/src/lib.rs:1197-1226 | all of a small position, a bounded part of a large one, and an error while the last part is too recent |
| RiskContract.RiskEngine.Distribute | contracts/stellax-risk/src/lib.rs:1229-1286 | unlock, keeper, insurance and remaining value or recorded loss, in the source's order |
| RiskContract.RiskEngine.FindWinner | contracts/stellax-risk/src/lib.rs:1318-1352 | the scan finds the first winning position with the highest leverage-weighted return on the market's list, or fails on a dead id |
| RiskContract.RiskEngine.RunAdlBody | contracts/stellax-risk/src/lib.rs:1318-1404 | the winner is closed as far as the missing amount needs, at the oracle price |
| RiskContract.RiskEngine.DoLiquidate | contracts/stellax-risk/src/lib.rs:434-545 | a liquidation changes risk engine, perp engine, vault and SLP as specified, or none of them |
| LiquidationOutcomes.LiquidatableExactly | contracts/stellax-risk/src/lib.rs:434-475 | the answer is not liquidatable if and only if margin plus trade result plus funding reaches half of notional over the cap; an accepted call closes a position below it |
| LiquidationOutcomes.LiquidationPays | contracts/stellax-risk/src/lib.rs:477-545 | the closed size, what keeper and SLP get of the penalty on it, for every account, the SLP's assets after the loss, and the exact shortage that deleveraging is asked for |
| LiquidationOutcomes.LargePositionsCoolDown | contracts/stellax-risk/src/lib.rs:1197-1226 | above 100,000 of notional thirty seconds pass between two liquidations of a position |
| LiquidationOutcomes.DeleveragesBestWinner | contracts/stellax-risk/src/lib.rs:1318-1352 | the deleveraged position ranks highest among all winners on the market's list and first among those; none is taken exactly when none wins |
| LiquidationOutcomes.DeleveragingPays | contracts/stellax-risk/src/lib.rs:1353-1404 | the size taken, the margin released, and the winner's profit on it, paid in full or not at all |
| LiquidationInvariants.DistributeBacked | contracts/stellax-risk/src/lib.rs:1229-1286 | a liquidation's payments never worsen the SLP's backing and release exactly the closed margin |
| LiquidationInvariants.AdlKept | contracts/stellax-risk/src/lib.rs:1318-1404 | deleveraging keeps books and backing, and the winner's lock is its margin plus what was taken out of it |
| LiquidationInvariants.LiquidateKept | contracts/stellax-risk/src/lib.rs:434-545 | a liquidation keeps books, locks and backing; what it takes out of a winner's margin, and nothing else, stays in the winner's lock |
| LiquidationInvariants.ScanNeedsLiveIds | contracts/stellax-risk/src/lib.rs:1318-1347 | the scan for a winner goes through if and only if every id on the list is open and has a score |
| LiquidationInvariants.DeadIdStopsLiquidation | contracts/stellax-risk/src/lib.rs:434-545 | with a dead id on the market's list a liquidation never deleverages: it closes all, or leaves no shortage, or fails whole |
| LiquidationInvariants.DeadIdStopsAdl | contracts/stellax-risk/src/lib.rs:1318-1332 | with a dead id on the market's list deleveraging fails |
| LiquidationInvariants.LiquidationSinksAssets | contracts/stellax-risk/src/lib.rs:1229-1286 | a liquidation takes the SLP's assets below zero if and only if losses are accepted and the unpaid part exceeds the assets and the insurance reward |
| LiquidationInvariants.OwnCloseLeavesDeadId | contracts/stellax-perp-engine/src/lib.rs:743-744 | a position its owner closes leaves a dead id on that list |
| SystemRuns.StepKeepsInv | contracts/stellax-perp-engine/src/lib.rs:517-1117 | every accepted call keeps the whole ledger's invariant and never worsens the SLP's backing |
| SystemRuns.RunKeepsInv | contracts/stellax-perp-engine/src/lib.rs:517-1117 | so does every run of calls, in any order, the locks above the margins being exactly what the run's deleveragings took |
| Histories.IdsAreNeverReused | contracts/stellax-perp-engine/src/lib.rs:2400-2559 | over every run from every state the next id never falls, a spent id that is not open never opens again, and a dead id stays on its list |
| Histories.OwnCloseEndsDeleveraging | contracts/stellax-risk/src/lib.rs:434-545 | after an owner's close and any further run, no liquidation in that market deleverages, and one that would leave a shortage fails whole |
| SystemRuns.VaultCallNotTaken | contracts/stellax-vault/src/lib.rs:203-1197 | no vault call on other accounts lowers the SLP's settlement balance |
| LedgerTheorems.SlpAssetsAreCovered | contracts/stellax-slp-vault/src/lib.rs:226-558 | after any run from an empty deployment the SLP's reported assets are at most its vault balance |
| LedgerTheorems.MarginsAreLocked | contracts/stellax-perp-engine/src/lib.rs:586-934 | every open position's margin is positive, and with exactly what deleveraging took from it makes up the lock under its owner and id; nothing was taken if the run deleveraged nobody |
| LedgerTheorems.OpenInterestIsExact | contracts/stellax-perp-engine/src/lib.rs:517-1117 | open interest is the sum of open sizes on each side and the skew their difference |
| LedgerTheorems.IdListsAreExact | contracts/stellax-perp-engine/src/lib.rs:2502-2559 | each user's list holds exactly the user's open ids, once each, at most 50; the market's list at least its own; open ids are below the next id |
| LedgerTheorems.OrdersAreNeverOverfilled | contracts/stellax-clob/src/lib.rs:325-382 | no order is filled past its size, and filled means full |
| Scenarios.RebatePaysRoundTrip | contracts/stellax-perp-engine/src/lib.rs:517-751 | a run from an empty deployment in which a round trip at one price leaves the trader with more |
| Scenarios.PartialCloseWipesDebt | contracts/stellax-perp-engine/src/lib.rs:856-943 | a run in which a debtor of two tenths closes a sliver, pays one unit of 10^-18 and owes nothing |
| Scenarios.LiquidationSinksSlp | contracts/stellax-slp-vault/src/lib.rs:542-558 | a run of six calls after which the SLP's assets are negative with shares outstanding |
| Funding.FundingContract.DoUpdateFunding | contracts/stellax-funding/src/lib.rs:159-229 | rate, velocity and both indices move together by the elapsed time, or nothing does |
| Funding.FundingContract.Integrate | contracts/stellax-funding/src/lib.rs:184-206 | velocity and rate after the premium, each clamped |
| Funding.UpdateKeepsSound | contracts/stellax-funding/src/lib.rs:159-229 | an update keeps indices opposite and velocity and rate in their clamps, and moves an index at most by the top rate |
| Funding.RunKeepsSound | contracts/stellax-funding/src/lib.rs:159-229 | so does every run of updates, whatever the prices and times |
| Funding.UpdateFailsOnlyOnPremium | contracts/stellax-funding/src/lib.rs:159-229 | an update succeeds if and only if the clock did not move or the premium and the velocity it moves fit |
| Funding.UpdateOutcome | contracts/stellax-funding/src/lib.rs:184-229 | velocity, rate and both indices after an update, in plain arithmetic with the clamps as figures |
| Funding.PremiumDecidesWhoPays | contracts/stellax-funding/src/lib.rs:159-229 | over every run with the mark at or above the index price the long index never falls, and at or below it never rises |
| Funding.MirrorsPayOppositeAmounts | contracts/stellax-funding/src/lib.rs:358-433 | equal long and short positions settled together after any run pay exactly opposite amounts |
| Funding.CheckpointsCostAtMostOneUnitEach | contracts/stellax-funding/src/lib.rs:558-565 | n checkpointed settlements differ from one by at most n units |
| Funding.PaymentIsTerm | contracts/stellax-funding/src/lib.rs:558-565 | each payment the code makes is a term of that sum |
| Netting.DeltasAreNetSizes | contracts/stellax-risk/src/lib.rs:1026-1051 | the map holds exactly the markets of the positions, each with the sum of its signed sizes |
| Netting.NetDeltas | contracts/stellax-risk/src/lib.rs:1026-1051 | the first loop computes that map and the gross notional, or fails exactly when a sum does not fit |
| Netting.Aggregate | contracts/stellax-risk/src/lib.rs:1083-1095 | the second loop sums net notionals, in any order of the markets |
| Netting.PortfolioGreeks | contracts/stellax-risk/src/lib.rs:1026-1102 | the three outputs are exact, and exist if and only if every sum fits |
| Netting.TightestLeverage | contracts/stellax-risk/src/lib.rs:1117-1129 | the lowest cap among markets with a net position, zero when there is none |
| Netting.PortfolioHealth | contracts/stellax-risk/src/lib.rs:1111-1172 | equity, required margin, free collateral and the liquidation flag, existing if and only if every sum fits |
| Netting.Unrealized | contracts/stellax-risk/src/lib.rs:1137-1154 | funding taken out and added back leaves the plain sum of profits, or a checked step fails |
| Netting.NettingCostsAtMostGross | contracts/stellax-risk/src/lib.rs:1026-1102 | the netted notional is at most the gross one plus a unit for each position |
| Netting.OffsetNeedsNoMargin | contracts/stellax-risk/src/lib.rs:1111-1172 | a fully offset portfolio needs no margin |
| Netting.MarginAtMostGross | contracts/stellax-risk/src/lib.rs:1111-1172 | required margin is at most gross notional plus a unit for each position, over the lowest cap |
| Treasury.TreasuryContract.IsSource | contracts/stellax-treasury/src/lib.rs:359-370 | the scan finds the caller if and only if it is an authorised source |
| Treasury.TreasuryContract.DoUpdateSplit | contracts/stellax-treasury/src/lib.rs:242-259 | shares must add up to the whole |
| Treasury.TreasuryContract.DoCollectFee | contracts/stellax-treasury/src/lib.rs:359-397 | an authorised fee becomes pending |
| Treasury.TreasuryContract.DoCollectFeeWithTrader | contracts/stellax-treasury/src/lib.rs:425-524 | a fee less the referral rebate becomes pending |
| Treasury.TreasuryContract.DoDistribute | contracts/stellax-treasury/src/lib.rs:542-642 | pending fees are split by the insurance band that applies, and the cap |
| Treasury.TreasuryContract.DoWithdrawTreasury | contracts/stellax-treasury/src/lib.rs:262-298 | a withdrawal takes from the treasury bucket what it holds |
| Treasury.TreasuryContract.DoFlushStakerRewards | contracts/stellax-treasury/src/lib.rs:322-349 | the whole staker bucket is sent and emptied |
| Treasury.SplitSound | contracts/stellax-treasury/src/lib.rs:561-598 | every portion is non-negative, they add up to what was pending, insurance keeps its cap, and rounding goes to stakers |
| Treasury.DistributionOutcome | contracts/stellax-treasury/src/lib.rs:542-642 | full share of the insurance fund below the soft cap, half below the hard cap, none above, within its cap; what is left out goes to the treasury or the stakers |
| Treasury.ShareFalls | contracts/stellax-treasury/src/lib.rs:561-577 | the more the insurance fund holds, the smaller its share |
| Treasury.ReferralOutcome | contracts/stellax-treasury/src/lib.rs:425-524 | the referrer gets exactly its share of the fee, the rest becomes pending |
| Treasury.RebateBounds | contracts/stellax-treasury/src/lib.rs:425-524 | a rebate is between zero and the fee |
| Treasury.LedgerStep | contracts/stellax-treasury/src/lib.rs:262-642 | an operation keeps its token's ledger sound and changes it by the tokens it moves |
| Treasury.LedgerBalances | contracts/stellax-treasury/src/lib.rs:262-642 | over every run fees received are pending, in a bucket, sent, withdrawn or flushed; no bucket is negative; insurance never passes its cap |

## Left out

- The oracle and its signatures: a price is an input of each step.
- Axelar gateway, gas service, interchain tokens, hashing, the bridge's registries and replay guard: the model covers the
  bridge's encoders and decoders; `address_to_bytes32` is an opaque 32-byte input.
- Events, storage lifetimes, upgrades and admin setters; authorisation is a caller the step names.
- Bracket links, TWAP and iceberg plans, and the update of trailing anchors: they repeat pending orders with bounds the
  keeper reports.
- `stellax-structured`, `stellax-rwa-issuer`, the treasury's lending pool and the options contracts, including the option
  deltas in `portfolio_greeks`: separate ledgers, or code that is not part of this model.
- Staking rewards (`deposit_epoch_rewards`, `claim_rewards`): their epoch pools are a ledger of their own that no vote reads.
- The governor's multisig proposals (`propose`, `approve`, `execute`) and its emergency pause: only token governance is
  modelled. Whether a dispatched upgrade succeeds is an input, and the upgraded code is outside the model.
- A governor whose staking contract is replaced between two votes: the runs of `VotingRuns` keep one staking contract.
- The variants of account health for margin modes and the insurance top-up and payout counters of the risk engine: a
  position is liquidated on its own margin, as `liquidate` does.
- `withdraw` of the vault asks the risk engine for the margin in use; the answer is an input of the call.
- Position timestamps: no modelled branch reads them.
- Accuracy of `ln`, `exp` and the normal CDF against the true real functions: results are about the exact rational series.
- Funding.MirrorsPayOppositeAmounts: payments of one settlement each; what a partial close does to funding is
  `TradeOutcomes.PartialCloseDropsFunding`.
