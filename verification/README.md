# Massbit chain: dAPI staking, validator set and provider life cycle

A Dafny model of three pallets of the Massbit chain, with proofs about every run of them.

**dAPI staking** (`pallets/dapi-staking`) is a ledger of bonds and delegations per provider and
era. Rewards are collected in a pot, closed era by era, and claimed late and in any order.
**Validator set** (`pallets/validator-set`) holds candidates and their deposits and removes the
inactive ones at each session. **dAPI** (`pallets/dapi`) registers providers and drives staking's
own registration. All of them share one ledger of free and reserved balances.

## How it is organised

- `Delegations`, `Unbonding`: the two stored vectors, each as a class changed in place, as
  functions on sequences, and as the function from eras to amounts that it encodes.
- `StakingSpec`: staking as a transition system on `Ledger` values (`StakingTypes`).
  `StakingPallet` is the pallet with mutable storage; every method is proved to take exactly the
  step of the same name, and to change nothing when it returns an error.
- `StakingInvariant` states the invariant, one predicate per concern. `StakeSteps`,
  `ProviderSteps`, `EraSteps` and `ClaimSteps` prove that each call keeps it (on top of
  `StakingFrames` and the finite sums of `Sums`); `StakingRuns` lifts it to runs.
- `StakingGuarantees`, `StakingHistory`, `StakingSafety`, `Claims`, `Solvency`, `Settlement`,
  `StrandedRun`, `ZeroHeads`, `OverdrawnRun` and `Issuance` hold the main results about staking.
  `Rewards` says what claims move on the balances alone, `Bonds` where bonds come from, `Holding`
  how long they stay, `EraClock` when eras end, and `Refusals` why calls are refused;
  `Deviations` those about what the pallets do otherwise than announced. `RunSteps` unfolds concrete runs.
- `ValidatorSpec`, `ValidatorProofs`, `ValidatorLedger`, `ValidatorPallet`: the validator set, in
  the same layers; `ValidatorLaws` says why its calls are refused and all that they change.
  `DapiSpec`, `DapiPallet`, `DapiLaws`: the provider life cycle, and who may move it.
- `Chain`: interleaved runs of all three, and of the rest of the chain, on the shared balances
  (`Currency`). `ChainHistory` shows that each is a run of staking and carries the results over.
  `Candidacy` follows candidates through such runs, from the calls alone.

`Ledger` carries a `Trace` of what the storage forgets: who held how much in which era, who was
paid what for which era, and all deposits. It is ghost in the pallet class and never decides
anything. `StakingGuarantees.RunNet` ties its stake history back to the calls of the run.

A failing call leaves the ledger as it was. Runs start from the first initialized block, which
opens era 1. Callers are parameters; which accounts hold session keys, whether a transfer to an
author succeeds and who is a regulator are inputs of the calls that ask. The pots have no key, so
they sign nothing. `Elsewhere` stands for everything else that happens to balances, free and
reserved: transfers, fees, minting, and reserves of other pallets such as identity. It leaves
reserved what the modelled pallets hold, and does not spend staking's pot.

Assumptions about libraries: `Perbill::from_rational` rounds down and clamps to one; a `Perbill`
times a balance rounds to the nearest unit; reserve and withdraw fail exactly when free funds are
short; unreserve and slash move as much as is reserved. The minimum delegation is positive, as in
both runtimes (`runtime/local/src/lib.rs:484`, `runtime/keiko/src/lib.rs:485`).

## Where the code and its comments part

The model follows the code. `Deviations` and `Settlement` say exactly when the two agree.

- `types.rs:177-182` and `types.rs:226-229` drop at most one zero entry from the head, so a zero
  head can remain. Such a history answers every claim with NotStakedProvider, and if it lies
  before the era the provider unregistered in, the withdrawal is refused as well, for good
  (`Settlement.SettleIff`, `StrandedRun.StrandedForGood`). While the provider is active some
  stakes and unstakes clear it (`ZeroHeads.ZeroHeadIff`).
- The cap on delegators is tested with `<=` before the count goes up (`lib.rs:403-411`), so the
  count may reach the cap plus one (`Deviations.CapAfterDelegate`, `Deviations.CapIsExceeded`).
- A delegation counts in the current era, not from the next one on, as the comment at
  `lib.rs:388` has it (`Deviations.DelegationCountsNow`, `Deviations.StakedAtOnce`).
- A new era length applies from the next block on, not from the next era, as the comment at
  `lib.rs:283` has it (`Deviations.LengthAppliesAtOnce`, `Deviations.EraCutShort`).
- `set_invulnerables` may name accounts that are candidates already; a session then returns them
  twice (`Deviations.SessionListDistinct`, `Deviations.ReturnedTwice`).
- The sum in the check of a reduced bond (`lib.rs:361`) is unchecked and may wrap around; the
  pallet's method has it so (`Deviations.BondLessIff`, `Deviations.BondIsLost`).
- Rewards are rounded to the nearest unit at each step (`lib.rs:590-593`, `lib.rs:822-825`), so
  the payments for an era may exceed what was deposited for it by less than half a unit each, and
  a late claim may find the pot short by that much (`Solvency.DelegatorClaimCovered`,
  `Settlement.SettleFunded`, `OverdrawnRun.OverdrawnIsReachable`).

## Model

| member | source | states |
|---|---|---|
| Delegations.StakeRefines | pallets/dapi-staking/src/types.rs:128-145 | read as a function from eras to amounts, staking adds the amount to the current era and all later ones and to no earlier one; it fails exactly when the last entry lies in the future |
| Delegations.UnstakeRefines | pallets/dapi-staking/src/types.rs:165-185 | unstaking takes any amount, as far as it goes, from the current era on and leaves every earlier era as it was, whether or not a zero head is dropped |
| Delegations.ClaimRefines | pallets/dapi-staking/src/types.rs:212-233 | a claim returns the head era with the amount held in it, zeroes that era alone, keeps the order and the latest value, and moves the head strictly forward |
| Delegations.DrainIsPositive | pallets/dapi-staking/src/types.rs:187-233 | claiming repeatedly up to any bound lists, apart from empty results, exactly the eras with stake, once each, in ascending order, with their amounts, for every ordered vector, adjacent zero entries included |
| Delegations.ReachesIff | pallets/dapi-staking/src/types.rs:212-233 | claims that pay something can bring the head up to a bound if and only if no zero entry before it stands at the head or directly after another zero entry |
| Delegations.Delegation.Stake | pallets/dapi-staking/src/types.rs:128-145 | the in-place change of the vector is the staking step, and an error changes nothing |
| Delegations.Delegation.Unstake | pallets/dapi-staking/src/types.rs:165-185 | the in-place change of the vector is the unstaking step, and an error changes nothing |
| Delegations.Delegation.Claim | pallets/dapi-staking/src/types.rs:212-233 | the in-place change and the returned pair are the claiming step |
| Unbonding.AddRefines | pallets/dapi-staking/src/types.rs:290-299 | adding keeps unlock eras strictly ascending and raises the total by exactly the amount |
| Unbonding.AddedPending | pallets/dapi-staking/src/types.rs:290-299 | adding changes the pending amount of the one unlock era it names, by the amount, and of no other, merged or inserted |
| Unbonding.PartitionRefines | pallets/dapi-staking/src/types.rs:307-313 | partitioning splits the queue into a prefix and a suffix, whose totals add up |
| Unbonding.PartitionPending | pallets/dapi-staking/src/types.rs:307-313 | exactly the chunks with an unlock era up to the given one mature; every other one stays locked, unchanged |
| Unbonding.UnbondingMetadata.BinarySearch | pallets/dapi-staking/src/types.rs:290-299 | finds a chunk with the unlock era, or the only place where one keeps the order |
| Unbonding.UnbondingMetadata.Add | pallets/dapi-staking/src/types.rs:290-299 | merging or inserting where the binary search points is adding by walking the sorted queue |
| StakingRuns.RunValid | pallets/dapi-staking/src/lib.rs:256-835 | any interleaving of the calls by any accounts, and of anything the rest of the chain does to free and reserved balances short of touching what staking must hold or spending the pot, keeps the whole invariant |
| StakingRuns.RunReserves | pallets/dapi-staking/src/lib.rs:303-520 | over any run each reserve moves exactly with what staking owes the account and with what others reserve or release |
| StakingRuns.StakeConservation | pallets/dapi-staking/src/lib.rs:303-520 | after any run from the first block an account has reserved what it had before and what others reserved since, plus its unwithdrawn bonds, its latest stakes and its unlocking chunks, and at least the latter |
| StakingGuarantees.RunNet | pallets/dapi-staking/src/lib.rs:390-504 | the recorded stake of a delegator in an era is what the calls made up to that era staked less what they unstaked |
| StakingGuarantees.StoredIsStaked | pallets/dapi-staking/src/lib.rs:390-613 | after any run a stored history reads back, for each era a provider is rewarded for, what the calls staked on balance, or zero once that era was paid |
| StakingGuarantees.RecordIsStaked | pallets/dapi-staking/src/lib.rs:390-504 | after any run a record's total is its bond plus what all delegators staked on balance up to its era |
| Bonds.RunBond | pallets/dapi-staking/src/lib.rs:303-386 | over any run the bond in each era moves by what was put up and taken back by the calls until that era was over |
| Bonds.RecordIsCalls | pallets/dapi-staking/src/lib.rs:303-504 | after any run every record is determined by the calls: its bond is what they bonded on balance up to its era, its total that and what they staked on balance |
| StakingGuarantees.EraIsRecords | pallets/dapi-staking/src/lib.rs:696-810 | after any run each era up to the current one is known, and its stake is the sum of the totals of the providers rewarded for it |
| StakingGuarantees.RewardConservation | pallets/dapi-staking/src/lib.rs:779-835 | closed eras' rewards and the accumulator together are all that was ever deposited, for any blocks and era lengths |
| EraClock.RunClock | pallets/dapi-staking/src/lib.rs:256-278 | through consecutive blocks, whatever other calls are made, the era is still the old one before its length has passed since its first block, the next one begins exactly then, and so on, one era for each full length |
| EraClock.ClockFromStart | pallets/dapi-staking/src/lib.rs:256-278 | from the first block on the era is one plus the blocks since, divided by the default length, while nobody sets another |
| EraClock.NothingInside | pallets/dapi-staking/src/lib.rs:256-277 | on a block inside an era the hook changes nothing |
| StakingHistory.RunExtends | pallets/dapi-staking/src/lib.rs:256-835 | over any run closed eras keep their stake, rewards, records and stake histories, and no payment is forgotten |
| Issuance.RunIssuance | pallets/dapi-staking/src/lib.rs:303-686 | staking's own calls change the sum of all balances by exactly the rewards deposited |
| Issuance.AccumulatorInPot | pallets/dapi-staking/src/lib.rs:830-835 | what accumulated is in the pot, but for half a unit for every payment made |
| Issuance.NothingClips | pallets/dapi-staking/src/lib.rs:327-333 | after any run the era's stake, each stake and each unbonding queue are within the funds of all accounts, and they and the accumulator are representable while these funds and half a unit for every payment are; so the saturating additions never clip |
| StakingSafety.StakeIsReserved | pallets/dapi-staking/src/lib.rs:303-504 | the current era's stake is covered by reserved balances |
| StakingSafety.UnreachableErrors | pallets/dapi-staking/src/lib.rs:412-419 | UnexpectedDelegationInfoEra and UnknownEra are never returned in a reachable state |
| StakingSafety.NothingFallsShort | pallets/dapi-staking/src/lib.rs:341-742 | no saturating subtraction of an accepted call ever clips: of a bond, a stake, a total, a count, an era's stake or a part of a reward |
| StakingSafety.DelegatorCount | pallets/dapi-staking/src/lib.rs:400-423 | the stored count is the number of delegators with a stake, each stake is zero or at least the minimum, and the count is at most the cap plus one |
| Refusals.AnswersAreReasons | pallets/dapi-staking/src/lib.rs:256-742 | every call goes through if and only if no reason stands against it, in terms of what is held, owed, pending and paid; the error it returns otherwise names a reason that does |
| Deviations.CapCheckedLate | pallets/dapi-staking/src/lib.rs:403-407 | a delegator is refused for lack of room exactly when it is new and the count is already above the cap |
| Deviations.CapAfterDelegate | pallets/dapi-staking/src/lib.rs:403-411 | after an accepted delegation the cap is exceeded if and only if it was before, or was just met and the delegator is new |
| Deviations.CapIsExceeded | pallets/dapi-staking/src/lib.rs:403-411 | a concrete run that admits a delegator with a cap of zero |
| Deviations.DelegationCountsNow | pallets/dapi-staking/src/lib.rs:388-434 | every accepted delegation counts in full in the history, the record and the stake of the current era |
| Deviations.StakedAtOnce | pallets/dapi-staking/src/lib.rs:388-434 | a concrete run with a stake in the era it was made in |
| Deviations.LengthAppliesAtOnce | pallets/dapi-staking/src/lib.rs:283-299 | after the length is set the running era ends by the new length; this agrees with ending it by the old one exactly on blocks before both ends or after both |
| Deviations.EraCutShort | pallets/dapi-staking/src/lib.rs:283-299 | an era of ten blocks set to three ends at the fourth block |
| Deviations.BondCheckIff | pallets/dapi-staking/src/lib.rs:360-363 | the check on a wrapped sum is the check on the exact sum unless the sum is out of range and what wraps around is within the bond |
| Deviations.BondLessIff | pallets/dapi-staking/src/lib.rs:341-386 | a call that the pallet accepts as written reduces the bond as intended, and keeps the invariant, if and only if its check is the exact one |
| Deviations.BondCheckWraps | pallets/dapi-staking/src/lib.rs:360-363 | an amount on which the two checks differ |
| Deviations.BondIsLost | pallets/dapi-staking/src/lib.rs:341-386 | a provider that has just registered can reach that: the call as written goes through and leaves no bond |
| Claims.ProviderClaimIff | pallets/dapi-staking/src/lib.rs:524-548 | funds aside, a provider's claim is accepted if and only if it earned in that closed era, had something at stake and was not paid for it |
| Claims.ProviderClaimPays | pallets/dapi-staking/src/lib.rs:548-560 | an accepted claim moves the provider's part of that era's rewards from the pot to the owner and changes no other balance |
| Claims.DelegatorClaimIff | pallets/dapi-staking/src/lib.rs:570-589 | funds aside, a delegator's claim is accepted if and only if some closed era is owed to it and its history has no zero head |
| Claims.DelegatorClaimOldest | pallets/dapi-staking/src/lib.rs:570-583 | an accepted claim is for the oldest era owed |
| Claims.DelegatorClaimPays | pallets/dapi-staking/src/lib.rs:590-607 | it pays in proportion to what was held in that era, from the pot to the delegator, and changes no other balance |
| Rewards.ProviderClaimMoves | pallets/dapi-staking/src/lib.rs:548-560 | an accepted claim moves exactly the provider's percentage of its share from the pot to the owner; the share is the era's rewards in proportion to its stake |
| Rewards.DelegatorClaimMoves | pallets/dapi-staking/src/lib.rs:590-607 | an accepted claim moves, from the pot to the delegator and for the oldest era owed, exactly its proportion of what that share leaves, by what it held of what all delegators held |
| Rewards.ProportionWithin | pallets/dapi-staking/src/lib.rs:818-827 | an amount in proportion is bounded from both sides, by half a unit and one part per billion of what is divided |
| Rewards.ProportionUnique | pallets/dapi-staking/src/lib.rs:818-827 | there is only one amount in proportion |
| StakingHistory.ProviderPaidOnce | pallets/dapi-staking/src/lib.rs:538-558 | after a provider was paid for an era, no later state of any run pays it for that era again |
| StakingHistory.DelegatorPaidOnce | pallets/dapi-staking/src/lib.rs:575-605 | after a delegator was paid for an era with a provider, no later claim in any run pays that era again, whatever it unstakes or stakes in between |
| Solvency.EraSolvency | pallets/dapi-staking/src/lib.rs:818-827 | what was paid for an era to providers and delegators is nothing, or less than its rewards plus half a unit for each payment made |
| Solvency.TotalSolvency | pallets/dapi-staking/src/lib.rs:524-613 | all payments are at most the rewards of closed eras plus half a unit for each payment |
| Solvency.DelegatorClaimCovered | pallets/dapi-staking/src/lib.rs:570-607 | for every claim that meets all other conditions the pot holds the reward, and the accumulator on top, but for at most half a unit for each payment made before; the claim goes through exactly if the pot holds the reward, and so whenever twice the accumulator comes within one of the number of payments |
| Solvency.ProviderClaimCovered | pallets/dapi-staking/src/lib.rs:524-560 | the same for a provider's claim |
| StakingRuns.RunPot | pallets/dapi-staking/src/lib.rs:548-554 | no run changes what the pot holds beyond the deposits not yet paid out, but by what others give to it |
| StakingGuarantees.PotConservation | pallets/dapi-staking/src/lib.rs:830-835 | after any run the pot holds what it held at first, all rewards deposited and all gifts since, less all payments |
| OverdrawnRun.OverdrawnIsReachable | pallets/dapi-staking/src/lib.rs:590-599 | a concrete run from the first block whose last delegator is due a unit that the pot no longer holds |
| StakingGuarantees.RunSolvency | pallets/dapi-staking/src/lib.rs:524-613 | the bound on the payments of an era holds after any run, whatever the order and delay of the claims |
| StakingHistory.UnbondingConservation | pallets/dapi-staking/src/lib.rs:367-520 | over any run what was unbonded for an unlock era is still pending or was paid out, and only by withdrawals from that era on |
| StakingHistory.WithdrawalPaysAll | pallets/dapi-staking/src/lib.rs:508-520 | a withdrawal succeeds exactly if something has reached its unlock era, pays all of that in full and leaves the rest |
| StakingGuarantees.UnstakeTakes | pallets/dapi-staking/src/lib.rs:457-497 | an accepted unstake leaves nothing if less than the minimum would remain, and otherwise what was held less what was asked for; the difference is pending a period from now |
| Holding.WithdrawBondIff | pallets/dapi-staking/src/lib.rs:617-648 | a bond can be withdrawn if and only if its provider unregistered a full period ago and it was not withdrawn yet |
| Holding.WithdrawStakeIff | pallets/dapi-staking/src/lib.rs:652-686 | a stake can be withdrawn if and only if that period is over and no era before the unregistration is left in the history |
| Holding.HeldForPeriod | pallets/dapi-staking/src/lib.rs:632-682 | whatever happens after a provider unregistered, its bond and every stake with it stay as they were until the period is over |
| Holding.ReleasedInTime | pallets/dapi-staking/src/lib.rs:617-648 | in no run from the first block is a bond released before that |
| Holding.AtStakeForPeriod | pallets/dapi-staking/src/lib.rs:617-686 | until then every account has at stake with the provider exactly what it had |
| ClaimSteps.NothingLeftToClaim | pallets/dapi-staking/src/lib.rs:671-682 | when a delegator may withdraw from an unregistered provider, every era it could be rewarded for is paid |
| ClaimSteps.WithdrawsHeldStake | pallets/dapi-staking/src/lib.rs:652-686 | that withdrawal returns exactly the stake held when the provider unregistered |
| Settlement.SettleIff | pallets/dapi-staking/src/lib.rs:570-686 | claiming until the withdrawal is allowed leads to it, funds in the pot permitting, if and only if the history has no stranded zero entry before the unregistration; otherwise it ends in NotStakedProvider |
| Settlement.SettleCount | pallets/dapi-staking/src/lib.rs:570-686 | it takes exactly one claim for each era with stake that is not paid yet, at most as many as eras lie between the head and the unregistration |
| Settlement.SettleFunded | pallets/dapi-staking/src/lib.rs:594-599 | it never ends for lack of funds while the pot and all payments make up for the rewards of closed eras and for half a unit for each payment so far and for each era in between, less one unit |
| Settlement.FundedByAccumulator | pallets/dapi-staking/src/lib.rs:830-835 | which holds in particular while twice the accumulator, plus two, is at least that number |
| Settlement.SettleInFull | pallets/dapi-staking/src/lib.rs:570-686 | so with a funded pot the outcome and the number of claims are determined by the history alone |
| Settlement.StrandedForever | pallets/dapi-staking/src/lib.rs:570-583 | once the history has a zero head before the unregistration era, neither a claim nor the withdrawal ever succeeds again, whatever happens |
| StrandedRun.StrandedIsReachable | pallets/dapi-staking/src/types.rs:177-185 | a concrete run from the first block that ends with such a head and a positive stake |
| StrandedRun.StrandedForGood | pallets/dapi-staking/src/lib.rs:652-686 | so after every continuation of that run the stake is still stored, its amount is still reserved, and both calls fail |
| StakingGuarantees.StoredStaysReserved | pallets/dapi-staking/src/lib.rs:413-431 | after any run the last stake a delegator has stored with a provider is reserved on it |
| ZeroHeads.ZeroHeadIff | pallets/dapi-staking/src/types.rs:128-185 | while the provider is active a zero head stays through every call, except a stake that overwrites it in its own era as the only entry, and an unstake that leaves the next entry positive |
| ZeroHeads.ClaimableAgain | pallets/dapi-staking/src/lib.rs:570-589 | so, funds aside, the delegator can claim after a call if and only if it was one of these and some era is owed then |
| StakingPallet.DapiStaking.RotateProviderEraInfo | pallets/dapi-staking/src/lib.rs:789-810 | visiting the providers in any order copies exactly the active ones' records to the next era, unclaimed |
| StakingPallet.DapiStaking.SnapshotEraRewards | pallets/dapi-staking/src/lib.rs:779-787 | the in-place snapshot is the closing step |
| StakingPallet.DapiStaking.OnInitialize | pallets/dapi-staking/src/lib.rs:256-278 | the hook is the era step |
| StakingPallet.DapiStaking.ProviderBondMore | pallets/dapi-staking/src/lib.rs:303-337 | the in-place call is its step, and an error leaves all storage as it was |
| StakingPallet.DapiStaking.ProviderBondLess | pallets/dapi-staking/src/lib.rs:341-386 | likewise, with the check as written, sums wrapping around, and the queue changed by the binary search |
| StakingPallet.DapiStaking.Delegate | pallets/dapi-staking/src/lib.rs:390-438 | likewise, with the history changed by the stored vector's own method |
| StakingPallet.DapiStaking.DelegatorUnstake | pallets/dapi-staking/src/lib.rs:442-504 | likewise, for history and queue |
| StakingPallet.DapiStaking.TakeStake | pallets/dapi-staking/src/lib.rs:457-468 | what an unstake takes is positive, and everything if less than the minimum would remain |
| StakingPallet.DapiStaking.WithdrawUnbonded | pallets/dapi-staking/src/lib.rs:508-520 | the in-place call is its step, and an error leaves all storage as it was |
| StakingPallet.DapiStaking.ClaimProvider | pallets/dapi-staking/src/lib.rs:524-566 | likewise |
| StakingPallet.DapiStaking.ClaimDelegator | pallets/dapi-staking/src/lib.rs:570-613 | likewise |
| StakingPallet.DapiStaking.ProviderWithdrawUnregistered | pallets/dapi-staking/src/lib.rs:617-648 | likewise |
| StakingPallet.DapiStaking.DelegatorWithdrawUnregistered | pallets/dapi-staking/src/lib.rs:652-686 | likewise |
| StakingPallet.DapiStaking.RegisterProvider | pallets/dapi-staking/src/lib.rs:696-724 | likewise |
| StakingPallet.DapiStaking.UnregisterProvider | pallets/dapi-staking/src/lib.rs:726-742 | likewise |
| StakingPallet.DapiStaking.HandleImbalance | pallets/dapi-staking/src/lib.rs:830-835 | the deposit goes to the accumulator and the pot |
| StakingPallet.DapiStaking.Apply | pallets/dapi-staking/src/lib.rs:256-742 | whatever call is dispatched, the pallet takes the step it is written to take; that is the protocol's step, and its storage satisfies the invariant, but for a reduced bond that only a wrapped sum lets through |
| ValidatorProofs.SessionKick | pallets/validator-set/src/lib.rs:400-475 | a new session stores, in order, exactly the candidates it returns after the invulnerables, although the kick walks a snapshot and removes stored entries as it goes; these are the survivors |
| ValidatorProofs.SurvivorsCount | pallets/validator-set/src/lib.rs:406-420 | the number removed is the smaller of the number of stale candidates and the number above the minimum |
| ValidatorProofs.SurvivorsExactly | pallets/validator-set/src/lib.rs:406-420 | a candidate is removed if and only if it is stale and fewer stale ones than that budget stand before it |
| ValidatorProofs.RemoveOne | pallets/validator-set/src/lib.rs:414-418 | each removal during the kick succeeds |
| ValidatorLedger.RemoveReleasesDeposit | pallets/validator-set/src/lib.rs:358-388 | leaving or slashing releases exactly the recorded deposit, split without remainder into what is slashed and what is returned, whatever the bond is by then |
| ValidatorLedger.DispatchInStep | pallets/validator-set/src/lib.rs:298-475 | every call moves each account's reserve exactly with its recorded deposits |
| ValidatorLedger.DispatchOk | pallets/validator-set/src/lib.rs:298-475 | every call keeps the candidates distinct, and the stored block of each that of its last activity |
| ValidatorLedger.DispatchFloor | pallets/validator-set/src/lib.rs:339-420 | no call takes the number of candidates below the minimum once it is reached |
| ValidatorLedger.SessionPatience | pallets/validator-set/src/lib.rs:406-419 | whoever a session removes had not registered within two kick thresholds, nor authored within one |
| ValidatorLedger.SessionKeeps | pallets/validator-set/src/lib.rs:400-424 | a session removes a candidate if and only if two thresholds have passed since it joined, or one since it last authored, and more than the minimum remain without those overdue before it |
| ValidatorLaws.AnswersAreReasons | pallets/validator-set/src/lib.rs:236-347 | every call goes through if and only if no reason stands against it, and the error it returns otherwise names a reason that does |
| ValidatorLaws.ListAfter | pallets/validator-set/src/lib.rs:236-347 | a candidate joins at the end with the candidacy bond of that time as its deposit, who leaves is taken out, and settings are as last set |
| ValidatorLaws.BlocksAfter | pallets/validator-set/src/lib.rs:320-445 | the stored blocks after each call: a threshold ahead for who joins, the block for who authors, none for who leaves or is removed |
| ValidatorLaws.FreeAfter | pallets/validator-set/src/lib.rs:298-445 | all that a call does to free balances: the bond of who joins, the whole deposit of who leaves, the pot above the minimum balance for an author, and for who is removed its deposit less the slash, which goes to the destination |
| ValidatorPallet.ValidatorSet.RegisterAsCandidate | pallets/validator-set/src/lib.rs:298-330 | the in-place call is its step, and an error leaves storage and balances as they were |
| ValidatorPallet.ValidatorSet.LeaveIntent | pallets/validator-set/src/lib.rs:339-347 | likewise |
| ValidatorPallet.ValidatorSet.TryRemoveCandidate | pallets/validator-set/src/lib.rs:358-388 | likewise |
| ValidatorPallet.ValidatorSet.SlashDeposit | pallets/validator-set/src/lib.rs:368-376 | the slashed part goes to the slash destination, if there is one, and the rest is released |
| ValidatorPallet.ValidatorSet.KickStaleCandidates | pallets/validator-set/src/lib.rs:400-424 | the loop over the snapshot is the stepwise kick |
| ValidatorPallet.ValidatorSet.NewSession | pallets/validator-set/src/lib.rs:453-475 | the validators returned are the invulnerables followed by the stored candidates |
| ValidatorPallet.ValidatorSet.NoteAuthor | pallets/validator-set/src/lib.rs:432-445 | the author receives the pot above the minimum balance, unless the transfer fails, and counts as active in any case |
| ValidatorPallet.ValidatorSet.SetInvulnerables | pallets/validator-set/src/lib.rs:236-260 | all accounts need an id with registered keys; otherwise the first fault is returned and nothing changes |
| Deviations.SessionListDistinct | pallets/validator-set/src/lib.rs:393-397 | a session returns each validator once if and only if the invulnerables are distinct and none of them is a candidate it keeps |
| Deviations.ReturnedTwice | pallets/validator-set/src/lib.rs:236-260 | an account that becomes a candidate and then an invulnerable is returned twice |
| DapiSpec.DispatchCoupled | pallets/dapi/src/lib.rs:265-365 | every call keeps each provider's status in step with staking: registered iff unknown there, active iff active, inactive iff inactive, under the same owner |
| DapiSpec.NoStakingSurprise | pallets/dapi/src/lib.rs:298-365 | staking's ProviderExists, ProviderDNE and NotOperatedProvider never surface here; what fails in staking is the bond |
| DapiLaws.AnswersAreReasons | pallets/dapi/src/lib.rs:265-365 | every call goes through if and only if no reason stands against it, and the error it returns otherwise names a reason that does |
| DapiLaws.EntryMoves | pallets/dapi/src/lib.rs:265-365 | an accepted call moves the entry it is about one step on, by a regulator or the owner as the step demands, and no other entry |
| DapiLaws.LifeCycleForward | pallets/dapi/src/lib.rs:265-365 | over any run of the chain a provider keeps its type, owner and chain id, its status only moves forward, and once inactive it stays so for the same reason |
| DapiPallet.Dapi.DepositProvider | pallets/dapi/src/lib.rs:298-318 | the in-place call through staking is its step, and a failure in staking changes nothing here |
| DapiPallet.Dapi.UnregisterProvider | pallets/dapi/src/lib.rs:322-342 | likewise, by the owner alone |
| DapiPallet.Dapi.ReportProviderOffence | pallets/dapi/src/lib.rs:346-365 | likewise, by a regulator alone |
| DapiPallet.Dapi.RegisterProvider | pallets/dapi/src/lib.rs:265-294 | a new entry, registered and unknown to staking |
| Chain.RunOk | runtime/local/src/lib.rs:222-504 | any interleaving of all three pallets' calls on one chain, and of what its other pallets do to balances, keeps the invariants of all of them |
| Chain.RunReserves | runtime/local/src/lib.rs:222-504 | over any such run each reserve moves exactly with the staking share, the candidate deposit and what others reserve or release |
| Chain.SharedLedger | runtime/local/src/lib.rs:222-504 | from the first block on, the one reserve of an account is its staking share plus its candidate deposit plus what others hold of it, identity deposits for one, and the two provider life cycles agree |
| Chain.CandidateFloor | pallets/validator-set/src/lib.rs:339-424 | over any such run the candidates never drop below the minimum once they have reached it |
| Chain.KickPatience | pallets/validator-set/src/lib.rs:320-439 | over any such run a session only removes who did not register within two thresholds, nor author within one |
| Candidacy.GraceOfJoin | pallets/validator-set/src/lib.rs:320-420 | over any run of the chain a candidate that neither authors nor leaves stays one for two thresholds after the block it was accepted in, through every session; a session from then on removes it exactly if more than the minimum remain without those overdue before it |
| Candidacy.GraceOfAuthor | pallets/validator-set/src/lib.rs:406-442 | the same for one threshold after it authored a block, even where its registration had given it longer |
| Candidacy.CandidateIsCalls | pallets/validator-set/src/lib.rs:298-330 | after any run from the first block a candidate's deposit is the candidacy bond in force when it last registered, and its last activity is the one in the calls |
| ChainHistory.RunIsViews | runtime/local/src/lib.rs:425-504 | every run of the chain is, on the staking ledger, a run of staking, in which the validator set is part of the rest of the chain |
| ChainHistory.PastIsFrozen | pallets/dapi-staking/src/lib.rs:256-835 | over any run of the chain closed eras and payments are never changed |
| ChainHistory.ProviderPaidOnce | pallets/dapi-staking/src/lib.rs:538-558 | over any run of the chain no provider is paid twice for an era |
| ChainHistory.DelegatorPaidOnce | pallets/dapi-staking/src/lib.rs:575-605 | over any run of the chain no delegator is paid twice for an era with a provider |
| ChainHistory.RewardConservation | pallets/dapi-staking/src/lib.rs:779-835 | over any run of the chain closed eras' rewards and the accumulator are all that was ever deposited |
| ChainHistory.RecordIsStaked | pallets/dapi-staking/src/lib.rs:390-504 | over any run of the chain a record's total is its bond plus what all delegators staked on balance up to its era |
| ChainHistory.RecordIsCalls | pallets/dapi-staking/src/lib.rs:303-504 | over any run of the chain every record is determined by what was bonded and staked until its era was over |
| ChainHistory.HeldForPeriod | pallets/dapi-staking/src/lib.rs:617-686 | over any run of the chain what is at stake with an inactive provider stays so until the period is over |
| ChainHistory.ChainClock | pallets/dapi-staking/src/lib.rs:256-278 | on the chain one era goes by for each so many blocks, whatever else happens |
| ChainHistory.StrandedForever | pallets/dapi-staking/src/lib.rs:570-583 | nothing on the chain frees a stranded stake |

## Left out

- StakingPallet.DapiStaking.Apply: promises no invariant after a reduction of a bond whose check wraps around and lets it through (`pallets/dapi-staking/src/lib.rs:361`), since there is none, as `Deviations.BondLessIff` shows; the runs of `StakingRuns` have the exact check.
- StakingRuns.RunValid: does not model the 32-bit range of era indices, block counts and delegator counts; their saturating increments are plain increments.
- Issuance.RunIssuance: covers staking's own calls only, since `Elsewhere` may mint and burn.
- `Perbill` and `Currency` internals, existential deposits, balance locks and account reaping: library code, replaced by the assumptions above.
- Dispatch weights, events, storage encoding, signatures and origins: nothing to prove beyond the caller being a parameter.
- The delay with which pallet_session applies a returned validator set, and session keys.
- Projects, quotas and usage, regulator and chain id management in `pallets/dapi`: one-branch updates.
- The two-way split of `pallets/block-reward`: a deposit of any size may happen at any time.
- Warnings about MaxCandidates and MaxInvulnerables, which restrict nothing.
- The node, RPC, chain specifications and runtime glue.
