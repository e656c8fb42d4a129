/** The entities of the staking pallet, and the ledger its storage items make up. */
module StakingTypes {
  import Arithmetic
  import opened Currency
  import Delegations
  import Unbonding
  import Perbill

  type ProviderId = nat

  datatype ProviderStatus = Active | Inactive(since: nat)

  datatype ProviderMetadata = ProviderMetadata(owner: AccountId, status: ProviderStatus, bondWithdrawn: bool) {

    /** The last era in which the provider's record may change or earn: now, or when it unregistered. */
    function LastEra(current: nat): nat {
      if status.Active? then current else status.since
    }

    /** An era the provider is rewarded for: any while active, only earlier ones once inactive. */
    predicate Earns(era: nat) {
      status.Active? || era < status.since
    }
  }

  datatype EraMetadata = EraMetadata(rewards: nat, staked: nat)

  datatype ProviderEraMetadata =
    ProviderEraMetadata(bond: nat, total: nat, delegatorCount: nat, providerRewardClaimed: bool)

  datatype EraInfo = EraInfo(current: nat, firstBlock: nat, length: nat) {

    predicate ShouldUpdate(block: nat)
      requires firstBlock <= block
    {
      block - firstBlock >= length || current == 0
    }
  }

  datatype Error =
    | ProviderDNE | InsufficientBond | StakingWithNoValue | MaxNumberOfStakersExceeded
    | NotOperatedProvider | NotStakedProvider | UnknownEra | UnexpectedDelegationInfoEra
    | TooManyEraStakeValues | UnclaimedRewardsRemaining | UnstakingWithNoValue
    | TooManyUnlockingChunks | NothingToWithdraw | EraOutOfBounds | NotOwnedProvider
    | AlreadyClaimedInThisEra | NotUnregisteredProvider | ProviderExists | NoWritingSameValue
    | Overflow | InsufficientBalance

  /** The constants of the pallet's configuration, and the account that holds the reward pot. */
  datatype Constants = Constants(
    defaultBlocksPerEra: nat,
    providerRewardsPercentage: Perbill.Perbill,
    minProviderStake: nat,
    maxDelegatorsPerProvider: nat,
    minDelegatorStake: nat,
    maxEraStakeValues: nat,
    unbondingPeriod: nat,
    maxUnlockingChunks: nat,
    pot: AccountId)

  /** Every runtime of the repository sets a positive minimum for delegators. */
  type Config = c: Constants | c.minDelegatorStake > 0
    witness Constants(1, 0, 0, 0, 1, 0, 0, 0, 0)

  /** The stake a delegator held with a provider in an era. */
  type History = (AccountId, ProviderId, nat) -> nat

  /** h with the stake of d with p set to v from the given era on. */
  function SetFrom(h: History, d: AccountId, p: ProviderId, era: nat, v: nat): History {
    (d', p', e) => if d' == d && p' == p && era <= e then v else h(d', p', e)
  }

  /**
    What happened so far, which the storage forgets: the full stake history and everybody who ever
    staked, every reward paid and for which era, and all that was ever deposited as reward.
   */
  datatype Trace = Trace(
    history: History,
    stakers: set<AccountId>,
    paidProviders: map<(ProviderId, nat), nat>,
    paidDelegators: map<(AccountId, ProviderId, nat), nat>,
    deposited: nat)

  type Providers = map<ProviderId, ProviderMetadata>
  type Records = map<(ProviderId, nat), ProviderEraMetadata>
  type EraStates = map<nat, EraMetadata>
  type Histories = map<(AccountId, ProviderId), Delegations.Stakes>
  type Queues = map<AccountId, Unbonding.Chunks>

  datatype Ledger = Ledger(
    bank: Bank,
    era: EraInfo,
    eraState: EraStates,
    accumulator: nat,
    providers: Providers,
    records: Records,
    delegations: Histories,
    unbonding: Queues,
    trace: Trace)

  // ---- Storage access with default values

  const NO_RECORD := ProviderEraMetadata(0, 0, 0, false)

  const NO_ERA := EraMetadata(0, 0)

  function RecordOf(records: Records, p: ProviderId, era: nat): ProviderEraMetadata {
    if (p, era) in records then records[(p, era)] else NO_RECORD
  }

  function EraOf(eraState: EraStates, era: nat): EraMetadata {
    if era in eraState then eraState[era] else NO_ERA
  }

  function StakesOf(delegations: Histories, d: AccountId, p: ProviderId): Delegations.Stakes {
    if (d, p) in delegations then delegations[(d, p)] else []
  }

  function QueueOf(unbonding: Queues, who: AccountId): Unbonding.Chunks {
    if who in unbonding then unbonding[who] else []
  }

  /** Stores a history, or removes the entry of an empty one. */
  function PutStakes(delegations: Histories, d: AccountId, p: ProviderId, s: Delegations.Stakes): Histories {
    if s == [] then delegations - {(d, p)} else delegations[(d, p) := s]
  }

  /** Stores a queue, or removes the entry of an empty one. */
  function PutQueue(unbonding: Queues, who: AccountId, q: Unbonding.Chunks): Queues {
    if q == [] then unbonding - {who} else unbonding[who := q]
  }

  function AddStaked(eraState: EraStates, era: nat, amount: nat): EraStates {
    if era in eraState then eraState[era := eraState[era].(staked := eraState[era].staked + amount)] else eraState
  }

  function SubStaked(eraState: EraStates, era: nat, amount: nat): EraStates {
    if era in eraState
    then eraState[era := eraState[era].(staked := Arithmetic.SaturatingSub(eraState[era].staked, amount))]
    else eraState
  }

  predicate IsActive(providers: Providers, p: ProviderId) {
    p in providers && providers[p].status.Active?
  }
}
