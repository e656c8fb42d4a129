/** What every reachable ledger satisfies. */
module StakingInvariant {
  import opened Sums
  import opened Currency
  import opened Delegations
  import Unbonding
  import opened StakingTypes
  import StakingSpec

  // ---- The quantities that must agree

  /** All that delegators held with p in an era. */
  ghost function StakeSum(h: History, stakers: set<AccountId>, p: ProviderId, era: nat): nat {
    Sum(stakers, d => h(d, p, era))
  }

  /** How many delegators held anything with p in an era. */
  ghost function StakerCount(h: History, stakers: set<AccountId>, p: ProviderId, era: nat): nat {
    Sum(stakers, d => if h(d, p, era) > 0 then 1 else 0)
  }

  /** What p contributes to the stake of an era: its total, unless it unregistered by then. */
  function Contribution(providers: Providers, records: Records, era: nat, p: ProviderId): nat {
    if p in providers && providers[p].Earns(era) then RecordOf(records, p, era).total else 0
  }

  ghost function EraTotal(providers: Providers, records: Records, era: nat): nat {
    Sum(providers.Keys, p => Contribution(providers, records, era, p))
  }

  /** The bond of p that is reserved on account a. */
  function BondHeld(providers: Providers, records: Records, current: nat, a: AccountId, p: ProviderId): nat {
    if p in providers && providers[p].owner == a && !providers[p].bondWithdrawn
    then RecordOf(records, p, providers[p].LastEra(current)).bond
    else 0
  }

  /** What account a has at stake with p, as owner and as delegator. */
  function AtStake(providers: Providers, records: Records, delegations: Histories, current: nat,
                   a: AccountId, p: ProviderId): nat {
    if p in providers
    then BondHeld(providers, records, current, a, p) + Latest(StakesOf(delegations, a, p))
    else 0
  }

  ghost function AllAtStake(providers: Providers, records: Records, delegations: Histories, current: nat,
                            a: AccountId): nat {
    Sum(providers.Keys, p => AtStake(providers, records, delegations, current, a, p))
  }

  /** What staking must hold reserved for account a: its bonds, its stakes and its unlocking chunks. */
  ghost function StakingShare(st: Ledger, a: AccountId): nat {
    AllAtStake(st.providers, st.records, st.delegations, st.era.current, a) + Unbonding.Total(QueueOf(st.unbonding, a))
  }

  function RewardsIn(eraState: EraStates, era: nat): nat {
    EraOf(eraState, era).rewards
  }

  ghost function ClosedRewards(eraState: EraStates, current: nat): nat {
    SumUpTo(current, e => RewardsIn(eraState, e))
  }

  /** The amount paid under each key, none under any other. */
  function PaidAmount<K(!new)>(paid: map<K, nat>): K -> nat {
    k => if k in paid then paid[k] else 0
  }

  /** All that was ever paid out of the pot. */
  ghost function AllPayments(t: Trace): nat {
    Sum(t.paidProviders.Keys, PaidAmount(t.paidProviders)) + Sum(t.paidDelegators.Keys, PaidAmount(t.paidDelegators))
  }

  /** The stake of d with p in an era for which no reward has been paid yet. */
  ghost function UnpaidStake(t: Trace, d: AccountId, p: ProviderId, era: nat): nat {
    if (d, p, era) in t.paidDelegators then 0 else t.history(d, p, era)
  }

  // ---- The invariant, part by part

  /** Eras 0 to the current one are known, and no reward was lost or counted twice. */
  ghost predicate ErasOk(eraState: EraStates, accumulator: nat, deposited: nat, current: nat) {
    && 1 <= current
    && (forall e: nat :: e in eraState <==> e <= current)
    && RewardsIn(eraState, current) == 0
    && ClosedRewards(eraState, current) + accumulator == deposited
  }

  predicate ProviderOk(pr: ProviderMetadata, records: Records, p: ProviderId, current: nat) {
    && 1 <= pr.LastEra(current) <= current
    && (p, pr.LastEra(current)) in records
    && (pr.bondWithdrawn ==> pr.status.Inactive?)
  }

  predicate RecordOk(cfg: Config, providers: Providers, current: nat, p: ProviderId, era: nat,
                     rec: ProviderEraMetadata) {
    && p in providers
    && 1 <= era <= providers[p].LastEra(current)
    && rec.bond >= cfg.minProviderStake
    && rec.delegatorCount <= cfg.maxDelegatorsPerProvider + 1
  }

  ghost predicate RecordsOk(cfg: Config, providers: Providers, records: Records, current: nat) {
    && (forall p :: p in providers ==> ProviderOk(providers[p], records, p, current))
    && (forall p: ProviderId, e: nat :: (p, e) in records ==> RecordOk(cfg, providers, current, p, e, records[(p, e)]))
  }

  /** The stake of d with p over time: none before registration, and frozen after the last era. */
  ghost predicate StakeOk(cfg: Config, providers: Providers, records: Records, current: nat,
                          h: History, stakers: set<AccountId>, d: AccountId, p: ProviderId, era: nat) {
    && (h(d, p, era) == 0 || (h(d, p, era) >= cfg.minDelegatorStake && p in providers && d in stakers))
    && (p in providers ==>
          && (providers[p].LastEra(current) <= era ==> h(d, p, era) == h(d, p, providers[p].LastEra(current)))
          && (era <= providers[p].LastEra(current) && (p, era) !in records ==> h(d, p, era) == 0))
  }

  ghost predicate StakesOk(cfg: Config, providers: Providers, records: Records, current: nat, t: Trace) {
    forall d: AccountId, p: ProviderId, e: nat ::
      StakeOk(cfg, providers, records, current, t.history, t.stakers, d, p, e)
  }

  /** Every record's total is the bond and all stakes of its era; its count counts the stakers. */
  ghost predicate HistoryOk(records: Records, h: History, stakers: set<AccountId>) {
    forall p: ProviderId, e: nat :: (p, e) in records ==>
      && records[(p, e)].total == records[(p, e)].bond + StakeSum(h, stakers, p, e)
      && records[(p, e)].delegatorCount == StakerCount(h, stakers, p, e)
  }

  /** Every era's stake is the sum of the totals of the providers it rewards. */
  ghost predicate TotalsOk(providers: Providers, records: Records, eraState: EraStates, current: nat) {
    forall e: nat :: e <= current ==> EraOf(eraState, e).staked == EraTotal(providers, records, e)
  }

  predicate StoredOk(cfg: Config, current: nat, s: Stakes) {
    s != [] ==> 1 <= s[0].era && s[|s| - 1].era <= current && |s| < cfg.maxEraStakeValues
  }

  /**
    A stored history is well formed and reads back, for every era, the stake not yet rewarded.
    Once it is withdrawn that still holds of all eras the provider was rewarded for.
   */
  ghost predicate DelegationOk(cfg: Config, providers: Providers, current: nat, t: Trace, s: Stakes,
                               d: AccountId, p: ProviderId) {
    && Ordered(s)
    && StoredOk(cfg, current, s)
    && (p !in providers ==> s == [])
    && (forall e: nat :: s != [] || (p in providers && providers[p].Earns(e)) ==> At(s, e) == UnpaidStake(t, d, p, e))
  }

  ghost predicate DelegationsOk(cfg: Config, providers: Providers, current: nat, t: Trace, delegations: Histories) {
    forall d: AccountId, p: ProviderId ::
      DelegationOk(cfg, providers, current, t, StakesOf(delegations, d, p), d, p)
  }

  /** A provider is paid once, for a closed era it earned in, and by the record of that era. */
  predicate ProviderPaidOk(cfg: Config, providers: Providers, records: Records, eraState: EraStates, current: nat,
                           p: ProviderId, era: nat, amount: nat) {
    && p in providers && providers[p].Earns(era) && era < current
    && (p, era) in records && records[(p, era)].providerRewardClaimed
    && amount == StakingSpec.ProviderPart(cfg, records[(p, era)], EraOf(eraState, era))
  }

  predicate DelegatorPaidOk(cfg: Config, providers: Providers, records: Records, eraState: EraStates, current: nat,
                            h: History, d: AccountId, p: ProviderId, era: nat, amount: nat) {
    && p in providers && providers[p].Earns(era) && era < current
    && (p, era) in records && h(d, p, era) > 0
    && amount == StakingSpec.DelegatorReward(cfg, h(d, p, era), records[(p, era)], EraOf(eraState, era))
  }

  ghost predicate PaymentsOk(cfg: Config, providers: Providers, records: Records, eraState: EraStates, current: nat,
                             t: Trace) {
    && (forall p: ProviderId, e: nat :: (p, e) in t.paidProviders ==>
          ProviderPaidOk(cfg, providers, records, eraState, current, p, e, t.paidProviders[(p, e)]))
    && (forall p: ProviderId, e: nat :: (p, e) in records && records[(p, e)].providerRewardClaimed ==>
          (p, e) in t.paidProviders)
    && (forall d: AccountId, p: ProviderId, e: nat :: (d, p, e) in t.paidDelegators ==>
          DelegatorPaidOk(cfg, providers, records, eraState, current, t.history, d, p, e, t.paidDelegators[(d, p, e)]))
  }

  ghost predicate QueuesOk(cfg: Config, unbonding: Queues) {
    forall a: AccountId ::
      Unbonding.Ascending(QueueOf(unbonding, a)) && |QueueOf(unbonding, a)| <= cfg.maxUnlockingChunks
  }

  ghost predicate WellFormed(cfg: Config, st: Ledger) {
    var current := st.era.current;
    && ErasOk(st.eraState, st.accumulator, st.trace.deposited, current)
    && RecordsOk(cfg, st.providers, st.records, current)
    && StakesOk(cfg, st.providers, st.records, current, st.trace)
    && HistoryOk(st.records, st.trace.history, st.trace.stakers)
    && TotalsOk(st.providers, st.records, st.eraState, current)
    && DelegationsOk(cfg, st.providers, current, st.trace, st.delegations)
    && PaymentsOk(cfg, st.providers, st.records, st.eraState, current, st.trace)
    && QueuesOk(cfg, st.unbonding)
  }

  /** All that staking owes back to an account is reserved on it. */
  ghost predicate Backed(st: Ledger) {
    forall a: AccountId :: StakingShare(st, a) <= st.bank.Reserved(a)
  }

  /** The pot holds whatever was deposited and not yet paid out; nobody stakes from the pot. */
  ghost predicate PotOk(cfg: Config, st: Ledger) {
    && st.bank.Free(cfg.pot) + AllPayments(st.trace) >= st.trace.deposited
    && forall p :: p in st.providers ==> st.providers[p].owner != cfg.pot
  }

  ghost predicate Valid(cfg: Config, st: Ledger) {
    WellFormed(cfg, st) && Backed(st) && PotOk(cfg, st)
  }

  /** Between two ledgers every account's reserve moved by exactly as much as staking's share of it. */
  ghost predicate Lockstep(st: Ledger, next: Ledger) {
    forall a: AccountId ::
      next.bank.Reserved(a) + StakingShare(st, a) == st.bank.Reserved(a) + StakingShare(next, a)
  }

  lemma LockstepKeepsBacked(st: Ledger, next: Ledger)
    requires Backed(st) && Lockstep(st, next)
    ensures Backed(next)
  {
    forall a: AccountId ensures StakingShare(next, a) <= next.bank.Reserved(a) {
      assert StakingShare(st, a) <= st.bank.Reserved(a);
    }
  }
}
