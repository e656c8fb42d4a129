/**
  Bonding and staking, more or less, keeps the invariant and moves each account's reserve by
  exactly as much as staking's share of it.
 */
module StakeSteps {
  import opened Arithmetic
  import opened Wrappers
  import Sums
  import opened Currency
  import opened Delegations
  import opened Unbonding
  import opened StakingTypes
  import opened StakingSpec
  import opened StakingInvariant
  import opened StakingFrames

  // ---- Changes of the current record of an active provider

  lemma AddStakedChanges(eraState: EraStates, era: nat, amount: nat)
    requires era in eraState
    ensures StakedChanged(eraState, AddStaked(eraState, era, amount), era, EraOf(eraState, era).staked + amount)
  {
  }

  lemma SubStakedChanges(eraState: EraStates, era: nat, amount: nat)
    requires era in eraState && amount <= EraOf(eraState, era).staked
    ensures StakedChanged(eraState, SubStaked(eraState, era, amount), era, EraOf(eraState, era).staked - amount)
  {
  }

  /** The parts of the invariant that see a changed record and era stake, but not the stakes. */
  lemma RecordChange(cfg: Config, st: Ledger, p: ProviderId, rec: ProviderEraMetadata, next: EraStates, staked: nat,
                     t': Trace)
    requires WellFormed(cfg, st) && IsActive(st.providers, p)
    requires rec.bond >= cfg.minProviderStake && rec.delegatorCount <= cfg.maxDelegatorsPerProvider + 1
    requires !rec.providerRewardClaimed
    requires StakedChanged(st.eraState, next, st.era.current, staked)
    requires staked + RecordOf(st.records, p, st.era.current).total
             == EraOf(st.eraState, st.era.current).staked + rec.total
    requires t'.paidProviders == st.trace.paidProviders && t'.paidDelegators == st.trace.paidDelegators
    requires forall d: AccountId, q: ProviderId, e: nat :: e < st.era.current ==>
               t'.history(d, q, e) == st.trace.history(d, q, e)
    ensures var records' := st.records[(p, st.era.current) := rec];
            && ErasOk(next, st.accumulator, st.trace.deposited, st.era.current)
            && RecordsOk(cfg, st.providers, records', st.era.current)
            && TotalsOk(st.providers, records', next, st.era.current)
            && PaymentsOk(cfg, st.providers, records', next, st.era.current, t')
  {
    var current := st.era.current;
    ErasFrame(st.eraState, next, current, staked, st.accumulator, st.trace.deposited, current);
    RecordsPut(cfg, st.providers, st.records, current, p, rec);
    TotalsPut(st.providers, st.records, st.eraState, current, p, rec, next, staked);
    PaymentsFrame(cfg, st.providers, st.records, st.eraState, current, st.trace, p, rec, next, t');
  }

  /** A bond change moves total and bond alike, so the stakes still make up the difference. */
  lemma HistoryRebond(records: Records, t: Trace, p: ProviderId, era: nat, rec: ProviderEraMetadata)
    requires HistoryOk(records, t.history, t.stakers) && (p, era) in records
    requires rec.total + records[(p, era)].bond == records[(p, era)].total + rec.bond
    requires rec.delegatorCount == records[(p, era)].delegatorCount
    ensures HistoryOk(records[(p, era) := rec], t.history, t.stakers)
  {
    assert records[(p, era)].total == records[(p, era)].bond + StakeSum(t.history, t.stakers, p, era);
    forall q: ProviderId, e: nat | (q, e) in records[(p, era) := rec]
      ensures && records[(p, era) := rec][(q, e)].total
                 == records[(p, era) := rec][(q, e)].bond + StakeSum(t.history, t.stakers, q, e)
              && records[(p, era) := rec][(q, e)].delegatorCount == StakerCount(t.history, t.stakers, q, e)
    {
      assert (q, e) in records;
    }
  }

  // ---- Providers bonding more and less

  lemma BondMoreWellFormed(cfg: Config, st: Ledger, who: AccountId, p: ProviderId, amount: nat)
    requires WellFormed(cfg, st)
    requires ProviderBondMore(cfg, st, who, p, amount).Ok?
    ensures WellFormed(cfg, ProviderBondMore(cfg, st, who, p, amount).value)
  {
    var era := st.era.current;
    var next := ProviderBondMore(cfg, st, who, p, amount).value;
    CurrentRecord(cfg, st.providers, st.records, era, p);
    CurrentUnclaimed(cfg, st.providers, st.records, st.eraState, era, st.trace, p);
    AddStakedChanges(st.eraState, era, amount);
    var rec := next.records[(p, era)];
    assert next.records == st.records[(p, era) := rec];
    RebondWellFormed(cfg, st, next, p, rec, EraOf(st.eraState, era).staked + amount);
  }

  /** A changed bond of an active provider, whatever happened to balances and queues. */
  lemma RebondWellFormed(cfg: Config, st: Ledger, next: Ledger, p: ProviderId, rec: ProviderEraMetadata, staked: nat)
    requires WellFormed(cfg, st) && IsActive(st.providers, p)
    requires next == st.(bank := next.bank, eraState := next.eraState, records := next.records,
                         unbonding := next.unbonding)
    requires (p, st.era.current) in st.records
    requires next.records == st.records[(p, st.era.current) := rec]
    requires var was := st.records[(p, st.era.current)];
             && rec.total + was.bond == was.total + rec.bond
             && rec.bond >= cfg.minProviderStake && rec.delegatorCount == was.delegatorCount
             && staked + was.total == EraOf(st.eraState, st.era.current).staked + rec.total
    requires !rec.providerRewardClaimed
    requires StakedChanged(st.eraState, next.eraState, st.era.current, staked)
    requires QueuesOk(cfg, next.unbonding)
    ensures WellFormed(cfg, next)
  {
    var era := st.era.current;
    CurrentRecord(cfg, st.providers, st.records, era, p);
    RecordChange(cfg, st, p, rec, next.eraState, staked, st.trace);
    HistoryRebond(st.records, st.trace, p, era, rec);
    StakesRecordsPut(cfg, st.providers, st.records, era, st.trace, p, rec);
  }

  lemma BondMoreLockstep(cfg: Config, st: Ledger, who: AccountId, p: ProviderId, amount: nat)
    requires WellFormed(cfg, st)
    requires ProviderBondMore(cfg, st, who, p, amount).Ok?
    ensures Lockstep(st, ProviderBondMore(cfg, st, who, p, amount).value)
  {
    var next := ProviderBondMore(cfg, st, who, p, amount).value;
    RebondLockstep(cfg, st, next, p, who);
  }

  /** Reserve, bond and queue of the owner move together; every other account is untouched. */
  lemma RebondLockstep(cfg: Config, st: Ledger, next: Ledger, p: ProviderId, who: AccountId)
    requires RecordsOk(cfg, st.providers, st.records, st.era.current) && IsActive(st.providers, p)
    requires st.providers[p].owner == who
    requires next.providers == st.providers && next.delegations == st.delegations && next.era == st.era
    requires (p, st.era.current) in next.records
    requires next.records == st.records[(p, st.era.current) := next.records[(p, st.era.current)]]
    requires forall a: AccountId ::
               next.bank.Reserved(a) + Total(QueueOf(st.unbonding, a))
               + (if a == who then RecordOf(st.records, p, st.era.current).bond else 0)
               == st.bank.Reserved(a) + Total(QueueOf(next.unbonding, a))
                  + if a == who then RecordOf(next.records, p, st.era.current).bond else 0
    ensures Lockstep(st, next)
  {
    assert ProviderOk(st.providers[p], st.records, p, st.era.current);
    PointLockstep(st, next, p);
  }

  lemma QueueAdded(cfg: Config, st: Ledger, who: AccountId, amount: nat)
    requires QueuesOk(cfg, st.unbonding) && amount > 0
    ensures var queue := QueueOf(st.unbonding, who);
            var added := Added(queue, UnlockingChunk(amount, st.era.current + cfg.unbondingPeriod));
            && Total(added) == Total(queue) + amount
            && (|added| <= cfg.maxUnlockingChunks ==>
                  && QueuesOk(cfg, PutQueue(st.unbonding, who, added))
                  && forall x: AccountId :: QueueOf(PutQueue(st.unbonding, who, added), x)
                                            == if x == who then added else QueueOf(st.unbonding, x))
  {
    var queue := QueueOf(st.unbonding, who);
    var chunk := UnlockingChunk(amount, st.era.current + cfg.unbondingPeriod);
    assert Ascending(queue);
    AddRefines(queue, chunk);
    if |Added(queue, chunk)| <= cfg.maxUnlockingChunks {
      QueuesPut(cfg, st.unbonding, who, Added(queue, chunk));
    }
  }

  /** What a reduced bond changes, when it goes through. */
  ghost predicate BondsLess(cfg: Config, st: Ledger, next: Ledger, who: AccountId, p: ProviderId, amount: nat) {
    var era := st.era.current;
    var was := RecordOf(st.records, p, era);
    var queue := Added(QueueOf(st.unbonding, who), UnlockingChunk(amount, era + cfg.unbondingPeriod));
    && amount > 0 && IsActive(st.providers, p) && st.providers[p].owner == who
    && was.bond >= amount + cfg.minProviderStake && |queue| <= cfg.maxUnlockingChunks
    && next == st.(unbonding := PutQueue(st.unbonding, who, queue),
                   eraState := SubStaked(st.eraState, era, amount),
                   records := st.records[(p, era) := was.(bond := was.bond - amount,
                                                          total := SaturatingSub(was.total, amount))])
  }

  lemma BondLessChanges(cfg: Config, st: Ledger, who: AccountId, p: ProviderId, amount: nat)
    requires ProviderBondLess(cfg, st, who, p, amount).Ok?
    ensures BondsLess(cfg, st, ProviderBondLess(cfg, st, who, p, amount).value, who, p, amount)
  {
  }

  lemma BondsLessWellFormed(cfg: Config, st: Ledger, next: Ledger, who: AccountId, p: ProviderId, amount: nat)
    requires WellFormed(cfg, st) && BondsLess(cfg, st, next, who, p, amount)
    ensures WellFormed(cfg, next)
  {
    var era := st.era.current;
    CurrentRecord(cfg, st.providers, st.records, era, p);
    CurrentUnclaimed(cfg, st.providers, st.records, st.eraState, era, st.trace, p);
    var was := st.records[(p, era)];
    assert was.total == was.bond + StakeSum(st.trace.history, st.trace.stakers, p, era);
    ContributionWithinTotal(st.providers, st.records, st.eraState, era, p);
    SubStakedChanges(st.eraState, era, amount);
    QueueAdded(cfg, st, who, amount);
    RebondWellFormed(cfg, st, next, p, next.records[(p, era)], EraOf(st.eraState, era).staked - amount);
  }

  lemma BondsLessLockstep(cfg: Config, st: Ledger, next: Ledger, who: AccountId, p: ProviderId, amount: nat)
    requires RecordsOk(cfg, st.providers, st.records, st.era.current) && QueuesOk(cfg, st.unbonding)
    requires BondsLess(cfg, st, next, who, p, amount)
    ensures Lockstep(st, next)
  {
    CurrentRecord(cfg, st.providers, st.records, st.era.current, p);
    QueueAdded(cfg, st, who, amount);
    RebondLockstep(cfg, st, next, p, who);
  }

  lemma BondLessWellFormed(cfg: Config, st: Ledger, who: AccountId, p: ProviderId, amount: nat)
    requires WellFormed(cfg, st)
    requires ProviderBondLess(cfg, st, who, p, amount).Ok?
    ensures WellFormed(cfg, ProviderBondLess(cfg, st, who, p, amount).value)
  {
    BondLessChanges(cfg, st, who, p, amount);
    BondsLessWellFormed(cfg, st, ProviderBondLess(cfg, st, who, p, amount).value, who, p, amount);
  }

  lemma BondLessLockstep(cfg: Config, st: Ledger, who: AccountId, p: ProviderId, amount: nat)
    requires WellFormed(cfg, st)
    requires ProviderBondLess(cfg, st, who, p, amount).Ok?
    ensures Lockstep(st, ProviderBondLess(cfg, st, who, p, amount).value)
  {
    BondLessChanges(cfg, st, who, p, amount);
    BondsLessLockstep(cfg, st, ProviderBondLess(cfg, st, who, p, amount).value, who, p, amount);
  }

  // ---- Delegators staking and unstaking

  /** The parts of the invariant that see the stake of one pair change from the current era on. */
  lemma StakeChange(cfg: Config, st: Ledger, d: AccountId, p: ProviderId, v: nat, rec: ProviderEraMetadata, s: Stakes)
    requires WellFormed(cfg, st) && IsActive(st.providers, p)
    requires v == 0 || v >= cfg.minDelegatorStake
    requires var was := RecordOf(st.records, p, st.era.current);
             var held := Latest(StakesOf(st.delegations, d, p));
             && rec.bond == was.bond && rec.total + held == was.total + v
             && rec.delegatorCount + Ones(held) == was.delegatorCount + Ones(v)
    requires Ordered(s) && StoredOk(cfg, st.era.current, s)
    requires forall e: nat :: At(s, e) == if st.era.current <= e then v else At(StakesOf(st.delegations, d, p), e)
    ensures var t' := Restaked(st.trace, d, p, st.era.current, v);
            var records' := st.records[(p, st.era.current) := rec];
            && StakesOk(cfg, st.providers, records', st.era.current, t')
            && HistoryOk(records', t'.history, t'.stakers)
            && DelegationsOk(cfg, st.providers, st.era.current, t', PutStakes(st.delegations, d, p, s))
  {
    var current := st.era.current;
    var was := StakesOf(st.delegations, d, p);
    CurrentUnclaimed(cfg, st.providers, st.records, st.eraState, current, st.trace, p);
    assert DelegationOk(cfg, st.providers, current, st.trace, was, d, p);
    LatestIsHeld(cfg, st.providers, current, st.trace, was, d, p);
    StakesRestake(cfg, st.providers, st.records, current, st.trace, d, p, v, rec);
    HistoryRestake(cfg, st.providers, st.records, current, st.trace, d, p, v, rec);
    RestakedPair(cfg, st.providers, current, st.trace, was, d, p, s, v);
    DelegationsPut(cfg, st.providers, current, st.trace, st.delegations, d, p, s, Restaked(st.trace, d, p, current, v));
  }

  /** A stored history never runs ahead of the current era, so both kinds of change are accepted. */
  lemma StoredPair(cfg: Config, st: Ledger, d: AccountId, p: ProviderId)
    requires WellFormed(cfg, st)
    ensures var s := StakesOf(st.delegations, d, p);
            && DelegationOk(cfg, st.providers, st.era.current, st.trace, s, d, p)
            && Ordered(s) && StoredOk(cfg, st.era.current, s)
  {
    assert DelegationOk(cfg, st.providers, st.era.current, st.trace, StakesOf(st.delegations, d, p), d, p);
  }

  lemma DelegatedHistory(s: Stakes, era: nat, amount: nat)
    requires Ordered(s) && (s != [] ==> 1 <= s[0].era && s[|s| - 1].era <= era) && 1 <= era
    ensures Staked(s, era, amount).Ok?
    ensures var t := Staked(s, era, amount).value;
            && Ordered(t) && t != [] && 1 <= t[0].era && t[|t| - 1].era <= era
            && Latest(t) == Latest(s) + amount
            && forall e: nat :: At(t, e) == if era <= e then Latest(t) else At(s, e)
  {
    StakeRefines(s, era, amount);
    forall e: nat | era <= e ensures At(s, e) == Latest(s) {
      AtFromLast(s, e);
    }
  }

  lemma UnstakedHistory(s: Stakes, era: nat, amount: nat)
    requires Ordered(s) && (s != [] ==> 1 <= s[0].era && s[|s| - 1].era <= era) && amount <= Latest(s)
    ensures Unstaked(s, era, amount).Ok?
    ensures var t := Unstaked(s, era, amount).value;
            && Ordered(t) && (t != [] ==> 1 <= t[0].era && t[|t| - 1].era <= era)
            && Latest(t) == Latest(s) - amount
            && forall e: nat :: At(t, e) == if era <= e then Latest(t) else At(s, e)
  {
    UnstakeRefines(s, era, amount);
    forall e: nat | era <= e ensures At(s, e) == Latest(s) {
      AtFromLast(s, e);
    }
  }

  /** The record, the stake and the era change by the same amount, within their bounds. */
  ghost predicate Evenly(cfg: Config, st: Ledger, d: AccountId, p: ProviderId, rec: ProviderEraMetadata, v: nat,
                         staked: nat) {
    var was := RecordOf(st.records, p, st.era.current);
    var held := Latest(StakesOf(st.delegations, d, p));
    && rec.bond == was.bond && rec.bond >= cfg.minProviderStake
    && rec.total + held == was.total + v
    && rec.delegatorCount + Ones(held) == was.delegatorCount + Ones(v)
    && rec.delegatorCount <= cfg.maxDelegatorsPerProvider + 1
    && staked + was.total == EraOf(st.eraState, st.era.current).staked + rec.total
    && !rec.providerRewardClaimed
    && (v == 0 || v >= cfg.minDelegatorStake)
  }

  /** A changed stake with an active provider, whatever happened to balances and queues. */
  lemma RestakeWellFormed(cfg: Config, st: Ledger, next: Ledger, d: AccountId, p: ProviderId,
                          rec: ProviderEraMetadata, s: Stakes, staked: nat)
    requires WellFormed(cfg, st) && IsActive(st.providers, p)
    requires next == st.(bank := next.bank, eraState := next.eraState, records := next.records,
                         delegations := next.delegations, unbonding := next.unbonding, trace := next.trace)
    requires next.records == st.records[(p, st.era.current) := rec]
    requires next.delegations == PutStakes(st.delegations, d, p, s)
    requires next.trace == Restaked(st.trace, d, p, st.era.current, Latest(s))
    requires Evenly(cfg, st, d, p, rec, Latest(s), staked)
    requires StakedChanged(st.eraState, next.eraState, st.era.current, staked)
    requires Ordered(s) && StoredOk(cfg, st.era.current, s)
    requires forall e: nat ::
               At(s, e) == if st.era.current <= e then Latest(s) else At(StakesOf(st.delegations, d, p), e)
    requires QueuesOk(cfg, next.unbonding)
    ensures WellFormed(cfg, next)
  {
    RecordChange(cfg, st, p, rec, next.eraState, staked, next.trace);
    StakeChange(cfg, st, d, p, Latest(s), rec, s);
  }

  lemma DelegateWellFormed(cfg: Config, st: Ledger, d: AccountId, p: ProviderId, amount: nat)
    requires WellFormed(cfg, st)
    requires Delegate(cfg, st, d, p, amount).Ok?
    ensures WellFormed(cfg, Delegate(cfg, st, d, p, amount).value)
  {
    var era := st.era.current;
    var next := Delegate(cfg, st, d, p, amount).value;
    var s := StakesOf(st.delegations, d, p);
    StoredPair(cfg, st, d, p);
    CurrentRecord(cfg, st.providers, st.records, era, p);
    CurrentUnclaimed(cfg, st.providers, st.records, st.eraState, era, st.trace, p);
    DelegatedHistory(s, era, amount);
    var t := Staked(s, era, amount).value;
    var rec := next.records[(p, era)];
    assert next.records == st.records[(p, era) := rec];
    assert next.trace == Restaked(st.trace, d, p, era, Latest(t));
    AddStakedChanges(st.eraState, era, amount);
    RestakeWellFormed(cfg, st, next, d, p, rec, t, EraOf(st.eraState, era).staked + amount);
  }

  lemma StakesPut(delegations: Histories, d: AccountId, p: ProviderId, s: Stakes)
    ensures forall a: AccountId, q: ProviderId ::
              StakesOf(PutStakes(delegations, d, p, s), a, q)
              == if a == d && q == p then s else StakesOf(delegations, a, q)
  {
  }

  /** Reserve, stake and queue of the delegator move together; every other account is untouched. */
  lemma RestakeLockstep(cfg: Config, st: Ledger, next: Ledger, d: AccountId, p: ProviderId, s: Stakes)
    requires p in st.providers
    requires next.providers == st.providers && next.era == st.era
    requires next.delegations == PutStakes(st.delegations, d, p, s)
    requires forall q: ProviderId, e: nat :: RecordOf(next.records, q, e).bond == RecordOf(st.records, q, e).bond
    requires forall a: AccountId ::
               next.bank.Reserved(a) + Total(QueueOf(st.unbonding, a))
               + (if a == d then Latest(StakesOf(st.delegations, d, p)) else 0)
               == st.bank.Reserved(a) + Total(QueueOf(next.unbonding, a)) + if a == d then Latest(s) else 0
    ensures Lockstep(st, next)
  {
    StakesPut(st.delegations, d, p, s);
    RestakeOnlyAt(st, next, d, p, s);
    PointLockstep(st, next, p);
  }

  lemma RestakeOnlyAt(st: Ledger, next: Ledger, d: AccountId, p: ProviderId, s: Stakes)
    requires next.providers == st.providers && next.era == st.era
    requires next.delegations == PutStakes(st.delegations, d, p, s)
    requires forall q: ProviderId, e: nat :: RecordOf(next.records, q, e).bond == RecordOf(st.records, q, e).bond
    ensures OnlyAt(st, next, p)
  {
    StakesPut(st.delegations, d, p, s);
  }

  lemma DelegateLockstep(cfg: Config, st: Ledger, d: AccountId, p: ProviderId, amount: nat)
    requires WellFormed(cfg, st)
    requires Delegate(cfg, st, d, p, amount).Ok?
    ensures Lockstep(st, Delegate(cfg, st, d, p, amount).value)
  {
    var next := Delegate(cfg, st, d, p, amount).value;
    var s := StakesOf(st.delegations, d, p);
    StoredPair(cfg, st, d, p);
    CurrentRecord(cfg, st.providers, st.records, st.era.current, p);
    DelegatedHistory(s, st.era.current, amount);
    var t := Staked(s, st.era.current, amount).value;
    RestakeLockstep(cfg, st, next, d, p, t);
  }

  /** What an unstake takes is never more than what is staked, and leaves nothing or enough. */
  lemma UnstakeAmountOk(cfg: Config, staked: nat, amount: nat)
    requires staked > 0 && amount > 0
    ensures 0 < UnstakeAmount(cfg, staked, amount) <= staked
    ensures var left := staked - UnstakeAmount(cfg, staked, amount); left == 0 || left >= cfg.minDelegatorStake
    ensures UnstakeAmount(cfg, staked, amount) == staked <==> SaturatingSub(staked, amount) < cfg.minDelegatorStake
  {
  }

  lemma CountsStaker(cfg: Config, st: Ledger, d: AccountId, p: ProviderId)
    requires WellFormed(cfg, st) && IsActive(st.providers, p)
    requires Latest(StakesOf(st.delegations, d, p)) > 0
    ensures d in st.trace.stakers
    ensures RecordOf(st.records, p, st.era.current).delegatorCount >= 1
    ensures RecordOf(st.records, p, st.era.current).total
            >= RecordOf(st.records, p, st.era.current).bond + Latest(StakesOf(st.delegations, d, p))
  {
    var era := st.era.current;
    var h := st.trace.history;
    StoredPair(cfg, st, d, p);
    CurrentRecord(cfg, st.providers, st.records, era, p);
    CurrentUnclaimed(cfg, st.providers, st.records, st.eraState, era, st.trace, p);
    LatestIsHeld(cfg, st.providers, era, st.trace, StakesOf(st.delegations, d, p), d, p);
    assert StakeOk(cfg, st.providers, st.records, era, h, st.trace.stakers, d, p, era);
    Sums.SumMember(st.trace.stakers, x => h(x, p, era), d);
    Sums.SumMember(st.trace.stakers, x => if h(x, p, era) > 0 then 1 else 0, d);
    assert (p, era) in st.records;
  }

  /** All that makes an unstake go through without clipping anything. */
  lemma UnstakeFacts(cfg: Config, st: Ledger, d: AccountId, p: ProviderId, amount: nat)
    requires WellFormed(cfg, st) && IsActive(st.providers, p) && amount > 0
    requires Latest(StakesOf(st.delegations, d, p)) > 0
    ensures var era := st.era.current;
            var s := StakesOf(st.delegations, d, p);
            var taken := UnstakeAmount(cfg, Latest(s), amount);
            var rec := RecordOf(st.records, p, era);
            && 0 < taken <= Latest(s) && (taken == Latest(s) || Latest(s) - taken >= cfg.minDelegatorStake)
            && (taken == Latest(s) <==> SaturatingSub(Latest(s), amount) < cfg.minDelegatorStake)
            && d in st.trace.stakers
            && (p, era) in st.records && !rec.providerRewardClaimed && rec.bond >= cfg.minProviderStake
            && rec.bond + Latest(s) <= rec.total && 1 <= rec.delegatorCount <= cfg.maxDelegatorsPerProvider + 1
            && era in st.eraState && rec.total <= EraOf(st.eraState, era).staked
            && Unstaked(s, era, taken).Ok?
    ensures var era := st.era.current;
            var s := StakesOf(st.delegations, d, p);
            var taken := UnstakeAmount(cfg, Latest(s), amount);
            var t := Unstaked(s, era, taken).value;
            && Ordered(t) && (t != [] ==> 1 <= t[0].era && t[|t| - 1].era <= era)
            && Latest(t) == Latest(s) - taken
            && forall e: nat :: At(t, e) == if era <= e then Latest(t) else At(s, e)
  {
    var era := st.era.current;
    var s := StakesOf(st.delegations, d, p);
    StoredPair(cfg, st, d, p);
    CurrentRecord(cfg, st.providers, st.records, era, p);
    CurrentUnclaimed(cfg, st.providers, st.records, st.eraState, era, st.trace, p);
    CountsStaker(cfg, st, d, p);
    UnstakeAmountOk(cfg, Latest(s), amount);
    UnstakedHistory(s, era, UnstakeAmount(cfg, Latest(s), amount));
    ContributionWithinTotal(st.providers, st.records, st.eraState, era, p);
  }

  /** What an unstake changes, when it goes through. */
  ghost predicate Unstakes(cfg: Config, st: Ledger, next: Ledger, d: AccountId, p: ProviderId, amount: nat,
                           taken: nat, t: Stakes, rec: ProviderEraMetadata) {
    var era := st.era.current;
    var was := RecordOf(st.records, p, era);
    var s := StakesOf(st.delegations, d, p);
    var queue := Added(QueueOf(st.unbonding, d), UnlockingChunk(taken, era + cfg.unbondingPeriod));
    && amount > 0 && IsActive(st.providers, p) && Latest(s) > 0
    && taken == UnstakeAmount(cfg, Latest(s), amount)
    && Unstaked(s, era, taken) == Ok(t) && |t| < cfg.maxEraStakeValues
    && |queue| <= cfg.maxUnlockingChunks
    && rec == was.(total := SaturatingSub(was.total, taken),
                   delegatorCount := if SaturatingSub(Latest(s), amount) < cfg.minDelegatorStake
                                     then SaturatingSub(was.delegatorCount, 1) else was.delegatorCount)
    && next == st.(unbonding := PutQueue(st.unbonding, d, queue),
                   eraState := SubStaked(st.eraState, era, taken),
                   delegations := PutStakes(st.delegations, d, p, t),
                   records := st.records[(p, era) := rec],
                   trace := st.trace.(history := SetFrom(st.trace.history, d, p, era, Latest(t))))
  }

  lemma UnstakeChanges(cfg: Config, st: Ledger, d: AccountId, p: ProviderId, amount: nat)
    returns (taken: nat, t: Stakes, rec: ProviderEraMetadata)
    requires DelegatorUnstake(cfg, st, d, p, amount).Ok?
    ensures Unstakes(cfg, st, DelegatorUnstake(cfg, st, d, p, amount).value, d, p, amount, taken, t, rec)
  {
    var s := StakesOf(st.delegations, d, p);
    taken := UnstakeAmount(cfg, Latest(s), amount);
    t := Unstaked(s, st.era.current, taken).value;
    rec := DelegatorUnstake(cfg, st, d, p, amount).value.records[(p, st.era.current)];
  }

  /** An unstake takes the same amount everywhere, and nothing is clipped. */
  lemma UnstakesEvenly(cfg: Config, st: Ledger, next: Ledger, d: AccountId, p: ProviderId, amount: nat,
                       taken: nat, t: Stakes, rec: ProviderEraMetadata)
    requires WellFormed(cfg, st) && Unstakes(cfg, st, next, d, p, amount, taken, t, rec)
    ensures taken <= EraOf(st.eraState, st.era.current).staked
    ensures Evenly(cfg, st, d, p, rec, Latest(t), EraOf(st.eraState, st.era.current).staked - taken)
  {
    UnstakeFacts(cfg, st, d, p, amount);
  }

  lemma UnstakesStored(cfg: Config, st: Ledger, next: Ledger, d: AccountId, p: ProviderId, amount: nat,
                       taken: nat, t: Stakes, rec: ProviderEraMetadata)
    requires WellFormed(cfg, st) && Unstakes(cfg, st, next, d, p, amount, taken, t, rec)
    ensures Ordered(t) && StoredOk(cfg, st.era.current, t)
    ensures forall e: nat ::
              At(t, e) == if st.era.current <= e then Latest(t) else At(StakesOf(st.delegations, d, p), e)
    ensures next.trace == Restaked(st.trace, d, p, st.era.current, Latest(t))
    ensures QueuesOk(cfg, next.unbonding) && st.era.current in st.eraState
  {
    var s := StakesOf(st.delegations, d, p);
    StoredPair(cfg, st, d, p);
    UnstakeAmountOk(cfg, Latest(s), amount);
    UnstakedHistory(s, st.era.current, taken);
    CountsStaker(cfg, st, d, p);
    assert st.trace.stakers + {d} == st.trace.stakers;
    QueueAdded(cfg, st, d, taken);
  }

  lemma UnstakesWellFormed(cfg: Config, st: Ledger, next: Ledger, d: AccountId, p: ProviderId, amount: nat,
                           taken: nat, t: Stakes, rec: ProviderEraMetadata)
    requires WellFormed(cfg, st) && Unstakes(cfg, st, next, d, p, amount, taken, t, rec)
    ensures WellFormed(cfg, next)
  {
    UnstakesEvenly(cfg, st, next, d, p, amount, taken, t, rec);
    UnstakesStored(cfg, st, next, d, p, amount, taken, t, rec);
    SubStakedChanges(st.eraState, st.era.current, taken);
    RestakeWellFormed(cfg, st, next, d, p, rec, t, EraOf(st.eraState, st.era.current).staked - taken);
  }

  lemma UnstakesLockstep(cfg: Config, st: Ledger, next: Ledger, d: AccountId, p: ProviderId, amount: nat,
                         taken: nat, t: Stakes, rec: ProviderEraMetadata)
    requires WellFormed(cfg, st) && Unstakes(cfg, st, next, d, p, amount, taken, t, rec)
    ensures Lockstep(st, next)
  {
    UnstakeFacts(cfg, st, d, p, amount);
    QueueAdded(cfg, st, d, taken);
    RestakeLockstep(cfg, st, next, d, p, t);
  }

  lemma UnstakeWellFormed(cfg: Config, st: Ledger, d: AccountId, p: ProviderId, amount: nat)
    requires WellFormed(cfg, st)
    requires DelegatorUnstake(cfg, st, d, p, amount).Ok?
    ensures WellFormed(cfg, DelegatorUnstake(cfg, st, d, p, amount).value)
  {
    var taken, t, rec := UnstakeChanges(cfg, st, d, p, amount);
    UnstakesWellFormed(cfg, st, DelegatorUnstake(cfg, st, d, p, amount).value, d, p, amount, taken, t, rec);
  }

  lemma UnstakeLockstep(cfg: Config, st: Ledger, d: AccountId, p: ProviderId, amount: nat)
    requires WellFormed(cfg, st)
    requires DelegatorUnstake(cfg, st, d, p, amount).Ok?
    ensures Lockstep(st, DelegatorUnstake(cfg, st, d, p, amount).value)
  {
    var taken, t, rec := UnstakeChanges(cfg, st, d, p, amount);
    UnstakesLockstep(cfg, st, DelegatorUnstake(cfg, st, d, p, amount).value, d, p, amount, taken, t, rec);
  }
}
