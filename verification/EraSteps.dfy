/** The per-block era rotation, the era length and reward deposits keep the invariant. */
module EraSteps {
  import opened Sums
  import opened Currency
  import opened StakingTypes
  import opened StakingSpec
  import opened StakingInvariant

  // ---- Rotation, part by part

  lemma ErasRotate(eraState: EraStates, accumulator: nat, deposited: nat, current: nat)
    requires ErasOk(eraState, accumulator, deposited, current)
    ensures ErasOk(ClosedEras(eraState, accumulator, current), 0, deposited, current + 1)
  {
    var next := ClosedEras(eraState, accumulator, current);
    SumUpToCong(current, e => RewardsIn(eraState, e), e => RewardsIn(next, e));
    assert ClosedRewards(next, current + 1) == SumUpTo(current, e => RewardsIn(next, e)) + RewardsIn(next, current);
  }

  /** The rotated records, entry by entry. */
  lemma RotatedEntries(cfg: Config, providers: Providers, records: Records, current: nat)
    requires RecordsOk(cfg, providers, records, current)
    ensures var next := RotatedRecords(providers, records, current);
            && (forall p: ProviderId, e: nat :: (p, e) in next <==>
                  (p, e) in records || (e == current + 1 && IsActive(providers, p)))
            && (forall p: ProviderId, e: nat :: (p, e) in records ==> (p, e) in next && next[(p, e)] == records[(p, e)])
            && (forall p: ProviderId :: IsActive(providers, p) ==>
                  && (p, current) in records && (p, current + 1) in next
                  && next[(p, current + 1)] == records[(p, current)].(providerRewardClaimed := false))
  {
    var next := RotatedRecords(providers, records, current);
    forall p: ProviderId | IsActive(providers, p)
      ensures (p, current) in records && Rotates(providers, records, current, p)
    {
      assert ProviderOk(providers[p], records, p, current);
    }
    forall p: ProviderId, e: nat | (p, e) in records ensures e <= current {
      assert RecordOk(cfg, providers, current, p, e, records[(p, e)]);
    }
  }

  lemma RecordsRotate(cfg: Config, providers: Providers, records: Records, current: nat)
    requires RecordsOk(cfg, providers, records, current) && 1 <= current
    ensures RecordsOk(cfg, providers, RotatedRecords(providers, records, current), current + 1)
  {
    var next := RotatedRecords(providers, records, current);
    RotatedEntries(cfg, providers, records, current);
    forall p | p in providers ensures ProviderOk(providers[p], next, p, current + 1) {
      assert ProviderOk(providers[p], records, p, current);
    }
    forall p: ProviderId, e: nat | (p, e) in next ensures RecordOk(cfg, providers, current + 1, p, e, next[(p, e)]) {
      if (p, e) in records {
        assert RecordOk(cfg, providers, current, p, e, records[(p, e)]);
      } else {
        assert RecordOk(cfg, providers, current, p, current, records[(p, current)]);
      }
    }
  }

  lemma StakesRotate(cfg: Config, providers: Providers, records: Records, current: nat, t: Trace)
    requires RecordsOk(cfg, providers, records, current)
    requires StakesOk(cfg, providers, records, current, t)
    ensures StakesOk(cfg, providers, RotatedRecords(providers, records, current), current + 1, t)
  {
    var next := RotatedRecords(providers, records, current);
    var now := current + 1;
    RotatedEntries(cfg, providers, records, current);
    forall d: AccountId, p: ProviderId, e: nat
      ensures StakeOk(cfg, providers, next, now, t.history, t.stakers, d, p, e)
    {
      assert StakeOk(cfg, providers, records, current, t.history, t.stakers, d, p, e);
      assert StakeOk(cfg, providers, records, current, t.history, t.stakers, d, p, now);
    }
  }

  /** What was held in the last closed era is still held in the new one. */
  lemma SameStakes(cfg: Config, providers: Providers, records: Records, current: nat, t: Trace, p: ProviderId)
    requires StakesOk(cfg, providers, records, current, t) && p in providers && providers[p].LastEra(current) == current
    ensures StakeSum(t.history, t.stakers, p, current + 1) == StakeSum(t.history, t.stakers, p, current)
    ensures StakerCount(t.history, t.stakers, p, current + 1) == StakerCount(t.history, t.stakers, p, current)
  {
    var h := t.history;
    var now := current + 1;
    forall d: AccountId ensures h(d, p, now) == h(d, p, current) {
      assert StakeOk(cfg, providers, records, current, h, t.stakers, d, p, now);
    }
    SumCong(t.stakers, d => h(d, p, now), d => h(d, p, current));
    SumCong(t.stakers, d => if h(d, p, now) > 0 then 1 else 0, d => if h(d, p, current) > 0 then 1 else 0);
  }

  lemma HistoryRotate(cfg: Config, providers: Providers, records: Records, current: nat, t: Trace)
    requires RecordsOk(cfg, providers, records, current)
    requires StakesOk(cfg, providers, records, current, t)
    requires HistoryOk(records, t.history, t.stakers)
    ensures HistoryOk(RotatedRecords(providers, records, current), t.history, t.stakers)
  {
    var next := RotatedRecords(providers, records, current);
    RotatedEntries(cfg, providers, records, current);
    forall p: ProviderId, e: nat | (p, e) in next
      ensures && next[(p, e)].total == next[(p, e)].bond + StakeSum(t.history, t.stakers, p, e)
              && next[(p, e)].delegatorCount == StakerCount(t.history, t.stakers, p, e)
    {
      if (p, e) !in records {
        assert (p, current) in records;
        SameStakes(cfg, providers, records, current, t, p);
      }
    }
  }

  /** In every era a provider contributes after the rotation what it did before; the new era copies the old. */
  lemma ContributionRotate(cfg: Config, providers: Providers, records: Records, current: nat, e: nat, p: ProviderId)
    requires RecordsOk(cfg, providers, records, current) && e <= current + 1
    ensures Contribution(providers, RotatedRecords(providers, records, current), e, p)
            == Contribution(providers, records, if e <= current then e else current, p)
  {
    RotatedEntries(cfg, providers, records, current);
    if p in providers {
      assert ProviderOk(providers[p], records, p, current);
    }
  }

  lemma TotalsRotate(cfg: Config, providers: Providers, records: Records, eraState: EraStates, accumulator: nat,
                     current: nat)
    requires RecordsOk(cfg, providers, records, current)
    requires TotalsOk(providers, records, eraState, current)
    ensures TotalsOk(providers, RotatedRecords(providers, records, current),
                     ClosedEras(eraState, accumulator, current), current + 1)
  {
    var next := RotatedRecords(providers, records, current);
    var eras := ClosedEras(eraState, accumulator, current);
    forall e: nat | e <= current + 1 ensures EraOf(eras, e).staked == EraTotal(providers, next, e) {
      var source := if e <= current then e else current;
      forall p | p in providers
        ensures Contribution(providers, records, source, p) == Contribution(providers, next, e, p)
      {
        ContributionRotate(cfg, providers, records, current, e, p);
      }
      SumCong(providers.Keys, p => Contribution(providers, records, source, p),
              p => Contribution(providers, next, e, p));
      assert EraOf(eraState, source).staked == EraTotal(providers, records, source);
    }
  }

  lemma ProviderPaidRotate(cfg: Config, providers: Providers, records: Records, eraState: EraStates, accumulator: nat,
                           current: nat, p: ProviderId, era: nat, amount: nat)
    requires RecordsOk(cfg, providers, records, current)
    requires ProviderPaidOk(cfg, providers, records, eraState, current, p, era, amount)
    ensures ProviderPaidOk(cfg, providers, RotatedRecords(providers, records, current),
                           ClosedEras(eraState, accumulator, current), current + 1, p, era, amount)
  {
    RotatedEntries(cfg, providers, records, current);
  }

  lemma DelegatorPaidRotate(cfg: Config, providers: Providers, records: Records, eraState: EraStates, accumulator: nat,
                            current: nat, h: History, d: AccountId, p: ProviderId, era: nat, amount: nat)
    requires RecordsOk(cfg, providers, records, current)
    requires DelegatorPaidOk(cfg, providers, records, eraState, current, h, d, p, era, amount)
    ensures DelegatorPaidOk(cfg, providers, RotatedRecords(providers, records, current),
                            ClosedEras(eraState, accumulator, current), current + 1, h, d, p, era, amount)
  {
    RotatedEntries(cfg, providers, records, current);
  }

  lemma PaymentsRotate(cfg: Config, providers: Providers, records: Records, eraState: EraStates, accumulator: nat,
                       current: nat, t: Trace)
    requires RecordsOk(cfg, providers, records, current)
    requires PaymentsOk(cfg, providers, records, eraState, current, t)
    ensures PaymentsOk(cfg, providers, RotatedRecords(providers, records, current),
                       ClosedEras(eraState, accumulator, current), current + 1, t)
  {
    var next := RotatedRecords(providers, records, current);
    var eras := ClosedEras(eraState, accumulator, current);
    var now := current + 1;
    forall p: ProviderId, e: nat | (p, e) in t.paidProviders
      ensures ProviderPaidOk(cfg, providers, next, eras, now, p, e, t.paidProviders[(p, e)])
    {
      ProviderPaidRotate(cfg, providers, records, eraState, accumulator, current, p, e, t.paidProviders[(p, e)]);
    }
    forall p: ProviderId, e: nat | (p, e) in next && next[(p, e)].providerRewardClaimed
      ensures (p, e) in t.paidProviders
    {
      RotatedEntries(cfg, providers, records, current);
    }
    forall d: AccountId, p: ProviderId, e: nat | (d, p, e) in t.paidDelegators
      ensures DelegatorPaidOk(cfg, providers, next, eras, now, t.history, d, p, e, t.paidDelegators[(d, p, e)])
    {
      DelegatorPaidRotate(cfg, providers, records, eraState, accumulator, current, t.history, d, p, e,
                          t.paidDelegators[(d, p, e)]);
    }
  }

  lemma DelegationsRotate(cfg: Config, providers: Providers, current: nat, t: Trace, delegations: Histories)
    requires DelegationsOk(cfg, providers, current, t, delegations)
    ensures DelegationsOk(cfg, providers, current + 1, t, delegations)
  {
    forall d: AccountId, p: ProviderId
      ensures DelegationOk(cfg, providers, current + 1, t, StakesOf(delegations, d, p), d, p)
    {
      assert DelegationOk(cfg, providers, current, t, StakesOf(delegations, d, p), d, p);
    }
  }

  lemma AtStakeRotate(cfg: Config, providers: Providers, records: Records, delegations: Histories, current: nat,
                      a: AccountId)
    requires RecordsOk(cfg, providers, records, current)
    ensures AllAtStake(providers, RotatedRecords(providers, records, current), delegations, current + 1, a)
            == AllAtStake(providers, records, delegations, current, a)
  {
    var next := RotatedRecords(providers, records, current);
    RotatedEntries(cfg, providers, records, current);
    forall p | p in providers
      ensures AtStake(providers, records, delegations, current, a, p)
              == AtStake(providers, next, delegations, current + 1, a, p)
    {
      assert ProviderOk(providers[p], records, p, current);
    }
    SumCong(providers.Keys, p => AtStake(providers, records, delegations, current, a, p),
            p => AtStake(providers, next, delegations, current + 1, a, p));
  }

  // ---- The calls

  lemma RotationShape(cfg: Config, st: Ledger, block: nat)
    requires st.era.firstBlock <= block && st.era.ShouldUpdate(block) && st.era.current > 0
    ensures OnInitialize(cfg, st, block) ==
            st.(era := EraInfo(st.era.current + 1, block, st.era.length),
                eraState := ClosedEras(st.eraState, st.accumulator, st.era.current),
                accumulator := 0,
                records := RotatedRecords(st.providers, st.records, st.era.current))
  {
  }

  lemma OnInitializeWellFormed(cfg: Config, st: Ledger, block: nat)
    requires WellFormed(cfg, st) && st.era.firstBlock <= block
    ensures WellFormed(cfg, OnInitialize(cfg, st, block))
  {
    if st.era.ShouldUpdate(block) {
      RotationShape(cfg, st, block);
      RotatedWellFormed(cfg, st, OnInitialize(cfg, st, block));
    }
  }

  lemma RotatedWellFormed(cfg: Config, st: Ledger, next: Ledger)
    requires WellFormed(cfg, st) && next.era.current == st.era.current + 1
    requires next == st.(era := next.era, accumulator := 0,
                         eraState := ClosedEras(st.eraState, st.accumulator, st.era.current),
                         records := RotatedRecords(st.providers, st.records, st.era.current))
    ensures WellFormed(cfg, next)
  {
    var era := st.era.current;
    ErasRotate(st.eraState, st.accumulator, st.trace.deposited, era);
    RecordsRotate(cfg, st.providers, st.records, era);
    StakesRotate(cfg, st.providers, st.records, era, st.trace);
    HistoryRotate(cfg, st.providers, st.records, era, st.trace);
    TotalsRotate(cfg, st.providers, st.records, st.eraState, st.accumulator, era);
    DelegationsRotate(cfg, st.providers, era, st.trace, st.delegations);
    PaymentsRotate(cfg, st.providers, st.records, st.eraState, st.accumulator, era, st.trace);
  }

  lemma RotationLockstep(cfg: Config, st: Ledger, next: Ledger)
    requires RecordsOk(cfg, st.providers, st.records, st.era.current)
    requires next.providers == st.providers && next.delegations == st.delegations && next.unbonding == st.unbonding
    requires next.records == RotatedRecords(st.providers, st.records, st.era.current)
    requires next.era.current == st.era.current + 1 && next.bank == st.bank
    ensures Lockstep(st, next)
  {
    forall a: AccountId
      ensures next.bank.Reserved(a) + StakingShare(st, a) == st.bank.Reserved(a) + StakingShare(next, a)
    {
      AtStakeRotate(cfg, st.providers, st.records, st.delegations, st.era.current, a);
    }
  }

  lemma OnInitializeLockstep(cfg: Config, st: Ledger, block: nat)
    requires WellFormed(cfg, st) && st.era.firstBlock <= block
    ensures Lockstep(st, OnInitialize(cfg, st, block))
  {
    if st.era.ShouldUpdate(block) {
      RotationShape(cfg, st, block);
      RotationLockstep(cfg, st, OnInitialize(cfg, st, block));
    }
  }

  lemma HandleImbalanceWellFormed(cfg: Config, st: Ledger, amount: nat)
    requires WellFormed(cfg, st)
    ensures WellFormed(cfg, HandleImbalance(cfg, st, amount))
  {
    var next := HandleImbalance(cfg, st, amount);
    forall d: AccountId, p: ProviderId ensures
      DelegationOk(cfg, st.providers, st.era.current, next.trace, StakesOf(st.delegations, d, p), d, p)
    {
      assert DelegationOk(cfg, st.providers, st.era.current, st.trace, StakesOf(st.delegations, d, p), d, p);
    }
    assert StakesOk(cfg, st.providers, st.records, st.era.current, next.trace);
    assert PaymentsOk(cfg, st.providers, st.records, st.eraState, st.era.current, next.trace);
  }
}
