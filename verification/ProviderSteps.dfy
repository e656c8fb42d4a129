/** Registering, unregistering and withdrawing a provider's bond keeps the invariant. */
module ProviderSteps {
  import opened Sums
  import opened Currency
  import opened StakingTypes
  import opened StakingSpec
  import opened StakingInvariant
  import opened StakingFrames

  // ---- Keeping what was paid and what is stored

  /** Payments stand as long as closed eras and what they earned do. */
  lemma PaymentsKept(cfg: Config, providers: Providers, next: Providers, records: Records, records': Records,
                     eraState: EraStates, eraState': EraStates, current: nat, t: Trace)
    requires PaymentsOk(cfg, providers, records, eraState, current, t)
    requires forall q: ProviderId, e: nat :: q in providers && providers[q].Earns(e) && e < current ==>
               q in next && next[q].Earns(e)
    requires forall e: nat :: e < current ==> EraOf(eraState', e) == EraOf(eraState, e)
    requires forall q: ProviderId, e: nat :: e < current && (q, e) in records ==>
               (q, e) in records' && records'[(q, e)] == records[(q, e)]
    requires forall q: ProviderId, e: nat :: (q, e) in records' && records'[(q, e)].providerRewardClaimed ==>
               (q, e) in records && records[(q, e)] == records'[(q, e)]
    ensures PaymentsOk(cfg, next, records', eraState', current, t)
  {
    forall q: ProviderId, e: nat | (q, e) in t.paidProviders
      ensures ProviderPaidOk(cfg, next, records', eraState', current, q, e, t.paidProviders[(q, e)])
    {
      assert ProviderPaidOk(cfg, providers, records, eraState, current, q, e, t.paidProviders[(q, e)]);
    }
    forall d: AccountId, q: ProviderId, e: nat | (d, q, e) in t.paidDelegators
      ensures DelegatorPaidOk(cfg, next, records', eraState', current, t.history, d, q, e, t.paidDelegators[(d, q, e)])
    {
      assert DelegatorPaidOk(cfg, providers, records, eraState, current, t.history, d, q, e,
                             t.paidDelegators[(d, q, e)]);
    }
  }

  /** Stored histories stand when no provider earns in more eras. */
  lemma DelegationsKept(cfg: Config, providers: Providers, next: Providers, current: nat, t: Trace,
                        delegations: Histories)
    requires DelegationsOk(cfg, providers, current, t, delegations) && next.Keys == providers.Keys
    requires forall q: ProviderId, e: nat :: q in next && next[q].Earns(e) ==> providers[q].Earns(e)
    ensures DelegationsOk(cfg, next, current, t, delegations)
  {
    forall d: AccountId, q: ProviderId ensures DelegationOk(cfg, next, current, t, StakesOf(delegations, d, q), d, q) {
      assert DelegationOk(cfg, providers, current, t, StakesOf(delegations, d, q), d, q);
    }
  }

  // ---- Registration

  /** What a registration changes. */
  ghost predicate Registers(st: Ledger, next: Ledger, account: AccountId, p: ProviderId, bond: nat) {
    var era := st.era.current;
    var was := EraOf(st.eraState, era);
    && p !in st.providers
    && next == st.(bank := next.bank,
                   providers := st.providers[p := ProviderMetadata(account, Active, false)],
                   records := st.records[(p, era) := ProviderEraMetadata(bond, bond, 0, false)],
                   eraState := st.eraState[era := was.(staked := was.staked + bond)])
  }

  lemma RegisterRecords(cfg: Config, st: Ledger, next: Ledger, account: AccountId, p: ProviderId, bond: nat)
    requires WellFormed(cfg, st) && bond >= cfg.minProviderStake
    requires Registers(st, next, account, p, bond)
    ensures RecordsOk(cfg, next.providers, next.records, next.era.current)
    ensures StakesOk(cfg, next.providers, next.records, next.era.current, next.trace)
  {
    var current := st.era.current;
    forall q | q in next.providers ensures ProviderOk(next.providers[q], next.records, q, current) {
      if q != p {
        assert ProviderOk(st.providers[q], st.records, q, current);
      }
    }
    forall q: ProviderId, e: nat | (q, e) in next.records
      ensures RecordOk(cfg, next.providers, current, q, e, next.records[(q, e)])
    {
      if (q, e) != (p, current) {
        assert RecordOk(cfg, st.providers, current, q, e, st.records[(q, e)]);
      }
    }
    forall d: AccountId, q: ProviderId, e: nat
      ensures StakeOk(cfg, next.providers, next.records, current, next.trace.history, next.trace.stakers, d, q, e)
    {
      assert StakeOk(cfg, st.providers, st.records, current, st.trace.history, st.trace.stakers, d, q, e);
      assert StakeOk(cfg, st.providers, st.records, current, st.trace.history, st.trace.stakers, d, q, current);
    }
  }

  lemma NoStakeBefore(cfg: Config, st: Ledger, p: ProviderId, e: nat)
    requires StakesOk(cfg, st.providers, st.records, st.era.current, st.trace) && p !in st.providers
    ensures forall d: AccountId :: st.trace.history(d, p, e) == 0
    ensures StakeSum(st.trace.history, st.trace.stakers, p, e) == 0
    ensures StakerCount(st.trace.history, st.trace.stakers, p, e) == 0
  {
    forall d: AccountId ensures st.trace.history(d, p, e) == 0 {
      assert StakeOk(cfg, st.providers, st.records, st.era.current, st.trace.history, st.trace.stakers, d, p, e);
    }
    SumZero(st.trace.stakers, d => st.trace.history(d, p, e));
    SumZero(st.trace.stakers, d => if st.trace.history(d, p, e) > 0 then 1 else 0);
  }

  lemma RecordKnown(cfg: Config, providers: Providers, records: Records, current: nat, p: ProviderId, e: nat)
    requires RecordsOk(cfg, providers, records, current)
    ensures (p, e) in records ==> p in providers
  {
    if (p, e) in records {
      assert RecordOk(cfg, providers, current, p, e, records[(p, e)]);
    }
  }

  lemma NoRecordBefore(cfg: Config, st: Ledger, p: ProviderId, e: nat)
    requires RecordsOk(cfg, st.providers, st.records, st.era.current) && p !in st.providers
    ensures (p, e) !in st.records
  {
    RecordKnown(cfg, st.providers, st.records, st.era.current, p, e);
  }

  lemma RegisterHistory(cfg: Config, st: Ledger, next: Ledger, account: AccountId, p: ProviderId, bond: nat)
    requires WellFormed(cfg, st)
    requires Registers(st, next, account, p, bond)
    ensures HistoryOk(next.records, next.trace.history, next.trace.stakers)
  {
    forall q: ProviderId, e: nat | (q, e) in next.records
      ensures && next.records[(q, e)].total
              == next.records[(q, e)].bond + StakeSum(st.trace.history, st.trace.stakers, q, e)
              && next.records[(q, e)].delegatorCount == StakerCount(st.trace.history, st.trace.stakers, q, e)
    {
      NoStakeBefore(cfg, st, p, e);
      if (q, e) != (p, st.era.current) {
        assert (q, e) in st.records;
      }
    }
  }

  lemma RegisterEras(cfg: Config, st: Ledger, next: Ledger, account: AccountId, p: ProviderId, bond: nat)
    requires WellFormed(cfg, st)
    requires Registers(st, next, account, p, bond)
    ensures ErasOk(next.eraState, next.accumulator, next.trace.deposited, next.era.current)
    ensures TotalsOk(next.providers, next.records, next.eraState, next.era.current)
  {
    var current := st.era.current;
    assert StakedChanged(st.eraState, next.eraState, current, EraOf(st.eraState, current).staked + bond);
    ErasFrame(st.eraState, next.eraState, current, EraOf(st.eraState, current).staked + bond,
              st.accumulator, st.trace.deposited, current);
    forall e: nat | e <= current ensures EraOf(next.eraState, e).staked == EraTotal(next.providers, next.records, e) {
      RegisterTotal(cfg, st, next, account, p, bond, e);
      assert EraOf(st.eraState, e).staked == EraTotal(st.providers, st.records, e);
    }
  }

  lemma RegisterTotal(cfg: Config, st: Ledger, next: Ledger, account: AccountId, p: ProviderId, bond: nat, e: nat)
    requires RecordsOk(cfg, st.providers, st.records, st.era.current) && p !in st.providers
    requires next.providers == st.providers[p := ProviderMetadata(account, Active, false)]
    requires next.records == st.records[(p, st.era.current) := ProviderEraMetadata(bond, bond, 0, false)]
    ensures EraTotal(next.providers, next.records, e)
            == EraTotal(st.providers, st.records, e) + if e == st.era.current then bond else 0
  {
    NoRecordBefore(cfg, st, p, e);
    SumPoint(st.providers.Keys, q => Contribution(st.providers, st.records, e, q),
             next.providers.Keys, q => Contribution(next.providers, next.records, e, q), p);
  }

  lemma RegisterDelegations(cfg: Config, st: Ledger, next: Ledger, account: AccountId, p: ProviderId, bond: nat)
    requires WellFormed(cfg, st)
    requires Registers(st, next, account, p, bond)
    ensures DelegationsOk(cfg, next.providers, next.era.current, next.trace, next.delegations)
    ensures PaymentsOk(cfg, next.providers, next.records, next.eraState, next.era.current, next.trace)
  {
    var current := st.era.current;
    var t := st.trace;
    forall d: AccountId, q: ProviderId
      ensures DelegationOk(cfg, next.providers, current, t, StakesOf(st.delegations, d, q), d, q)
    {
      assert DelegationOk(cfg, st.providers, current, t, StakesOf(st.delegations, d, q), d, q);
      if q == p {
        forall e: nat ensures UnpaidStake(t, d, p, e) == 0 {
          NoStakeBefore(cfg, st, p, e);
        }
      }
    }
    PaymentsKept(cfg, st.providers, next.providers, st.records, next.records, st.eraState, next.eraState, current, t);
  }

  lemma RegisterWellFormed(cfg: Config, st: Ledger, account: AccountId, p: ProviderId, bond: nat)
    requires WellFormed(cfg, st)
    requires RegisterProvider(cfg, st, account, p, bond).Ok?
    ensures WellFormed(cfg, RegisterProvider(cfg, st, account, p, bond).value)
  {
    RegistersWellFormed(cfg, st, RegisterProvider(cfg, st, account, p, bond).value, account, p, bond);
  }

  lemma RegistersWellFormed(cfg: Config, st: Ledger, next: Ledger, account: AccountId, p: ProviderId, bond: nat)
    requires WellFormed(cfg, st) && Registers(st, next, account, p, bond) && bond >= cfg.minProviderStake
    ensures WellFormed(cfg, next)
  {
    RegisterRecords(cfg, st, next, account, p, bond);
    RegisterHistory(cfg, st, next, account, p, bond);
    RegisterEras(cfg, st, next, account, p, bond);
    RegisterDelegations(cfg, st, next, account, p, bond);
  }

  lemma RegisterLockstep(cfg: Config, st: Ledger, account: AccountId, p: ProviderId, bond: nat)
    requires WellFormed(cfg, st)
    requires RegisterProvider(cfg, st, account, p, bond).Ok?
    ensures Lockstep(st, RegisterProvider(cfg, st, account, p, bond).value)
  {
    forall a: AccountId ensures StakesOf(st.delegations, a, p) == [] {
      assert DelegationOk(cfg, st.providers, st.era.current, st.trace, StakesOf(st.delegations, a, p), a, p);
    }
    NewBondLockstep(st, RegisterProvider(cfg, st, account, p, bond).value, account, p, bond);
  }

  /** A new provider's bond is reserved on its owner. */
  lemma NewBondLockstep(st: Ledger, next: Ledger, account: AccountId, p: ProviderId, bond: nat)
    requires p !in st.providers && next.era == st.era
    requires next.providers == st.providers[p := ProviderMetadata(account, Active, false)]
    requires next.records == st.records[(p, st.era.current) := ProviderEraMetadata(bond, bond, 0, false)]
    requires next.delegations == st.delegations && next.unbonding == st.unbonding
    requires forall a: AccountId :: StakesOf(st.delegations, a, p) == []
    requires forall a: AccountId :: next.bank.Reserved(a) == st.bank.Reserved(a) + if a == account then bond else 0
    ensures Lockstep(st, next)
  {
    PointLockstep(st, next, p);
  }

  // ---- Unregistration

  /** What an unregistration changes. */
  ghost predicate Unregisters(st: Ledger, next: Ledger, p: ProviderId) {
    var era := st.era.current;
    && IsActive(st.providers, p)
    && next == st.(providers := st.providers[p := st.providers[p].(status := Inactive(era))],
                   eraState := SubStaked(st.eraState, era, RecordOf(st.records, p, era).total))
  }

  lemma UnregisterEras(cfg: Config, st: Ledger, next: Ledger, p: ProviderId)
    requires WellFormed(cfg, st) && Unregisters(st, next, p)
    ensures ErasOk(next.eraState, next.accumulator, next.trace.deposited, next.era.current)
    ensures TotalsOk(next.providers, next.records, next.eraState, next.era.current)
  {
    var current := st.era.current;
    ContributionWithinTotal(st.providers, st.records, st.eraState, current, p);
    var staked := EraOf(st.eraState, current).staked - RecordOf(st.records, p, current).total;
    assert StakedChanged(st.eraState, next.eraState, current, staked);
    ErasFrame(st.eraState, next.eraState, current, staked, st.accumulator, st.trace.deposited, current);
    forall e: nat | e <= current ensures EraOf(next.eraState, e).staked == EraTotal(next.providers, next.records, e) {
      UnregisterTotal(st, next, p, e);
      assert EraOf(st.eraState, e).staked == EraTotal(st.providers, st.records, e);
    }
  }

  lemma UnregisterTotal(st: Ledger, next: Ledger, p: ProviderId, e: nat)
    requires IsActive(st.providers, p) && next.records == st.records && e <= st.era.current
    requires next.providers == st.providers[p := st.providers[p].(status := Inactive(st.era.current))]
    ensures EraTotal(next.providers, next.records, e)
            + (if e == st.era.current then RecordOf(st.records, p, e).total else 0)
            == EraTotal(st.providers, st.records, e)
  {
    SumPoint(st.providers.Keys, q => Contribution(st.providers, st.records, e, q),
             next.providers.Keys, q => Contribution(next.providers, next.records, e, q), p);
  }

  lemma UnregisterRecords(cfg: Config, st: Ledger, next: Ledger, p: ProviderId)
    requires WellFormed(cfg, st) && Unregisters(st, next, p)
    ensures RecordsOk(cfg, next.providers, next.records, next.era.current)
    ensures StakesOk(cfg, next.providers, next.records, next.era.current, next.trace)
  {
    InactiveRecords(cfg, st.providers, next.providers, st.records, st.era.current);
    InactiveStakes(cfg, st.providers, next.providers, st.records, st.era.current, st.trace);
  }

  /** The same providers, with the same last era now. */
  predicate SameLastEra(providers: Providers, next: Providers, current: nat) {
    && next.Keys == providers.Keys
    && forall q :: q in providers ==>
         next[q].LastEra(current) == providers[q].LastEra(current)
         && (next[q].bondWithdrawn ==> next[q].status.Inactive?)
  }

  lemma InactiveRecords(cfg: Config, providers: Providers, next: Providers, records: Records, current: nat)
    requires RecordsOk(cfg, providers, records, current) && SameLastEra(providers, next, current)
    ensures RecordsOk(cfg, next, records, current)
  {
    forall q | q in next ensures ProviderOk(next[q], records, q, current) {
      assert ProviderOk(providers[q], records, q, current);
    }
    forall q: ProviderId, e: nat | (q, e) in records ensures RecordOk(cfg, next, current, q, e, records[(q, e)]) {
      assert RecordOk(cfg, providers, current, q, e, records[(q, e)]);
    }
  }

  lemma InactiveStakes(cfg: Config, providers: Providers, next: Providers, records: Records, current: nat, t: Trace)
    requires StakesOk(cfg, providers, records, current, t) && SameLastEra(providers, next, current)
    ensures StakesOk(cfg, next, records, current, t)
  {
    forall d: AccountId, q: ProviderId, e: nat
      ensures StakeOk(cfg, next, records, current, t.history, t.stakers, d, q, e)
    {
      assert StakeOk(cfg, providers, records, current, t.history, t.stakers, d, q, e);
    }
  }

  lemma UnregisterDelegations(cfg: Config, st: Ledger, next: Ledger, p: ProviderId)
    requires WellFormed(cfg, st) && Unregisters(st, next, p)
    ensures DelegationsOk(cfg, next.providers, next.era.current, next.trace, next.delegations)
    ensures PaymentsOk(cfg, next.providers, next.records, next.eraState, next.era.current, next.trace)
  {
    var current := st.era.current;
    DelegationsKept(cfg, st.providers, next.providers, current, st.trace, st.delegations);
    PaymentsKept(cfg, st.providers, next.providers, st.records, st.records, st.eraState, next.eraState, current,
                 st.trace);
  }

  lemma UnregisterWellFormed(cfg: Config, st: Ledger, p: ProviderId)
    requires WellFormed(cfg, st) && UnregisterProvider(st, p).Ok?
    ensures WellFormed(cfg, UnregisterProvider(st, p).value)
  {
    UnregistersWellFormed(cfg, st, UnregisterProvider(st, p).value, p);
  }

  lemma UnregistersWellFormed(cfg: Config, st: Ledger, next: Ledger, p: ProviderId)
    requires WellFormed(cfg, st) && Unregisters(st, next, p)
    ensures WellFormed(cfg, next)
  {
    UnregisterEras(cfg, st, next, p);
    UnregisterRecords(cfg, st, next, p);
    UnregisterDelegations(cfg, st, next, p);
  }

  lemma UnregisterLockstep(cfg: Config, st: Ledger, p: ProviderId)
    requires WellFormed(cfg, st) && UnregisterProvider(st, p).Ok?
    ensures Lockstep(st, UnregisterProvider(st, p).value)
  {
    UnregistersLockstep(st, UnregisterProvider(st, p).value, p);
  }

  lemma UnregistersLockstep(st: Ledger, next: Ledger, p: ProviderId)
    requires Unregisters(st, next, p)
    ensures Lockstep(st, next)
  {
    PointLockstep(st, next, p);
  }

  // ---- Withdrawal of the bond

  lemma WithdrawBondWellFormed(cfg: Config, st: Ledger, p: ProviderId)
    requires WellFormed(cfg, st) && ProviderWithdrawUnregistered(cfg, st, p).Ok?
    ensures WellFormed(cfg, ProviderWithdrawUnregistered(cfg, st, p).value)
  {
    BondGoneWellFormed(cfg, st, ProviderWithdrawUnregistered(cfg, st, p).value, p);
  }

  /** Nothing but who holds the bond depends on whether it was withdrawn. */
  lemma BondGoneWellFormed(cfg: Config, st: Ledger, next: Ledger, p: ProviderId)
    requires WellFormed(cfg, st) && p in st.providers && st.providers[p].status.Inactive?
    requires next == st.(bank := next.bank, providers := st.providers[p := st.providers[p].(bondWithdrawn := true)])
    ensures WellFormed(cfg, next)
  {
    var current := st.era.current;
    assert SameLastEra(st.providers, next.providers, current);
    InactiveRecords(cfg, st.providers, next.providers, st.records, current);
    InactiveStakes(cfg, st.providers, next.providers, st.records, current, st.trace);
    TotalsKept(st.providers, next.providers, st.records, st.eraState, current);
    DelegationsKept(cfg, st.providers, next.providers, current, st.trace, st.delegations);
    PaymentsKept(cfg, st.providers, next.providers, st.records, st.records, st.eraState, st.eraState, current,
                 st.trace);
  }

  lemma TotalsKept(providers: Providers, next: Providers, records: Records, eraState: EraStates, current: nat)
    requires TotalsOk(providers, records, eraState, current) && next.Keys == providers.Keys
    requires forall q :: q in providers ==> next[q].status == providers[q].status
    ensures TotalsOk(next, records, eraState, current)
  {
    forall e: nat | e <= current ensures EraOf(eraState, e).staked == EraTotal(next, records, e) {
      SumCong(providers.Keys, q => Contribution(providers, records, e, q), q => Contribution(next, records, e, q));
      assert EraOf(eraState, e).staked == EraTotal(providers, records, e);
    }
  }

  lemma WithdrawBondLockstep(cfg: Config, st: Ledger, p: ProviderId)
    requires WellFormed(cfg, st) && Backed(st) && ProviderWithdrawUnregistered(cfg, st, p).Ok?
    ensures Lockstep(st, ProviderWithdrawUnregistered(cfg, st, p).value)
    ensures RecordOf(st.records, p, st.providers[p].status.since).bond <= st.bank.Reserved(st.providers[p].owner)
  {
    AtStakeWithin(st, st.providers[p].owner, p);
    BondGoneLockstep(st, ProviderWithdrawUnregistered(cfg, st, p).value, p);
  }

  /** A bond that is withdrawn is no longer held. */
  lemma BondGoneLockstep(st: Ledger, next: Ledger, p: ProviderId)
    requires p in st.providers && st.providers[p].status.Inactive? && !st.providers[p].bondWithdrawn
    requires next == st.(bank := next.bank, providers := st.providers[p := st.providers[p].(bondWithdrawn := true)])
    requires forall a: AccountId ::
               next.bank.Reserved(a)
               + (if a == st.providers[p].owner then RecordOf(st.records, p, st.providers[p].status.since).bond else 0)
               == st.bank.Reserved(a)
    ensures Lockstep(st, next)
  {
    PointLockstep(st, next, p);
  }
}
