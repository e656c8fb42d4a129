/** How each part of the invariant reacts to a change of the storage items it speaks of. */
module StakingFrames {
  import opened Sums
  import opened Currency
  import opened Delegations
  import opened Unbonding
  import opened StakingTypes
  import opened StakingInvariant

  // ---- Eras

  /** The eras before, at and after an update of one era's stake. */
  ghost predicate StakedChanged(eraState: EraStates, next: EraStates, era: nat, staked: nat) {
    && (forall e: nat :: e in next <==> e in eraState)
    && (forall e: nat :: EraOf(next, e).rewards == EraOf(eraState, e).rewards)
    && (forall e: nat :: e != era ==> EraOf(next, e) == EraOf(eraState, e))
    && EraOf(next, era).staked == staked
  }

  lemma ErasFrame(eraState: EraStates, next: EraStates, era: nat, staked: nat,
                  accumulator: nat, deposited: nat, current: nat)
    requires ErasOk(eraState, accumulator, deposited, current)
    requires StakedChanged(eraState, next, era, staked)
    ensures ErasOk(next, accumulator, deposited, current)
  {
    forall e: nat ensures RewardsIn(next, e) == RewardsIn(eraState, e) {
      assert EraOf(next, e).rewards == EraOf(eraState, e).rewards;
    }
    SumUpToCong(current, e => RewardsIn(eraState, e), e => RewardsIn(next, e));
  }

  // ---- Records

  lemma RecordsPut(cfg: Config, providers: Providers, records: Records, current: nat,
                   p: ProviderId, rec: ProviderEraMetadata)
    requires RecordsOk(cfg, providers, records, current) && IsActive(providers, p)
    requires rec.bond >= cfg.minProviderStake && rec.delegatorCount <= cfg.maxDelegatorsPerProvider + 1
    ensures RecordsOk(cfg, providers, records[(p, current) := rec], current)
  {
    assert ProviderOk(providers[p], records, p, current);
    forall q: ProviderId, e: nat | (q, e) in records[(p, current) := rec]
      ensures RecordOk(cfg, providers, current, q, e, records[(p, current) := rec][(q, e)])
    {
      if (q, e) != (p, current) {
        assert (q, e) in records;
      }
    }
    forall q | q in providers ensures ProviderOk(providers[q], records[(p, current) := rec], q, current) {
      assert ProviderOk(providers[q], records, q, current);
    }
  }

  lemma CurrentRecord(cfg: Config, providers: Providers, records: Records, current: nat, p: ProviderId)
    requires RecordsOk(cfg, providers, records, current) && IsActive(providers, p)
    ensures 1 <= current && (p, current) in records
    ensures RecordOf(records, p, current).bond >= cfg.minProviderStake
    ensures RecordOf(records, p, current).delegatorCount <= cfg.maxDelegatorsPerProvider + 1
  {
    assert ProviderOk(providers[p], records, p, current);
    assert RecordOk(cfg, providers, current, p, current, records[(p, current)]);
  }

  lemma StakesRecordsPut(cfg: Config, providers: Providers, records: Records, current: nat, t: Trace,
                         p: ProviderId, rec: ProviderEraMetadata)
    requires StakesOk(cfg, providers, records, current, t)
    ensures StakesOk(cfg, providers, records[(p, current) := rec], current, t)
  {
    var next := records[(p, current) := rec];
    forall d: AccountId, q: ProviderId, e: nat
      ensures StakeOk(cfg, providers, next, current, t.history, t.stakers, d, q, e)
    {
      assert StakeOk(cfg, providers, records, current, t.history, t.stakers, d, q, e);
    }
  }

  // ---- Era totals

  /** The current record and the current era's stake change by the same amount. */
  lemma TotalsPut(providers: Providers, records: Records, eraState: EraStates, current: nat,
                  p: ProviderId, rec: ProviderEraMetadata, next: EraStates, staked: nat)
    requires TotalsOk(providers, records, eraState, current) && IsActive(providers, p)
    requires StakedChanged(eraState, next, current, staked)
    requires staked + RecordOf(records, p, current).total == EraOf(eraState, current).staked + rec.total
    ensures TotalsOk(providers, records[(p, current) := rec], next, current)
  {
    var records' := records[(p, current) := rec];
    forall e: nat | e <= current ensures EraOf(next, e).staked == EraTotal(providers, records', e) {
      var f := q => Contribution(providers, records, e, q);
      var g := q => Contribution(providers, records', e, q);
      SumPoint(providers.Keys, f, providers.Keys, g, p);
      assert EraOf(eraState, e).staked == EraTotal(providers, records, e);
    }
  }

  lemma ContributionWithinTotal(providers: Providers, records: Records, eraState: EraStates, current: nat,
                                p: ProviderId)
    requires TotalsOk(providers, records, eraState, current) && IsActive(providers, p)
    ensures RecordOf(records, p, current).total <= EraOf(eraState, current).staked
  {
    SumMember(providers.Keys, q => Contribution(providers, records, current, q), p);
    assert EraOf(eraState, current).staked == EraTotal(providers, records, current);
  }

  // ---- Payments

  /** Payments concern closed eras only, so they ignore whatever changes in the current one. */
  lemma PaymentsFrame(cfg: Config, providers: Providers, records: Records, eraState: EraStates, current: nat, t: Trace,
                      p: ProviderId, rec: ProviderEraMetadata, next: EraStates, t': Trace)
    requires PaymentsOk(cfg, providers, records, eraState, current, t)
    requires !rec.providerRewardClaimed
    requires forall e: nat :: e < current ==> EraOf(next, e) == EraOf(eraState, e)
    requires t'.paidProviders == t.paidProviders && t'.paidDelegators == t.paidDelegators
    requires forall d: AccountId, q: ProviderId, e: nat :: e < current ==> t'.history(d, q, e) == t.history(d, q, e)
    ensures PaymentsOk(cfg, providers, records[(p, current) := rec], next, current, t')
  {
    var records' := records[(p, current) := rec];
    forall q: ProviderId, e: nat | (q, e) in t'.paidProviders
      ensures ProviderPaidOk(cfg, providers, records', next, current, q, e, t'.paidProviders[(q, e)])
    {
      assert ProviderPaidOk(cfg, providers, records, eraState, current, q, e, t.paidProviders[(q, e)]);
    }
    forall d: AccountId, q: ProviderId, e: nat | (d, q, e) in t'.paidDelegators
      ensures DelegatorPaidOk(cfg, providers, records', next, current, t'.history, d, q, e,
                              t'.paidDelegators[(d, q, e)])
    {
      assert DelegatorPaidOk(cfg, providers, records, eraState, current, t.history, d, q, e,
                             t.paidDelegators[(d, q, e)]);
    }
    forall q: ProviderId, e: nat | (q, e) in records' && records'[(q, e)].providerRewardClaimed
      ensures (q, e) in t'.paidProviders
    {
      assert (q, e) in records && records[(q, e)] == records'[(q, e)];
    }
  }

  /** Whatever was paid to a provider was for an earlier era, and is flagged in its record. */
  lemma ProviderPaid(cfg: Config, providers: Providers, records: Records, eraState: EraStates, current: nat, t: Trace,
                     p: ProviderId, era: nat)
    requires PaymentsOk(cfg, providers, records, eraState, current, t)
    ensures (p, era) in t.paidProviders ==>
              era < current && (p, era) in records && records[(p, era)].providerRewardClaimed
  {
    if (p, era) in t.paidProviders {
      assert ProviderPaidOk(cfg, providers, records, eraState, current, p, era, t.paidProviders[(p, era)]);
    }
  }

  lemma DelegatorPaid(cfg: Config, providers: Providers, records: Records, eraState: EraStates, current: nat, t: Trace,
                      d: AccountId, p: ProviderId, era: nat)
    requires PaymentsOk(cfg, providers, records, eraState, current, t)
    ensures (d, p, era) in t.paidDelegators ==> era < current && p in providers && providers[p].Earns(era)
  {
    if (d, p, era) in t.paidDelegators {
      assert DelegatorPaidOk(cfg, providers, records, eraState, current, t.history, d, p, era,
                             t.paidDelegators[(d, p, era)]);
    }
  }

  /** The current era has been claimed by nobody. */
  lemma CurrentUnclaimed(cfg: Config, providers: Providers, records: Records, eraState: EraStates, current: nat,
                         t: Trace, p: ProviderId)
    requires PaymentsOk(cfg, providers, records, eraState, current, t)
    ensures (p, current) in records ==> !records[(p, current)].providerRewardClaimed
    ensures forall d: AccountId, e: nat :: current <= e ==> (d, p, e) !in t.paidDelegators
  {
    ProviderPaid(cfg, providers, records, eraState, current, t, p, current);
    forall d: AccountId, e: nat | current <= e ensures (d, p, e) !in t.paidDelegators {
      DelegatorPaid(cfg, providers, records, eraState, current, t, d, p, e);
    }
  }

  // ---- Stakes of one delegator with one provider

  function Ones(x: nat): nat {
    if x > 0 then 1 else 0
  }

  lemma StakeSumSetFrom(h: History, stakers: set<AccountId>, d: AccountId, p: ProviderId, era: nat, v: nat,
                        q: ProviderId, e: nat)
    requires forall x: AccountId :: x !in stakers ==> h(x, q, e) == 0
    ensures var h' := SetFrom(h, d, p, era, v);
            if q == p && era <= e
            then && StakeSum(h', stakers + {d}, q, e) + h(d, p, e) == StakeSum(h, stakers, q, e) + v
                 && StakerCount(h', stakers + {d}, q, e) + Ones(h(d, p, e)) == StakerCount(h, stakers, q, e) + Ones(v)
            else && StakeSum(h', stakers + {d}, q, e) == StakeSum(h, stakers, q, e)
                 && StakerCount(h', stakers + {d}, q, e) == StakerCount(h, stakers, q, e)
  {
    var h' := SetFrom(h, d, p, era, v);
    var t := stakers + {d};
    var f: AccountId -> nat := x => h(x, q, e);
    var g: AccountId -> nat := x => h'(x, q, e);
    SumPoint(stakers, f, t, g, d);
    var f1: AccountId -> nat := x => if h(x, q, e) > 0 then 1 else 0;
    var g1: AccountId -> nat := x => if h'(x, q, e) > 0 then 1 else 0;
    SumPoint(stakers, f1, t, g1, d);
  }

  lemma StakesOutside(cfg: Config, providers: Providers, records: Records, current: nat, t: Trace, q: ProviderId,
                      e: nat)
    requires StakesOk(cfg, providers, records, current, t)
    ensures forall x: AccountId :: x !in t.stakers ==> t.history(x, q, e) == 0
  {
    forall x: AccountId | x !in t.stakers ensures t.history(x, q, e) == 0 {
      assert StakeOk(cfg, providers, records, current, t.history, t.stakers, x, q, e);
    }
  }

  function Restaked(t: Trace, d: AccountId, p: ProviderId, current: nat, v: nat): Trace {
    t.(history := SetFrom(t.history, d, p, current, v), stakers := t.stakers + {d})
  }

  lemma HistoryRestake(cfg: Config, providers: Providers, records: Records, current: nat, t: Trace,
                       d: AccountId, p: ProviderId, v: nat, rec: ProviderEraMetadata)
    requires RecordsOk(cfg, providers, records, current) && IsActive(providers, p)
    requires StakesOk(cfg, providers, records, current, t)
    requires HistoryOk(records, t.history, t.stakers)
    requires var was := RecordOf(records, p, current);
             && rec.bond == was.bond
             && rec.total + t.history(d, p, current) == was.total + v
             && rec.delegatorCount + Ones(t.history(d, p, current)) == was.delegatorCount + Ones(v)
    ensures var t' := Restaked(t, d, p, current, v);
            HistoryOk(records[(p, current) := rec], t'.history, t'.stakers)
  {
    var t' := Restaked(t, d, p, current, v);
    var records' := records[(p, current) := rec];
    CurrentRecord(cfg, providers, records, current, p);
    forall q: ProviderId, e: nat | (q, e) in records'
      ensures && records'[(q, e)].total == records'[(q, e)].bond + StakeSum(t'.history, t'.stakers, q, e)
              && records'[(q, e)].delegatorCount == StakerCount(t'.history, t'.stakers, q, e)
    {
      assert (q, e) in records;
      assert RecordOk(cfg, providers, current, q, e, records[(q, e)]);
      StakesOutside(cfg, providers, records, current, t, q, e);
      StakeSumSetFrom(t.history, t.stakers, d, p, current, v, q, e);
    }
  }

  lemma StakesRestake(cfg: Config, providers: Providers, records: Records, current: nat, t: Trace,
                      d: AccountId, p: ProviderId, v: nat, rec: ProviderEraMetadata)
    requires StakesOk(cfg, providers, records, current, t) && IsActive(providers, p)
    requires v == 0 || v >= cfg.minDelegatorStake
    ensures StakesOk(cfg, providers, records[(p, current) := rec], current, Restaked(t, d, p, current, v))
  {
    var t' := Restaked(t, d, p, current, v);
    var next := records[(p, current) := rec];
    forall x: AccountId, q: ProviderId, e: nat
      ensures StakeOk(cfg, providers, next, current, t'.history, t'.stakers, x, q, e)
    {
      assert StakeOk(cfg, providers, records, current, t.history, t.stakers, x, q, e);
    }
  }

  /** What an active provider's delegator has stored last is what it holds now. */
  lemma LatestIsHeld(cfg: Config, providers: Providers, current: nat, t: Trace, s: Stakes, d: AccountId, p: ProviderId)
    requires DelegationOk(cfg, providers, current, t, s, d, p) && IsActive(providers, p)
    requires (d, p, current) !in t.paidDelegators
    ensures Latest(s) == t.history(d, p, current)
  {
    assert At(s, current) == UnpaidStake(t, d, p, current);
    AtFromLast(s, current);
  }

  lemma RestakedPair(cfg: Config, providers: Providers, current: nat, t: Trace, s: Stakes, d: AccountId, p: ProviderId,
                     s': Stakes, v: nat)
    requires DelegationOk(cfg, providers, current, t, s, d, p) && IsActive(providers, p)
    requires forall e: nat :: current <= e ==> (d, p, e) !in t.paidDelegators
    requires Ordered(s') && StoredOk(cfg, current, s')
    requires forall e: nat :: At(s', e) == if current <= e then v else At(s, e)
    ensures DelegationOk(cfg, providers, current, Restaked(t, d, p, current, v), s', d, p)
  {
    var t' := Restaked(t, d, p, current, v);
    forall e: nat ensures At(s', e) == UnpaidStake(t', d, p, e) {
      assert At(s, e) == UnpaidStake(t, d, p, e);
    }
  }

  /** Storing one pair's history leaves every other pair's alone. */
  lemma DelegationsPut(cfg: Config, providers: Providers, current: nat, t: Trace, delegations: Histories,
                       d: AccountId, p: ProviderId, s: Stakes, t': Trace)
    requires DelegationsOk(cfg, providers, current, t, delegations)
    requires forall x: AccountId, q: ProviderId, e: nat :: (x, q) != (d, p) ==>
               UnpaidStake(t', x, q, e) == UnpaidStake(t, x, q, e)
    requires DelegationOk(cfg, providers, current, t', s, d, p)
    ensures DelegationsOk(cfg, providers, current, t', PutStakes(delegations, d, p, s))
  {
    forall x: AccountId, q: ProviderId
      ensures DelegationOk(cfg, providers, current, t', StakesOf(PutStakes(delegations, d, p, s), x, q), x, q)
    {
      if (x, q) != (d, p) {
        var s' := StakesOf(delegations, x, q);
        assert StakesOf(PutStakes(delegations, d, p, s), x, q) == s';
        assert DelegationOk(cfg, providers, current, t, s', x, q);
        forall e: nat | s' != [] || (q in providers && providers[q].Earns(e))
          ensures At(s', e) == UnpaidStake(t', x, q, e)
        {
          assert UnpaidStake(t', x, q, e) == UnpaidStake(t, x, q, e);
        }
      }
    }
  }

  // ---- Reserves

  /** What an account has at stake changes only at the provider whose records or stakes change. */
  lemma AtStakePoint(providers: Providers, records: Records, delegations: Histories, current: nat,
                     providers': Providers, records': Records, delegations': Histories, current': nat,
                     a: AccountId, p: ProviderId)
    requires forall q: ProviderId :: q != p ==>
               AtStake(providers, records, delegations, current, a, q) ==
               AtStake(providers', records', delegations', current', a, q)
    ensures AllAtStake(providers', records', delegations', current', a)
            + AtStake(providers, records, delegations, current, a, p)
            == AllAtStake(providers, records, delegations, current, a)
              + AtStake(providers', records', delegations', current', a, p)
  {
    SumPoint(providers.Keys, q => AtStake(providers, records, delegations, current, a, q),
             providers'.Keys, q => AtStake(providers', records', delegations', current', a, q), p);
  }

  /** What account a has at stake with p in a ledger. */
  function StakeAt(st: Ledger, a: AccountId, p: ProviderId): nat {
    AtStake(st.providers, st.records, st.delegations, st.era.current, a, p)
  }

  /** All but one provider keep what is at stake with them. */
  ghost predicate OnlyAt(st: Ledger, next: Ledger, p: ProviderId) {
    forall a: AccountId, q: ProviderId :: q != p ==> StakeAt(next, a, q) == StakeAt(st, a, q)
  }

  /** Every reserve moves with what the account has at stake with p, and in its queue. */
  ghost predicate MovesAt(st: Ledger, next: Ledger, p: ProviderId) {
    forall a: AccountId ::
      next.bank.Reserved(a) + StakeAt(st, a, p) + Total(QueueOf(st.unbonding, a))
      == st.bank.Reserved(a) + StakeAt(next, a, p) + Total(QueueOf(next.unbonding, a))
  }

  lemma PointLockstep(st: Ledger, next: Ledger, p: ProviderId)
    requires OnlyAt(st, next, p) && MovesAt(st, next, p)
    ensures Lockstep(st, next)
  {
    forall a: AccountId
      ensures next.bank.Reserved(a) + StakingShare(st, a) == st.bank.Reserved(a) + StakingShare(next, a)
    {
      forall q: ProviderId | q != p
        ensures AtStake(st.providers, st.records, st.delegations, st.era.current, a, q)
                == AtStake(next.providers, next.records, next.delegations, next.era.current, a, q)
      {
        assert StakeAt(next, a, q) == StakeAt(st, a, q);
      }
      AtStakePoint(st.providers, st.records, st.delegations, st.era.current,
                   next.providers, next.records, next.delegations, next.era.current, a, p);
      assert next.bank.Reserved(a) + StakeAt(st, a, p) + Total(QueueOf(st.unbonding, a))
             == st.bank.Reserved(a) + StakeAt(next, a, p) + Total(QueueOf(next.unbonding, a));
    }
  }

  lemma AtStakeWithin(st: Ledger, a: AccountId, p: ProviderId)
    requires Backed(st)
    ensures AtStake(st.providers, st.records, st.delegations, st.era.current, a, p) + Total(QueueOf(st.unbonding, a))
            <= st.bank.Reserved(a)
  {
    assert StakingShare(st, a) <= st.bank.Reserved(a);
    if p in st.providers {
      SumMember(st.providers.Keys, q => AtStake(st.providers, st.records, st.delegations, st.era.current, a, q), p);
    }
  }

  lemma QueuesPut(cfg: Config, unbonding: Queues, a: AccountId, q: Chunks)
    requires QueuesOk(cfg, unbonding) && Ascending(q) && |q| <= cfg.maxUnlockingChunks
    ensures QueuesOk(cfg, PutQueue(unbonding, a, q))
    ensures forall x: AccountId :: QueueOf(PutQueue(unbonding, a, q), x) == if x == a then q else QueueOf(unbonding, x)
  {
    forall x: AccountId ensures QueueOf(PutQueue(unbonding, a, q), x) == if x == a then q else QueueOf(unbonding, x) {
    }
  }
}
