/** Claiming rewards and withdrawing funds keeps the invariant. */
module ClaimSteps {
  import Sums
  import opened Currency
  import opened Delegations
  import opened Unbonding
  import opened StakingTypes
  import opened StakingSpec
  import opened StakingInvariant
  import opened StakingFrames

  // ---- Provider rewards

  /** A provider that can claim has an unclaimed, unpaid record of that era. */
  lemma ClaimableProvider(cfg: Config, st: Ledger, p: ProviderId, era: nat)
    requires WellFormed(cfg, st) && ClaimProvider(cfg, st, p, era).Ok?
    ensures p in st.providers && st.providers[p].Earns(era) && era < st.era.current
    ensures (p, era) in st.records && !st.records[(p, era)].providerRewardClaimed
    ensures (p, era) !in st.trace.paidProviders
  {
    ProviderPaid(cfg, st.providers, st.records, st.eraState, st.era.current, st.trace, p, era);
  }

  /** The records with the reward flag of one of them set. */
  function Flagged(records: Records, p: ProviderId, era: nat): Records
    requires (p, era) in records
  {
    records[(p, era) := records[(p, era)].(providerRewardClaimed := true)]
  }

  lemma FlaggedRecords(cfg: Config, st: Ledger, p: ProviderId, era: nat)
    requires WellFormed(cfg, st) && (p, era) in st.records
    ensures RecordsOk(cfg, st.providers, Flagged(st.records, p, era), st.era.current)
    ensures StakesOk(cfg, st.providers, Flagged(st.records, p, era), st.era.current, st.trace)
    ensures HistoryOk(Flagged(st.records, p, era), st.trace.history, st.trace.stakers)
  {
    var next := Flagged(st.records, p, era);
    var current := st.era.current;
    forall q | q in st.providers ensures ProviderOk(st.providers[q], next, q, current) {
      assert ProviderOk(st.providers[q], st.records, q, current);
    }
    forall q: ProviderId, e: nat | (q, e) in next ensures RecordOk(cfg, st.providers, current, q, e, next[(q, e)]) {
      assert RecordOk(cfg, st.providers, current, q, e, st.records[(q, e)]);
    }
    forall d: AccountId, q: ProviderId, e: nat
      ensures StakeOk(cfg, st.providers, next, current, st.trace.history, st.trace.stakers, d, q, e)
    {
      assert StakeOk(cfg, st.providers, st.records, current, st.trace.history, st.trace.stakers, d, q, e);
    }
  }

  lemma FlaggedTotals(cfg: Config, st: Ledger, p: ProviderId, era: nat)
    requires WellFormed(cfg, st) && (p, era) in st.records
    ensures TotalsOk(st.providers, Flagged(st.records, p, era), st.eraState, st.era.current)
  {
    var next := Flagged(st.records, p, era);
    forall e: nat | e <= st.era.current ensures EraOf(st.eraState, e).staked == EraTotal(st.providers, next, e) {
      Sums.SumCong(st.providers.Keys, q => Contribution(st.providers, st.records, e, q),
              q => Contribution(st.providers, next, e, q));
      assert EraOf(st.eraState, e).staked == EraTotal(st.providers, st.records, e);
    }
  }

  lemma FlaggedPayments(cfg: Config, st: Ledger, p: ProviderId, era: nat, reward: nat)
    requires WellFormed(cfg, st) && (p, era) in st.records
    requires p in st.providers && st.providers[p].Earns(era) && era < st.era.current
    requires reward == ProviderPart(cfg, st.records[(p, era)], EraOf(st.eraState, era))
    ensures PaymentsOk(cfg, st.providers, Flagged(st.records, p, era), st.eraState, st.era.current,
                       st.trace.(paidProviders := st.trace.paidProviders[(p, era) := reward]))
  {
    var next := Flagged(st.records, p, era);
    var t := st.trace.(paidProviders := st.trace.paidProviders[(p, era) := reward]);
    var current := st.era.current;
    forall q: ProviderId, e: nat | (q, e) in t.paidProviders
      ensures ProviderPaidOk(cfg, st.providers, next, st.eraState, current, q, e, t.paidProviders[(q, e)])
    {
      if (q, e) != (p, era) {
        assert ProviderPaidOk(cfg, st.providers, st.records, st.eraState, current, q, e,
                              st.trace.paidProviders[(q, e)]);
      }
    }
    forall d: AccountId, q: ProviderId, e: nat | (d, q, e) in t.paidDelegators
      ensures DelegatorPaidOk(cfg, st.providers, next, st.eraState, current, t.history, d, q, e,
                              t.paidDelegators[(d, q, e)])
    {
      assert DelegatorPaidOk(cfg, st.providers, st.records, st.eraState, current, st.trace.history, d, q, e,
                             st.trace.paidDelegators[(d, q, e)]);
    }
  }

  lemma PaidTraceDelegations(cfg: Config, st: Ledger, t: Trace)
    requires DelegationsOk(cfg, st.providers, st.era.current, st.trace, st.delegations)
    requires t.history == st.trace.history && t.paidDelegators == st.trace.paidDelegators
    ensures DelegationsOk(cfg, st.providers, st.era.current, t, st.delegations)
  {
    forall d: AccountId, q: ProviderId
      ensures DelegationOk(cfg, st.providers, st.era.current, t, StakesOf(st.delegations, d, q), d, q)
    {
      assert DelegationOk(cfg, st.providers, st.era.current, st.trace, StakesOf(st.delegations, d, q), d, q);
      forall e: nat ensures UnpaidStake(t, d, q, e) == UnpaidStake(st.trace, d, q, e) {
      }
    }
  }

  lemma ClaimProviderWellFormed(cfg: Config, st: Ledger, p: ProviderId, era: nat)
    requires WellFormed(cfg, st) && ClaimProvider(cfg, st, p, era).Ok?
    ensures WellFormed(cfg, ClaimProvider(cfg, st, p, era).value)
  {
    var next := ClaimProvider(cfg, st, p, era).value;
    ClaimableProvider(cfg, st, p, era);
    assert next.records == Flagged(st.records, p, era);
    FlaggedRecords(cfg, st, p, era);
    FlaggedTotals(cfg, st, p, era);
    FlaggedPayments(cfg, st, p, era, next.trace.paidProviders[(p, era)]);
    PaidTraceDelegations(cfg, st, next.trace);
  }

  lemma ClaimProviderLockstep(cfg: Config, st: Ledger, p: ProviderId, era: nat)
    requires WellFormed(cfg, st) && ClaimProvider(cfg, st, p, era).Ok?
    ensures Lockstep(st, ClaimProvider(cfg, st, p, era).value)
  {
    ClaimableProvider(cfg, st, p, era);
    SameBondsLockstep(st, ClaimProvider(cfg, st, p, era).value, p);
  }

  /** No reserve depends on the flag of a record. */
  lemma SameBondsLockstep(st: Ledger, next: Ledger, p: ProviderId)
    requires next.providers == st.providers && next.era == st.era
    requires next.delegations == st.delegations && next.unbonding == st.unbonding
    requires forall q: ProviderId, e: nat :: RecordOf(next.records, q, e).bond == RecordOf(st.records, q, e).bond
    requires forall a: AccountId :: next.bank.Reserved(a) == st.bank.Reserved(a)
    ensures Lockstep(st, next)
  {
    PointLockstep(st, next, p);
  }

  // ---- Delegator rewards

  /** A delegator that can claim is owed the reward of its whole stake in the head era, and was not paid it. */
  lemma ClaimableDelegator(cfg: Config, st: Ledger, d: AccountId, p: ProviderId)
    requires WellFormed(cfg, st)
    requires var c := Claimed(StakesOf(st.delegations, d, p));
             c.amount > 0 && p in st.providers && st.providers[p].Earns(c.era) && c.era < st.era.current
    ensures var c := Claimed(StakesOf(st.delegations, d, p));
            && c.amount == st.trace.history(d, p, c.era)
            && (d, p, c.era) !in st.trace.paidDelegators
            && (p, c.era) in st.records && d in st.trace.stakers
            && c.era in st.eraState
  {
    var s := StakesOf(st.delegations, d, p);
    var c := Claimed(s);
    assert DelegationOk(cfg, st.providers, st.era.current, st.trace, s, d, p);
    ClaimRefines(s);
    assert At(s, c.era) == UnpaidStake(st.trace, d, p, c.era);
    assert StakeOk(cfg, st.providers, st.records, st.era.current, st.trace.history, st.trace.stakers, d, p, c.era);
  }

  function PaidDelegator(t: Trace, d: AccountId, p: ProviderId, era: nat, reward: nat): Trace {
    t.(paidDelegators := t.paidDelegators[(d, p, era) := reward])
  }

  lemma ClaimedPair(cfg: Config, st: Ledger, d: AccountId, p: ProviderId, reward: nat)
    requires WellFormed(cfg, st)
    requires var c := Claimed(StakesOf(st.delegations, d, p));
             c.amount > 0 && p in st.providers && st.providers[p].Earns(c.era) && c.era < st.era.current
    ensures var c := Claimed(StakesOf(st.delegations, d, p));
            DelegationOk(cfg, st.providers, st.era.current, PaidDelegator(st.trace, d, p, c.era, reward), c.rest, d, p)
  {
    var s := StakesOf(st.delegations, d, p);
    var c := Claimed(s);
    var t := PaidDelegator(st.trace, d, p, c.era, reward);
    assert DelegationOk(cfg, st.providers, st.era.current, st.trace, s, d, p);
    ClaimRefines(s);
    assert s != [];
    forall e: nat ensures At(c.rest, e) == UnpaidStake(t, d, p, e) {
      assert At(s, e) == UnpaidStake(st.trace, d, p, e);
    }
  }

  lemma ClaimedPayments(cfg: Config, st: Ledger, d: AccountId, p: ProviderId, era: nat, reward: nat)
    requires WellFormed(cfg, st)
    requires p in st.providers && st.providers[p].Earns(era) && era < st.era.current
    requires (p, era) in st.records && st.trace.history(d, p, era) > 0
    requires reward == DelegatorReward(cfg, st.trace.history(d, p, era), st.records[(p, era)], EraOf(st.eraState, era))
    ensures PaymentsOk(cfg, st.providers, st.records, st.eraState, st.era.current,
                       PaidDelegator(st.trace, d, p, era, reward))
  {
    var t := PaidDelegator(st.trace, d, p, era, reward);
    forall x: AccountId, q: ProviderId, e: nat | (x, q, e) in t.paidDelegators
      ensures DelegatorPaidOk(cfg, st.providers, st.records, st.eraState, st.era.current, t.history, x, q, e,
                              t.paidDelegators[(x, q, e)])
    {
      if (x, q, e) != (d, p, era) {
        assert DelegatorPaidOk(cfg, st.providers, st.records, st.eraState, st.era.current, st.trace.history, x, q, e,
                               st.trace.paidDelegators[(x, q, e)]);
      }
    }
  }

  lemma ClaimDelegatorWellFormed(cfg: Config, st: Ledger, d: AccountId, p: ProviderId)
    requires WellFormed(cfg, st) && ClaimDelegator(cfg, st, d, p).Ok?
    ensures WellFormed(cfg, ClaimDelegator(cfg, st, d, p).value)
  {
    var next := ClaimDelegator(cfg, st, d, p).value;
    var c := Claimed(StakesOf(st.delegations, d, p));
    ClaimedWellFormed(cfg, st, next, d, p, next.trace.paidDelegators[(d, p, c.era)]);
  }

  lemma ClaimedWellFormed(cfg: Config, st: Ledger, next: Ledger, d: AccountId, p: ProviderId, reward: nat)
    requires WellFormed(cfg, st)
    requires var c := Claimed(StakesOf(st.delegations, d, p));
             && c.amount > 0 && p in st.providers && st.providers[p].Earns(c.era) && c.era < st.era.current
             && reward == DelegatorReward(cfg, c.amount, RecordOf(st.records, p, c.era), EraOf(st.eraState, c.era))
             && next == st.(bank := next.bank, delegations := PutStakes(st.delegations, d, p, c.rest),
                            trace := PaidDelegator(st.trace, d, p, c.era, reward))
    ensures WellFormed(cfg, next)
  {
    var c := Claimed(StakesOf(st.delegations, d, p));
    ClaimableDelegator(cfg, st, d, p);
    ClaimedPair(cfg, st, d, p, reward);
    ClaimedPayments(cfg, st, d, p, c.era, reward);
    DelegationsPut(cfg, st.providers, st.era.current, st.trace, st.delegations, d, p, c.rest, next.trace);
    assert StakesOk(cfg, st.providers, st.records, st.era.current, next.trace);
  }

  lemma StoredOrdered(cfg: Config, st: Ledger, d: AccountId, p: ProviderId)
    requires DelegationsOk(cfg, st.providers, st.era.current, st.trace, st.delegations)
    ensures Ordered(StakesOf(st.delegations, d, p))
  {
    assert DelegationOk(cfg, st.providers, st.era.current, st.trace, StakesOf(st.delegations, d, p), d, p);
  }

  lemma ClaimDelegatorLockstep(cfg: Config, st: Ledger, d: AccountId, p: ProviderId)
    requires WellFormed(cfg, st) && ClaimDelegator(cfg, st, d, p).Ok?
    ensures Lockstep(st, ClaimDelegator(cfg, st, d, p).value)
  {
    var s := StakesOf(st.delegations, d, p);
    StoredOrdered(cfg, st, d, p);
    ClaimRefines(s);
    SameStakesLockstep(st, ClaimDelegator(cfg, st, d, p).value, d, p, Claimed(s).rest);
  }

  /** A stored history may be drained as long as its last value stays: no reserve depends on the rest. */
  lemma SameStakesLockstep(st: Ledger, next: Ledger, d: AccountId, p: ProviderId, s: Stakes)
    requires next.providers == st.providers && next.records == st.records && next.era == st.era
    requires next.unbonding == st.unbonding
    requires next.delegations == PutStakes(st.delegations, d, p, s)
    requires Latest(s) == Latest(StakesOf(st.delegations, d, p))
    requires forall a: AccountId :: next.bank.Reserved(a) == st.bank.Reserved(a)
    ensures Lockstep(st, next)
  {
    forall a: AccountId, q: ProviderId ensures StakeAt(next, a, q) == StakeAt(st, a, q) {
      assert Latest(StakesOf(next.delegations, a, q)) == Latest(StakesOf(st.delegations, a, q));
    }
    PointLockstep(st, next, p);
  }

  // ---- Withdrawals

  lemma WithdrawUnbondedWellFormed(cfg: Config, st: Ledger, who: AccountId)
    requires WellFormed(cfg, st) && WithdrawUnbonded(st, who).Ok?
    ensures WellFormed(cfg, WithdrawUnbonded(st, who).value)
  {
    var queue := QueueOf(st.unbonding, who);
    assert Ascending(queue) && |queue| <= cfg.maxUnlockingChunks;
    LockedIsAscending(queue, st.era.current);
    QueuesPut(cfg, st.unbonding, who, Locked(queue, st.era.current));
  }

  lemma WithdrawUnbondedLockstep(cfg: Config, st: Ledger, who: AccountId)
    requires WellFormed(cfg, st) && Backed(st) && WithdrawUnbonded(st, who).Ok?
    ensures Lockstep(st, WithdrawUnbonded(st, who).value)
    ensures Total(Matured(QueueOf(st.unbonding, who), st.era.current)) <= st.bank.Reserved(who)
  {
    var queue := QueueOf(st.unbonding, who);
    assert Ascending(queue);
    PartitionRefines(queue, st.era.current);
    assert StakingShare(st, who) <= st.bank.Reserved(who);
    ReleasedLockstep(st, WithdrawUnbonded(st, who).value, who, Locked(queue, st.era.current));
  }

  /** What leaves a queue is released. */
  lemma ReleasedLockstep(st: Ledger, next: Ledger, who: AccountId, queue: Chunks)
    requires next == st.(bank := next.bank, unbonding := PutQueue(st.unbonding, who, queue))
    requires forall a: AccountId ::
               next.bank.Reserved(a) + (if a == who then Total(QueueOf(st.unbonding, who)) else 0)
               == st.bank.Reserved(a) + if a == who then Total(queue) else 0
    ensures Lockstep(st, next)
  {
    forall a: AccountId
      ensures next.bank.Reserved(a) + StakingShare(st, a) == st.bank.Reserved(a) + StakingShare(next, a)
    {
      assert QueueOf(next.unbonding, a) == if a == who then queue else QueueOf(st.unbonding, a);
      assert AllAtStake(next.providers, next.records, next.delegations, next.era.current, a)
             == AllAtStake(st.providers, st.records, st.delegations, st.era.current, a);
    }
  }

  /** Whoever may withdraw from an unregistered provider has been paid for every era it earned in. */
  lemma NothingLeftToClaim(cfg: Config, st: Ledger, d: AccountId, p: ProviderId, e: nat)
    requires WellFormed(cfg, st) && DelegatorWithdrawUnregistered(cfg, st, d, p).Ok?
    requires st.providers[p].Earns(e)
    ensures st.trace.history(d, p, e) == 0 || (d, p, e) in st.trace.paidDelegators
  {
    var s := StakesOf(st.delegations, d, p);
    assert DelegationOk(cfg, st.providers, st.era.current, st.trace, s, d, p);
    AtBeforeHead(s, e);
    assert At(s, e) == UnpaidStake(st.trace, d, p, e);
  }

  lemma DelegatorWithdrawWellFormed(cfg: Config, st: Ledger, d: AccountId, p: ProviderId)
    requires WellFormed(cfg, st) && DelegatorWithdrawUnregistered(cfg, st, d, p).Ok?
    ensures WellFormed(cfg, DelegatorWithdrawUnregistered(cfg, st, d, p).value)
  {
    forall e: nat | st.providers[p].Earns(e) ensures At([], e) == UnpaidStake(st.trace, d, p, e) {
      NothingLeftToClaim(cfg, st, d, p, e);
    }
    assert DelegationOk(cfg, st.providers, st.era.current, st.trace, [], d, p);
    DelegationsPut(cfg, st.providers, st.era.current, st.trace, st.delegations, d, p, [], st.trace);
  }

  lemma DelegatorWithdrawLockstep(cfg: Config, st: Ledger, d: AccountId, p: ProviderId)
    requires WellFormed(cfg, st) && Backed(st) && DelegatorWithdrawUnregistered(cfg, st, d, p).Ok?
    ensures Lockstep(st, DelegatorWithdrawUnregistered(cfg, st, d, p).value)
    ensures Latest(StakesOf(st.delegations, d, p)) <= st.bank.Reserved(d)
  {
    AtStakeWithin(st, d, p);
    StakesGoneLockstep(st, DelegatorWithdrawUnregistered(cfg, st, d, p).value, d, p);
  }

  /** A history that is removed releases its last value. */
  lemma StakesGoneLockstep(st: Ledger, next: Ledger, d: AccountId, p: ProviderId)
    requires p in st.providers
    requires next == st.(bank := next.bank, delegations := PutStakes(st.delegations, d, p, []))
    requires forall a: AccountId ::
               next.bank.Reserved(a) + (if a == d then Latest(StakesOf(st.delegations, d, p)) else 0)
                 == st.bank.Reserved(a)
    ensures Lockstep(st, next)
  {
    forall a: AccountId, q: ProviderId
      ensures StakesOf(next.delegations, a, q) == if (a, q) == (d, p) then [] else StakesOf(st.delegations, a, q)
    {
    }
    PointLockstep(st, next, p);
  }

  /** The withdrawal returns exactly the stake held when the provider unregistered. */
  lemma WithdrawsHeldStake(cfg: Config, st: Ledger, d: AccountId, p: ProviderId)
    requires WellFormed(cfg, st) && Backed(st) && DelegatorWithdrawUnregistered(cfg, st, d, p).Ok?
    ensures var since := st.providers[p].status.since;
            DelegatorWithdrawUnregistered(cfg, st, d, p).value.bank.Free(d)
            == st.bank.Free(d) + st.trace.history(d, p, since)
  {
    var since := st.providers[p].status.since;
    var s := StakesOf(st.delegations, d, p);
    assert DelegationOk(cfg, st.providers, st.era.current, st.trace, s, d, p);
    assert ProviderOk(st.providers[p], st.records, p, st.era.current);
    assert StakeOk(cfg, st.providers, st.records, st.era.current, st.trace.history, st.trace.stakers, d, p,
                   st.era.current);
    AtFromLast(s, st.era.current);
    assert At(s, st.era.current) == UnpaidStake(st.trace, d, p, st.era.current);
    CurrentUnclaimed(cfg, st.providers, st.records, st.eraState, st.era.current, st.trace, p);
    DelegatorWithdrawLockstep(cfg, st, d, p);
  }
}
