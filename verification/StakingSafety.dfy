/** What the invariant says of every reachable ledger. */
module StakingSafety {
  import opened Wrappers
  import opened Sums
  import opened Currency
  import opened Delegations
  import opened StakingTypes
  import opened StakingSpec
  import opened StakingInvariant
  import opened StakingFrames
  import opened StakingRuns
  import StakeSteps

  // ---- Errors that cannot occur

  /** Stored histories never run ahead of the current era, and every era up to it is known. */
  lemma UnreachableErrors(cfg: Config, st: Ledger, call: Call)
    requires WellFormed(cfg, st) && Possible(cfg, st, call)
    ensures Dispatch(cfg, st, call) != Err(UnexpectedDelegationInfoEra)
    ensures Dispatch(cfg, st, call) != Err(UnknownEra)
  {
    if call.Stake? {
      StakeAccepted(cfg, st, call.d, call.p, call.amount);
    } else if call.Unstake? {
      UnstakeAccepted(cfg, st, call.d, call.p, call.amount);
    } else if call.ProviderClaim? || call.DelegatorClaim? {
      ClaimsKnowTheEra(cfg, st, call);
    } else {
      OtherErrors(cfg, st, call);
    }
  }

  lemma OtherErrors(cfg: Config, st: Ledger, call: Call)
    requires InOrder(st, call)
    requires !call.Stake? && !call.Unstake? && !call.ProviderClaim? && !call.DelegatorClaim?
    ensures Dispatch(cfg, st, call) != Err(UnexpectedDelegationInfoEra)
    ensures Dispatch(cfg, st, call) != Err(UnknownEra)
  {
  }

  lemma ClaimsKnowTheEra(cfg: Config, st: Ledger, call: Call)
    requires ErasOk(st.eraState, st.accumulator, st.trace.deposited, st.era.current) && InOrder(st, call)
    requires call.ProviderClaim? || call.DelegatorClaim?
    ensures Dispatch(cfg, st, call) != Err(UnexpectedDelegationInfoEra)
    ensures Dispatch(cfg, st, call) != Err(UnknownEra)
  {
  }

  lemma StakeAccepted(cfg: Config, st: Ledger, d: AccountId, p: ProviderId, amount: nat)
    requires WellFormed(cfg, st)
    ensures Delegate(cfg, st, d, p, amount) != Err(UnexpectedDelegationInfoEra)
  {
    StakeSteps.StoredPair(cfg, st, d, p);
    StakeRefines(StakesOf(st.delegations, d, p), st.era.current, amount);
  }

  lemma UnstakeAccepted(cfg: Config, st: Ledger, d: AccountId, p: ProviderId, amount: nat)
    requires WellFormed(cfg, st)
    ensures DelegatorUnstake(cfg, st, d, p, amount) != Err(UnexpectedDelegationInfoEra)
  {
    var s := StakesOf(st.delegations, d, p);
    StakeSteps.StoredPair(cfg, st, d, p);
    if amount > 0 && Latest(s) > 0 {
      StakeSteps.UnstakeAmountOk(cfg, Latest(s), amount);
      UnstakeRefines(s, st.era.current, UnstakeAmount(cfg, Latest(s), amount));
    }
  }

  // ---- Subtractions that never clip

  /** Every saturating subtraction of a call takes no more than there is. */
  predicate SubtractsExactly(cfg: Config, st: Ledger, call: Call) {
    var era := st.era.current;
    var staked := EraOf(st.eraState, era).staked;
    match call
    case BondLess(_, p, amount) =>
      var rec := RecordOf(st.records, p, era);
      amount <= rec.bond && amount <= rec.total && amount <= staked
    case Unstake(d, p, amount) =>
      var rec := RecordOf(st.records, p, era);
      var held := Latest(StakesOf(st.delegations, d, p));
      var taken := if held < amount + cfg.minDelegatorStake then held else amount;
      && taken <= held && taken <= rec.total && taken <= staked
      && rec.delegatorCount >= 1
    case Unregister(p) => RecordOf(st.records, p, era).total <= staked
    case ProviderClaim(p, claimed) => SplitsExactly(cfg, RecordOf(st.records, p, claimed), EraOf(st.eraState, claimed))
    case DelegatorClaim(d, p) =>
      var claimed := Claimed(StakesOf(st.delegations, d, p)).era;
      SplitsExactly(cfg, RecordOf(st.records, p, claimed), EraOf(st.eraState, claimed))
    case _ => true
  }

  /** The provider's part is within its share, and its bond within its total. */
  predicate SplitsExactly(cfg: Config, rec: ProviderEraMetadata, era: EraMetadata) {
    ProviderPart(cfg, rec, era) <= ProviderShare(rec, era) && rec.bond <= rec.total
  }

  /** No saturating subtraction of a call that goes through ever clips. */
  lemma NothingFallsShort(cfg: Config, st: Ledger, call: Call)
    requires WellFormed(cfg, st) && InOrder(st, call) && Dispatch(cfg, st, call).Ok?
    ensures SubtractsExactly(cfg, st, call)
  {
    match call
    case BondLess(who, p, amount) => BondLessFits(cfg, st, who, p, amount);
    case Unstake(d, p, amount) => UnstakeFits(cfg, st, d, p, amount);
    case Unregister(p) => ContributionWithinTotal(st.providers, st.records, st.eraState, st.era.current, p);
    case ProviderClaim(p, era) => BondWithinTotal(st, p, era);
    case DelegatorClaim(d, p) => BondWithinTotal(st, p, Claimed(StakesOf(st.delegations, d, p)).era);
    case _ =>
  }

  lemma BondLessFits(cfg: Config, st: Ledger, who: AccountId, p: ProviderId, amount: nat)
    requires WellFormed(cfg, st) && ProviderBondLess(cfg, st, who, p, amount).Ok?
    ensures SubtractsExactly(cfg, st, BondLess(who, p, amount))
  {
    BondWithinTotal(st, p, st.era.current);
    ContributionWithinTotal(st.providers, st.records, st.eraState, st.era.current, p);
  }

  lemma UnstakeFits(cfg: Config, st: Ledger, d: AccountId, p: ProviderId, amount: nat)
    requires WellFormed(cfg, st) && DelegatorUnstake(cfg, st, d, p, amount).Ok?
    ensures SubtractsExactly(cfg, st, Unstake(d, p, amount))
  {
    StakeSteps.UnstakeFacts(cfg, st, d, p, amount);
  }

  lemma BondWithinTotal(st: Ledger, p: ProviderId, era: nat)
    requires HistoryOk(st.records, st.trace.history, st.trace.stakers)
    ensures RecordOf(st.records, p, era).bond <= RecordOf(st.records, p, era).total
  {
    assert (p, era) in st.records ==>
        st.records[(p, era)].total == st.records[(p, era)].bond + StakeSum(st.trace.history, st.trace.stakers, p, era);
  }

  // ---- Delegator counts

  /** The accounts whose latest stake with p is not zero. */
  function Delegators(st: Ledger, p: ProviderId): set<AccountId> {
    set k | k in st.delegations && k.1 == p && Latest(st.delegations[k]) > 0 :: k.0
  }

  lemma CountOfOnes(s: set<AccountId>, t: set<AccountId>, f: AccountId -> nat)
    requires t <= s
    requires forall x :: x in s ==> f(x) == if x in t then 1 else 0
    ensures Sum(s, f) == |t|
  {
    SumSupport(t, s, f);
    SumOnes(t);
    SumCong(t, f, k => 1);
  }

  /**
    The current count of an active provider is the number of its delegators, and every delegator's
    stake is at least the minimum.  The cap is enforced one late: the count may reach it plus one.
   */
  lemma DelegatorCount(cfg: Config, st: Ledger, p: ProviderId)
    requires WellFormed(cfg, st) && IsActive(st.providers, p)
    ensures (p, st.era.current) in st.records
    ensures st.records[(p, st.era.current)].delegatorCount == |Delegators(st, p)|
    ensures |Delegators(st, p)| <= cfg.maxDelegatorsPerProvider + 1
    ensures forall d: AccountId :: Latest(StakesOf(st.delegations, d, p)) == 0
                                   || Latest(StakesOf(st.delegations, d, p)) >= cfg.minDelegatorStake
  {
    var era := st.era.current;
    var h := st.trace.history;
    CurrentRecord(cfg, st.providers, st.records, era, p);
    CurrentUnclaimed(cfg, st.providers, st.records, st.eraState, era, st.trace, p);
    forall d: AccountId
      ensures Latest(StakesOf(st.delegations, d, p)) == h(d, p, era)
      ensures h(d, p, era) == 0 || (h(d, p, era) >= cfg.minDelegatorStake && d in st.trace.stakers)
      ensures d in Delegators(st, p) <==> Latest(StakesOf(st.delegations, d, p)) > 0
    {
      StakeSteps.StoredPair(cfg, st, d, p);
      LatestIsHeld(cfg, st.providers, era, st.trace, StakesOf(st.delegations, d, p), d, p);
      assert StakeOk(cfg, st.providers, st.records, era, h, st.trace.stakers, d, p, era);
      if Latest(StakesOf(st.delegations, d, p)) > 0 {
        assert (d, p) in st.delegations;
      }
    }
    var ones: AccountId -> nat := d => if h(d, p, era) > 0 then 1 else 0;
    CountOfOnes(st.trace.stakers, Delegators(st, p), ones);
    SumCong(st.trace.stakers, ones, d => if h(d, p, era) > 0 then 1 else 0);
  }

  // ---- The stake of the era is really there

  /** Whatever a delegator has stored last with a provider is reserved on it. */
  lemma StoredIsReserved(cfg: Config, st: Ledger, d: AccountId, p: ProviderId)
    requires Valid(cfg, st)
    ensures Latest(StakesOf(st.delegations, d, p)) <= st.bank.Reserved(d)
  {
    AtStakeWithin(st, d, p);
    StakeSteps.StoredPair(cfg, st, d, p);
  }

  /** The accounts that hold any reserve, with the stakers and the owners. */
  function Involved(st: Ledger): set<AccountId> {
    st.bank.reserved.Keys + st.trace.stakers + (set p | p in st.providers :: st.providers[p].owner)
  }

  function ReservedBy(bank: Bank): AccountId -> nat {
    a => bank.Reserved(a)
  }

  function AtStakeWith(st: Ledger, p: ProviderId): AccountId -> nat {
    a => AtStake(st.providers, st.records, st.delegations, st.era.current, a, p)
  }

  ghost function AllStakes(st: Ledger): AccountId -> nat {
    a => AllAtStake(st.providers, st.records, st.delegations, st.era.current, a)
  }

  function Contributions(st: Ledger): ProviderId -> nat {
    p => Contribution(st.providers, st.records, st.era.current, p)
  }

  function BondsWith(st: Ledger, p: ProviderId): AccountId -> nat {
    a => BondHeld(st.providers, st.records, st.era.current, a, p)
  }

  function StakesWith(st: Ledger, p: ProviderId): AccountId -> nat {
    a => Latest(StakesOf(st.delegations, a, p))
  }

  lemma ContributionHeld(cfg: Config, st: Ledger, p: ProviderId)
    requires WellFormed(cfg, st) && p in st.providers
    ensures Contributions(st)(p) <= Sum(Involved(st), AtStakeWith(st, p))
  {
    if st.providers[p].status.Active? {
      SumPlus(Involved(st), BondsWith(st, p), StakesWith(st, p), AtStakeWith(st, p));
      SumMember(Involved(st), BondsWith(st, p), st.providers[p].owner);
      StakesHeld(cfg, st, p);
      TotalIs(cfg, st, p);
    }
  }

  lemma TotalIs(cfg: Config, st: Ledger, p: ProviderId)
    requires RecordsOk(cfg, st.providers, st.records, st.era.current) && IsActive(st.providers, p)
    requires HistoryOk(st.records, st.trace.history, st.trace.stakers)
    ensures Contributions(st)(p)
            == BondsWith(st, p)(st.providers[p].owner) + StakeSum(st.trace.history, st.trace.stakers, p, st.era.current)
  {
    assert ProviderOk(st.providers[p], st.records, p, st.era.current);
  }

  lemma StakesHeld(cfg: Config, st: Ledger, p: ProviderId)
    requires WellFormed(cfg, st) && IsActive(st.providers, p)
    ensures StakeSum(st.trace.history, st.trace.stakers, p, st.era.current) == Sum(Involved(st), StakesWith(st, p))
  {
    var era := st.era.current;
    var held := StakesWith(st, p);
    CurrentUnclaimed(cfg, st.providers, st.records, st.eraState, era, st.trace, p);
    forall d: AccountId ensures held(d) == st.trace.history(d, p, era) && (d !in st.trace.stakers ==> held(d) == 0) {
      StakeSteps.StoredPair(cfg, st, d, p);
      LatestIsHeld(cfg, st.providers, era, st.trace, StakesOf(st.delegations, d, p), d, p);
      assert StakeOk(cfg, st.providers, st.records, era, st.trace.history, st.trace.stakers, d, p, era);
    }
    SumCong(st.trace.stakers, d => st.trace.history(d, p, era), held);
    SumSupport(st.trace.stakers, Involved(st), held);
  }

  /** The current era's stake never exceeds what all accounts together hold reserved. */
  lemma StakeIsReserved(cfg: Config, st: Ledger)
    requires WellFormed(cfg, st) && Backed(st)
    ensures EraOf(st.eraState, st.era.current).staked <= Sum(st.bank.reserved.Keys, ReservedBy(st.bank))
  {
    var era := st.era.current;
    var all := Involved(st);
    var rows: ProviderId -> nat := p => Sum(all, AtStakeWith(st, p));
    forall p | p in st.providers.Keys ensures Contributions(st)(p) <= rows(p) {
      ContributionHeld(cfg, st, p);
    }
    SumMono(st.providers.Keys, Contributions(st), rows);
    assert EraOf(st.eraState, era).staked == EraTotal(st.providers, st.records, era);
    SumCong(st.providers.Keys, p => Contribution(st.providers, st.records, era, p), Contributions(st));
    RowsAreColumns(st, all, rows);
    forall a | a in all ensures AllStakes(st)(a) <= ReservedBy(st.bank)(a) {
      assert StakingShare(st, a) <= st.bank.Reserved(a);
    }
    SumMono(all, AllStakes(st), ReservedBy(st.bank));
    SumSupport(st.bank.reserved.Keys, all, ReservedBy(st.bank));
  }

  function AtStakeOf(st: Ledger): (ProviderId, AccountId) -> nat {
    (p, a) => AtStake(st.providers, st.records, st.delegations, st.era.current, a, p)
  }

  lemma RowsAreColumns(st: Ledger, all: set<AccountId>, rows: ProviderId -> nat)
    requires forall p: ProviderId :: rows(p) == Sum(all, AtStakeWith(st, p))
    ensures Sum(st.providers.Keys, rows) == Sum(all, AllStakes(st))
  {
    forall p | p in st.providers.Keys ensures rows(p) == Sum(all, Row(AtStakeOf(st), p)) {
      SumCong(all, AtStakeWith(st, p), Row(AtStakeOf(st), p));
    }
    forall a | a in all ensures AllStakes(st)(a) == Sum(st.providers.Keys, Column(AtStakeOf(st), a)) {
      ColumnOf(st, a);
    }
    SumSwap(st.providers.Keys, all, AtStakeOf(st), rows, AllStakes(st));
  }

  lemma ColumnOf(st: Ledger, a: AccountId)
    ensures AllStakes(st)(a) == Sum(st.providers.Keys, Column(AtStakeOf(st), a))
  {
    SumCong(st.providers.Keys, q => AtStake(st.providers, st.records, st.delegations, st.era.current, a, q),
            Column(AtStakeOf(st), a));
  }
}
