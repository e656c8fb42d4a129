/**
  Why calls are refused.  For every call, a reason against it for each error it may return, in terms
  of what is held, owed, pending and paid: the call goes through exactly if there is no reason
  against it, and the error it returns otherwise names one that there is.
 */
module Refusals {
  import opened Wrappers
  import opened Currency
  import opened Delegations
  import opened StakingTypes
  import opened StakingSpec
  import opened StakingInvariant
  import opened StakingRuns
  import opened Claims
  import Unbonding
  import StakingFrames
  import StakingHistory
  import StakingSafety
  import StakeSteps
  import ClaimSteps
  import Rewards
  import Solvency

  // ---- Reasons

  /** A queue has no room for one more unlock era. */
  predicate QueueFull(cfg: Config, st: Ledger, who: AccountId) {
    var queue := QueueOf(st.unbonding, who);
    Unbonding.PendingAt(queue, st.era.current + cfg.unbondingPeriod) == 0 && |queue| >= cfg.maxUnlockingChunks
  }

  /** How many entries a history has once the given era has one. */
  function EntriesWith(s: Stakes, era: nat): nat {
    if s != [] && s[|s| - 1].era == era then |s| else |s| + 1
  }

  predicate IsInactive(st: Ledger, p: ProviderId) {
    p in st.providers && st.providers[p].status.Inactive?
  }

  /** p unregistered less than the unbonding period ago. */
  predicate StillBound(cfg: Config, st: Ledger, p: ProviderId) {
    IsInactive(st, p) && st.era.current < st.providers[p].status.since + cfg.unbondingPeriod
  }

  predicate AgainstRegister(cfg: Config, st: Ledger, account: AccountId, p: ProviderId, bond: nat, e: Error) {
    match e
    case ProviderExists => p in st.providers
    case InsufficientBond => bond < cfg.minProviderStake
    case InsufficientBalance => bond > st.bank.Free(account)
    case _ => false
  }

  predicate AgainstUnregister(st: Ledger, p: ProviderId, e: Error) {
    match e
    case ProviderDNE => p !in st.providers
    case NotOperatedProvider => IsInactive(st, p)
    case _ => false
  }

  predicate AgainstBondMore(st: Ledger, who: AccountId, p: ProviderId, amount: nat, e: Error) {
    var rec := RecordOf(st.records, p, st.era.current);
    match e
    case StakingWithNoValue => amount == 0
    case ProviderDNE => p !in st.providers
    case NotOperatedProvider => IsInactive(st, p)
    case NotOwnedProvider => p in st.providers && st.providers[p].owner != who
    case Overflow => rec.bond + amount > MAX_BALANCE || rec.total + amount > MAX_BALANCE
    case InsufficientBalance => amount > st.bank.Free(who)
    case _ => false
  }

  predicate AgainstBondLess(cfg: Config, st: Ledger, who: AccountId, p: ProviderId, amount: nat, e: Error) {
    match e
    case UnstakingWithNoValue => amount == 0
    case ProviderDNE => p !in st.providers
    case NotOperatedProvider => IsInactive(st, p)
    case NotOwnedProvider => p in st.providers && st.providers[p].owner != who
    case InsufficientBond => RecordOf(st.records, p, st.era.current).bond < amount + cfg.minProviderStake
    case TooManyUnlockingChunks => QueueFull(cfg, st, who)
    case _ => false
  }

  predicate AgainstWithdrawBond(cfg: Config, st: Ledger, p: ProviderId, e: Error) {
    match e
    case NotOperatedProvider => p !in st.providers
    case NothingToWithdraw => StillBound(cfg, st, p) || (p in st.providers && st.providers[p].bondWithdrawn)
    case NotUnregisteredProvider => IsActive(st.providers, p)
    case _ => false
  }

  predicate AgainstStake(cfg: Config, st: Ledger, d: AccountId, p: ProviderId, amount: nat, e: Error) {
    var s := StakesOf(st.delegations, d, p);
    match e
    case StakingWithNoValue => amount == 0
    case NotOperatedProvider => !IsActive(st.providers, p)
    case MaxNumberOfStakersExceeded =>
      && IsActive(st.providers, p) && d !in StakingSafety.Delegators(st, p)
      && |StakingSafety.Delegators(st, p)| > cfg.maxDelegatorsPerProvider
    case TooManyEraStakeValues => EntriesWith(s, st.era.current) >= cfg.maxEraStakeValues
    case InsufficientBond => Latest(s) + amount < cfg.minDelegatorStake
    case Overflow => RecordOf(st.records, p, st.era.current).total + amount > MAX_BALANCE
    case InsufficientBalance => amount > st.bank.Free(d)
    case _ => false
  }

  /** An unstake drops the head of the history: it is zero, or zeroed by it as the only entry. */
  predicate DropsHead(cfg: Config, s: Stakes, era: nat, amount: nat)
    requires s != []
  {
    s[0].amount == 0 || (|s| == 1 && s[0].era == era && s[0].amount < amount + cfg.minDelegatorStake)
  }

  predicate AgainstUnstake(cfg: Config, st: Ledger, d: AccountId, p: ProviderId, amount: nat, e: Error) {
    var s := StakesOf(st.delegations, d, p);
    match e
    case UnstakingWithNoValue => amount == 0
    case NotOperatedProvider => !IsActive(st.providers, p)
    case NotStakedProvider => Latest(s) == 0
    case TooManyEraStakeValues =>
      s != [] && EntriesWith(s, st.era.current)
                 >= cfg.maxEraStakeValues + if DropsHead(cfg, s, st.era.current, amount) then 1 else 0
    case TooManyUnlockingChunks => QueueFull(cfg, st, d)
    case _ => false
  }

  predicate AgainstWithdrawStake(cfg: Config, st: Ledger, d: AccountId, p: ProviderId, e: Error) {
    var s := StakesOf(st.delegations, d, p);
    match e
    case NotOperatedProvider => p !in st.providers
    case NotUnregisteredProvider => IsActive(st.providers, p)
    case NothingToWithdraw => StillBound(cfg, st, p)
    case NotStakedProvider => Latest(s) == 0
    case UnclaimedRewardsRemaining => IsInactive(st, p) && s != [] && s[0].era < st.providers[p].status.since
    case _ => false
  }

  predicate AgainstWithdraw(st: Ledger, who: AccountId, e: Error) {
    e == NothingToWithdraw && !StakingHistory.SomethingMatured(QueueOf(st.unbonding, who), st.era.current)
  }

  ghost predicate AgainstProviderClaim(cfg: Config, st: Ledger, p: ProviderId, era: nat, e: Error) {
    var rec := RecordOf(st.records, p, era);
    match e
    case NotOperatedProvider => p !in st.providers || (IsInactive(st, p) && st.providers[p].status.since <= era)
    case EraOutOfBounds => era >= st.era.current
    case AlreadyClaimedInThisEra => (p, era) in st.trace.paidProviders
    case NotStakedProvider => rec.total == 0
    case InsufficientBalance =>
      exists amount: nat :: Rewards.ProviderGets(cfg, rec.total, EraOf(st.eraState, era), amount)
                            && amount > st.bank.Free(cfg.pot)
    case _ => false
  }

  ghost predicate AgainstDelegatorClaim(cfg: Config, st: Ledger, d: AccountId, p: ProviderId, e: Error) {
    var s := StakesOf(st.delegations, d, p);
    match e
    case NotStakedProvider => s == [] || ZeroHead(s)
    case NotOperatedProvider =>
      s != [] && (p !in st.providers || (IsInactive(st, p) && st.providers[p].status.since <= s[0].era))
    case EraOutOfBounds => s != [] && s[0].era >= st.era.current
    case InsufficientBalance =>
      exists era: nat, amount: nat :: Rewards.OldestDue(cfg, st, d, p, era, amount) && amount > st.bank.Free(cfg.pot)
    case _ => false
  }

  /** There is a reason against the call for which it may return the error. */
  ghost predicate Against(cfg: Config, st: Ledger, call: Call, e: Error) {
    match call
    case BlocksPerEra(length) => e == NoWritingSameValue && length == st.era.length
    case Register(account, p, bond) => AgainstRegister(cfg, st, account, p, bond, e)
    case Unregister(p) => AgainstUnregister(st, p, e)
    case BondMore(who, p, amount) => AgainstBondMore(st, who, p, amount, e)
    case BondLess(who, p, amount) => AgainstBondLess(cfg, st, who, p, amount, e)
    case WithdrawBond(p) => AgainstWithdrawBond(cfg, st, p, e)
    case Stake(d, p, amount) => AgainstStake(cfg, st, d, p, amount, e)
    case Unstake(d, p, amount) => AgainstUnstake(cfg, st, d, p, amount, e)
    case WithdrawStake(d, p) => AgainstWithdrawStake(cfg, st, d, p, e)
    case Withdraw(who) => AgainstWithdraw(st, who, e)
    case ProviderClaim(p, era) => AgainstProviderClaim(cfg, st, p, era, e)
    case DelegatorClaim(d, p) => AgainstDelegatorClaim(cfg, st, d, p, e)
    case _ => false
  }

  // ---- Answers

  lemma QueueRoom(cfg: Config, st: Ledger, who: AccountId, amount: nat)
    requires QueuesOk(cfg, st.unbonding)
    ensures var queue := QueueOf(st.unbonding, who);
            var chunk := Unbonding.UnlockingChunk(amount, st.era.current + cfg.unbondingPeriod);
            |Unbonding.Added(queue, chunk)| > cfg.maxUnlockingChunks <==> QueueFull(cfg, st, who)
  {
    var queue := QueueOf(st.unbonding, who);
    assert Unbonding.Ascending(queue) && |queue| <= cfg.maxUnlockingChunks;
    AddedCount(queue, Unbonding.UnlockingChunk(amount, st.era.current + cfg.unbondingPeriod));
  }

  /** Adding merges with a pending chunk of the era, or takes one more place. */
  lemma {:induction false} AddedCount(s: Unbonding.Chunks, c: Unbonding.UnlockingChunk)
    requires Unbonding.Ascending(s)
    ensures |Unbonding.Added(s, c)| == |s| + if Unbonding.PendingAt(s, c.unlockEra) > 0 then 0 else 1
  {
    if s == [] || c.unlockEra < s[0].unlockEra {
      Unbonding.NotPendingBefore(s, c.unlockEra);
    } else if s[0].unlockEra < c.unlockEra {
      AddedCount(s[1..], c);
    }
  }

  /** The stake a call would write, and what it is checked against. */
  predicate StakeKnown(st: Ledger, d: AccountId, p: ProviderId, amount: nat) {
    var s := StakesOf(st.delegations, d, p);
    && Staked(s, st.era.current, amount).Ok?
    && |Staked(s, st.era.current, amount).value| == EntriesWith(s, st.era.current)
    && Latest(Staked(s, st.era.current, amount).value) == Latest(s) + amount
    && (IsActive(st.providers, p) ==>
          && (Latest(s) > 0 <==> d in StakingSafety.Delegators(st, p))
          && RecordOf(st.records, p, st.era.current).delegatorCount == |StakingSafety.Delegators(st, p)|)
  }

  lemma StakeFacts(cfg: Config, st: Ledger, d: AccountId, p: ProviderId, amount: nat)
    requires WellFormed(cfg, st)
    ensures StakeKnown(st, d, p, amount)
  {
    var s := StakesOf(st.delegations, d, p);
    StakeSteps.StoredPair(cfg, st, d, p);
    StakeRefines(s, st.era.current, amount);
    if IsActive(st.providers, p) {
      StakingSafety.DelegatorCount(cfg, st, p);
      if Latest(s) > 0 {
        assert (d, p) in st.delegations;
      }
    }
  }

  lemma UnstakeFacts(cfg: Config, st: Ledger, d: AccountId, p: ProviderId, amount: nat)
    requires WellFormed(cfg, st) && amount > 0 && Latest(StakesOf(st.delegations, d, p)) > 0
    ensures var s := StakesOf(st.delegations, d, p);
            var taken := UnstakeAmount(cfg, Latest(s), amount);
            && 0 < taken && Unstaked(s, st.era.current, taken).Ok?
            && |Unstaked(s, st.era.current, taken).value|
               == EntriesWith(s, st.era.current) - if DropsHead(cfg, s, st.era.current, amount) then 1 else 0
    ensures var taken := UnstakeAmount(cfg, Latest(StakesOf(st.delegations, d, p)), amount);
            var chunk := Unbonding.UnlockingChunk(taken, st.era.current + cfg.unbondingPeriod);
            |Unbonding.Added(QueueOf(st.unbonding, d), chunk)| > cfg.maxUnlockingChunks <==> QueueFull(cfg, st, d)
  {
    var s := StakesOf(st.delegations, d, p);
    var taken := UnstakeAmount(cfg, Latest(s), amount);
    StakeSteps.StoredPair(cfg, st, d, p);
    StakeSteps.UnstakeAmountOk(cfg, Latest(s), amount);
    UnstakeRefines(s, st.era.current, taken);
    QueueRoom(cfg, st, d, taken);
  }

  lemma ProviderClaimFacts(cfg: Config, st: Ledger, p: ProviderId, era: nat)
    requires WellFormed(cfg, st)
    ensures (p, era) in st.trace.paidProviders <==> RecordOf(st.records, p, era).providerRewardClaimed
    ensures era in st.eraState <==> era <= st.era.current
    ensures p in st.providers && st.providers[p].Earns(era) && era < st.era.current
            && RecordOf(st.records, p, era).total > 0 ==>
              var rec := RecordOf(st.records, p, era);
              forall amount: nat :: Rewards.ProviderGets(cfg, rec.total, EraOf(st.eraState, era), amount) <==>
                                    amount == ProviderPart(cfg, rec, EraOf(st.eraState, era))
  {
    StakingFrames.ProviderPaid(cfg, st.providers, st.records, st.eraState, st.era.current, st.trace, p, era);
    var rec := RecordOf(st.records, p, era);
    var state := EraOf(st.eraState, era);
    if p in st.providers && st.providers[p].Earns(era) && era < st.era.current && rec.total > 0 {
      Rewards.TotalWithinEra(cfg, st, p, era);
      Rewards.ProviderPartGets(cfg, rec, state);
      forall amount: nat | Rewards.ProviderGets(cfg, rec.total, state, amount)
        ensures amount == ProviderPart(cfg, rec, state)
      {
        Rewards.ProviderGetsUnique(cfg, rec.total, state, amount, ProviderPart(cfg, rec, state));
      }
    }
  }

  /** While the claim of d with p is accepted, the amount due is the one it pays. */
  lemma DueIs(cfg: Config, st: Ledger, d: AccountId, p: ProviderId)
    requires WellFormed(cfg, st) && Accepted(ClaimDelegator(cfg, st, d, p))
    ensures exists era: nat :: Rewards.OldestDue(cfg, st, d, p, era, Solvency.DelegatorDue(cfg, st, d, p))
    ensures forall era: nat, amount: nat :: Rewards.OldestDue(cfg, st, d, p, era, amount) ==>
              amount == Solvency.DelegatorDue(cfg, st, d, p)
  {
    var head := Claimed(StakesOf(st.delegations, d, p)).era;
    var due := Solvency.DelegatorDue(cfg, st, d, p);
    ClaimSteps.ClaimableDelegator(cfg, st, d, p);
    Rewards.ClaimIsOldestDue(cfg, st, d, p, head, due);
    forall era: nat, amount: nat | Rewards.OldestDue(cfg, st, d, p, era, amount) ensures amount == due {
      SameDue(cfg, st, d, p, era, amount, head, due);
    }
  }

  /** There is at most one oldest era owed, and one amount due for it. */
  lemma SameDue(cfg: Config, st: Ledger, d: AccountId, p: ProviderId, era: nat, amount: nat, era': nat, amount': nat)
    requires Rewards.OldestDue(cfg, st, d, p, era, amount) && Rewards.OldestDue(cfg, st, d, p, era', amount')
    ensures era == era' && amount == amount'
  {
    assert era == era';
    Rewards.DelegatorGetsUnique(cfg, RecordOf(st.records, p, era).total, EraOf(st.eraState, era),
                                st.trace.history(d, p, era),
                                StakeSum(st.trace.history, st.trace.stakers, p, era), amount, amount');
  }

  /** What the claim of d with p pays while it is accepted is what is due for the oldest era owed. */
  ghost predicate ClaimKnown(cfg: Config, st: Ledger, d: AccountId, p: ProviderId) {
    && (forall e: nat :: e in st.eraState <==> e <= st.era.current)
    && (Accepted(ClaimDelegator(cfg, st, d, p)) ==>
          var due := Solvency.DelegatorDue(cfg, st, d, p);
          && (exists era: nat :: Rewards.OldestDue(cfg, st, d, p, era, due))
          && (forall era: nat, amount: nat :: Rewards.OldestDue(cfg, st, d, p, era, amount) ==> amount == due)
          && (ClaimDelegator(cfg, st, d, p).Ok? <==> due <= st.bank.Free(cfg.pot)))
  }

  lemma DelegatorClaimFacts(cfg: Config, st: Ledger, d: AccountId, p: ProviderId)
    requires WellFormed(cfg, st)
    ensures ClaimKnown(cfg, st, d, p)
  {
    if Accepted(ClaimDelegator(cfg, st, d, p)) {
      DueIs(cfg, st, d, p);
      Solvency.DelegatorPaidIff(cfg, st, d, p);
    }
  }

  lemma RegisterAnswers(cfg: Config, st: Ledger, account: AccountId, p: ProviderId, bond: nat)
    ensures RegisterProvider(cfg, st, account, p, bond).Ok? ==>
              forall e: Error :: !AgainstRegister(cfg, st, account, p, bond, e)
    ensures RegisterProvider(cfg, st, account, p, bond).Err? ==>
              AgainstRegister(cfg, st, account, p, bond, RegisterProvider(cfg, st, account, p, bond).error)
  {
  }

  lemma UnregisterAnswers(st: Ledger, p: ProviderId)
    ensures UnregisterProvider(st, p).Ok? ==> forall e: Error :: !AgainstUnregister(st, p, e)
    ensures UnregisterProvider(st, p).Err? ==>
              AgainstUnregister(st, p, UnregisterProvider(st, p).error)
  {
  }

  lemma BondMoreAnswers(cfg: Config, st: Ledger, who: AccountId, p: ProviderId, amount: nat)
    ensures ProviderBondMore(cfg, st, who, p, amount).Ok? ==> forall e: Error :: !AgainstBondMore(st, who, p, amount, e)
    ensures ProviderBondMore(cfg, st, who, p, amount).Err? ==>
              AgainstBondMore(st, who, p, amount, ProviderBondMore(cfg, st, who, p, amount).error)
  {
  }

  lemma BondLessAnswers(cfg: Config, st: Ledger, who: AccountId, p: ProviderId, amount: nat)
    requires QueuesOk(cfg, st.unbonding)
    ensures ProviderBondLess(cfg, st, who, p, amount).Ok? ==>
              forall e: Error :: !AgainstBondLess(cfg, st, who, p, amount, e)
    ensures ProviderBondLess(cfg, st, who, p, amount).Err? ==>
              AgainstBondLess(cfg, st, who, p, amount, ProviderBondLess(cfg, st, who, p, amount).error)
  {
    QueueRoom(cfg, st, who, amount);
  }

  lemma WithdrawBondAnswers(cfg: Config, st: Ledger, p: ProviderId)
    ensures ProviderWithdrawUnregistered(cfg, st, p).Ok? ==> forall e: Error :: !AgainstWithdrawBond(cfg, st, p, e)
    ensures ProviderWithdrawUnregistered(cfg, st, p).Err? ==>
              AgainstWithdrawBond(cfg, st, p, ProviderWithdrawUnregistered(cfg, st, p).error)
  {
  }

  lemma WithdrawAnswers(cfg: Config, st: Ledger, who: AccountId)
    requires QueuesOk(cfg, st.unbonding)
    ensures WithdrawUnbonded(st, who).Ok? ==> forall e: Error :: !AgainstWithdraw(st, who, e)
    ensures WithdrawUnbonded(st, who).Err? ==>
              AgainstWithdraw(st, who, WithdrawUnbonded(st, who).error)
  {
    StakingHistory.MaturedIff(QueueOf(st.unbonding, who), st.era.current);
  }

  lemma WithdrawStakeReasons(cfg: Config, st: Ledger, d: AccountId, p: ProviderId, e: Error)
    requires StoredOk(cfg, st.era.current, StakesOf(st.delegations, d, p))
    ensures DelegatorWithdrawUnregistered(cfg, st, d, p).Ok? ==> !AgainstWithdrawStake(cfg, st, d, p, e)
    ensures DelegatorWithdrawUnregistered(cfg, st, d, p) == Err(e) ==> AgainstWithdrawStake(cfg, st, d, p, e)
  {
  }

  lemma WithdrawStakeAnswers(cfg: Config, st: Ledger, d: AccountId, p: ProviderId)
    requires WellFormed(cfg, st)
    ensures DelegatorWithdrawUnregistered(cfg, st, d, p).Ok? ==>
              forall e: Error :: !AgainstWithdrawStake(cfg, st, d, p, e)
    ensures DelegatorWithdrawUnregistered(cfg, st, d, p).Err? ==>
              AgainstWithdrawStake(cfg, st, d, p, DelegatorWithdrawUnregistered(cfg, st, d, p).error)
  {
    StakeSteps.StoredPair(cfg, st, d, p);
    forall e: Error { WithdrawStakeReasons(cfg, st, d, p, e); }
  }

  lemma StakeRefused(cfg: Config, st: Ledger, d: AccountId, p: ProviderId, amount: nat)
    requires StakeKnown(st, d, p, amount)
    ensures Delegate(cfg, st, d, p, amount).Err? ==>
              AgainstStake(cfg, st, d, p, amount, Delegate(cfg, st, d, p, amount).error)
  {
  }

  lemma StakeAccepted(cfg: Config, st: Ledger, d: AccountId, p: ProviderId, amount: nat, e: Error)
    requires StakeKnown(st, d, p, amount) && Delegate(cfg, st, d, p, amount).Ok?
    ensures !AgainstStake(cfg, st, d, p, amount, e)
  {
  }

  lemma StakeAnswers(cfg: Config, st: Ledger, d: AccountId, p: ProviderId, amount: nat)
    requires WellFormed(cfg, st)
    ensures Delegate(cfg, st, d, p, amount).Ok? ==> forall e: Error :: !AgainstStake(cfg, st, d, p, amount, e)
    ensures Delegate(cfg, st, d, p, amount).Err? ==>
              AgainstStake(cfg, st, d, p, amount, Delegate(cfg, st, d, p, amount).error)
  {
    StakeFacts(cfg, st, d, p, amount);
    StakeRefused(cfg, st, d, p, amount);
    if Delegate(cfg, st, d, p, amount).Ok? {
      forall e: Error ensures !AgainstStake(cfg, st, d, p, amount, e) { StakeAccepted(cfg, st, d, p, amount, e); }
    }
  }

  lemma UnstakeAnswers(cfg: Config, st: Ledger, d: AccountId, p: ProviderId, amount: nat)
    requires WellFormed(cfg, st)
    ensures DelegatorUnstake(cfg, st, d, p, amount).Ok? ==> forall e: Error :: !AgainstUnstake(cfg, st, d, p, amount, e)
    ensures DelegatorUnstake(cfg, st, d, p, amount).Err? ==>
              AgainstUnstake(cfg, st, d, p, amount, DelegatorUnstake(cfg, st, d, p, amount).error)
  {
    if amount > 0 && IsActive(st.providers, p) && Latest(StakesOf(st.delegations, d, p)) > 0 {
      UnstakeFacts(cfg, st, d, p, amount);
    }
  }

  lemma ProviderClaimAnswers(cfg: Config, st: Ledger, p: ProviderId, era: nat)
    requires WellFormed(cfg, st)
    ensures ClaimProvider(cfg, st, p, era).Ok? ==> forall e: Error :: !AgainstProviderClaim(cfg, st, p, era, e)
    ensures ClaimProvider(cfg, st, p, era).Err? ==>
              AgainstProviderClaim(cfg, st, p, era, ClaimProvider(cfg, st, p, era).error)
  {
    ProviderClaimFacts(cfg, st, p, era);
    if ClaimProvider(cfg, st, p, era) == Err(InsufficientBalance) {
      var rec := RecordOf(st.records, p, era);
      var due := ProviderPart(cfg, rec, EraOf(st.eraState, era));
      assert Rewards.ProviderGets(cfg, rec.total, EraOf(st.eraState, era), due) && due > st.bank.Free(cfg.pot);
    }
  }

  lemma DelegatorClaimReasons(cfg: Config, st: Ledger, d: AccountId, p: ProviderId, e: Error)
    requires ClaimKnown(cfg, st, d, p)
    ensures ClaimDelegator(cfg, st, d, p).Ok? ==> !AgainstDelegatorClaim(cfg, st, d, p, e)
    ensures ClaimDelegator(cfg, st, d, p) == Err(e) ==> AgainstDelegatorClaim(cfg, st, d, p, e)
  {
  }

  lemma DelegatorClaimAnswers(cfg: Config, st: Ledger, d: AccountId, p: ProviderId)
    requires WellFormed(cfg, st)
    ensures ClaimDelegator(cfg, st, d, p).Ok? ==> forall e: Error :: !AgainstDelegatorClaim(cfg, st, d, p, e)
    ensures ClaimDelegator(cfg, st, d, p).Err? ==>
              AgainstDelegatorClaim(cfg, st, d, p, ClaimDelegator(cfg, st, d, p).error)
  {
    DelegatorClaimFacts(cfg, st, d, p);
    forall e: Error { DelegatorClaimReasons(cfg, st, d, p, e); }
  }

  lemma Answers(cfg: Config, st: Ledger, call: Call)
    requires WellFormed(cfg, st) && InOrder(st, call)
    ensures Dispatch(cfg, st, call).Ok? ==> forall e: Error :: !Against(cfg, st, call, e)
    ensures Dispatch(cfg, st, call).Err? ==> Against(cfg, st, call, Dispatch(cfg, st, call).error)
  {
    match call
    case Register(account, p, bond) => RegisterAnswers(cfg, st, account, p, bond);
    case Unregister(p) => UnregisterAnswers(st, p);
    case BondMore(who, p, amount) => BondMoreAnswers(cfg, st, who, p, amount);
    case BondLess(who, p, amount) => BondLessAnswers(cfg, st, who, p, amount);
    case WithdrawBond(p) => WithdrawBondAnswers(cfg, st, p);
    case Stake(d, p, amount) => StakeAnswers(cfg, st, d, p, amount);
    case Unstake(d, p, amount) => UnstakeAnswers(cfg, st, d, p, amount);
    case WithdrawStake(d, p) => WithdrawStakeAnswers(cfg, st, d, p);
    case Withdraw(who) => WithdrawAnswers(cfg, st, who);
    case ProviderClaim(p, era) => ProviderClaimAnswers(cfg, st, p, era);
    case DelegatorClaim(d, p) => DelegatorClaimAnswers(cfg, st, d, p);
    case _ =>
  }

  /** A call goes through exactly if there is no reason against it; the error it returns otherwise is true. */
  lemma AnswersAreReasons(cfg: Config, st: Ledger, call: Call)
    requires WellFormed(cfg, st) && InOrder(st, call)
    ensures Dispatch(cfg, st, call).Ok? <==> forall e: Error :: !Against(cfg, st, call, e)
    ensures Dispatch(cfg, st, call).Err? ==> Against(cfg, st, call, Dispatch(cfg, st, call).error)
  {
    Answers(cfg, st, call);
  }
}
