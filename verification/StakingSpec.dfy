/**
  The staking protocol as a transition system on ledgers: one function per call, giving the next
  ledger or the error that leaves the ledger as it was.
 */
module StakingSpec {
  import opened Arithmetic
  import opened Wrappers
  import opened Currency
  import opened Delegations
  import opened Unbonding
  import opened Perbill
  import opened StakingTypes

  type Outcome = Result<Ledger, Error>

  // ---- Eras

  /** Closes an era: its rewards are what accumulated, and its stake carries over to the next. */
  function ClosedEras(eraState: EraStates, accumulator: nat, era: nat): EraStates {
    var closing := EraOf(eraState, era);
    eraState[era + 1 := EraMetadata(0, closing.staked)][era := EraMetadata(accumulator, closing.staked)]
  }

  function SnapshotEraRewards(st: Ledger, era: nat): Ledger {
    st.(eraState := ClosedEras(st.eraState, st.accumulator, era), accumulator := 0)
  }

  predicate Rotates(providers: Providers, records: Records, era: nat, p: ProviderId) {
    IsActive(providers, p) && (p, era) in records
  }

  /** Every active provider's record carries over to the next era, with its reward unclaimed. */
  function RotatedRecords(providers: Providers, records: Records, era: nat): Records {
    map k | k in records.Keys + (set p | p in providers && Rotates(providers, records, era, p) :: (p, era + 1)) ::
      if k.1 == era + 1 && Rotates(providers, records, era, k.0)
      then records[(k.0, era)].(providerRewardClaimed := false)
      else records[k]
  }

  function OnInitialize(cfg: Config, st: Ledger, block: nat): Ledger
    requires st.era.firstBlock <= block
  {
    if st.era.ShouldUpdate(block) then
      var previous := st.era.current;
      var length := if previous == 0 then cfg.defaultBlocksPerEra else st.era.length;
      var closed := SnapshotEraRewards(st.(era := EraInfo(previous + 1, block, length)), previous);
      closed.(records := RotatedRecords(closed.providers, closed.records, previous))
    else st
  }

  function SetBlocksPerEra(st: Ledger, length: nat): Outcome {
    if st.era.length == length then Err(NoWritingSameValue)
    else Ok(st.(era := st.era.(length := length)))
  }

  function HandleImbalance(cfg: Config, st: Ledger, amount: nat): Ledger {
    st.(accumulator := st.accumulator + amount,
        bank := st.bank.Deposit(cfg.pot, amount),
        trace := st.trace.(deposited := st.trace.deposited + amount))
  }

  // ---- Bonds of providers

  function RegisterProvider(cfg: Config, st: Ledger, account: AccountId, p: ProviderId, bond: nat): Outcome {
    var era := st.era.current;
    if p in st.providers then Err(ProviderExists)
    else if bond < cfg.minProviderStake then Err(InsufficientBond)
    else if bond > st.bank.Free(account) then Err(InsufficientBalance)
    else
      var state := EraOf(st.eraState, era);
      Ok(st.(bank := st.bank.Reserve(account, bond),
             providers := st.providers[p := ProviderMetadata(account, Active, false)],
             records := st.records[(p, era) := ProviderEraMetadata(bond, bond, 0, false)],
             eraState := st.eraState[era := state.(staked := state.staked + bond)]))
  }

  function UnregisterProvider(st: Ledger, p: ProviderId): Outcome {
    var era := st.era.current;
    if p !in st.providers then Err(ProviderDNE)
    else if !st.providers[p].status.Active? then Err(NotOperatedProvider)
    else Ok(st.(providers := st.providers[p := st.providers[p].(status := Inactive(era))],
                eraState := SubStaked(st.eraState, era, RecordOf(st.records, p, era).total)))
  }

  function ProviderBondMore(cfg: Config, st: Ledger, who: AccountId, p: ProviderId, amount: nat): Outcome {
    var era := st.era.current;
    var rec := RecordOf(st.records, p, era);
    if amount == 0 then Err(StakingWithNoValue)
    else if p !in st.providers then Err(ProviderDNE)
    else if !st.providers[p].status.Active? then Err(NotOperatedProvider)
    else if st.providers[p].owner != who then Err(NotOwnedProvider)
    else if rec.bond + amount > MAX_BALANCE || rec.total + amount > MAX_BALANCE then Err(Overflow)
    else if amount > st.bank.Free(who) then Err(InsufficientBalance)
    else Ok(st.(bank := st.bank.Reserve(who, amount),
                eraState := AddStaked(st.eraState, era, amount),
                records := st.records[(p, era) := rec.(bond := rec.bond + amount, total := rec.total + amount)]))
  }

  /** Reducing a bond, if enough of it remains. */
  function ReduceBond(cfg: Config, st: Ledger, who: AccountId, p: ProviderId, amount: nat, enough: bool): Outcome {
    var era := st.era.current;
    var rec := RecordOf(st.records, p, era);
    var queue := Added(QueueOf(st.unbonding, who), UnlockingChunk(amount, era + cfg.unbondingPeriod));
    if amount == 0 then Err(UnstakingWithNoValue)
    else if p !in st.providers then Err(ProviderDNE)
    else if !st.providers[p].status.Active? then Err(NotOperatedProvider)
    else if st.providers[p].owner != who then Err(NotOwnedProvider)
    else if !enough then Err(InsufficientBond)
    else if |queue| > cfg.maxUnlockingChunks then Err(TooManyUnlockingChunks)
    else Ok(st.(unbonding := PutQueue(st.unbonding, who, queue),
                eraState := SubStaked(st.eraState, era, amount),
                records := st.records[(p, era) := rec.(bond := SaturatingSub(rec.bond, amount),
                                                       total := SaturatingSub(rec.total, amount))]))
  }

  /** The minimum bond remains. */
  function ProviderBondLess(cfg: Config, st: Ledger, who: AccountId, p: ProviderId, amount: nat): Outcome {
    ReduceBond(cfg, st, who, p, amount, RecordOf(st.records, p, st.era.current).bond >= amount + cfg.minProviderStake)
  }

  /** The same as the pallet writes it, with a sum that may wrap around. */
  function BondLessAsWritten(cfg: Config, st: Ledger, who: AccountId, p: ProviderId, amount: nat): Outcome {
    ReduceBond(cfg, st, who, p, amount,
               RecordOf(st.records, p, st.era.current).bond >= WrappedSum(amount, cfg.minProviderStake))
  }

  /** The sum does not wrap around, or what wraps around is still more than the bond. */
  predicate ChecksExactly(cfg: Config, bond: nat, amount: nat) {
    amount + cfg.minProviderStake <= MAX_BALANCE || bond < WrappedSum(amount, cfg.minProviderStake)
  }

  lemma ExactWhenSound(cfg: Config, st: Ledger, who: AccountId, p: ProviderId, amount: nat)
    requires ChecksExactly(cfg, RecordOf(st.records, p, st.era.current).bond, amount)
    ensures BondLessAsWritten(cfg, st, who, p, amount) == ProviderBondLess(cfg, st, who, p, amount)
  {
    WrapsDown(amount, cfg.minProviderStake);
  }

  function ProviderWithdrawUnregistered(cfg: Config, st: Ledger, p: ProviderId): Outcome {
    if p !in st.providers then Err(NotOperatedProvider)
    else
      var provider := st.providers[p];
      if provider.bondWithdrawn then Err(NothingToWithdraw)
      else if provider.status.Active? then Err(NotUnregisteredProvider)
      else if st.era.current < provider.status.since + cfg.unbondingPeriod then Err(NothingToWithdraw)
      else Ok(st.(bank := st.bank.Unreserve(provider.owner, RecordOf(st.records, p, provider.status.since).bond),
                  providers := st.providers[p := provider.(bondWithdrawn := true)]))
  }

  // ---- Stakes of delegators

  function Delegate(cfg: Config, st: Ledger, d: AccountId, p: ProviderId, amount: nat): Outcome {
    var era := st.era.current;
    var rec := RecordOf(st.records, p, era);
    var s := StakesOf(st.delegations, d, p);
    if amount == 0 then Err(StakingWithNoValue)
    else if !IsActive(st.providers, p) then Err(NotOperatedProvider)
    else if Latest(s) == 0 && rec.delegatorCount > cfg.maxDelegatorsPerProvider then Err(MaxNumberOfStakersExceeded)
    else
      var count := if Latest(s) == 0 then rec.delegatorCount + 1 else rec.delegatorCount;
      match Staked(s, era, amount)
      case Err(_) => Err(UnexpectedDelegationInfoEra)
      case Ok(t) =>
        if |t| >= cfg.maxEraStakeValues then Err(TooManyEraStakeValues)
        else if Latest(t) < cfg.minDelegatorStake then Err(InsufficientBond)
        else if rec.total + amount > MAX_BALANCE then Err(Overflow)
        else if amount > st.bank.Free(d) then Err(InsufficientBalance)
        else Ok(st.(bank := st.bank.Reserve(d, amount),
                    eraState := AddStaked(st.eraState, era, amount),
                    delegations := PutStakes(st.delegations, d, p, t),
                    records := st.records[(p, era) := rec.(total := rec.total + amount, delegatorCount := count)],
                    trace := st.trace.(history := SetFrom(st.trace.history, d, p, era, Latest(t)),
                                       stakers := st.trace.stakers + {d})))
  }

  /** What an unstake really takes: everything, when too little would remain. */
  function UnstakeAmount(cfg: Config, staked: nat, amount: nat): nat {
    if SaturatingSub(staked, amount) < cfg.minDelegatorStake then staked else amount
  }

  function DelegatorUnstake(cfg: Config, st: Ledger, d: AccountId, p: ProviderId, amount: nat): Outcome {
    var era := st.era.current;
    var rec := RecordOf(st.records, p, era);
    var s := StakesOf(st.delegations, d, p);
    var taken := UnstakeAmount(cfg, Latest(s), amount);
    var count := if SaturatingSub(Latest(s), amount) < cfg.minDelegatorStake
                 then SaturatingSub(rec.delegatorCount, 1) else rec.delegatorCount;
    var queue := Added(QueueOf(st.unbonding, d), UnlockingChunk(taken, era + cfg.unbondingPeriod));
    if amount == 0 then Err(UnstakingWithNoValue)
    else if !IsActive(st.providers, p) then Err(NotOperatedProvider)
    else if Latest(s) == 0 then Err(NotStakedProvider)
    else if taken == 0 then Err(UnstakingWithNoValue)
    else
      match Unstaked(s, era, taken)
      case Err(_) => Err(UnexpectedDelegationInfoEra)
      case Ok(t) =>
        if |t| >= cfg.maxEraStakeValues then Err(TooManyEraStakeValues)
        else if |queue| > cfg.maxUnlockingChunks then Err(TooManyUnlockingChunks)
        else Ok(st.(unbonding := PutQueue(st.unbonding, d, queue),
                    eraState := SubStaked(st.eraState, era, taken),
                    delegations := PutStakes(st.delegations, d, p, t),
                    records := st.records[(p, era) := rec.(total := SaturatingSub(rec.total, taken),
                                                           delegatorCount := count)],
                    trace := st.trace.(history := SetFrom(st.trace.history, d, p, era, Latest(t)))))
  }

  function WithdrawUnbonded(st: Ledger, who: AccountId): Outcome {
    var queue := QueueOf(st.unbonding, who);
    var amount := Total(Matured(queue, st.era.current));
    if amount == 0 then Err(NothingToWithdraw)
    else Ok(st.(bank := st.bank.Unreserve(who, amount),
                unbonding := PutQueue(st.unbonding, who, Locked(queue, st.era.current))))
  }

  function DelegatorWithdrawUnregistered(cfg: Config, st: Ledger, d: AccountId, p: ProviderId): Outcome {
    if p !in st.providers then Err(NotOperatedProvider)
    else if st.providers[p].status.Active? then Err(NotUnregisteredProvider)
    else
      var since := st.providers[p].status.since;
      var s := StakesOf(st.delegations, d, p);
      if st.era.current < since + cfg.unbondingPeriod then Err(NothingToWithdraw)
      else if Latest(s) == 0 then Err(NotStakedProvider)
      else
        var head := Claimed(s).era;
        if head < since && head != 0 then Err(UnclaimedRewardsRemaining)
        else Ok(st.(bank := st.bank.Unreserve(d, Latest(s)),
                    delegations := PutStakes(st.delegations, d, p, [])))
  }

  // ---- Rewards

  /** A provider's part of an era's rewards, in proportion to its stake, before it is split. */
  function ProviderShare(rec: ProviderEraMetadata, era: EraMetadata): nat {
    Of(FromRational(rec.total, era.staked), era.rewards)
  }

  function ProviderPart(cfg: Config, rec: ProviderEraMetadata, era: EraMetadata): nat {
    Of(cfg.providerRewardsPercentage, ProviderShare(rec, era))
  }

  function DelegatorsPart(cfg: Config, rec: ProviderEraMetadata, era: EraMetadata): nat {
    SaturatingSub(ProviderShare(rec, era), ProviderPart(cfg, rec, era))
  }

  function DelegatorReward(cfg: Config, staked: nat, rec: ProviderEraMetadata, era: EraMetadata): nat {
    Of(FromRational(staked, SaturatingSub(rec.total, rec.bond)), DelegatorsPart(cfg, rec, era))
  }

  function ClaimProvider(cfg: Config, st: Ledger, p: ProviderId, era: nat): Outcome {
    if p !in st.providers then Err(NotOperatedProvider)
    else if !st.providers[p].Earns(era) then Err(NotOperatedProvider)
    else if era >= st.era.current then Err(EraOutOfBounds)
    else
      var rec := RecordOf(st.records, p, era);
      if rec.providerRewardClaimed then Err(AlreadyClaimedInThisEra)
      else if rec.total == 0 then Err(NotStakedProvider)
      else if era !in st.eraState then Err(UnknownEra)
      else
        var reward := ProviderPart(cfg, rec, st.eraState[era]);
        if reward > st.bank.Free(cfg.pot) then Err(InsufficientBalance)
        else Ok(st.(bank := st.bank.Withdraw(cfg.pot, reward).Deposit(st.providers[p].owner, reward),
                    records := st.records[(p, era) := rec.(providerRewardClaimed := true)],
                    trace := st.trace.(paidProviders := st.trace.paidProviders[(p, era) := reward])))
  }

  function ClaimDelegator(cfg: Config, st: Ledger, d: AccountId, p: ProviderId): Outcome {
    var c := Claimed(StakesOf(st.delegations, d, p));
    if c.amount == 0 then Err(NotStakedProvider)
    else if p !in st.providers then Err(NotOperatedProvider)
    else if !st.providers[p].Earns(c.era) then Err(NotOperatedProvider)
    else if c.era >= st.era.current then Err(EraOutOfBounds)
    else if c.era !in st.eraState then Err(UnknownEra)
    else
      var reward := DelegatorReward(cfg, c.amount, RecordOf(st.records, p, c.era), st.eraState[c.era]);
      if reward > st.bank.Free(cfg.pot) then Err(InsufficientBalance)
      else Ok(st.(bank := st.bank.Withdraw(cfg.pot, reward).Deposit(d, reward),
                  delegations := PutStakes(st.delegations, d, p, c.rest),
                  trace := st.trace.(paidDelegators := st.trace.paidDelegators[(d, p, c.era) := reward])))
  }
}
