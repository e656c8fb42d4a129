/**
  The staking pallet with its storage items as fields.  Every call reads, changes and writes them
  back as the chain does, and is proved to be the call of the same name on ledgers.
 */
module StakingPallet {
  import opened Arithmetic
  import opened Wrappers
  import opened Currency
  import opened Delegations
  import opened Unbonding
  import opened StakingTypes
  import Spec = StakingSpec
  import Invariant = StakingInvariant
  import Runs = StakingRuns

  class DapiStaking {
    const cfg: Config
    const currency: Balances
    var era: EraInfo
    var eraState: EraStates
    var rewardAccumulator: nat
    var providerInfo: Providers
    var providerEraInfo: Records
    var delegationInfo: Histories
    var unbondingInfo: Queues
    ghost var trace: Trace

    ghost function State(): Ledger
      reads this, currency
    {
      Ledger(currency.Snapshot(), era, eraState, rewardAccumulator, providerInfo, providerEraInfo,
             delegationInfo, unbondingInfo, trace)
    }

    ghost predicate Valid()
      reads this, currency
    {
      Invariant.Valid(cfg, State())
    }

    /** The call had the given outcome: the next ledger, or an error and no change. */
    ghost predicate Committed(before: Ledger, outcome: Spec.Outcome, r: Result<(), Error>)
      reads this, currency
    {
      match outcome
      case Ok(next) => r == Ok(()) && State() == next
      case Err(e) => r == Err(e) && State() == before
    }

    /** Storage before the first block. */
    constructor (cfg: Config, currency: Balances)
      ensures this.cfg == cfg && this.currency == currency
      ensures State() == Runs.Genesis(currency.Snapshot(), 0)
    {
      this.cfg := cfg;
      this.currency := currency;
      era := EraInfo(0, 0, 0);
      eraState, rewardAccumulator := map[], 0;
      providerInfo, providerEraInfo, delegationInfo, unbondingInfo := map[], map[], map[], map[];
      trace := Runs.Genesis(Bank(map[], map[]), 0).trace;
    }

    // ---- Eras

    method SnapshotEraRewards(closing: nat)
      modifies this`eraState, this`rewardAccumulator
      ensures State() == Spec.SnapshotEraRewards(old(State()), closing)
    {
      var state := EraOf(eraState, closing);
      eraState := eraState[closing + 1 := EraMetadata(0, state.staked)];
      state := state.(rewards := rewardAccumulator);
      rewardAccumulator := 0;
      eraState := eraState[closing := state];
    }

    /** Visits the providers in any order and copies the active ones' records to the next era. */
    method RotateProviderEraInfo(closing: nat)
      modifies this`providerEraInfo
      ensures providerEraInfo == Spec.RotatedRecords(providerInfo, old(providerEraInfo), closing)
    {
      var next := closing + 1;
      ghost var before := providerEraInfo;
      var remaining := providerInfo.Keys;
      while remaining != {}
        invariant remaining <= providerInfo.Keys
        invariant forall k :: k in providerEraInfo <==>
                    k in before
                    || (k.1 == next && k.0 !in remaining && Spec.Rotates(providerInfo, before, closing, k.0))
        invariant forall k :: k in providerEraInfo ==>
                    providerEraInfo[k] == if k.1 == next && k.0 !in remaining
                                             && Spec.Rotates(providerInfo, before, closing, k.0)
                                          then before[(k.0, closing)].(providerRewardClaimed := false)
                                          else before[k]
        decreases remaining
      {
        var p :| p in remaining;
        remaining := remaining - {p};
        if providerInfo[p].status.Inactive? {
          continue;
        }
        if (p, closing) in providerEraInfo {
          var info := providerEraInfo[(p, closing)];
          providerEraInfo := providerEraInfo[(p, next) := info.(providerRewardClaimed := false)];
        }
      }
      assert providerEraInfo == Spec.RotatedRecords(providerInfo, before, closing);
    }

    method OnInitialize(block: nat)
      requires era.firstBlock <= block
      modifies this`era, this`eraState, this`rewardAccumulator, this`providerEraInfo
      ensures State() == Spec.OnInitialize(cfg, old(State()), block)
    {
      if era.ShouldUpdate(block) {
        var previous := era.current;
        var length := era.length;
        if previous == 0 {
          length := cfg.defaultBlocksPerEra;
        }
        era := EraInfo(previous + 1, block, length);
        SnapshotEraRewards(previous);
        RotateProviderEraInfo(previous);
      }
    }

    method SetBlocksPerEra(length: nat) returns (r: Result<(), Error>)
      modifies this`era
      ensures Committed(old(State()), Spec.SetBlocksPerEra(old(State()), length), r)
    {
      if era.length == length {
        return Err(NoWritingSameValue);
      }
      era := era.(length := length);
      r := Ok(());
    }

    method HandleImbalance(amount: nat)
      modifies this`rewardAccumulator, this`trace, currency
      ensures State() == Spec.HandleImbalance(cfg, old(State()), amount)
    {
      rewardAccumulator := rewardAccumulator + amount;
      currency.Deposit(cfg.pot, amount);
      trace := trace.(deposited := trace.deposited + amount);
    }

    // ---- Registration, called by the provider pallet

    method RegisterProvider(account: AccountId, p: ProviderId, bond: nat) returns (r: Result<(), Error>)
      modifies this, currency
      ensures Committed(old(State()), Spec.RegisterProvider(cfg, old(State()), account, p, bond), r)
    {
      if p in providerInfo {
        return Err(ProviderExists);
      }
      if bond < cfg.minProviderStake {
        return Err(InsufficientBond);
      }
      var reserved := currency.Reserve(account, bond);
      if !reserved {
        return Err(InsufficientBalance);
      }
      providerInfo := providerInfo[p := ProviderMetadata(account, Active, false)];
      providerEraInfo := providerEraInfo[(p, era.current) := ProviderEraMetadata(bond, bond, 0, false)];
      var state := EraOf(eraState, era.current);
      eraState := eraState[era.current := state.(staked := state.staked + bond)];
      r := Ok(());
    }

    method UnregisterProvider(p: ProviderId) returns (r: Result<(), Error>)
      modifies this
      ensures Committed(old(State()), Spec.UnregisterProvider(old(State()), p), r)
    {
      if p !in providerInfo {
        return Err(ProviderDNE);
      }
      var provider := providerInfo[p];
      if !provider.status.Active? {
        return Err(NotOperatedProvider);
      }
      providerInfo := providerInfo[p := provider.(status := Inactive(era.current))];
      var info := RecordOf(providerEraInfo, p, era.current);
      eraState := SubStaked(eraState, era.current, info.total);
      r := Ok(());
    }

    // ---- Bonds

    method ProviderBondMore(who: AccountId, p: ProviderId, amount: nat) returns (r: Result<(), Error>)
      modifies this, currency
      ensures Committed(old(State()), Spec.ProviderBondMore(cfg, old(State()), who, p, amount), r)
    {
      if amount == 0 {
        return Err(StakingWithNoValue);
      }
      if p !in providerInfo {
        return Err(ProviderDNE);
      }
      if !providerInfo[p].status.Active? {
        return Err(NotOperatedProvider);
      }
      if providerInfo[p].owner != who {
        return Err(NotOwnedProvider);
      }
      var info := RecordOf(providerEraInfo, p, era.current);
      if info.bond + amount > MAX_BALANCE || info.total + amount > MAX_BALANCE {
        return Err(Overflow);
      }
      info := info.(bond := info.bond + amount, total := info.total + amount);
      ghost var outcome := Spec.ProviderBondMore(cfg, State(), who, p, amount);
      assert outcome.Ok? ==> info == outcome.value.records[(p, era.current)];
      assert outcome.Ok? <==> amount <= currency.Snapshot().Free(who);
      var reserved := currency.Reserve(who, amount);
      if !reserved {
        return Err(InsufficientBalance);
      }
      eraState := AddStaked(eraState, era.current, amount);
      providerEraInfo := providerEraInfo[(p, era.current) := info];
      r := Ok(());
    }

    /** The unbonding queue of an account with an amount added that unlocks one period from now. */
    method WithChunk(who: AccountId, amount: nat) returns (queue: Chunks)
      requires Ascending(QueueOf(unbondingInfo, who))
      ensures queue == Added(QueueOf(unbondingInfo, who), UnlockingChunk(amount, era.current + cfg.unbondingPeriod))
    {
      var unbonding := new UnbondingMetadata(QueueOf(unbondingInfo, who));
      unbonding.Add(UnlockingChunk(amount, era.current + cfg.unbondingPeriod));
      queue := unbonding.chunks;
    }

    method ProviderBondLess(who: AccountId, p: ProviderId, amount: nat) returns (r: Result<(), Error>)
      requires Ascending(QueueOf(unbondingInfo, who))
      modifies this
      ensures Committed(old(State()), Spec.BondLessAsWritten(cfg, old(State()), who, p, amount), r)
    {
      if amount == 0 {
        return Err(UnstakingWithNoValue);
      }
      if p !in providerInfo {
        return Err(ProviderDNE);
      }
      if !providerInfo[p].status.Active? {
        return Err(NotOperatedProvider);
      }
      if providerInfo[p].owner != who {
        return Err(NotOwnedProvider);
      }
      var info := RecordOf(providerEraInfo, p, era.current);
      if info.bond < WrappedSum(amount, cfg.minProviderStake) {
        return Err(InsufficientBond);
      }
      info := info.(bond := SaturatingSub(info.bond, amount), total := SaturatingSub(info.total, amount));
      var queue := WithChunk(who, amount);
      if |queue| > cfg.maxUnlockingChunks {
        return Err(TooManyUnlockingChunks);
      }
      unbondingInfo := PutQueue(unbondingInfo, who, queue);
      eraState := SubStaked(eraState, era.current, amount);
      providerEraInfo := providerEraInfo[(p, era.current) := info];
      r := Ok(());
    }

    method ProviderWithdrawUnregistered(p: ProviderId) returns (r: Result<(), Error>)
      modifies this, currency
      ensures Committed(old(State()), Spec.ProviderWithdrawUnregistered(cfg, old(State()), p), r)
    {
      if p !in providerInfo {
        return Err(NotOperatedProvider);
      }
      var provider := providerInfo[p];
      if provider.bondWithdrawn {
        return Err(NothingToWithdraw);
      }
      if provider.status.Active? {
        return Err(NotUnregisteredProvider);
      }
      var since := provider.status.since;
      if era.current < since + cfg.unbondingPeriod {
        return Err(NothingToWithdraw);
      }
      currency.Unreserve(provider.owner, RecordOf(providerEraInfo, p, since).bond);
      providerInfo := providerInfo[p := provider.(bondWithdrawn := true)];
      r := Ok(());
    }

    // ---- Stakes

    /** The given history with an amount staked in the current era. */
    method WithStake(stakes: Stakes, amount: nat) returns (r: Result<Stakes, StakeError>)
      ensures r == Staked(stakes, era.current, amount)
    {
      var delegation := new Delegation(stakes);
      var staked := delegation.Stake(era.current, amount);
      r := if staked.Ok? then Ok(delegation.stakes) else Err(staked.error);
    }

    /** The given history with an amount unstaked in the current era. */
    method WithoutStake(stakes: Stakes, amount: nat) returns (r: Result<Stakes, StakeError>)
      ensures r == Unstaked(stakes, era.current, amount)
    {
      var delegation := new Delegation(stakes);
      var unstaked := delegation.Unstake(era.current, amount);
      r := if unstaked.Ok? then Ok(delegation.stakes) else Err(unstaked.error);
    }

    /** The history of a delegation with the amount, if there is room for it and it is enough. */
    method Bond(stakes: Stakes, amount: nat) returns (r: Result<Stakes, Error>)
      ensures match Staked(stakes, era.current, amount)
              case Err(_) => r == Err(UnexpectedDelegationInfoEra)
              case Ok(staked) =>
                if |staked| >= cfg.maxEraStakeValues then r == Err(TooManyEraStakeValues)
                else if Latest(staked) < cfg.minDelegatorStake then r == Err(InsufficientBond)
                else r == Ok(staked)
    {
      var staked := WithStake(stakes, amount);
      if staked.Err? {
        return Err(UnexpectedDelegationInfoEra);
      }
      if |staked.value| >= cfg.maxEraStakeValues {
        return Err(TooManyEraStakeValues);
      }
      if Latest(staked.value) < cfg.minDelegatorStake {
        return Err(InsufficientBond);
      }
      r := Ok(staked.value);
    }

    method Delegate(d: AccountId, p: ProviderId, amount: nat) returns (r: Result<(), Error>)
      modifies this, currency
      ensures Committed(old(State()), Spec.Delegate(cfg, old(State()), d, p, amount), r)
    {
      if amount == 0 {
        return Err(StakingWithNoValue);
      }
      if !IsActive(providerInfo, p) {
        return Err(NotOperatedProvider);
      }
      var info := RecordOf(providerEraInfo, p, era.current);
      var stakes := StakesOf(delegationInfo, d, p);
      if !(Latest(stakes) != 0 || info.delegatorCount <= cfg.maxDelegatorsPerProvider) {
        return Err(MaxNumberOfStakersExceeded);
      }
      if Latest(stakes) == 0 {
        info := info.(delegatorCount := info.delegatorCount + 1);
      }
      var staked := Bond(stakes, amount);
      if staked.Err? {
        return Err(staked.error);
      }
      r := CommitStake(d, p, amount, info, staked.value);
    }

    /** Reserves the amount, if the funds are there, and stores the new history and record. */
    method CommitStake(d: AccountId, p: ProviderId, amount: nat, info: ProviderEraMetadata, staked: Stakes)
      returns (r: Result<(), Error>)
      modifies this, currency
      ensures if info.total + amount > MAX_BALANCE then r == Err(Overflow) && State() == old(State())
              else if amount > old(currency.Snapshot()).Free(d)
              then r == Err(InsufficientBalance) && State() == old(State())
              else
                && r == Ok(())
                && State() == old(State()).(
                     bank := old(currency.Snapshot()).Reserve(d, amount),
                     eraState := AddStaked(old(eraState), era.current, amount),
                     delegations := PutStakes(old(delegationInfo), d, p, staked),
                     records := old(providerEraInfo)[(p, era.current) := info.(total := info.total + amount)],
                     trace := old(trace).(history := SetFrom(old(trace).history, d, p, era.current, Latest(staked)),
                                          stakers := old(trace).stakers + {d}))
    {
      if info.total + amount > MAX_BALANCE {
        return Err(Overflow);
      }
      var reserved := currency.Reserve(d, amount);
      if !reserved {
        return Err(InsufficientBalance);
      }
      eraState := AddStaked(eraState, era.current, amount);
      delegationInfo := PutStakes(delegationInfo, d, p, staked);
      providerEraInfo := providerEraInfo[(p, era.current) := info.(total := info.total + amount)];
      trace := trace.(history := SetFrom(trace.history, d, p, era.current, Latest(staked)),
                      stakers := trace.stakers + {d});
      r := Ok(());
    }

    /**
      What an unstake takes: everything, when too little would remain; and the record it leaves.
      The pallet goes on to check that something is taken, which is always so.
     */
    method TakeStake(info: ProviderEraMetadata, staked: nat, amount: nat)
      returns (left: ProviderEraMetadata, taken: nat)
      requires 0 < staked && 0 < amount
      ensures 0 < taken == if staked < amount + cfg.minDelegatorStake then staked else amount
      ensures left == info.(total := SaturatingSub(info.total, taken),
                            delegatorCount := if SaturatingSub(staked, amount) < cfg.minDelegatorStake
                                              then SaturatingSub(info.delegatorCount, 1) else info.delegatorCount)
    {
      left, taken := info, amount;
      if SaturatingSub(staked, amount) < cfg.minDelegatorStake {
        left := left.(delegatorCount := SaturatingSub(left.delegatorCount, 1));
        taken := staked;
      }
      left := left.(total := SaturatingSub(left.total, taken));
    }

    /** The history of d without the amount, and its queue with it, if both have room for it. */
    method Unbond(d: AccountId, stakes: Stakes, amount: nat) returns (r: Result<(Stakes, Chunks), Error>)
      requires Ascending(QueueOf(unbondingInfo, d))
      ensures var queue := Added(QueueOf(unbondingInfo, d), UnlockingChunk(amount, era.current + cfg.unbondingPeriod));
              match Unstaked(stakes, era.current, amount)
              case Err(_) => r == Err(UnexpectedDelegationInfoEra)
              case Ok(left) =>
                if |left| >= cfg.maxEraStakeValues then r == Err(TooManyEraStakeValues)
                else if |queue| > cfg.maxUnlockingChunks then r == Err(TooManyUnlockingChunks)
                else r == Ok((left, queue))
    {
      var unstaked := WithoutStake(stakes, amount);
      if unstaked.Err? {
        return Err(UnexpectedDelegationInfoEra);
      }
      if |unstaked.value| >= cfg.maxEraStakeValues {
        return Err(TooManyEraStakeValues);
      }
      var queue := WithChunk(d, amount);
      if |queue| > cfg.maxUnlockingChunks {
        return Err(TooManyUnlockingChunks);
      }
      r := Ok((unstaked.value, queue));
    }

    method DelegatorUnstake(d: AccountId, p: ProviderId, amount: nat) returns (r: Result<(), Error>)
      requires Ascending(QueueOf(unbondingInfo, d))
      modifies this
      ensures Committed(old(State()), Spec.DelegatorUnstake(cfg, old(State()), d, p, amount), r)
    {
      if amount == 0 {
        return Err(UnstakingWithNoValue);
      }
      if !IsActive(providerInfo, p) {
        return Err(NotOperatedProvider);
      }
      var stakes := StakesOf(delegationInfo, d, p);
      if Latest(stakes) == 0 {
        return Err(NotStakedProvider);
      }
      r := UnstakeStaked(d, p, amount, stakes);
    }

    method UnstakeStaked(d: AccountId, p: ProviderId, amount: nat, stakes: Stakes) returns (r: Result<(), Error>)
      requires Ascending(QueueOf(unbondingInfo, d))
      requires amount > 0 && IsActive(providerInfo, p)
      requires stakes == StakesOf(delegationInfo, d, p) && Latest(stakes) > 0
      modifies this
      ensures Committed(old(State()), Spec.DelegatorUnstake(cfg, old(State()), d, p, amount), r)
    {
      var info, unstakeAmount := TakeStake(RecordOf(providerEraInfo, p, era.current), Latest(stakes), amount);
      var changed := Unbond(d, stakes, unstakeAmount);
      ghost var outcome := Spec.DelegatorUnstake(cfg, State(), d, p, amount);
      assert outcome.Ok? <==> changed.Ok?;
      if changed.Err? {
        return Err(changed.error);
      }
      assert info == outcome.value.records[(p, era.current)];
      CommitUnstake(d, p, unstakeAmount, info, changed.value.0, changed.value.1);
      r := Ok(());
    }

    method CommitUnstake(d: AccountId, p: ProviderId, taken: nat, info: ProviderEraMetadata, left: Stakes,
                         queue: Chunks)
      modifies this
      ensures State() == old(State()).(
                unbonding := PutQueue(old(unbondingInfo), d, queue),
                eraState := SubStaked(old(eraState), era.current, taken),
                delegations := PutStakes(old(delegationInfo), d, p, left),
                records := old(providerEraInfo)[(p, era.current) := info],
                trace := old(trace).(history := SetFrom(old(trace).history, d, p, era.current, Latest(left))))
    {
      unbondingInfo := PutQueue(unbondingInfo, d, queue);
      eraState := SubStaked(eraState, era.current, taken);
      delegationInfo := PutStakes(delegationInfo, d, p, left);
      providerEraInfo := providerEraInfo[(p, era.current) := info];
      trace := trace.(history := SetFrom(trace.history, d, p, era.current, Latest(left)));
    }

    method WithdrawUnbonded(who: AccountId) returns (r: Result<(), Error>)
      modifies this, currency
      ensures Committed(old(State()), Spec.WithdrawUnbonded(old(State()), who), r)
    {
      var unbonding := QueueOf(unbondingInfo, who);
      var valid, future := Matured(unbonding, era.current), Locked(unbonding, era.current);
      var amount := Total(valid);
      if amount == 0 {
        return Err(NothingToWithdraw);
      }
      currency.Unreserve(who, amount);
      unbondingInfo := PutQueue(unbondingInfo, who, future);
      r := Ok(());
    }

    method DelegatorWithdrawUnregistered(d: AccountId, p: ProviderId) returns (r: Result<(), Error>)
      modifies this, currency
      ensures Committed(old(State()), Spec.DelegatorWithdrawUnregistered(cfg, old(State()), d, p), r)
    {
      if p !in providerInfo {
        return Err(NotOperatedProvider);
      }
      if providerInfo[p].status.Active? {
        return Err(NotUnregisteredProvider);
      }
      var since := providerInfo[p].status.since;
      if era.current < since + cfg.unbondingPeriod {
        return Err(NothingToWithdraw);
      }
      var delegation := new Delegation(StakesOf(delegationInfo, d, p));
      var stakedValue := Latest(delegation.stakes);
      if stakedValue == 0 {
        return Err(NotStakedProvider);
      }
      var claimableEra, _ := delegation.Claim();
      if !(claimableEra >= since || claimableEra == 0) {
        return Err(UnclaimedRewardsRemaining);
      }
      currency.Unreserve(d, stakedValue);
      delegationInfo := PutStakes(delegationInfo, d, p, []);
      r := Ok(());
    }

    // ---- Rewards

    method ClaimProvider(p: ProviderId, claimed: nat) returns (r: Result<(), Error>)
      modifies this, currency
      ensures Committed(old(State()), Spec.ClaimProvider(cfg, old(State()), p, claimed), r)
    {
      if p !in providerInfo {
        return Err(NotOperatedProvider);
      }
      var provider := providerInfo[p];
      if provider.status.Inactive? && claimed >= provider.status.since {
        return Err(NotOperatedProvider);
      }
      if claimed >= era.current {
        return Err(EraOutOfBounds);
      }
      var info := RecordOf(providerEraInfo, p, claimed);
      if info.providerRewardClaimed {
        return Err(AlreadyClaimedInThisEra);
      }
      if info.total == 0 {
        return Err(NotStakedProvider);
      }
      if claimed !in eraState {
        return Err(UnknownEra);
      }
      var reward := Spec.ProviderPart(cfg, info, eraState[claimed]);
      var paid := currency.Withdraw(cfg.pot, reward);
      if !paid {
        return Err(InsufficientBalance);
      }
      currency.Deposit(provider.owner, reward);
      providerEraInfo := providerEraInfo[(p, claimed) := info.(providerRewardClaimed := true)];
      trace := trace.(paidProviders := trace.paidProviders[(p, claimed) := reward]);
      r := Ok(());
    }

    method ClaimDelegator(d: AccountId, p: ProviderId) returns (r: Result<(), Error>)
      modifies this, currency
      ensures Committed(old(State()), Spec.ClaimDelegator(cfg, old(State()), d, p), r)
    {
      var delegation := new Delegation(StakesOf(delegationInfo, d, p));
      var claimed, staked := delegation.Claim();
      if staked == 0 {
        return Err(NotStakedProvider);
      }
      if p !in providerInfo {
        return Err(NotOperatedProvider);
      }
      if providerInfo[p].status.Inactive? && claimed >= providerInfo[p].status.since {
        return Err(NotOperatedProvider);
      }
      if claimed >= era.current {
        return Err(EraOutOfBounds);
      }
      if claimed !in eraState {
        return Err(UnknownEra);
      }
      var reward := Spec.DelegatorReward(cfg, staked, RecordOf(providerEraInfo, p, claimed), eraState[claimed]);
      var paid := currency.Withdraw(cfg.pot, reward);
      if !paid {
        return Err(InsufficientBalance);
      }
      currency.Deposit(d, reward);
      delegationInfo := PutStakes(delegationInfo, d, p, delegation.stakes);
      trace := trace.(paidDelegators := trace.paidDelegators[(d, p, claimed) := reward]);
      r := Ok(());
    }

    // ---- Any call

    /**
      Whatever call is dispatched, the pallet takes the step it is written to take; that is the step
      the protocol takes, and the pallet stays valid, but for a reduced bond that only a wrapped sum
      lets through.
     */
    method Apply(call: Runs.Call) returns (r: Result<(), Error>)
      requires Valid() && Runs.Possible(cfg, State(), call)
      modifies this, currency
      ensures Committed(old(State()), Runs.DispatchAsWritten(cfg, old(State()), call), r)
      ensures Runs.Sound(cfg, old(State()), call) ==> State() == Runs.Step(cfg, old(State()), call) && Valid()
    {
      Runs.StepValid(cfg, State(), call);
      if call.BondLess? && Runs.Sound(cfg, State(), call) {
        Spec.ExactWhenSound(cfg, State(), call.who, call.p, call.amount);
      }
      assert Invariant.QueuesOk(cfg, unbondingInfo);
      r := Perform(call);
    }

    method Perform(call: Runs.Call) returns (r: Result<(), Error>)
      requires Invariant.QueuesOk(cfg, unbondingInfo) && Runs.InOrder(State(), call)
      modifies this, currency
      ensures Committed(old(State()), Runs.DispatchAsWritten(cfg, old(State()), call), r)
    {
      if Runs.ByParticipants(call) {
        r := PerformForParticipant(call);
        return;
      }
      r := Ok(());
      match call
      case Initialize(block) => OnInitialize(block);
      case BlocksPerEra(length) => r := SetBlocksPerEra(length);
      case Reward(amount) => HandleImbalance(amount);
      case Register(account, p, bond) => r := RegisterProvider(account, p, bond);
      case Unregister(p) => r := UnregisterProvider(p);
      case Elsewhere(bank) => currency.free, currency.reserved := bank.free, bank.reserved;
    }

    method PerformForParticipant(call: Runs.Call) returns (r: Result<(), Error>)
      requires Invariant.QueuesOk(cfg, unbondingInfo) && Runs.ByParticipants(call)
      modifies this, currency
      ensures Committed(old(State()), Runs.DispatchAsWritten(cfg, old(State()), call), r)
    {
      match call
      case BondMore(who, p, amount) => r := ProviderBondMore(who, p, amount);
      case BondLess(who, p, amount) => r := ProviderBondLess(who, p, amount);
      case WithdrawBond(p) => r := ProviderWithdrawUnregistered(p);
      case Stake(d, p, amount) => r := Delegate(d, p, amount);
      case Unstake(d, p, amount) => r := DelegatorUnstake(d, p, amount);
      case WithdrawStake(d, p) => r := DelegatorWithdrawUnregistered(d, p);
      case Withdraw(who) => r := WithdrawUnbonded(who);
      case ProviderClaim(p, claimed) => r := ClaimProvider(p, claimed);
      case DelegatorClaim(d, p) => r := ClaimDelegator(d, p);
    }
  }
}
