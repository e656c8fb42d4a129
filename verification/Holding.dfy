/** How long bonds and stakes stay held after a provider unregistered. */
module Holding {
  import opened Currency
  import opened Delegations
  import opened StakingTypes
  import opened StakingSpec
  import opened StakingInvariant
  import opened StakingRuns
  import StakingHistory
  import StakeSteps
  import Settlement
  import Refusals
  import Bonds

  /** p unregistered at least the unbonding period ago. */
  predicate PeriodOver(cfg: Config, st: Ledger, p: ProviderId) {
    Refusals.IsInactive(st, p) && st.providers[p].status.since + cfg.unbondingPeriod <= st.era.current
  }

  /** A bond can be withdrawn once, and not before the period after unregistration is over. */
  lemma WithdrawBondIff(cfg: Config, st: Ledger, p: ProviderId)
    ensures ProviderWithdrawUnregistered(cfg, st, p).Ok? <==>
              && p in st.providers && st.providers[p].status.Inactive? && !st.providers[p].bondWithdrawn
              && st.providers[p].status.since + cfg.unbondingPeriod <= st.era.current
  {
  }

  /** A stake can be withdrawn after the same period, when none of its eras before unregistration is left to claim. */
  lemma WithdrawStakeIff(cfg: Config, st: Ledger, d: AccountId, p: ProviderId)
    requires WellFormed(cfg, st)
    ensures DelegatorWithdrawUnregistered(cfg, st, d, p).Ok? <==>
              var s := StakesOf(st.delegations, d, p);
              && p in st.providers && st.providers[p].status.Inactive?
              && st.providers[p].status.since + cfg.unbondingPeriod <= st.era.current
              && Latest(s) > 0 && st.providers[p].status.since <= s[0].era
  {
    StakeSteps.StoredPair(cfg, st, d, p);
  }

  // ---- One call

  /** Nothing about p changed, unless its bond was withdrawn after the period. */
  predicate BondKept(cfg: Config, st: Ledger, next: Ledger, p: ProviderId)
    requires p in st.providers
  {
    && p in next.providers
    && (next.providers[p] == st.providers[p]
        || (next.providers[p] == st.providers[p].(bondWithdrawn := true) && PeriodOver(cfg, st, p)))
  }

  lemma StepKeepsBond(cfg: Config, st: Ledger, call: Call, p: ProviderId)
    requires Refusals.IsInactive(st, p)
    ensures BondKept(cfg, st, Step(cfg, st, call), p)
  {
    if !call.Register? && !call.Unregister? && !call.WithdrawBond? {
      ProvidersUntouched(cfg, st, call);
    }
  }

  lemma StakeKeeps(cfg: Config, st: Ledger, x: AccountId, q: ProviderId, amount: nat, d: AccountId, p: ProviderId)
    requires !IsActive(st.providers, p) && Delegate(cfg, st, x, q, amount).Ok?
    ensures StakesOf(Delegate(cfg, st, x, q, amount).value.delegations, d, p) == StakesOf(st.delegations, d, p)
  {
  }

  lemma UnstakeKeeps(cfg: Config, st: Ledger, x: AccountId, q: ProviderId, amount: nat, d: AccountId, p: ProviderId)
    requires !IsActive(st.providers, p) && DelegatorUnstake(cfg, st, x, q, amount).Ok?
    ensures StakesOf(DelegatorUnstake(cfg, st, x, q, amount).value.delegations, d, p) == StakesOf(st.delegations, d, p)
  {
  }

  lemma ClaimKeeps(cfg: Config, st: Ledger, x: AccountId, q: ProviderId, d: AccountId, p: ProviderId)
    requires Ordered(StakesOf(st.delegations, x, q)) && ClaimDelegator(cfg, st, x, q).Ok?
    ensures Latest(StakesOf(ClaimDelegator(cfg, st, x, q).value.delegations, d, p))
            == Latest(StakesOf(st.delegations, d, p))
  {
    ClaimRefines(StakesOf(st.delegations, x, q));
  }

  lemma WithdrawKeeps(cfg: Config, st: Ledger, x: AccountId, q: ProviderId, d: AccountId, p: ProviderId)
    requires !PeriodOver(cfg, st, p) && DelegatorWithdrawUnregistered(cfg, st, x, q).Ok?
    ensures StakesOf(DelegatorWithdrawUnregistered(cfg, st, x, q).value.delegations, d, p)
            == StakesOf(st.delegations, d, p)
  {
  }

  lemma OrderedAll(cfg: Config, st: Ledger)
    requires WellFormed(cfg, st)
    ensures forall x: AccountId, q: ProviderId :: Ordered(StakesOf(st.delegations, x, q))
  {
    forall x: AccountId, q: ProviderId ensures Ordered(StakesOf(st.delegations, x, q)) {
      StakeSteps.StoredPair(cfg, st, x, q);
    }
  }

  lemma DispatchKeepsStake(cfg: Config, st: Ledger, call: Call, d: AccountId, p: ProviderId)
    requires forall x: AccountId, q: ProviderId :: Ordered(StakesOf(st.delegations, x, q))
    requires Refusals.IsInactive(st, p) && !PeriodOver(cfg, st, p)
    requires Possible(cfg, st, call) && Dispatch(cfg, st, call).Ok?
    ensures Latest(StakesOf(Dispatch(cfg, st, call).value.delegations, d, p)) == Latest(StakesOf(st.delegations, d, p))
  {
    match call
    case Stake(x, q, amount) => StakeKeeps(cfg, st, x, q, amount, d, p);
    case Unstake(x, q, amount) => UnstakeKeeps(cfg, st, x, q, amount, d, p);
    case DelegatorClaim(x, q) => ClaimKeeps(cfg, st, x, q, d, p);
    case WithdrawStake(x, q) => WithdrawKeeps(cfg, st, x, q, d, p);
    case _ => Settlement.StakesUntouched(cfg, st, call);
  }

  lemma StepKeepsStake(cfg: Config, st: Ledger, call: Call, d: AccountId, p: ProviderId)
    requires WellFormed(cfg, st) && Refusals.IsInactive(st, p) && !PeriodOver(cfg, st, p)
    ensures Latest(StakesOf(Step(cfg, st, call).delegations, d, p)) == Latest(StakesOf(st.delegations, d, p))
  {
    OrderedAll(cfg, st);
    if Possible(cfg, st, call) && Dispatch(cfg, st, call).Ok? {
      DispatchKeepsStake(cfg, st, call, d, p);
    }
  }

  // ---- Runs

  lemma EraGrows(cfg: Config, st: Ledger, calls: seq<Call>)
    requires Valid(cfg, st)
    ensures st.era.current <= Run(cfg, st, calls).era.current
  {
    StakingHistory.RunExtends(cfg, st, calls);
  }

  /**
    Whatever happens after p unregistered, nothing about it changes before the period is over, in
    particular not its bond; and every delegator's stake with it stays as it was until then.
   */
  lemma {:induction false} HeldForPeriod(cfg: Config, st: Ledger, calls: seq<Call>, p: ProviderId)
    requires Valid(cfg, st) && Refusals.IsInactive(st, p)
    ensures var last := Run(cfg, st, calls);
            last.era.current < st.providers[p].status.since + cfg.unbondingPeriod ==>
              && p in last.providers && last.providers[p] == st.providers[p]
              && forall d: AccountId ::
                   Latest(StakesOf(last.delegations, d, p)) == Latest(StakesOf(st.delegations, d, p))
    decreases |calls|
  {
    if calls != [] && Run(cfg, st, calls).era.current < st.providers[p].status.since + cfg.unbondingPeriod {
      var mid := Step(cfg, st, calls[0]);
      EraGrows(cfg, st, calls);
      StepValid(cfg, st, calls[0]);
      StepKeepsBond(cfg, st, calls[0], p);
      forall d: AccountId { StepKeepsStake(cfg, st, calls[0], d, p); }
      HeldForPeriod(cfg, mid, calls[1..], p);
    }
  }

  /** Until then an account has at stake with p what it had: the bond, if it is the owner, and its stake. */
  lemma AtStakeForPeriod(cfg: Config, st: Ledger, calls: seq<Call>, p: ProviderId, a: AccountId)
    requires Valid(cfg, st) && Refusals.IsInactive(st, p)
    ensures var last := Run(cfg, st, calls);
            last.era.current < st.providers[p].status.since + cfg.unbondingPeriod ==>
              AtStake(last.providers, last.records, last.delegations, last.era.current, a, p)
              == AtStake(st.providers, st.records, st.delegations, st.era.current, a, p)
  {
    HeldForPeriod(cfg, st, calls, p);
    InactiveBonds(cfg, st, calls, p);
  }

  lemma StepInactiveBond(cfg: Config, st: Ledger, call: Call, p: ProviderId)
    requires WellFormed(cfg, st) && Refusals.IsInactive(st, p)
    ensures var since := st.providers[p].status.since;
            RecordOf(Step(cfg, st, call).records, p, since).bond == RecordOf(st.records, p, since).bond
  {
    var since := st.providers[p].status.since;
    Settlement.InactiveStays(cfg, st, call, p);
    NothingBonded(cfg, st, call, p);
    Bonds.StepBond(cfg, st, call, p);
    assert Bonds.BondAsOf(Step(cfg, st, call), p, since) == Bonds.BondAsOf(st, p, since);
  }

  lemma NothingBonded(cfg: Config, st: Ledger, call: Call, p: ProviderId)
    requires Refusals.IsInactive(st, p)
    ensures Bonds.BondedBy(cfg, st, call, p) == 0
  {
  }

  /** No call changes the bond of an inactive provider. */
  lemma {:induction false} InactiveBonds(cfg: Config, st: Ledger, calls: seq<Call>, p: ProviderId)
    requires Valid(cfg, st) && Refusals.IsInactive(st, p)
    ensures var since := st.providers[p].status.since;
            RecordOf(Run(cfg, st, calls).records, p, since).bond == RecordOf(st.records, p, since).bond
    decreases |calls|
  {
    if calls != [] {
      StepValid(cfg, st, calls[0]);
      Settlement.InactiveStays(cfg, st, calls[0], p);
      StepInactiveBond(cfg, st, calls[0], p);
      InactiveBonds(cfg, Step(cfg, st, calls[0]), calls[1..], p);
    }
  }

  /** Every bond that was withdrawn was withdrawn after the period. */
  ghost predicate WithdrawnInTime(cfg: Config, st: Ledger) {
    forall p :: p in st.providers && st.providers[p].bondWithdrawn ==> PeriodOver(cfg, st, p)
  }

  lemma StepInTime(cfg: Config, st: Ledger, call: Call)
    requires WellFormed(cfg, st) && WithdrawnInTime(cfg, st)
    ensures WithdrawnInTime(cfg, Step(cfg, st, call))
  {
    var next := Step(cfg, st, call);
    StakingHistory.StepExtends(cfg, st, call);
    forall p | p in next.providers && next.providers[p].bondWithdrawn ensures PeriodOver(cfg, next, p) {
      WithdrawnBy(cfg, st, call, p);
    }
  }

  /** Who has its bond withdrawn had so before, or its period is over. */
  lemma WithdrawnBy(cfg: Config, st: Ledger, call: Call, p: ProviderId)
    requires p in st.providers && st.providers[p].bondWithdrawn ==> Refusals.IsInactive(st, p)
    ensures var next := Step(cfg, st, call);
            p in next.providers && next.providers[p].bondWithdrawn ==>
              p in st.providers && next.providers[p].status == st.providers[p].status
              && (st.providers[p].bondWithdrawn || PeriodOver(cfg, st, p))
  {
    if !call.Register? && !call.Unregister? && !call.WithdrawBond? {
      ProvidersUntouched(cfg, st, call);
    }
  }

  /** In no run from the first block is a bond released before the period after unregistration is over. */
  lemma ReleasedInTime(cfg: Config, bank: Bank, given: nat, block: nat, calls: seq<Call>)
    requires given <= bank.Free(cfg.pot)
    ensures WithdrawnInTime(cfg, Run(cfg, Start(cfg, bank, given, block), calls))
  {
    StartValid(cfg, bank, given, block);
    StartShape(cfg, bank, given, block);
    RunInTime(cfg, Start(cfg, bank, given, block), calls);
  }

  lemma {:induction false} RunInTime(cfg: Config, st: Ledger, calls: seq<Call>)
    requires Valid(cfg, st) && WithdrawnInTime(cfg, st)
    ensures WithdrawnInTime(cfg, Run(cfg, st, calls))
    decreases |calls|
  {
    if calls != [] {
      StepValid(cfg, st, calls[0]);
      StepInTime(cfg, st, calls[0]);
      RunInTime(cfg, Step(cfg, st, calls[0]), calls[1..]);
    }
  }
}
