/** What staking promises about its ledgers, after any run from the first block. */
module StakingGuarantees {
  import Sums
  import opened Currency
  import opened Delegations
  import opened StakingTypes
  import opened StakingSpec
  import opened StakingInvariant
  import StakingFrames
  import opened StakingRuns
  import opened Solvency
  import Issuance
  import StakeSteps
  import StakingSafety
  import StakingHistory
  import Unbonding

  // ---- The history of stakes is that of the calls

  /**
    What a call adds to, or takes from, the stake of d with p: an unstake takes what was asked for, or
    everything if less than the minimum would remain.
   */
  ghost function StakedBy(cfg: Config, st: Ledger, call: Call, d: AccountId, p: ProviderId): int {
    if !Possible(cfg, st, call) || Dispatch(cfg, st, call).Err? then 0
    else if call.Stake? && call.d == d && call.p == p then call.amount
    else if call.Unstake? && call.d == d && call.p == p
    then
      var held := Latest(StakesOf(st.delegations, d, p));
      0 - (if held < call.amount + cfg.minDelegatorStake then held else call.amount)
    else 0
  }

  /** What a run added, on balance, to the stake of d with p in an era: all it did until that era was over. */
  ghost function NetStaked(cfg: Config, st: Ledger, calls: seq<Call>, d: AccountId, p: ProviderId, era: nat): int
    decreases |calls|
  {
    if calls == [] then 0
    else
      (if st.era.current <= era then StakedBy(cfg, st, calls[0], d, p) else 0)
      + NetStaked(cfg, Step(cfg, st, calls[0]), calls[1..], d, p, era)
  }

  lemma HistoryUntouched(cfg: Config, st: Ledger, call: Call)
    requires !call.Stake? && !call.Unstake?
    ensures Step(cfg, st, call).trace.history == st.trace.history
  {
  }

  /** While a provider is active, a stored history ends with the stake held from now on. */
  lemma LatestFromNow(cfg: Config, st: Ledger, d: AccountId, p: ProviderId, era: nat)
    requires WellFormed(cfg, st) && IsActive(st.providers, p) && st.era.current <= era
    ensures st.trace.history(d, p, era) == Latest(StakesOf(st.delegations, d, p))
  {
    var h := st.trace.history;
    StakingFrames.CurrentUnclaimed(cfg, st.providers, st.records, st.eraState, st.era.current, st.trace, p);
    StakeSteps.StoredPair(cfg, st, d, p);
    StakingFrames.LatestIsHeld(cfg, st.providers, st.era.current, st.trace, StakesOf(st.delegations, d, p), d, p);
    assert StakeOk(cfg, st.providers, st.records, st.era.current, h, st.trace.stakers, d, p, era);
  }

  lemma StakeNet(cfg: Config, st: Ledger, x: AccountId, q: ProviderId, amount: nat, d: AccountId, p: ProviderId,
                 era: nat)
    requires WellFormed(cfg, st) && Delegate(cfg, st, x, q, amount).Ok?
    ensures Delegate(cfg, st, x, q, amount).value.trace.history(d, p, era)
            == st.trace.history(d, p, era) + if st.era.current <= era && x == d && q == p then amount else 0
  {
    var s := StakesOf(st.delegations, x, q);
    StakeSteps.StoredPair(cfg, st, x, q);
    StakeRefines(s, st.era.current, amount);
    if st.era.current <= era {
      LatestFromNow(cfg, st, x, q, era);
    }
  }

  lemma UnstakeNet(cfg: Config, st: Ledger, x: AccountId, q: ProviderId, amount: nat, d: AccountId, p: ProviderId,
                   era: nat)
    requires WellFormed(cfg, st) && DelegatorUnstake(cfg, st, x, q, amount).Ok?
    ensures var held := Latest(StakesOf(st.delegations, d, p));
            DelegatorUnstake(cfg, st, x, q, amount).value.trace.history(d, p, era)
            == st.trace.history(d, p, era)
               - if st.era.current <= era && x == d && q == p
                 then (if held < amount + cfg.minDelegatorStake then held else amount) else 0
  {
    var s := StakesOf(st.delegations, x, q);
    StakeSteps.StoredPair(cfg, st, x, q);
    StakeSteps.UnstakeAmountOk(cfg, Latest(s), amount);
    UnstakeRefines(s, st.era.current, UnstakeAmount(cfg, Latest(s), amount));
    if st.era.current <= era {
      LatestFromNow(cfg, st, x, q, era);
    }
  }

  /**
    An accepted unstake leaves nothing, if less than the minimum would remain, and otherwise what was
    held less what was asked for; the difference is pending until a period from now.
   */
  lemma UnstakeTakes(cfg: Config, st: Ledger, d: AccountId, p: ProviderId, amount: nat)
    requires WellFormed(cfg, st) && DelegatorUnstake(cfg, st, d, p, amount).Ok?
    ensures var next := DelegatorUnstake(cfg, st, d, p, amount).value;
            var was := Latest(StakesOf(st.delegations, d, p));
            var left := Latest(StakesOf(next.delegations, d, p));
            var unlock := st.era.current + cfg.unbondingPeriod;
            && left == (if was < amount + cfg.minDelegatorStake then 0 else was - amount)
            && Unbonding.PendingAt(QueueOf(next.unbonding, d), unlock)
               == Unbonding.PendingAt(QueueOf(st.unbonding, d), unlock) + was - left
  {
    UnstakeLeaves(cfg, st, d, p, amount);
    UnstakePends(cfg, st, d, p, amount);
  }

  lemma UnstakePends(cfg: Config, st: Ledger, d: AccountId, p: ProviderId, amount: nat)
    requires QueuesOk(cfg, st.unbonding) && DelegatorUnstake(cfg, st, d, p, amount).Ok?
    ensures var was := Latest(StakesOf(st.delegations, d, p));
            var unlock := st.era.current + cfg.unbondingPeriod;
            Unbonding.PendingAt(QueueOf(DelegatorUnstake(cfg, st, d, p, amount).value.unbonding, d), unlock)
            == Unbonding.PendingAt(QueueOf(st.unbonding, d), unlock)
               + if was < amount + cfg.minDelegatorStake then was else amount
  {
    StakingHistory.UnstakePending(cfg, st, d, p, amount, d, st.era.current + cfg.unbondingPeriod);
  }

  lemma UnstakeLeaves(cfg: Config, st: Ledger, d: AccountId, p: ProviderId, amount: nat)
    requires WellFormed(cfg, st) && DelegatorUnstake(cfg, st, d, p, amount).Ok?
    ensures var was := Latest(StakesOf(st.delegations, d, p));
            Latest(StakesOf(DelegatorUnstake(cfg, st, d, p, amount).value.delegations, d, p))
            == if was < amount + cfg.minDelegatorStake then 0 else was - amount
  {
    var s := StakesOf(st.delegations, d, p);
    StakeSteps.StoredPair(cfg, st, d, p);
    UnstakeRefines(s, st.era.current, UnstakeAmount(cfg, Latest(s), amount));
  }

  lemma StepNet(cfg: Config, st: Ledger, call: Call, d: AccountId, p: ProviderId, era: nat)
    requires WellFormed(cfg, st)
    ensures Step(cfg, st, call).trace.history(d, p, era)
            == st.trace.history(d, p, era) + if st.era.current <= era then StakedBy(cfg, st, call, d, p) else 0
  {
    if Possible(cfg, st, call) && Dispatch(cfg, st, call).Ok? {
      if call.Stake? {
        StakeNet(cfg, st, call.d, call.p, call.amount, d, p, era);
      } else if call.Unstake? {
        UnstakeNet(cfg, st, call.d, call.p, call.amount, d, p, era);
      } else {
        HistoryUntouched(cfg, st, call);
      }
    }
  }

  /** The recorded stake of an era is what the calls up to that era staked and did not unstake. */
  lemma {:induction false} RunNet(cfg: Config, st: Ledger, calls: seq<Call>, d: AccountId, p: ProviderId, era: nat)
    requires Valid(cfg, st)
    ensures Run(cfg, st, calls).trace.history(d, p, era)
            == st.trace.history(d, p, era) + NetStaked(cfg, st, calls, d, p, era)
    decreases |calls|
  {
    if calls != [] {
      StepNet(cfg, st, calls[0], d, p, era);
      StepValid(cfg, st, calls[0]);
      RunNet(cfg, Step(cfg, st, calls[0]), calls[1..], d, p, era);
    }
  }

  // ---- Agreement of histories, records and eras

  /**
    In every era a provider was or is rewarded for, the stored history of a delegator reads back
    what it staked on balance, unless the reward of that era was already paid to it.
   */
  lemma StoredIsStaked(cfg: Config, bank: Bank, given: nat, block: nat, calls: seq<Call>,
                       d: AccountId, p: ProviderId, era: nat)
    requires given <= bank.Free(cfg.pot)
    ensures var first := Start(cfg, bank, given, block);
            var last := Run(cfg, first, calls);
            p in last.providers && last.providers[p].Earns(era) ==>
              At(StakesOf(last.delegations, d, p), era)
              == if (d, p, era) in last.trace.paidDelegators then 0 else NetStaked(cfg, first, calls, d, p, era)
  {
    var first := Start(cfg, bank, given, block);
    StartValid(cfg, bank, given, block);
    RunValid(cfg, first, calls);
    RunNet(cfg, first, calls, d, p, era);
    StoredIsHeld(cfg, Run(cfg, first, calls), d, p, era);
  }

  lemma StoredIsHeld(cfg: Config, st: Ledger, d: AccountId, p: ProviderId, era: nat)
    requires WellFormed(cfg, st)
    ensures p in st.providers && st.providers[p].Earns(era) ==>
              At(StakesOf(st.delegations, d, p), era) == UnpaidStake(st.trace, d, p, era)
  {
    StakeSteps.StoredPair(cfg, st, d, p);
  }

  /** The stake of d with p in an era, as a function of d, from the calls alone. */
  ghost function NetStakes(cfg: Config, st: Ledger, calls: seq<Call>, p: ProviderId, era: nat): AccountId -> nat {
    d => if NetStaked(cfg, st, calls, d, p, era) > 0 then NetStaked(cfg, st, calls, d, p, era) else 0
  }

  /** Every record's total is its bond and what all delegators staked on balance up to its era. */
  lemma RecordIsStaked(cfg: Config, bank: Bank, given: nat, block: nat, calls: seq<Call>, p: ProviderId, era: nat)
    requires given <= bank.Free(cfg.pot)
    ensures var first := Start(cfg, bank, given, block);
            var last := Run(cfg, first, calls);
            (p, era) in last.records ==>
              && last.records[(p, era)].total
                 == last.records[(p, era)].bond + Sums.Sum(last.trace.stakers, NetStakes(cfg, first, calls, p, era))
              && forall d: AccountId ::
                   NetStaked(cfg, first, calls, d, p, era) >= 0
                   && (d !in last.trace.stakers ==> NetStaked(cfg, first, calls, d, p, era) == 0)
  {
    var first := Start(cfg, bank, given, block);
    var last := Run(cfg, first, calls);
    StartValid(cfg, bank, given, block);
    RunValid(cfg, first, calls);
    forall d: AccountId
      ensures NetStaked(cfg, first, calls, d, p, era) == last.trace.history(d, p, era)
      ensures d !in last.trace.stakers ==> NetStaked(cfg, first, calls, d, p, era) == 0
    {
      RunNet(cfg, first, calls, d, p, era);
      assert StakeOk(cfg, last.providers, last.records, last.era.current, last.trace.history, last.trace.stakers, d,
                     p, era);
    }
    Sums.SumCong(last.trace.stakers, d => last.trace.history(d, p, era), NetStakes(cfg, first, calls, p, era));
  }

  /** Every era's stake is the sum of the totals of the providers it rewards. */
  lemma EraIsRecords(cfg: Config, bank: Bank, given: nat, block: nat, calls: seq<Call>, era: nat)
    requires given <= bank.Free(cfg.pot)
    ensures var last := Run(cfg, Start(cfg, bank, given, block), calls);
            era <= last.era.current ==>
              && era in last.eraState
              && last.eraState[era].staked == EraTotal(last.providers, last.records, era)
  {
    StartValid(cfg, bank, given, block);
    RunValid(cfg, Start(cfg, bank, given, block), calls);
  }

  // ---- Rewards

  /** What was paid for an era, over any run, is nothing, or less than its rewards and one half for every payee. */
  lemma RunSolvency(cfg: Config, bank: Bank, given: nat, block: nat, calls: seq<Call>, era: nat)
    requires given <= bank.Free(cfg.pot)
    ensures var last := Run(cfg, Start(cfg, bank, given, block), calls);
            era <= last.era.current ==>
              if Payees(last.trace, era) == 0 then PaidFor(last.trace, era) == 0
              else 2 * PaidFor(last.trace, era) < 2 * RewardsIn(last.eraState, era) + Payees(last.trace, era)
  {
    var last := Run(cfg, Start(cfg, bank, given, block), calls);
    StartValid(cfg, bank, given, block);
    RunValid(cfg, Start(cfg, bank, given, block), calls);
    if era <= last.era.current {
      EraSolvency(cfg, last.providers, last.records, last.eraState, last.era.current, last.trace, era);
    }
  }

  lemma StepDeposited(cfg: Config, st: Ledger, call: Call)
    ensures Step(cfg, st, call).trace.deposited == st.trace.deposited + if call.Reward? then call.amount else 0
  {
  }

  lemma {:induction false} RunDeposited(cfg: Config, st: Ledger, calls: seq<Call>)
    ensures Run(cfg, st, calls).trace.deposited == st.trace.deposited + Issuance.RewardsOf(calls)
    decreases |calls|
  {
    if calls != [] {
      StepDeposited(cfg, st, calls[0]);
      RunDeposited(cfg, Step(cfg, st, calls[0]), calls[1..]);
    }
  }

  /**
    For any blocks and any changes of the era length, each deposited reward is in exactly one
    place: in the rewards of one closed era, or in the accumulator.
   */
  lemma RewardConservation(cfg: Config, bank: Bank, given: nat, block: nat, calls: seq<Call>)
    requires given <= bank.Free(cfg.pot)
    ensures var last := Run(cfg, Start(cfg, bank, given, block), calls);
            ClosedRewards(last.eraState, last.era.current) + last.accumulator == given + Issuance.RewardsOf(calls)
  {
    StartValid(cfg, bank, given, block);
    RunValid(cfg, Start(cfg, bank, given, block), calls);
    RunDeposited(cfg, Start(cfg, bank, given, block), calls);
  }

  /** The pot holds what it held at first, all rewards and all gifts since, less all payments. */
  lemma PotConservation(cfg: Config, bank: Bank, given: nat, block: nat, calls: seq<Call>)
    requires given <= bank.Free(cfg.pot)
    ensures var first := Start(cfg, bank, given, block);
            var last := Run(cfg, first, calls);
            last.bank.Free(cfg.pot) + AllPayments(last.trace)
            == bank.Free(cfg.pot) + Issuance.RewardsOf(calls) + Gifts(cfg, first, calls)
  {
    var first := Start(cfg, bank, given, block);
    StartValid(cfg, bank, given, block);
    StartShape(cfg, bank, given, block);
    assert AllPayments(first.trace) == 0;
    RunPot(cfg, first, calls);
    RunDeposited(cfg, first, calls);
  }

  /** After any run the last stake that a delegator has stored with a provider is reserved on it. */
  lemma StoredStaysReserved(cfg: Config, bank: Bank, given: nat, block: nat, calls: seq<Call>,
                            d: AccountId, p: ProviderId)
    requires given <= bank.Free(cfg.pot)
    ensures var last := Run(cfg, Start(cfg, bank, given, block), calls);
            Latest(StakesOf(last.delegations, d, p)) <= last.bank.Reserved(d)
  {
    StartValid(cfg, bank, given, block);
    RunValid(cfg, Start(cfg, bank, given, block), calls);
    StakingSafety.StoredIsReserved(cfg, Run(cfg, Start(cfg, bank, given, block), calls), d, p);
  }
}
