/**
  A zero entry at the head of a history blocks every claim on it.  While the provider is active the
  delegator itself can clear it, by some stakes and unstakes; here is by which exactly.
 */
module ZeroHeads {
  import opened Currency
  import opened Delegations
  import opened StakingTypes
  import opened StakingSpec
  import opened StakingInvariant
  import opened StakingRuns
  import opened Claims
  import Settlement
  import StakeSteps

  // ---- Histories

  /** Staking clears a zero head exactly by overwriting it, the only entry, in its own era. */
  lemma StakedHead(s: Stakes, era: nat, amount: nat)
    requires Ordered(s) && ZeroHead(s) && amount > 0 && Staked(s, era, amount).Ok?
    ensures ZeroHead(Staked(s, era, amount).value) <==> !(|s| == 1 && s[0].era == era)
  {
  }

  /** The next entry is positive, and unstaking does not zero it. */
  predicate NextStays(s: Stakes, era: nat, taken: nat) {
    |s| > 1 && s[1].amount > 0 && !(|s| == 2 && s[1].era == era && taken == s[1].amount)
  }

  /** Unstaking drops the head, and so clears it exactly if the next entry stays positive. */
  lemma UnstakedHead(s: Stakes, era: nat, taken: nat)
    requires Ordered(s) && ZeroHead(s) && 0 < taken <= Latest(s) && Unstaked(s, era, taken).Ok?
    ensures Unstaked(s, era, taken).value == PutLast(s, era, Latest(s) - taken)[1..]
    ensures ZeroHead(Unstaked(s, era, taken).value) <==> !NextStays(s, era, taken)
  {
    assert |s| > 1;
    var t := PutLast(s, era, Latest(s) - taken);
    assert t[0] == s[0] && t[1..][0] == t[1];
  }

  // ---- Calls

  /** The call is one by which d clears the zero head of its history with p. */
  ghost predicate Clears(cfg: Config, st: Ledger, call: Call, d: AccountId, p: ProviderId) {
    var s := StakesOf(st.delegations, d, p);
    && Possible(cfg, st, call) && Dispatch(cfg, st, call).Ok?
    && match call
       case Stake(x, q, _) => x == d && q == p && |s| == 1 && s[0].era == st.era.current
       case Unstake(x, q, amount) =>
         var taken := if Latest(s) < amount + cfg.minDelegatorStake then Latest(s) else amount;
         x == d && q == p && NextStays(s, st.era.current, taken)
       case _ => false
  }

  lemma StakeHead(cfg: Config, st: Ledger, x: AccountId, q: ProviderId, amount: nat, d: AccountId, p: ProviderId)
    requires WellFormed(cfg, st) && ZeroHead(StakesOf(st.delegations, d, p)) && Delegate(cfg, st, x, q, amount).Ok?
    ensures var s := StakesOf(st.delegations, d, p);
            ZeroHead(StakesOf(Delegate(cfg, st, x, q, amount).value.delegations, d, p)) <==>
              !(x == d && q == p && |s| == 1 && s[0].era == st.era.current)
  {
    StakeSteps.StoredPair(cfg, st, d, p);
    if x == d && q == p {
      StakedHead(StakesOf(st.delegations, d, p), st.era.current, amount);
    }
  }

  lemma UnstakeHead(cfg: Config, st: Ledger, x: AccountId, q: ProviderId, amount: nat, d: AccountId, p: ProviderId)
    requires WellFormed(cfg, st) && ZeroHead(StakesOf(st.delegations, d, p))
    requires DelegatorUnstake(cfg, st, x, q, amount).Ok?
    ensures var s := StakesOf(st.delegations, d, p);
            var taken := if Latest(s) < amount + cfg.minDelegatorStake then Latest(s) else amount;
            ZeroHead(StakesOf(DelegatorUnstake(cfg, st, x, q, amount).value.delegations, d, p)) <==>
              !(x == d && q == p && NextStays(s, st.era.current, taken))
  {
    if x == d && q == p {
      OwnUnstakeHead(cfg, st, d, p, amount);
    }
  }

  lemma OwnUnstakeHead(cfg: Config, st: Ledger, d: AccountId, p: ProviderId, amount: nat)
    requires WellFormed(cfg, st) && ZeroHead(StakesOf(st.delegations, d, p))
    requires DelegatorUnstake(cfg, st, d, p, amount).Ok?
    ensures var s := StakesOf(st.delegations, d, p);
            var taken := if Latest(s) < amount + cfg.minDelegatorStake then Latest(s) else amount;
            ZeroHead(StakesOf(DelegatorUnstake(cfg, st, d, p, amount).value.delegations, d, p)) <==>
              !NextStays(s, st.era.current, taken)
  {
    var s := StakesOf(st.delegations, d, p);
    StakeSteps.StoredPair(cfg, st, d, p);
    StakeSteps.UnstakeAmountOk(cfg, Latest(s), amount);
    UnstakedHead(s, st.era.current, UnstakeAmount(cfg, Latest(s), amount));
  }

  lemma ClaimHead(cfg: Config, st: Ledger, x: AccountId, q: ProviderId, d: AccountId, p: ProviderId)
    requires ZeroHead(StakesOf(st.delegations, d, p)) && ClaimDelegator(cfg, st, x, q).Ok?
    ensures StakesOf(ClaimDelegator(cfg, st, x, q).value.delegations, d, p) == StakesOf(st.delegations, d, p)
  {
  }

  lemma WithdrawHead(cfg: Config, st: Ledger, x: AccountId, q: ProviderId, d: AccountId, p: ProviderId)
    requires IsActive(st.providers, p) && DelegatorWithdrawUnregistered(cfg, st, x, q).Ok?
    ensures StakesOf(DelegatorWithdrawUnregistered(cfg, st, x, q).value.delegations, d, p)
            == StakesOf(st.delegations, d, p)
  {
  }

  lemma HeadUntouched(cfg: Config, st: Ledger, call: Call, d: AccountId, p: ProviderId)
    requires IsActive(st.providers, p) && ZeroHead(StakesOf(st.delegations, d, p))
    requires !call.Stake? && !call.Unstake? && Possible(cfg, st, call) && Dispatch(cfg, st, call).Ok?
    ensures StakesOf(Step(cfg, st, call).delegations, d, p) == StakesOf(st.delegations, d, p)
  {
    if call.DelegatorClaim? {
      ClaimHead(cfg, st, call.d, call.p, d, p);
    } else if call.WithdrawStake? {
      WithdrawHead(cfg, st, call.d, call.p, d, p);
    } else {
      Settlement.StakesUntouched(cfg, st, call);
    }
  }

  /** While p is active a zero head stays through every call but those by which d clears it. */
  lemma ZeroHeadIff(cfg: Config, st: Ledger, call: Call, d: AccountId, p: ProviderId)
    requires WellFormed(cfg, st) && IsActive(st.providers, p) && ZeroHead(StakesOf(st.delegations, d, p))
    ensures ZeroHead(StakesOf(Step(cfg, st, call).delegations, d, p)) <==> !Clears(cfg, st, call, d, p)
  {
    if Possible(cfg, st, call) && Dispatch(cfg, st, call).Ok? {
      if call.Stake? {
        StakeHead(cfg, st, call.d, call.p, call.amount, d, p);
      } else if call.Unstake? {
        UnstakeHead(cfg, st, call.d, call.p, call.amount, d, p);
      } else {
        HeadUntouched(cfg, st, call, d, p);
      }
    }
  }

  /** A call makes the history claimable again exactly if d clears it so and is owed an era then. */
  lemma ClaimableAgain(cfg: Config, st: Ledger, call: Call, d: AccountId, p: ProviderId)
    requires Valid(cfg, st) && IsActive(st.providers, p) && ZeroHead(StakesOf(st.delegations, d, p))
    ensures var next := Step(cfg, st, call);
            Accepted(ClaimDelegator(cfg, next, d, p)) <==>
              Clears(cfg, st, call, d, p) && exists e: nat :: Owed(next, d, p, e)
  {
    ZeroHeadIff(cfg, st, call, d, p);
    StepValid(cfg, st, call);
    DelegatorClaimIff(cfg, Step(cfg, st, call), d, p);
  }
}
