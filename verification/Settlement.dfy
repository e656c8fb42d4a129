/**
  A delegator leaving an unregistered provider must first claim, era by era, everything it earned
  there.  This settles when that can succeed, and when it never will.
 */
module Settlement {
  import Arithmetic
  import opened Wrappers
  import opened Currency
  import opened Delegations
  import opened StakingTypes
  import opened StakingSpec
  import opened StakingInvariant
  import opened StakingRuns
  import opened Solvency
  import ClaimSteps

  /** The unbonding period since p unregistered is over. */
  predicate Released(cfg: Config, st: Ledger, p: ProviderId) {
    && p in st.providers && st.providers[p].status.Inactive?
    && st.era.current >= st.providers[p].status.since + cfg.unbondingPeriod
  }

  /** How many eras lie between the head of the stored history and the era p unregistered in. */
  function Distance(st: Ledger, d: AccountId, p: ProviderId): nat
    requires p in st.providers && st.providers[p].status.Inactive?
  {
    var s := StakesOf(st.delegations, d, p);
    if s == [] then 0 else Arithmetic.SaturatingSub(st.providers[p].status.since, s[0].era)
  }

  lemma ClaimMoves(cfg: Config, st: Ledger, d: AccountId, p: ProviderId)
    requires Ordered(StakesOf(st.delegations, d, p)) && Released(cfg, st, p)
    requires ClaimDelegator(cfg, st, d, p).Ok?
    ensures var next := ClaimDelegator(cfg, st, d, p).value;
            && Released(cfg, next, p) && next.providers == st.providers
            && StakesOf(next.delegations, d, p) == Claimed(StakesOf(st.delegations, d, p)).rest
            && Distance(next, d, p) < Distance(st, d, p)
  {
    ClaimRefines(StakesOf(st.delegations, d, p));
  }

  lemma ClaimApproaches(cfg: Config, st: Ledger, d: AccountId, p: ProviderId)
    requires WellFormed(cfg, st) && Released(cfg, st, p)
    requires ClaimDelegator(cfg, st, d, p).Ok?
    ensures var next := ClaimDelegator(cfg, st, d, p).value;
            && WellFormed(cfg, next) && Released(cfg, next, p) && next.providers == st.providers
            && StakesOf(next.delegations, d, p) == Claimed(StakesOf(st.delegations, d, p)).rest
            && Distance(next, d, p) < Distance(st, d, p)
  {
    assert DelegationOk(cfg, st.providers, st.era.current, st.trace, StakesOf(st.delegations, d, p), d, p);
    ClaimMoves(cfg, st, d, p);
    ClaimSteps.ClaimDelegatorWellFormed(cfg, st, d, p);
  }

  /** The outcome of settling, and the number of claims it took. */
  datatype Settled = Settled(outcome: Outcome, claims: nat)

  /** Claiming until the withdrawal is allowed, then withdrawing. */
  ghost function Settle(cfg: Config, st: Ledger, d: AccountId, p: ProviderId): Settled
    requires WellFormed(cfg, st) && Released(cfg, st, p)
    decreases Distance(st, d, p)
  {
    var withdrawal := DelegatorWithdrawUnregistered(cfg, st, d, p);
    if withdrawal != Err(UnclaimedRewardsRemaining) then Settled(withdrawal, 0)
    else
      match ClaimDelegator(cfg, st, d, p)
      case Err(e) => Settled(Err(e), 0)
      case Ok(next) =>
        ClaimApproaches(cfg, st, d, p);
        var rest := Settle(cfg, next, d, p);
        rest.(claims := rest.claims + 1)
  }

  /** The two calls' outcomes, as a function of the head of the history. */
  lemma SettlingCalls(cfg: Config, st: Ledger, d: AccountId, p: ProviderId)
    requires WellFormed(cfg, st) && Released(cfg, st, p)
    requires Latest(StakesOf(st.delegations, d, p)) > 0
    ensures var s := StakesOf(st.delegations, d, p);
            var since := st.providers[p].status.since;
            && Ordered(s) && s != []
            && (DelegatorWithdrawUnregistered(cfg, st, d, p).Ok? <==> since <= s[0].era)
            && (DelegatorWithdrawUnregistered(cfg, st, d, p).Err? ==>
                  DelegatorWithdrawUnregistered(cfg, st, d, p) == Err(UnclaimedRewardsRemaining))
            && (s[0].era < since && s[0].amount > 0 && ClaimDelegator(cfg, st, d, p).Err? ==>
                  ClaimDelegator(cfg, st, d, p) == Err(InsufficientBalance))
            && (s[0].amount == 0 ==> ClaimDelegator(cfg, st, d, p) == Err(NotStakedProvider))
  {
    var s := StakesOf(st.delegations, d, p);
    assert DelegationOk(cfg, st.providers, st.era.current, st.trace, s, d, p);
    assert ProviderOk(st.providers[p], st.records, p, st.era.current);
  }

  /**
    What the pot holds and what was paid from it make up for the rewards of closed eras and for half a
    unit for each payment so far and for each of n more, less one unit.
   */
  ghost predicate Funded(cfg: Config, st: Ledger, n: nat) {
    2 * (st.bank.Free(cfg.pot) + AllPayments(st.trace)) + 2
    >= 2 * ClosedRewards(st.eraState, st.era.current) + AllPayees(st.trace) + n
  }

  /** In particular when the accumulator alone makes up for that rounding. */
  lemma FundedByAccumulator(cfg: Config, st: Ledger, n: nat)
    requires WellFormed(cfg, st) && PotOk(cfg, st) && 2 * st.accumulator + 2 >= AllPayees(st.trace) + n
    ensures Funded(cfg, st, n)
  {
  }

  lemma FundedClaim(cfg: Config, st: Ledger, d: AccountId, p: ProviderId, n: nat)
    requires WellFormed(cfg, st) && Funded(cfg, st, n) && n > 0
    ensures ClaimDelegator(cfg, st, d, p) != Err(InsufficientBalance)
    ensures ClaimDelegator(cfg, st, d, p).Ok? ==> Funded(cfg, ClaimDelegator(cfg, st, d, p).value, n - 1)
  {
    if ClaimDelegator(cfg, st, d, p) == Err(InsufficientBalance) {
      DelegatorDueWithin(cfg, st, d, p);
      DelegatorPaidIff(cfg, st, d, p);
    } else if ClaimDelegator(cfg, st, d, p).Ok? {
      ClaimSteps.ClaimableDelegator(cfg, st, d, p);
      FundedPayment(cfg, st, ClaimDelegator(cfg, st, d, p).value, d, p, Claimed(StakesOf(st.delegations, d, p)).era, n);
    }
  }

  lemma FundedPayment(cfg: Config, st: Ledger, next: Ledger, d: AccountId, p: ProviderId, era: nat, n: nat)
    requires Funded(cfg, st, n) && n > 0 && (d, p, era) !in st.trace.paidDelegators
    requires (d, p, era) in next.trace.paidDelegators
    requires var reward := next.trace.paidDelegators[(d, p, era)];
             && next.trace == ClaimSteps.PaidDelegator(st.trace, d, p, era, reward)
             && next.bank.Free(cfg.pot) + reward >= st.bank.Free(cfg.pot)
             && next.eraState == st.eraState && next.era == st.era
    ensures Funded(cfg, next, n - 1)
  {
    PaymentAdded(st.trace.paidDelegators, (d, p, era), next.trace.paidDelegators[(d, p, era)]);
  }

  lemma FundedLess(cfg: Config, st: Ledger, n: nat, m: nat)
    requires Funded(cfg, st, n) && m <= n
    ensures Funded(cfg, st, m)
  {
  }

  /** With enough in the pot for the claims that lie ahead, settling never ends for lack of funds. */
  lemma {:induction false} SettleFunded(cfg: Config, st: Ledger, d: AccountId, p: ProviderId)
    requires WellFormed(cfg, st) && Released(cfg, st, p)
    requires Latest(StakesOf(st.delegations, d, p)) > 0 && Funded(cfg, st, Distance(st, d, p))
    ensures Settle(cfg, st, d, p).outcome != Err(InsufficientBalance)
    decreases Distance(st, d, p)
  {
    var s := StakesOf(st.delegations, d, p);
    SettlingCalls(cfg, st, d, p);
    if s[0].era < st.providers[p].status.since {
      FundedClaim(cfg, st, d, p, Distance(st, d, p));
      if ClaimDelegator(cfg, st, d, p).Ok? {
        var next := ClaimDelegator(cfg, st, d, p).value;
        ClaimRefines(s);
        ClaimApproaches(cfg, st, d, p);
        FundedLess(cfg, next, Distance(st, d, p) - 1, Distance(next, d, p));
        SettleFunded(cfg, next, d, p);
      }
    }
  }

  lemma DrainStep(s: Stakes, bound: nat)
    requires Ordered(s) && s != [] && s[0].era < bound && s[0].amount > 0
    ensures Ordered(Claimed(s).rest) && |Drain(s, bound)| == 1 + |Drain(Claimed(s).rest, bound)|
  {
    ClaimRefines(s);
  }

  /** One claim moves settling on by one claim. */
  lemma SettleStep(cfg: Config, st: Ledger, d: AccountId, p: ProviderId)
    requires WellFormed(cfg, st) && Released(cfg, st, p)
    requires DelegatorWithdrawUnregistered(cfg, st, d, p) == Err(UnclaimedRewardsRemaining)
    requires ClaimDelegator(cfg, st, d, p).Ok?
    ensures var next := ClaimDelegator(cfg, st, d, p).value;
            && WellFormed(cfg, next) && Released(cfg, next, p) && next.providers == st.providers
            && StakesOf(next.delegations, d, p) == Claimed(StakesOf(st.delegations, d, p)).rest
            && Distance(next, d, p) < Distance(st, d, p)
            && Settle(cfg, st, d, p) == Settled(Settle(cfg, next, d, p).outcome, Settle(cfg, next, d, p).claims + 1)
  {
    ClaimApproaches(cfg, st, d, p);
  }

  /** Settling takes one claim for each era with stake, and so at most as many as eras lie in between. */
  lemma {:induction false} SettleCount(cfg: Config, st: Ledger, d: AccountId, p: ProviderId)
    requires WellFormed(cfg, st) && Released(cfg, st, p)
    requires Latest(StakesOf(st.delegations, d, p)) > 0
    ensures Ordered(StakesOf(st.delegations, d, p))
    ensures var r := Settle(cfg, st, d, p);
            && (r.outcome.Ok? ==> r.claims == |Drain(StakesOf(st.delegations, d, p), st.providers[p].status.since)|)
            && r.claims <= Distance(st, d, p)
    decreases Distance(st, d, p)
  {
    var s := StakesOf(st.delegations, d, p);
    var since := st.providers[p].status.since;
    SettlingCalls(cfg, st, d, p);
    if s[0].era < since && ClaimDelegator(cfg, st, d, p).Ok? {
      DrainStep(s, since);
      ClaimRefines(s);
      SettleStep(cfg, st, d, p);
      SettleCount(cfg, ClaimDelegator(cfg, st, d, p).value, d, p);
    }
  }

  /**
    Unless the pot runs dry on the way, settling succeeds exactly if no zero entry of the history
    before the unregistration stands at its head or right behind another zero entry; otherwise it
    ends in NotStakedProvider.
   */
  lemma {:induction false} SettleIff(cfg: Config, st: Ledger, d: AccountId, p: ProviderId)
    requires WellFormed(cfg, st) && Released(cfg, st, p)
    requires Latest(StakesOf(st.delegations, d, p)) > 0
    ensures var r := Settle(cfg, st, d, p).outcome;
            r != Err(InsufficientBalance) ==>
              && (r.Ok? <==> NoStrandedZero(StakesOf(st.delegations, d, p), st.providers[p].status.since))
              && (r.Err? ==> r == Err(NotStakedProvider))
    decreases Distance(st, d, p)
  {
    var s := StakesOf(st.delegations, d, p);
    var since := st.providers[p].status.since;
    SettlingCalls(cfg, st, d, p);
    if since <= s[0].era {
      assert forall i :: 0 <= i < |s| ==> since <= s[i].era;
    } else if ClaimDelegator(cfg, st, d, p).Ok? {
      ClaimRefines(s);
      SettleStep(cfg, st, d, p);
      SettleIff(cfg, ClaimDelegator(cfg, st, d, p).value, d, p);
      NoStrandedZeroClaim(s, since);
    }
  }

  /** In full: what becomes of a delegator that settles, with the pot funded for the claims ahead. */
  lemma SettleInFull(cfg: Config, st: Ledger, d: AccountId, p: ProviderId)
    requires WellFormed(cfg, st) && Released(cfg, st, p)
    requires Latest(StakesOf(st.delegations, d, p)) > 0 && Funded(cfg, st, Distance(st, d, p))
    ensures var r := Settle(cfg, st, d, p);
            var s := StakesOf(st.delegations, d, p);
            var since := st.providers[p].status.since;
            if NoStrandedZero(s, since)
            then r.outcome.Ok? && r.claims == |Positive(s, 0, since)|
            else r.outcome == Err(NotStakedProvider)
  {
    SettleIff(cfg, st, d, p);
    SettleCount(cfg, st, d, p);
    SettleFunded(cfg, st, d, p);
    DrainIsPositive(StakesOf(st.delegations, d, p), st.providers[p].status.since);
  }

  // ---- Stranded stakes

  /** The history of d with p has come to a zero head before the era p unregistered in. */
  predicate Stranded(st: Ledger, d: AccountId, p: ProviderId) {
    && p in st.providers && st.providers[p].status.Inactive?
    && var s := StakesOf(st.delegations, d, p);
       s != [] && s[0].amount == 0 && 0 < s[0].era < st.providers[p].status.since
  }

  lemma StrandedStep(cfg: Config, st: Ledger, call: Call, d: AccountId, p: ProviderId)
    requires Stranded(st, d, p)
    ensures Stranded(Step(cfg, st, call), d, p)
    ensures StakesOf(Step(cfg, st, call).delegations, d, p) == StakesOf(st.delegations, d, p)
  {
    InactiveStays(cfg, st, call, p);
    if Possible(cfg, st, call) && Dispatch(cfg, st, call).Ok? {
      if call.Stake? {
        StrandedDelegate(cfg, st, call.d, call.p, call.amount, d, p);
      } else if call.Unstake? {
        StrandedUnstake(cfg, st, call.d, call.p, call.amount, d, p);
      } else if !call.DelegatorClaim? && !call.WithdrawStake? {
        StakesUntouched(cfg, st, call);
      }
    }
  }

  /** Once inactive, a provider stays so, and its unregistration era never changes. */
  lemma InactiveStays(cfg: Config, st: Ledger, call: Call, p: ProviderId)
    requires p in st.providers && st.providers[p].status.Inactive?
    ensures p in Step(cfg, st, call).providers && Step(cfg, st, call).providers[p].status == st.providers[p].status
  {
    if !call.Register? && !call.Unregister? && !call.WithdrawBond? {
      ProvidersUntouched(cfg, st, call);
    }
  }

  lemma StakesUntouched(cfg: Config, st: Ledger, call: Call)
    requires !call.Stake? && !call.Unstake? && !call.DelegatorClaim? && !call.WithdrawStake?
    ensures Step(cfg, st, call).delegations == st.delegations
  {
  }

  lemma StrandedDelegate(cfg: Config, st: Ledger, x: AccountId, q: ProviderId, amount: nat, d: AccountId, p: ProviderId)
    requires Stranded(st, d, p) && Delegate(cfg, st, x, q, amount).Ok?
    ensures StakesOf(Delegate(cfg, st, x, q, amount).value.delegations, d, p) == StakesOf(st.delegations, d, p)
  {
  }

  lemma StrandedUnstake(cfg: Config, st: Ledger, x: AccountId, q: ProviderId, amount: nat, d: AccountId, p: ProviderId)
    requires Stranded(st, d, p) && DelegatorUnstake(cfg, st, x, q, amount).Ok?
    ensures StakesOf(DelegatorUnstake(cfg, st, x, q, amount).value.delegations, d, p) == StakesOf(st.delegations, d, p)
  {
  }

  /** A stranded stake can neither be claimed on nor withdrawn, whatever happens afterwards. */
  lemma {:induction false} StrandedForever(cfg: Config, st: Ledger, calls: seq<Call>, d: AccountId, p: ProviderId)
    requires Stranded(st, d, p)
    ensures var last := Run(cfg, st, calls);
            && Stranded(last, d, p)
            && StakesOf(last.delegations, d, p) == StakesOf(st.delegations, d, p)
            && ClaimDelegator(cfg, last, d, p).Err?
            && DelegatorWithdrawUnregistered(cfg, last, d, p).Err?
    decreases |calls|
  {
    if calls != [] {
      StrandedStep(cfg, st, calls[0], d, p);
      StrandedForever(cfg, Step(cfg, st, calls[0]), calls[1..], d, p);
    }
  }
}
