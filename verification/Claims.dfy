/** When a claim is accepted, for which era, and who is paid what. */
module Claims {
  import opened Wrappers
  import opened Currency
  import opened Delegations
  import opened StakingTypes
  import opened StakingSpec
  import opened StakingInvariant
  import StakingFrames
  import ClaimSteps
  import StakeSteps

  /** The call goes through, or would with enough in the pot. */
  predicate Accepted(outcome: Outcome) {
    outcome.Ok? || outcome == Err(InsufficientBalance)
  }

  /** Of the free balances, only the payer's and the payee's change, by the amount. */
  ghost predicate Transferred(bank: Bank, next: Bank, from: AccountId, to: AccountId, amount: nat) {
    && next.reserved == bank.reserved
    && forall a: AccountId ::
         next.Free(a) + (if a == from then amount else 0) == bank.Free(a) + if a == to then amount else 0
  }

  // ---- Providers

  /** A provider can claim exactly the closed eras it earned in, staked, and was not paid for. */
  lemma ProviderClaimIff(cfg: Config, st: Ledger, p: ProviderId, era: nat)
    requires WellFormed(cfg, st)
    ensures Accepted(ClaimProvider(cfg, st, p, era)) <==>
              && p in st.providers && st.providers[p].Earns(era) && era < st.era.current
              && (p, era) in st.records && st.records[(p, era)].total > 0
              && (p, era) !in st.trace.paidProviders
  {
    StakingFrames.ProviderPaid(cfg, st.providers, st.records, st.eraState, st.era.current, st.trace, p, era);
  }

  /** Its part is that of the era's record, and goes from the pot to the owner. */
  lemma ProviderClaimPays(cfg: Config, st: Ledger, p: ProviderId, era: nat)
    requires WellFormed(cfg, st) && ClaimProvider(cfg, st, p, era).Ok?
    ensures (p, era) in st.records && era in st.eraState
    ensures var reward := ProviderPart(cfg, st.records[(p, era)], st.eraState[era]);
            Transferred(st.bank, ClaimProvider(cfg, st, p, era).value.bank, cfg.pot, st.providers[p].owner, reward)
  {
    ClaimSteps.ClaimableProvider(cfg, st, p, era);
  }

  // ---- Delegators

  /** d earned a reward with p in a closed era that was not paid to it. */
  ghost predicate Owed(st: Ledger, d: AccountId, p: ProviderId, era: nat) {
    && p in st.providers && st.providers[p].Earns(era) && era < st.era.current
    && UnpaidStake(st.trace, d, p, era) > 0
  }

  predicate ZeroHead(s: Stakes) {
    s != [] && s[0].amount == 0
  }

  /** A delegator can claim exactly when some era is owed, unless its history has come to a zero head. */
  lemma DelegatorClaimIff(cfg: Config, st: Ledger, d: AccountId, p: ProviderId)
    requires WellFormed(cfg, st)
    ensures Accepted(ClaimDelegator(cfg, st, d, p)) <==>
              !ZeroHead(StakesOf(st.delegations, d, p)) && exists e: nat :: Owed(st, d, p, e)
  {
    var s := StakesOf(st.delegations, d, p);
    StakeSteps.StoredPair(cfg, st, d, p);
    if s != [] && s[0].amount > 0 {
      ClaimRefines(s);
      assert Accepted(ClaimDelegator(cfg, st, d, p)) ==> Owed(st, d, p, s[0].era);
    }
    if e: nat :| Owed(st, d, p, e) {
      assert At(s, e) > 0;
      if s != [] && e < s[0].era {
        AtBeforeHead(s, e);
      }
    }
  }

  /** The claim is for the oldest era owed. */
  lemma DelegatorClaimOldest(cfg: Config, st: Ledger, d: AccountId, p: ProviderId)
    requires WellFormed(cfg, st) && Accepted(ClaimDelegator(cfg, st, d, p))
    ensures var era := Claimed(StakesOf(st.delegations, d, p)).era;
            Owed(st, d, p, era) && forall e: nat :: e < era ==> !Owed(st, d, p, e)
  {
    var s := StakesOf(st.delegations, d, p);
    StakeSteps.StoredPair(cfg, st, d, p);
    ClaimRefines(s);
    forall e: nat | e < s[0].era ensures !Owed(st, d, p, e) {
      AtBeforeHead(s, e);
    }
  }

  /** It is paid in proportion to what was held then, from the pot, and no other balance changes. */
  lemma DelegatorClaimPays(cfg: Config, st: Ledger, d: AccountId, p: ProviderId)
    requires WellFormed(cfg, st) && ClaimDelegator(cfg, st, d, p).Ok?
    ensures var era := Claimed(StakesOf(st.delegations, d, p)).era;
            && (p, era) in st.records && era in st.eraState
            && Transferred(st.bank, ClaimDelegator(cfg, st, d, p).value.bank, cfg.pot, d,
                           DelegatorReward(cfg, st.trace.history(d, p, era), st.records[(p, era)], st.eraState[era]))
  {
    ClaimSteps.ClaimableDelegator(cfg, st, d, p);
    var era := Claimed(StakesOf(st.delegations, d, p)).era;
    PaidFrom(st.bank, cfg.pot, d,
             DelegatorReward(cfg, st.trace.history(d, p, era), st.records[(p, era)], st.eraState[era]));
  }

  lemma PaidFrom(bank: Bank, from: AccountId, to: AccountId, amount: nat)
    requires amount <= bank.Free(from)
    ensures Transferred(bank, bank.Withdraw(from, amount).Deposit(to, amount), from, to, amount)
  {
  }
}
