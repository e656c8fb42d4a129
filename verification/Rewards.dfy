/**
  What a claim moves, on the balances alone: a provider's share of an era's rewards in proportion to
  its stake, its percentage of that, and each delegator's proportion of the rest.
 */
module Rewards {
  import opened Sums
  import opened Currency
  import opened Delegations
  import opened Perbill
  import opened StakingTypes
  import opened StakingSpec
  import opened StakingInvariant
  import opened Claims
  import ClaimSteps
  import Solvency

  // ---- Rounding

  /** y is r parts per billion of x, to the nearest unit, ties down. */
  predicate Nearest(y: nat, r: nat, x: nat) {
    2 * ACCURACY * y < 2 * (r * x) + ACCURACY && 2 * (r * x) <= 2 * ACCURACY * y + ACCURACY
  }

  /** r parts per billion are p / q, rounded down. */
  predicate Fraction(r: nat, p: nat, q: nat) {
    r * q <= p * ACCURACY < (r + 1) * q
  }

  /** y is x in the proportion p : q, with both roundings. */
  ghost predicate InProportion(y: nat, x: nat, p: nat, q: nat) {
    exists r: nat :: Fraction(r, p, q) && Nearest(y, r, x)
  }

  lemma ProportionIs(p: nat, q: nat, x: nat)
    requires 0 < q && p <= q
    ensures InProportion(Of(FromRational(p, q), x), x, p, q)
  {
    assert Fraction(FromRational(p, q), p, q) && Nearest(Of(FromRational(p, q), x), FromRational(p, q), x);
  }

  /** So y is x * p / q, up to one half and a billionth of x. */
  lemma ProportionWithin(y: nat, x: nat, p: nat, q: nat)
    requires 0 < q && InProportion(y, x, p, q)
    ensures q * (2 * y) < (2 * x) * p + q
    ensures 2 * ACCURACY * (x * p) <= 2 * ACCURACY * (q * y) + ACCURACY * q + 2 * (q * x)
  {
    var r: nat :| Fraction(r, p, q) && Nearest(y, r, x);
    Solvency.Scale(p, q, x, r, y);
    MulMono(p * ACCURACY, (r + 1) * q, 2 * x);
    MulMono(2 * (r * x), 2 * ACCURACY * y + ACCURACY, q);
    Regroup(y, x, p, q, r);
  }

  lemma Regroup(y: nat, x: nat, p: nat, q: nat, r: nat)
    ensures p * ACCURACY * (2 * x) == 2 * ACCURACY * (x * p)
    ensures (r + 1) * q * (2 * x) == 2 * (r * x) * q + 2 * (q * x)
    ensures (2 * ACCURACY * y + ACCURACY) * q == 2 * ACCURACY * (q * y) + ACCURACY * q
  {
    assert (r + 1) * q == r * q + q;
    assert r * q * (2 * x) == 2 * (r * x) * q;
  }

  lemma NearestUnique(y: nat, z: nat, r: nat, x: nat)
    requires Nearest(y, r, x) && Nearest(z, r, x)
    ensures y == z
  {
  }

  lemma FractionUnique(r: nat, s: nat, p: nat, q: nat)
    requires Fraction(r, p, q) && Fraction(s, p, q)
    ensures r == s
  {
    if r < s {
      MulMono(r + 1, s, q);
    } else if s < r {
      MulMono(s + 1, r, q);
    }
  }

  /** The two roundings leave no choice. */
  lemma ProportionUnique(y: nat, z: nat, x: nat, p: nat, q: nat)
    requires InProportion(y, x, p, q) && InProportion(z, x, p, q)
    ensures y == z
  {
    var r: nat :| Fraction(r, p, q) && Nearest(y, r, x);
    var s: nat :| Fraction(s, p, q) && Nearest(z, s, x);
    FractionUnique(r, s, p, q);
    NearestUnique(y, z, r, x);
  }

  // ---- What is moved

  /** amount is the provider's percentage of its share of the rewards, which is in proportion to its total. */
  ghost predicate ProviderGets(cfg: Config, total: nat, era: EraMetadata, amount: nat) {
    exists share: nat :: InProportion(share, era.rewards, total, era.staked)
                         && Nearest(amount, cfg.providerRewardsPercentage, share)
  }

  /** amount is the part of the rest of the share that is in proportion to what was held, of all that was. */
  ghost predicate DelegatorGets(cfg: Config, total: nat, era: EraMetadata, held: nat, all: nat, amount: nat) {
    exists share: nat, own: nat :: InProportion(share, era.rewards, total, era.staked)
                                   && Nearest(own, cfg.providerRewardsPercentage, share) && own <= share
                                   && InProportion(amount, share - own, held, all)
  }

  lemma ProviderGetsUnique(cfg: Config, total: nat, era: EraMetadata, x: nat, y: nat)
    requires ProviderGets(cfg, total, era, x) && ProviderGets(cfg, total, era, y)
    ensures x == y
  {
    var s: nat :| InProportion(s, era.rewards, total, era.staked) && Nearest(x, cfg.providerRewardsPercentage, s);
    var t: nat :| InProportion(t, era.rewards, total, era.staked) && Nearest(y, cfg.providerRewardsPercentage, t);
    ProportionUnique(s, t, era.rewards, total, era.staked);
    NearestUnique(x, y, cfg.providerRewardsPercentage, s);
  }

  lemma DelegatorGetsUnique(cfg: Config, total: nat, era: EraMetadata, held: nat, all: nat, x: nat, y: nat)
    requires DelegatorGets(cfg, total, era, held, all, x) && DelegatorGets(cfg, total, era, held, all, y)
    ensures x == y
  {
    var percent := cfg.providerRewardsPercentage;
    var s: nat, m: nat :| InProportion(s, era.rewards, total, era.staked) && Nearest(m, percent, s) && m <= s
                          && InProportion(x, s - m, held, all);
    var t: nat, n: nat :| InProportion(t, era.rewards, total, era.staked) && Nearest(n, percent, t) && n <= t
                          && InProportion(y, t - n, held, all);
    ProportionUnique(s, t, era.rewards, total, era.staked);
    NearestUnique(m, n, percent, s);
    ProportionUnique(x, y, s - m, held, all);
  }

  // ---- Claims

  /** In an era that a provider earned in, its total is part of the era's stake. */
  lemma TotalWithinEra(cfg: Config, st: Ledger, p: ProviderId, era: nat)
    requires WellFormed(cfg, st) && p in st.providers && st.providers[p].Earns(era) && era <= st.era.current
    ensures RecordOf(st.records, p, era).total <= EraOf(st.eraState, era).staked
  {
    assert EraOf(st.eraState, era).staked == EraTotal(st.providers, st.records, era);
    SumMember(st.providers.Keys, q => Contribution(st.providers, st.records, era, q), p);
  }

  /** An accepted claim of a provider moves exactly its percentage of its share from the pot to the owner. */
  lemma ProviderClaimMoves(cfg: Config, st: Ledger, p: ProviderId, era: nat)
    requires WellFormed(cfg, st) && ClaimProvider(cfg, st, p, era).Ok?
    ensures (p, era) in st.records && era in st.eraState && 0 < st.eraState[era].staked
    ensures exists amount: nat ::
              && ProviderGets(cfg, st.records[(p, era)].total, st.eraState[era], amount)
              && Transferred(st.bank, ClaimProvider(cfg, st, p, era).value.bank, cfg.pot, st.providers[p].owner, amount)
  {
    ProviderClaimPays(cfg, st, p, era);
    ClaimSteps.ClaimableProvider(cfg, st, p, era);
    TotalWithinEra(cfg, st, p, era);
    ProviderPartGets(cfg, st.records[(p, era)], st.eraState[era]);
  }

  lemma ProviderPartGets(cfg: Config, rec: ProviderEraMetadata, era: EraMetadata)
    requires 0 < rec.total <= era.staked
    ensures ProviderGets(cfg, rec.total, era, ProviderPart(cfg, rec, era))
  {
    ProportionIs(rec.total, era.staked, era.rewards);
    assert Nearest(ProviderPart(cfg, rec, era), cfg.providerRewardsPercentage, ProviderShare(rec, era));
  }

  /** The oldest era owed to d with p, and what of it is due. */
  ghost predicate OldestDue(cfg: Config, st: Ledger, d: AccountId, p: ProviderId, era: nat, amount: nat) {
    && Owed(st, d, p, era) && (forall e: nat :: e < era ==> !Owed(st, d, p, e))
    && DelegatorGets(cfg, RecordOf(st.records, p, era).total, EraOf(st.eraState, era), st.trace.history(d, p, era),
                     StakeSum(st.trace.history, st.trace.stakers, p, era), amount)
  }

  /**
    An accepted claim of a delegator moves exactly its part of the delegators' rest, for the oldest
    era owed, from the pot to it.
   */
  lemma DelegatorClaimMoves(cfg: Config, st: Ledger, d: AccountId, p: ProviderId)
    requires WellFormed(cfg, st) && ClaimDelegator(cfg, st, d, p).Ok?
    ensures exists era: nat, amount: nat ::
              && OldestDue(cfg, st, d, p, era, amount)
              && Transferred(st.bank, ClaimDelegator(cfg, st, d, p).value.bank, cfg.pot, d, amount)
  {
    var era := Claimed(StakesOf(st.delegations, d, p)).era;
    DelegatorClaimPays(cfg, st, d, p);
    var amount := DelegatorReward(cfg, st.trace.history(d, p, era), st.records[(p, era)], st.eraState[era]);
    ClaimIsOldestDue(cfg, st, d, p, era, amount);
    assert OldestDue(cfg, st, d, p, era, amount);
  }

  lemma ClaimIsOldestDue(cfg: Config, st: Ledger, d: AccountId, p: ProviderId, era: nat, amount: nat)
    requires WellFormed(cfg, st) && Accepted(ClaimDelegator(cfg, st, d, p))
    requires era == Claimed(StakesOf(st.delegations, d, p)).era && (p, era) in st.records && era in st.eraState
    requires amount == DelegatorReward(cfg, st.trace.history(d, p, era), st.records[(p, era)], st.eraState[era])
    ensures OldestDue(cfg, st, d, p, era, amount)
  {
    DelegatorClaimOldest(cfg, st, d, p);
    HeldGets(cfg, st, d, p, era);
  }

  /** What was held in an era that a provider earned in gets its proportion. */
  lemma HeldGets(cfg: Config, st: Ledger, d: AccountId, p: ProviderId, era: nat)
    requires WellFormed(cfg, st) && p in st.providers && st.providers[p].Earns(era) && era <= st.era.current
    requires (p, era) in st.records && era in st.eraState && st.trace.history(d, p, era) > 0
    ensures var held := st.trace.history(d, p, era);
            DelegatorGets(cfg, st.records[(p, era)].total, st.eraState[era], held,
                          StakeSum(st.trace.history, st.trace.stakers, p, era),
                          DelegatorReward(cfg, held, st.records[(p, era)], st.eraState[era]))
  {
    TotalWithinEra(cfg, st, p, era);
    HeldWithinAll(cfg, st, d, p, era);
    DelegatorRewardGets(cfg, st.records[(p, era)], st.eraState[era], st.trace.history(d, p, era));
  }

  lemma HeldWithinAll(cfg: Config, st: Ledger, d: AccountId, p: ProviderId, era: nat)
    requires WellFormed(cfg, st) && (p, era) in st.records && st.trace.history(d, p, era) > 0
    ensures st.trace.history(d, p, era) <= StakeSum(st.trace.history, st.trace.stakers, p, era)
    ensures st.records[(p, era)].total
            == st.records[(p, era)].bond + StakeSum(st.trace.history, st.trace.stakers, p, era)
  {
    assert StakeOk(cfg, st.providers, st.records, st.era.current, st.trace.history, st.trace.stakers, d, p, era);
    SumMember(st.trace.stakers, x => st.trace.history(x, p, era), d);
  }

  lemma DelegatorRewardGets(cfg: Config, rec: ProviderEraMetadata, era: EraMetadata, held: nat)
    requires rec.total <= era.staked && rec.bond <= rec.total && 0 < held <= rec.total - rec.bond
    ensures DelegatorGets(cfg, rec.total, era, held, rec.total - rec.bond, DelegatorReward(cfg, held, rec, era))
  {
    var share := ProviderShare(rec, era);
    var own := ProviderPart(cfg, rec, era);
    ProportionIs(rec.total, era.staked, era.rewards);
    ProportionIs(held, rec.total - rec.bond, share - own);
    assert Nearest(own, cfg.providerRewardsPercentage, share) && own <= share;
  }
}
