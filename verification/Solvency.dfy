/**
  What is paid out for an era never exceeds what was deposited for it by more than the rounding
  of the individual payments, in whatever order and however late the claims arrive.
 */
module Solvency {
  import opened Sums
  import opened Currency
  import Delegations
  import opened Perbill
  import opened StakingTypes
  import opened StakingSpec
  import opened StakingInvariant
  import StakingFrames
  import opened ClaimSteps
  import opened Claims

  // ---- What was paid for an era

  function ProvidersPaidIn(t: Trace, era: nat): set<(ProviderId, nat)> {
    set k | k in t.paidProviders && k.1 == era
  }

  function DelegatorsPaidIn(t: Trace, era: nat): set<(AccountId, ProviderId, nat)> {
    set k | k in t.paidDelegators && k.2 == era
  }

  ghost function PaidFor(t: Trace, era: nat): nat {
    Sum(ProvidersPaidIn(t, era), PaidAmount(t.paidProviders))
      + Sum(DelegatorsPaidIn(t, era), PaidAmount(t.paidDelegators))
  }

  /** How many payments were made for an era, to providers and to delegators. */
  function Payees(t: Trace, era: nat): nat {
    |ProvidersPaidIn(t, era)| + |DelegatorsPaidIn(t, era)|
  }

  /** How many payments were made at all. */
  function AllPayees(t: Trace): nat {
    |t.paidProviders| + |t.paidDelegators|
  }

  /** The providers rewarded for an era. */
  function EarningIn(providers: Providers, records: Records, era: nat): set<ProviderId> {
    set p | p in providers && providers[p].Earns(era) && (p, era) in records
  }

  /** The providers through which anything was paid for an era. */
  function PayingIn(t: Trace, era: nat): set<ProviderId> {
    (set k | k in ProvidersPaidIn(t, era) :: k.0) + (set k | k in DelegatorsPaidIn(t, era) :: k.1)
  }

  // ---- Rounding

  /** x, taken in the proportion p : q with both roundings, exceeds x * p / q by less than one half. */
  lemma ProportionBound(p: nat, q: nat, x: nat)
    requires q > 0
    ensures q * (2 * Of(FromRational(p, q), x)) < (2 * x) * p + q
  {
    var r := FromRational(p, q);
    Scale(p, q, x, r, Of(r, x));
  }

  lemma Scale(p: nat, q: nat, x: nat, r: nat, y: nat)
    requires q > 0 && r * q <= p * ACCURACY && 2 * ACCURACY * y < 2 * (r * x) + ACCURACY
    ensures q * (2 * y) < (2 * x) * p + q
  {
    MulMono(2 * ACCURACY * y, 2 * (r * x) + ACCURACY - 1, q);
    Rearrange(r, x, q);
    MulMono(r * q, p * ACCURACY, 2 * x);
    assert (2 * ACCURACY * y) * q == ACCURACY * (q * (2 * y));
    assert p * ACCURACY * (2 * x) == ACCURACY * ((2 * x) * p);
  }

  lemma Rearrange(r: nat, x: nat, q: nat)
    ensures (2 * (r * x) + ACCURACY - 1) * q == r * q * (2 * x) + ACCURACY * q - q
  {
    assert (r * x) * q == x * (r * q);
  }

  // ---- One provider in one era

  /** The stakes that delegators' payments were made for. */
  function HeldBy(h: History): ((AccountId, ProviderId, nat)) -> nat {
    (k: (AccountId, ProviderId, nat)) => h(k.0, k.1, k.2)
  }

  function HeldIn(h: History, p: ProviderId, era: nat): AccountId -> nat {
    d => h(d, p, era)
  }

  /** Distinct payments for the same provider and era go to distinct stakers. */
  lemma {:induction false} PaidStakesWithin(keys: set<(AccountId, ProviderId, nat)>, stakers: set<AccountId>,
                                            h: History, p: ProviderId, era: nat)
    requires forall k :: k in keys ==> k.0 in stakers && k.1 == p && k.2 == era
    ensures Sum(keys, HeldBy(h)) <= Sum(stakers, HeldIn(h, p, era))
  {
    if keys == {} {
      SumZero(keys, HeldBy(h));
    } else {
      var k :| k in keys;
      var rest := stakers - {k.0};
      forall j | j in keys - {k} ensures j.0 in rest {
        assert j.1 == k.1 && j.2 == k.2;
      }
      PaidStakesWithin(keys - {k}, rest, h, p, era);
      SumRemove(keys, HeldBy(h), k);
      SumRemove(stakers, HeldIn(h, p, era), k.0);
    }
  }

  function PaidDelegatorsOf(t: Trace, p: ProviderId, era: nat): set<(AccountId, ProviderId, nat)> {
    set k | k in DelegatorsPaidIn(t, era) && k.1 == p
  }

  function PaidProviderOf(t: Trace, p: ProviderId, era: nat): set<(ProviderId, nat)> {
    set k | k in ProvidersPaidIn(t, era) && k.0 == p
  }

  ghost predicate Accounts(cfg: Config, providers: Providers, records: Records, eraState: EraStates, current: nat,
                           t: Trace) {
    && RecordsOk(cfg, providers, records, current)
    && StakesOk(cfg, providers, records, current, t)
    && HistoryOk(records, t.history, t.stakers)
    && TotalsOk(providers, records, eraState, current)
    && PaymentsOk(cfg, providers, records, eraState, current, t)
  }

  lemma StakeSumHeld(h: History, stakers: set<AccountId>, p: ProviderId, era: nat)
    ensures StakeSum(h, stakers, p, era) == Sum(stakers, HeldIn(h, p, era))
  {
    SumCong(stakers, d => h(d, p, era), HeldIn(h, p, era));
  }

  lemma PaymentBound(cfg: Config, providers: Providers, records: Records, eraState: EraStates, current: nat, t: Trace,
                     d: AccountId, p: ProviderId, era: nat)
    requires HistoryOk(records, t.history, t.stakers) && StakesOk(cfg, providers, records, current, t)
    requires PaymentsOk(cfg, providers, records, eraState, current, t)
    requires (d, p, era) in t.paidDelegators
    ensures (p, era) in records && d in t.stakers && t.history(d, p, era) > 0
    ensures var staked := StakeSum(t.history, t.stakers, p, era);
            0 < staked ==>
              staked * (2 * t.paidDelegators[(d, p, era)])
              < (2 * DelegatorsPart(cfg, records[(p, era)], EraOf(eraState, era))) * t.history(d, p, era) + staked
  {
    assert DelegatorPaidOk(cfg, providers, records, eraState, current, t.history, d, p, era,
                           t.paidDelegators[(d, p, era)]);
    assert StakeOk(cfg, providers, records, current, t.history, t.stakers, d, p, era);
    var rec := records[(p, era)];
    var staked := StakeSum(t.history, t.stakers, p, era);
    assert rec.total == rec.bond + staked;
    if 0 < staked {
      ProportionBound(t.history(d, p, era), staked, DelegatorsPart(cfg, rec, EraOf(eraState, era)));
    }
  }

  lemma PaymentBounds(cfg: Config, providers: Providers, records: Records, eraState: EraStates, current: nat, t: Trace,
                      p: ProviderId, era: nat)
    requires HistoryOk(records, t.history, t.stakers) && StakesOk(cfg, providers, records, current, t)
    requires PaymentsOk(cfg, providers, records, eraState, current, t) && (p, era) in records
    ensures var staked := StakeSum(t.history, t.stakers, p, era);
            var part := DelegatorsPart(cfg, records[(p, era)], EraOf(eraState, era));
            forall k :: k in PaidDelegatorsOf(t, p, era) ==>
              && k.0 in t.stakers && 0 < HeldBy(t.history)(k)
              && (0 < staked ==>
                    staked * (2 * PaidAmount(t.paidDelegators)(k)) < (2 * part) * HeldBy(t.history)(k) + staked)
  {
    var staked := StakeSum(t.history, t.stakers, p, era);
    var part := DelegatorsPart(cfg, records[(p, era)], EraOf(eraState, era));
    forall k | k in PaidDelegatorsOf(t, p, era)
      ensures k.0 in t.stakers && 0 < HeldBy(t.history)(k)
      ensures 0 < staked ==> staked * (2 * PaidAmount(t.paidDelegators)(k)) < (2 * part) * HeldBy(t.history)(k) + staked
    {
      PaymentBound(cfg, providers, records, eraState, current, t, k.0, k.1, k.2);
    }
  }

  /** The delegators of p get less than the delegators' part and one half for each of them. */
  lemma DelegatorsBound(cfg: Config, providers: Providers, records: Records, eraState: EraStates, current: nat,
                        t: Trace, p: ProviderId, era: nat)
    requires Accounts(cfg, providers, records, eraState, current, t) && (p, era) in records
    requires PaidDelegatorsOf(t, p, era) != {}
    ensures 2 * Sum(PaidDelegatorsOf(t, p, era), PaidAmount(t.paidDelegators))
            < 2 * DelegatorsPart(cfg, records[(p, era)], EraOf(eraState, era)) + |PaidDelegatorsOf(t, p, era)|
  {
    var keys := PaidDelegatorsOf(t, p, era);
    var stakes := HeldBy(t.history);
    StakeSumHeld(t.history, t.stakers, p, era);
    PaymentBounds(cfg, providers, records, eraState, current, t, p, era);
    PaidStakesWithin(keys, t.stakers, t.history, p, era);
    var some :| some in keys;
    SumMember(keys, stakes, some);
    HalvesOfParts(keys, PaidAmount(t.paidDelegators), stakes, StakeSum(t.history, t.stakers, p, era),
                  DelegatorsPart(cfg, records[(p, era)], EraOf(eraState, era)));
  }

  lemma HalvesOfParts<K(!new)>(keys: set<K>, pays: K -> nat, stakes: K -> nat, staked: nat, part: nat)
    requires 0 < staked && Sum(keys, stakes) <= staked && keys != {}
    requires forall k :: k in keys ==> staked * (2 * pays(k)) < (2 * part) * stakes(k) + staked
    ensures 2 * Sum(keys, pays) < 2 * part + |keys|
  {
    var twice := k => 2 * pays(k);
    forall k | k in keys ensures staked * twice(k) < (2 * part) * stakes(k) + staked {
      assert staked * (2 * pays(k)) < (2 * part) * stakes(k) + staked;
    }
    SumOfParts(keys, twice, stakes, staked, 2 * part);
    SumPlus(keys, pays, pays, twice);
  }

  // ---- One provider with its delegators

  ghost function PaidVia(t: Trace, era: nat): ProviderId -> nat {
    p => Sum(PaidProviderOf(t, p, era), PaidAmount(t.paidProviders))
      + Sum(PaidDelegatorsOf(t, p, era), PaidAmount(t.paidDelegators))
  }

  /** Twice the share of each provider in the era's rewards, if it earned in it. */
  function Shares(providers: Providers, records: Records, eraState: EraStates, era: nat): ProviderId -> nat {
    p => if p in EarningIn(providers, records, era)
         then 2 * ProviderShare(RecordOf(records, p, era), EraOf(eraState, era))
         else 0
  }

  /** How many payments p and its delegators received. */
  function PayeesVia(t: Trace, era: nat): ProviderId -> nat {
    p => |PaidProviderOf(t, p, era)| + |PaidDelegatorsOf(t, p, era)|
  }

  lemma PaidAreEarning(cfg: Config, providers: Providers, records: Records, eraState: EraStates, current: nat,
                       t: Trace, era: nat)
    requires PaymentsOk(cfg, providers, records, eraState, current, t)
    ensures forall k :: k in ProvidersPaidIn(t, era) ==> k.0 in EarningIn(providers, records, era)
    ensures forall k :: k in DelegatorsPaidIn(t, era) ==> k.1 in EarningIn(providers, records, era)
  {
    forall k | k in ProvidersPaidIn(t, era) ensures k.0 in EarningIn(providers, records, era) {
      assert (k.0, k.1) in t.paidProviders;
      assert ProviderPaidOk(cfg, providers, records, eraState, current, k.0, k.1, t.paidProviders[(k.0, k.1)]);
    }
    forall k | k in DelegatorsPaidIn(t, era) ensures k.1 in EarningIn(providers, records, era) {
      assert (k.0, k.1, k.2) in t.paidDelegators;
      assert DelegatorPaidOk(cfg, providers, records, eraState, current, t.history, k.0, k.1, k.2,
                             t.paidDelegators[(k.0, k.1, k.2)]);
    }
  }

  lemma OwnBound(cfg: Config, providers: Providers, records: Records, eraState: EraStates, current: nat, t: Trace,
                 p: ProviderId, era: nat)
    requires PaymentsOk(cfg, providers, records, eraState, current, t) && (p, era) in records
    ensures Sum(PaidProviderOf(t, p, era), PaidAmount(t.paidProviders))
            <= ProviderPart(cfg, records[(p, era)], EraOf(eraState, era))
  {
    var own := PaidProviderOf(t, p, era);
    if (p, era) in t.paidProviders {
      assert own == {(p, era)};
      SumRemove(own, PaidAmount(t.paidProviders), (p, era));
      SumZero(own - {(p, era)}, PaidAmount(t.paidProviders));
      assert ProviderPaidOk(cfg, providers, records, eraState, current, p, era, t.paidProviders[(p, era)]);
    } else {
      assert own == {};
    }
  }

  lemma PayingThrough(t: Trace, p: ProviderId, era: nat)
    requires p in PayingIn(t, era)
    ensures PaidProviderOf(t, p, era) != {} || PaidDelegatorsOf(t, p, era) != {}
  {
    if k :| k in ProvidersPaidIn(t, era) && k.0 == p {
      assert k in PaidProviderOf(t, p, era);
    } else if k :| k in DelegatorsPaidIn(t, era) && k.1 == p {
      assert k in PaidDelegatorsOf(t, p, era);
    }
  }

  lemma ProviderPays(cfg: Config, providers: Providers, records: Records, eraState: EraStates, current: nat, t: Trace,
                     p: ProviderId, era: nat)
    requires Accounts(cfg, providers, records, eraState, current, t) && (p, era) in records
    requires PaidProviderOf(t, p, era) != {} || PaidDelegatorsOf(t, p, era) != {}
    ensures 2 * (Sum(PaidProviderOf(t, p, era), PaidAmount(t.paidProviders))
                 + Sum(PaidDelegatorsOf(t, p, era), PaidAmount(t.paidDelegators)))
            < 2 * ProviderShare(records[(p, era)], EraOf(eraState, era))
              + |PaidProviderOf(t, p, era)| + |PaidDelegatorsOf(t, p, era)|
  {
    OwnBound(cfg, providers, records, eraState, current, t, p, era);
    if PaidDelegatorsOf(t, p, era) != {} {
      DelegatorsBound(cfg, providers, records, eraState, current, t, p, era);
    } else {
      SumZero(PaidDelegatorsOf(t, p, era), PaidAmount(t.paidDelegators));
    }
  }

  /** Where anything was paid, p and its delegators get less than p's share and one half for each of them. */
  lemma ProviderBound(cfg: Config, providers: Providers, records: Records, eraState: EraStates, current: nat, t: Trace,
                      p: ProviderId, era: nat)
    requires Accounts(cfg, providers, records, eraState, current, t) && p in PayingIn(t, era)
    ensures p in EarningIn(providers, records, era)
    ensures 2 * PaidVia(t, era)(p) < Shares(providers, records, eraState, era)(p) + PayeesVia(t, era)(p)
  {
    PaidAreEarning(cfg, providers, records, eraState, current, t, era);
    PayingThrough(t, p, era);
    ProviderPays(cfg, providers, records, eraState, current, t, p, era);
  }

  // ---- All providers in one era

  lemma ShareBound(providers: Providers, records: Records, eraState: EraStates, era: nat, p: ProviderId)
    requires p in EarningIn(providers, records, era)
    ensures var staked := EraOf(eraState, era).staked;
            0 < staked ==>
              staked * Shares(providers, records, eraState, era)(p)
              < (2 * RewardsIn(eraState, era)) * Contribution(providers, records, era, p) + staked
    ensures EraOf(eraState, era).staked == 0 && Contribution(providers, records, era, p) == 0 ==>
              Shares(providers, records, eraState, era)(p) == 0
  {
    var rec := records[(p, era)];
    var state := EraOf(eraState, era);
    if 0 < state.staked {
      ProportionBound(rec.total, state.staked, state.rewards);
    } else if rec.total == 0 {
      assert FromRational(rec.total, state.staked) == 0;
    }
  }

  function Totals(providers: Providers, records: Records, era: nat): ProviderId -> nat {
    p => Contribution(providers, records, era, p)
  }

  lemma TotalsOfEarning(providers: Providers, records: Records, eraState: EraStates, current: nat, era: nat)
    requires TotalsOk(providers, records, eraState, current) && era <= current
    ensures Sum(EarningIn(providers, records, era), Totals(providers, records, era)) == EraOf(eraState, era).staked
  {
    assert EraOf(eraState, era).staked == EraTotal(providers, records, era);
    SumCong(providers.Keys, p => Contribution(providers, records, era, p), Totals(providers, records, era));
    SumSupport(EarningIn(providers, records, era), providers.Keys, Totals(providers, records, era));
  }

  /** The shares of some providers add up to less than the era's rewards and one half each. */
  lemma SharesBound(providers: Providers, records: Records, eraState: EraStates, current: nat, era: nat,
                    some: set<ProviderId>)
    requires TotalsOk(providers, records, eraState, current) && era <= current
    requires some != {} && some <= EarningIn(providers, records, era)
    ensures Sum(some, Shares(providers, records, eraState, era)) < 2 * RewardsIn(eraState, era) + |some|
  {
    var staked := EraOf(eraState, era).staked;
    var earning := EarningIn(providers, records, era);
    var shares := Shares(providers, records, eraState, era);
    var totals := Totals(providers, records, era);
    TotalsOfEarning(providers, records, eraState, current, era);
    SumWithin(some, earning, totals);
    if staked == 0 {
      forall p | p in some ensures shares(p) == 0 {
        SumMember(some, totals, p);
        ShareBound(providers, records, eraState, era, p);
      }
      SumZero(some, shares);
    } else {
      forall p | p in some ensures staked * shares(p) < (2 * RewardsIn(eraState, era)) * totals(p) + staked {
        ShareBound(providers, records, eraState, era, p);
      }
      SumOfParts(some, shares, totals, staked, 2 * RewardsIn(eraState, era));
    }
  }

  ghost function OwnVia(t: Trace, era: nat, pays: ((ProviderId, nat)) -> nat): ProviderId -> nat {
    p => Sum(PaidProviderOf(t, p, era), pays)
  }

  ghost function TheirsVia(t: Trace, era: nat, pays: ((AccountId, ProviderId, nat)) -> nat): ProviderId -> nat {
    p => Sum(PaidDelegatorsOf(t, p, era), pays)
  }

  lemma OwnByProvider(t: Trace, era: nat, pays: ((ProviderId, nat)) -> nat)
    ensures Sum(ProvidersPaidIn(t, era), pays) == Sum(PayingIn(t, era), OwnVia(t, era, pays))
  {
    SumByPart(ProvidersPaidIn(t, era), pays, (k: (ProviderId, nat)) => k.0, PayingIn(t, era),
              p => PaidProviderOf(t, p, era), OwnVia(t, era, pays));
  }

  lemma TheirsByProvider(t: Trace, era: nat, pays: ((AccountId, ProviderId, nat)) -> nat)
    ensures Sum(DelegatorsPaidIn(t, era), pays) == Sum(PayingIn(t, era), TheirsVia(t, era, pays))
  {
    SumByPart(DelegatorsPaidIn(t, era), pays, (k: (AccountId, ProviderId, nat)) => k.1, PayingIn(t, era),
              p => PaidDelegatorsOf(t, p, era), TheirsVia(t, era, pays));
  }

  /** Payments regrouped by provider. */
  lemma PaidForByProvider(t: Trace, era: nat)
    ensures PaidFor(t, era) == Sum(PayingIn(t, era), PaidVia(t, era))
  {
    OwnByProvider(t, era, PaidAmount(t.paidProviders));
    TheirsByProvider(t, era, PaidAmount(t.paidDelegators));
    SumPlus(PayingIn(t, era), OwnVia(t, era, PaidAmount(t.paidProviders)),
            TheirsVia(t, era, PaidAmount(t.paidDelegators)), PaidVia(t, era));
  }

  function One<K(!new)>(): K -> nat {
    k => 1
  }

  lemma CountIsSum<K(!new)>(keys: set<K>)
    ensures Sum(keys, One()) == |keys|
  {
    SumOnes(keys);
    SumCong(keys, One(), k => 1);
  }

  /** Payees regrouped by provider. */
  lemma PayeesByProvider(t: Trace, era: nat)
    ensures Payees(t, era) == Sum(PayingIn(t, era), PayeesVia(t, era))
  {
    OwnByProvider(t, era, One());
    TheirsByProvider(t, era, One());
    CountIsSum(ProvidersPaidIn(t, era));
    CountIsSum(DelegatorsPaidIn(t, era));
    forall p | p in PayingIn(t, era)
      ensures PayeesVia(t, era)(p) == OwnVia(t, era, One())(p) + TheirsVia(t, era, One())(p)
    {
      CountIsSum(PaidProviderOf(t, p, era));
      CountIsSum(PaidDelegatorsOf(t, p, era));
    }
    SumPlus(PayingIn(t, era), OwnVia(t, era, One()), TheirsVia(t, era, One()), PayeesVia(t, era));
  }

  lemma {:induction false} SumHalves(s: set<ProviderId>, f: ProviderId -> nat, g: ProviderId -> nat,
                                     h: ProviderId -> nat)
    requires forall x :: x in s ==> 2 * f(x) < g(x) + h(x)
    ensures 2 * Sum(s, f) + |s| <= Sum(s, g) + Sum(s, h)
  {
    if s == {} {
      SumZero(s, f);
    } else {
      var k :| k in s;
      SumRemove(s, f, k);
      SumRemove(s, g, k);
      SumRemove(s, h, k);
      SumHalves(s - {k}, f, g, h);
    }
  }

  lemma NobodyPaid(t: Trace, era: nat)
    ensures PayingIn(t, era) == {} <==> Payees(t, era) == 0
    ensures Payees(t, era) == 0 ==> PaidFor(t, era) == 0
  {
    if k :| k in ProvidersPaidIn(t, era) {
      assert k.0 in PayingIn(t, era);
    }
    if k :| k in DelegatorsPaidIn(t, era) {
      assert k.1 in PayingIn(t, era);
    }
    if Payees(t, era) == 0 {
      SumZero(ProvidersPaidIn(t, era), PaidAmount(t.paidProviders));
      SumZero(DelegatorsPaidIn(t, era), PaidAmount(t.paidDelegators));
    }
  }

  /** What was paid for an era is nothing, or less than its rewards and one half for every payee. */
  lemma EraSolvency(cfg: Config, providers: Providers, records: Records, eraState: EraStates, current: nat, t: Trace,
                    era: nat)
    requires Accounts(cfg, providers, records, eraState, current, t) && era <= current
    ensures if Payees(t, era) == 0 then PaidFor(t, era) == 0
            else 2 * PaidFor(t, era) < 2 * RewardsIn(eraState, era) + Payees(t, era)
  {
    NobodyPaid(t, era);
    if Payees(t, era) > 0 {
      var paying := PayingIn(t, era);
      PaidForByProvider(t, era);
      PayeesByProvider(t, era);
      forall p | p in paying
        ensures p in EarningIn(providers, records, era)
        ensures 2 * PaidVia(t, era)(p) < Shares(providers, records, eraState, era)(p) + PayeesVia(t, era)(p)
      {
        ProviderBound(cfg, providers, records, eraState, current, t, p, era);
      }
      SumHalves(paying, PaidVia(t, era), Shares(providers, records, eraState, era), PayeesVia(t, era));
      SharesBound(providers, records, eraState, current, era, paying);
    }
  }

  // ---- All eras, and the pot

  function Below(n: nat): (eras: set<nat>)
    ensures forall e: nat :: e in eras <==> e < n
  {
    if n == 0 then {} else Below(n - 1) + {n - 1}
  }

  lemma {:induction false} SumUpToIsSum(n: nat, f: nat -> nat)
    ensures SumUpTo(n, f) == Sum(Below(n), f)
  {
    if n > 0 {
      var last: nat := n - 1;
      SumUpToIsSum(last, f);
      SumRemove(Below(n), f, last);
      assert Below(n) - {last} == Below(last);
    }
  }

  lemma {:induction false} SumUpToHalves(n: nat, f: nat -> nat, g: nat -> nat, h: nat -> nat)
    requires forall e: nat :: e < n ==> if h(e) == 0 then f(e) == 0 else 2 * f(e) < 2 * g(e) + h(e)
    ensures if SumUpTo(n, h) == 0 then SumUpTo(n, f) == 0 else 2 * SumUpTo(n, f) < 2 * SumUpTo(n, g) + SumUpTo(n, h)
  {
    if n > 0 {
      SumUpToHalves(n - 1, f, g, h);
    }
  }

  ghost function PaidForEras(t: Trace): nat -> nat {
    e => PaidFor(t, e)
  }

  ghost function PayeesForEras(t: Trace): nat -> nat {
    e => Payees(t, e)
  }

  function OwnIn(t: Trace): nat -> set<(ProviderId, nat)> {
    e => ProvidersPaidIn(t, e)
  }

  function TheirsIn(t: Trace): nat -> set<(AccountId, ProviderId, nat)> {
    e => DelegatorsPaidIn(t, e)
  }

  ghost function OwnForEras(t: Trace, pays: ((ProviderId, nat)) -> nat): nat -> nat {
    e => Sum(ProvidersPaidIn(t, e), pays)
  }

  ghost function TheirsForEras(t: Trace, pays: ((AccountId, ProviderId, nat)) -> nat): nat -> nat {
    e => Sum(DelegatorsPaidIn(t, e), pays)
  }

  lemma OwnByEra(t: Trace, eras: set<nat>, pays: ((ProviderId, nat)) -> nat)
    requires forall k :: k in t.paidProviders ==> k.1 in eras
    ensures Sum(t.paidProviders.Keys, pays) == Sum(eras, OwnForEras(t, pays))
  {
    SumByPart(t.paidProviders.Keys, pays, (k: (ProviderId, nat)) => k.1, eras, OwnIn(t), OwnForEras(t, pays));
  }

  lemma TheirsByEra(t: Trace, eras: set<nat>, pays: ((AccountId, ProviderId, nat)) -> nat)
    requires forall k :: k in t.paidDelegators ==> k.2 in eras
    ensures Sum(t.paidDelegators.Keys, pays) == Sum(eras, TheirsForEras(t, pays))
  {
    SumByPart(t.paidDelegators.Keys, pays, (k: (AccountId, ProviderId, nat)) => k.2, eras, TheirsIn(t),
              TheirsForEras(t, pays));
  }

  /** All payments were made for eras before n. */
  predicate PaidBefore(t: Trace, n: nat) {
    && (forall k :: k in t.paidProviders ==> k.1 < n)
    && (forall k :: k in t.paidDelegators ==> k.2 < n)
  }

  /** All payments, regrouped by the era they were made for. */
  lemma PaymentsByEra(t: Trace, current: nat)
    requires PaidBefore(t, current)
    ensures AllPayments(t) == SumUpTo(current, PaidForEras(t))
  {
    var eras := Below(current);
    OwnByEra(t, eras, PaidAmount(t.paidProviders));
    TheirsByEra(t, eras, PaidAmount(t.paidDelegators));
    SumPlus(eras, OwnForEras(t, PaidAmount(t.paidProviders)), TheirsForEras(t, PaidAmount(t.paidDelegators)),
            PaidForEras(t));
    SumUpToIsSum(current, PaidForEras(t));
  }

  lemma OwnCounts(t: Trace, eras: set<nat>)
    requires forall k :: k in t.paidProviders ==> k.1 in eras
    ensures |t.paidProviders| == Sum(eras, OwnForEras(t, One()))
  {
    OwnByEra(t, eras, One());
    CountIsSum(t.paidProviders.Keys);
  }

  lemma TheirsCounts(t: Trace, eras: set<nat>)
    requires forall k :: k in t.paidDelegators ==> k.2 in eras
    ensures |t.paidDelegators| == Sum(eras, TheirsForEras(t, One()))
  {
    TheirsByEra(t, eras, One());
    CountIsSum(t.paidDelegators.Keys);
  }

  lemma PayeesIn(t: Trace, e: nat)
    ensures PayeesForEras(t)(e) == OwnForEras(t, One())(e) + TheirsForEras(t, One())(e)
  {
    CountIsSum(ProvidersPaidIn(t, e));
    CountIsSum(DelegatorsPaidIn(t, e));
  }

  lemma PayeesSplit(t: Trace, eras: set<nat>)
    ensures Sum(eras, PayeesForEras(t)) == Sum(eras, OwnForEras(t, One())) + Sum(eras, TheirsForEras(t, One()))
  {
    forall e | e in eras ensures PayeesForEras(t)(e) == OwnForEras(t, One())(e) + TheirsForEras(t, One())(e) {
      PayeesIn(t, e);
    }
    SumPlus(eras, OwnForEras(t, One()), TheirsForEras(t, One()), PayeesForEras(t));
  }

  /** All payees, likewise. */
  lemma PayeesByEra(t: Trace, current: nat)
    requires PaidBefore(t, current)
    ensures AllPayees(t) == SumUpTo(current, PayeesForEras(t))
  {
    var eras := Below(current);
    SumUpToIsSum(current, PayeesForEras(t));
    PayeesSplit(t, eras);
    OwnCounts(t, eras);
    TheirsCounts(t, eras);
  }

  lemma PaidForClosedEras(cfg: Config, providers: Providers, records: Records, eraState: EraStates, current: nat,
                          t: Trace)
    requires PaymentsOk(cfg, providers, records, eraState, current, t)
    ensures PaidBefore(t, current)
  {
    forall k | k in t.paidProviders ensures k.1 < current {
      StakingFrames.ProviderPaid(cfg, providers, records, eraState, current, t, k.0, k.1);
    }
    forall k | k in t.paidDelegators ensures k.2 < current {
      StakingFrames.DelegatorPaid(cfg, providers, records, eraState, current, t, k.0, k.1, k.2);
    }
  }

  /** All payments together are nothing, or less than all rewards of closed eras and one half for every payee. */
  lemma TotalSolvency(cfg: Config, providers: Providers, records: Records, eraState: EraStates, current: nat, t: Trace)
    requires Accounts(cfg, providers, records, eraState, current, t)
    ensures if AllPayees(t) == 0 then AllPayments(t) == 0
            else 2 * AllPayments(t) < 2 * ClosedRewards(eraState, current) + AllPayees(t)
  {
    PaidForClosedEras(cfg, providers, records, eraState, current, t);
    PaymentsByEra(t, current);
    PayeesByEra(t, current);
    var rewards: nat -> nat := e => RewardsIn(eraState, e);
    forall e: nat | e < current
      ensures if PayeesForEras(t)(e) == 0 then PaidForEras(t)(e) == 0
              else 2 * PaidForEras(t)(e) < 2 * rewards(e) + PayeesForEras(t)(e)
    {
      EraSolvency(cfg, providers, records, eraState, current, t, e);
    }
    SumUpToHalves(current, PaidForEras(t), rewards, PayeesForEras(t));
    SumUpToCong(current, rewards, e => RewardsIn(eraState, e));
  }

  lemma PaymentAdded<K(!new)>(paid: map<K, nat>, k: K, amount: nat)
    requires k !in paid
    ensures Sum(paid[k := amount].Keys, PaidAmount(paid[k := amount])) == Sum(paid.Keys, PaidAmount(paid)) + amount
    ensures |paid[k := amount]| == |paid| + 1
  {
    assert paid[k := amount].Keys == paid.Keys + {k};
    SumPoint(paid.Keys, PaidAmount(paid), paid[k := amount].Keys, PaidAmount(paid[k := amount]), k);
  }

  // ---- Claims, and what the pot holds for them

  /** What the next claim of d with p pays, funds permitting. */
  function DelegatorDue(cfg: Config, st: Ledger, d: AccountId, p: ProviderId): nat {
    var c := Delegations.Claimed(StakesOf(st.delegations, d, p));
    DelegatorReward(cfg, c.amount, RecordOf(st.records, p, c.era), EraOf(st.eraState, c.era))
  }

  /** What the claim of p for an era pays, funds permitting. */
  function ProviderDue(cfg: Config, st: Ledger, p: ProviderId, era: nat): nat {
    ProviderPart(cfg, RecordOf(st.records, p, era), EraOf(st.eraState, era))
  }

  /** With one more payment, the rewards of closed eras and the rounding of all earlier payments still suffice. */
  lemma DelegatorDueWithin(cfg: Config, st: Ledger, d: AccountId, p: ProviderId)
    requires WellFormed(cfg, st) && Accepted(ClaimDelegator(cfg, st, d, p))
    ensures 2 * (AllPayments(st.trace) + DelegatorDue(cfg, st, d, p))
            <= 2 * ClosedRewards(st.eraState, st.era.current) + AllPayees(st.trace)
  {
    var c := Delegations.Claimed(StakesOf(st.delegations, d, p));
    ClaimableDelegator(cfg, st, d, p);
    var reward := DelegatorDue(cfg, st, d, p);
    var t := PaidDelegator(st.trace, d, p, c.era, reward);
    ClaimedPayments(cfg, st, d, p, c.era, reward);
    assert StakesOk(cfg, st.providers, st.records, st.era.current, t);
    TotalSolvency(cfg, st.providers, st.records, st.eraState, st.era.current, t);
    PaymentAdded(st.trace.paidDelegators, (d, p, c.era), reward);
  }

  lemma ProviderDueWithin(cfg: Config, st: Ledger, p: ProviderId, era: nat)
    requires WellFormed(cfg, st) && Accepted(ClaimProvider(cfg, st, p, era))
    ensures 2 * (AllPayments(st.trace) + ProviderDue(cfg, st, p, era))
            <= 2 * ClosedRewards(st.eraState, st.era.current) + AllPayees(st.trace)
  {
    var reward := ProviderDue(cfg, st, p, era);
    var t := st.trace.(paidProviders := st.trace.paidProviders[(p, era) := reward]);
    FlaggedRecords(cfg, st, p, era);
    FlaggedTotals(cfg, st, p, era);
    FlaggedPayments(cfg, st, p, era, reward);
    assert StakesOk(cfg, st.providers, Flagged(st.records, p, era), st.era.current, t);
    TotalSolvency(cfg, st.providers, Flagged(st.records, p, era), st.eraState, st.era.current, t);
    StakingFrames.ProviderPaid(cfg, st.providers, st.records, st.eraState, st.era.current, st.trace, p, era);
    PaymentAdded(st.trace.paidProviders, (p, era), reward);
  }

  /**
    The pot covers every delegator's claim up to the rounding of the payments made before: it holds
    the reward, and the accumulator on top, but for at most half a unit for each of them.  The claim
    goes through exactly if the pot holds the reward, and so whenever twice the accumulator comes
    within one of the number of payments.
   */
  lemma DelegatorClaimCovered(cfg: Config, st: Ledger, d: AccountId, p: ProviderId)
    requires WellFormed(cfg, st) && PotOk(cfg, st) && Accepted(ClaimDelegator(cfg, st, d, p))
    ensures 2 * (DelegatorDue(cfg, st, d, p) + st.accumulator) <= 2 * st.bank.Free(cfg.pot) + AllPayees(st.trace)
    ensures ClaimDelegator(cfg, st, d, p).Ok? <==> DelegatorDue(cfg, st, d, p) <= st.bank.Free(cfg.pot)
    ensures 2 * st.accumulator + 1 >= AllPayees(st.trace) ==> ClaimDelegator(cfg, st, d, p).Ok?
  {
    DelegatorDueWithin(cfg, st, d, p);
    DelegatorPaidIff(cfg, st, d, p);
  }

  /** And every provider's claim, on the same terms. */
  lemma ProviderClaimCovered(cfg: Config, st: Ledger, p: ProviderId, era: nat)
    requires WellFormed(cfg, st) && PotOk(cfg, st) && Accepted(ClaimProvider(cfg, st, p, era))
    ensures 2 * (ProviderDue(cfg, st, p, era) + st.accumulator) <= 2 * st.bank.Free(cfg.pot) + AllPayees(st.trace)
    ensures ClaimProvider(cfg, st, p, era).Ok? <==> ProviderDue(cfg, st, p, era) <= st.bank.Free(cfg.pot)
    ensures 2 * st.accumulator + 1 >= AllPayees(st.trace) ==> ClaimProvider(cfg, st, p, era).Ok?
  {
    ProviderDueWithin(cfg, st, p, era);
    ProviderPaidIff(cfg, st, p, era);
  }

  lemma DelegatorPaidIff(cfg: Config, st: Ledger, d: AccountId, p: ProviderId)
    requires Accepted(ClaimDelegator(cfg, st, d, p))
    ensures ClaimDelegator(cfg, st, d, p).Ok? <==> DelegatorDue(cfg, st, d, p) <= st.bank.Free(cfg.pot)
  {
  }

  lemma ProviderPaidIff(cfg: Config, st: Ledger, p: ProviderId, era: nat)
    requires Accepted(ClaimProvider(cfg, st, p, era))
    ensures ClaimProvider(cfg, st, p, era).Ok? <==> ProviderDue(cfg, st, p, era) <= st.bank.Free(cfg.pot)
  {
  }
}
