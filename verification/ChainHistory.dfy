/**
  Seen from staking, a run of the whole chain is a run of staking in which the validator set is
  part of the rest of the chain.  So whatever holds over runs of staking holds over runs of the chain.
 */
module ChainHistory {
  import opened Currency
  import Delegations
  import opened StakingTypes
  import opened StakingSpec
  import StakingInvariant
  import StakingHistory
  import StakingGuarantees
  import Settlement
  import Issuance
  import EraClock
  import Bonds
  import Holding
  import Refusals
  import opened Chain
  import Dapi = DapiSpec
  import ValidatorLedger
  import V = ValidatorSpec
  import Sums
  import StakingRuns

  /** Nothing happens. */
  function Idle(c: Chain): StakingRuns.Call {
    StakingRuns.Elsewhere(c.ledger.bank)
  }

  /** What a call on the chain is to staking. */
  ghost function View(cfg: ChainConfig, c: Chain, call: ChainCall): StakingRuns.Call {
    match call
    case NextBlock => StakingRuns.Initialize(c.now + 1)
    case ToStaking(call) => if Public(c, call) then call else Idle(c)
    case ToValidators(call) => StakingRuns.Elsewhere(ValidatorStep(cfg, c, call).ledger.bank)
    case ToDapi(call) => DapiView(cfg, c, call)
  }

  function DapiView(cfg: ChainConfig, c: Chain, call: Dapi.DapiCall): StakingRuns.Call {
    var accepted := Dapi.Dispatch(cfg.staking, Dapi.Site(c.directory, c.ledger), call).Ok?
                    && !(call.Activate? && call.owner == cfg.staking.pot);
    if accepted && StakingCall(call).Some? then StakingCall(call).value else Idle(c)
  }

  /** What a run on the chain is to staking. */
  ghost function Views(cfg: ChainConfig, c: Chain, calls: seq<ChainCall>): seq<StakingRuns.Call>
    decreases |calls|
  {
    if calls == [] then [] else [View(cfg, c, calls[0])] + Views(cfg, Step(cfg, c, calls[0]), calls[1..])
  }

  lemma IdleStays(cfg: Config, st: Ledger)
    ensures StakingRuns.Step(cfg, st, StakingRuns.Elsewhere(st.bank)) == st
  {
  }

  lemma ValidatorView(cfg: ChainConfig, c: Chain, bank: Bank)
    requires StakingRuns.Respectful(cfg.staking, c.ledger, bank)
    ensures StakingRuns.Step(cfg.staking, c.ledger, StakingRuns.Elsewhere(bank)) == c.ledger.(bank := bank)
  {
  }

  lemma DapiIsView(cfg: ChainConfig, c: Chain, call: Dapi.DapiCall)
    ensures DapiStep(cfg, c, call).ledger == StakingRuns.Step(cfg.staking, c.ledger, DapiView(cfg, c, call))
  {
    var s := Dapi.Site(c.directory, c.ledger);
    IdleStays(cfg.staking, c.ledger);
    if Dapi.Dispatch(cfg.staking, s, call).Ok? && !(call.Activate? && call.owner == cfg.staking.pot) {
      DapiIsStaking(cfg.staking, s, call);
    }
  }

  lemma ValidatorIsView(cfg: ChainConfig, c: Chain, call: ValidatorLedger.ValidatorCall)
    requires cfg.Separate() && ChainOk(cfg, c)
    ensures var next := ValidatorStep(cfg, c, call);
            next.ledger == StakingRuns.Step(cfg.staking, c.ledger, StakingRuns.Elsewhere(next.ledger.bank))
  {
    ValidatorIsElsewhere(cfg, c, call);
    ValidatorView(cfg, c, ValidatorStep(cfg, c, call).ledger.bank);
  }

  /** Every call on the chain is one step of staking. */
  lemma StepIsView(cfg: ChainConfig, c: Chain, call: ChainCall)
    requires cfg.Separate() && ChainOk(cfg, c)
    ensures Step(cfg, c, call).ledger == StakingRuns.Step(cfg.staking, c.ledger, View(cfg, c, call))
  {
    match call
    case NextBlock =>
    case ToStaking(call) => IdleStays(cfg.staking, c.ledger);
    case ToValidators(call) => ValidatorIsView(cfg, c, call);
    case ToDapi(call) => DapiIsView(cfg, c, call);
  }

  /** Every run of the chain is, on the ledger, a run of staking. */
  lemma {:induction false} RunIsViews(cfg: ChainConfig, c: Chain, calls: seq<ChainCall>)
    requires cfg.Separate() && ChainOk(cfg, c)
    ensures Run(cfg, c, calls).ledger == StakingRuns.Run(cfg.staking, c.ledger, Views(cfg, c, calls))
    decreases |calls|
  {
    if calls != [] {
      var next := Step(cfg, c, calls[0]);
      var rest := Views(cfg, next, calls[1..]);
      StepIsView(cfg, c, calls[0]);
      StepOk(cfg, c, calls[0]);
      RunIsViews(cfg, next, calls[1..]);
      assert Views(cfg, c, calls)[0] == View(cfg, c, calls[0]) && Views(cfg, c, calls)[1..] == rest;
    }
  }

  // ---- What runs of staking promise, on the chain

  /** Closed eras and payments are never changed by anything that happens on the chain. */
  lemma PastIsFrozen(cfg: ChainConfig, c: Chain, calls: seq<ChainCall>)
    requires cfg.Separate() && ChainOk(cfg, c)
    ensures StakingHistory.Extends(c.ledger, Run(cfg, c, calls).ledger)
  {
    RunIsViews(cfg, c, calls);
    StakingHistory.RunExtends(cfg.staking, c.ledger, Views(cfg, c, calls));
  }

  lemma ProviderClaimStep(cfg: ChainConfig, c: Chain, p: ProviderId, era: nat)
    requires ClaimProvider(cfg.staking, c.ledger, p, era).Ok?
    ensures Step(cfg, c, ToStaking(StakingRuns.ProviderClaim(p, era))).ledger
            == ClaimProvider(cfg.staking, c.ledger, p, era).value
  {
  }

  lemma DelegatorClaimStep(cfg: ChainConfig, c: Chain, d: AccountId, p: ProviderId)
    requires d != cfg.staking.pot && ClaimDelegator(cfg.staking, c.ledger, d, p).Ok?
    ensures Step(cfg, c, ToStaking(StakingRuns.DelegatorClaim(d, p))).ledger
            == ClaimDelegator(cfg.staking, c.ledger, d, p).value
  {
  }

  /** After a call, a run on the chain is still a run of staking. */
  lemma LaterIsViews(cfg: ChainConfig, c: Chain, call: ChainCall, calls: seq<ChainCall>)
    requires cfg.Separate() && ChainOk(cfg, c)
    ensures Run(cfg, Step(cfg, c, call), calls).ledger
            == StakingRuns.Run(cfg.staking, Step(cfg, c, call).ledger, Views(cfg, Step(cfg, c, call), calls))
  {
    StepOk(cfg, c, call);
    RunIsViews(cfg, Step(cfg, c, call), calls);
  }

  /** On the chain no provider is paid twice for an era. */
  lemma ProviderPaidOnce(cfg: ChainConfig, c: Chain, p: ProviderId, era: nat, calls: seq<ChainCall>)
    requires cfg.Separate() && ChainOk(cfg, c) && ClaimProvider(cfg.staking, c.ledger, p, era).Ok?
    ensures var next := Step(cfg, c, ToStaking(StakingRuns.ProviderClaim(p, era)));
            ClaimProvider(cfg.staking, Run(cfg, next, calls).ledger, p, era).Err?
  {
    var call := ToStaking(StakingRuns.ProviderClaim(p, era));
    ProviderClaimStep(cfg, c, p, era);
    LaterIsViews(cfg, c, call, calls);
    StakingHistory.ProviderPaidOnce(cfg.staking, c.ledger, p, era, Views(cfg, Step(cfg, c, call), calls));
  }

  /** On the chain no delegator is paid twice for an era with a provider. */
  lemma DelegatorPaidOnce(cfg: ChainConfig, c: Chain, d: AccountId, p: ProviderId, calls: seq<ChainCall>)
    requires cfg.Separate() && ChainOk(cfg, c)
    requires d != cfg.staking.pot && ClaimDelegator(cfg.staking, c.ledger, d, p).Ok?
    ensures var last := Run(cfg, Step(cfg, c, ToStaking(StakingRuns.DelegatorClaim(d, p))), calls).ledger;
            ClaimDelegator(cfg.staking, last, d, p).Ok? ==>
              Delegations.Claimed(StakesOf(last.delegations, d, p)).era
              != Delegations.Claimed(StakesOf(c.ledger.delegations, d, p)).era
  {
    var call := ToStaking(StakingRuns.DelegatorClaim(d, p));
    DelegatorClaimStep(cfg, c, d, p);
    LaterIsViews(cfg, c, call, calls);
    StakingHistory.DelegatorPaidOnce(cfg.staking, c.ledger, d, p, Views(cfg, Step(cfg, c, call), calls));
  }

  /** Nothing on the chain frees a stranded stake. */
  lemma StrandedForever(cfg: ChainConfig, c: Chain, calls: seq<ChainCall>, d: AccountId, p: ProviderId)
    requires cfg.Separate() && ChainOk(cfg, c) && Settlement.Stranded(c.ledger, d, p)
    ensures var last := Run(cfg, c, calls).ledger;
            && StakesOf(last.delegations, d, p) == StakesOf(c.ledger.delegations, d, p)
            && ClaimDelegator(cfg.staking, last, d, p).Err?
            && DelegatorWithdrawUnregistered(cfg.staking, last, d, p).Err?
  {
    RunIsViews(cfg, c, calls);
    Settlement.StrandedForever(cfg.staking, c.ledger, Views(cfg, c, calls), d, p);
  }

  /** The rewards that a run on the chain deposits. */
  function RewardsOf(calls: seq<ChainCall>): nat {
    if calls == [] then 0
    else (if calls[0].ToStaking? && calls[0].call.Reward? then calls[0].call.amount else 0) + RewardsOf(calls[1..])
  }

  lemma {:induction false} RewardsOfViews(cfg: ChainConfig, c: Chain, calls: seq<ChainCall>)
    ensures Issuance.RewardsOf(Views(cfg, c, calls)) == RewardsOf(calls)
    decreases |calls|
  {
    if calls != [] {
      var rest := Views(cfg, Step(cfg, c, calls[0]), calls[1..]);
      RewardsOfViews(cfg, Step(cfg, c, calls[0]), calls[1..]);
      assert Views(cfg, c, calls)[0] == View(cfg, c, calls[0]) && Views(cfg, c, calls)[1..] == rest;
    }
  }

  /** On the chain each deposited reward is in the rewards of one closed era or in the accumulator. */
  lemma RewardConservation(cfg: ChainConfig, bank: Bank, given: nat, vs: V.Validators, calls: seq<ChainCall>)
    requires cfg.Separate() && given <= bank.Free(cfg.staking.pot)
    requires vs.candidates == [] && vs.lastActive == map[]
    ensures var last := Run(cfg, FirstBlock(cfg, bank, given, vs), calls).ledger;
            StakingInvariant.ClosedRewards(last.eraState, last.era.current) + last.accumulator
            == given + RewardsOf(calls)
  {
    var first := FirstBlock(cfg, bank, given, vs);
    FirstBlockOk(cfg, bank, given, vs);
    RunIsViews(cfg, first, calls);
    RewardsOfViews(cfg, first, calls);
    StakingGuarantees.RewardConservation(cfg.staking, bank, given, 1, Views(cfg, first, calls));
  }

  /** On the chain a record's total is its bond and what the calls staked with it up to its era. */
  lemma RecordIsStaked(cfg: ChainConfig, bank: Bank, given: nat, vs: V.Validators, calls: seq<ChainCall>,
                       p: ProviderId, era: nat)
    requires cfg.Separate() && given <= bank.Free(cfg.staking.pot)
    requires vs.candidates == [] && vs.lastActive == map[]
    ensures var first := FirstBlock(cfg, bank, given, vs);
            var last := Run(cfg, first, calls).ledger;
            (p, era) in last.records ==>
              last.records[(p, era)].total
              == last.records[(p, era)].bond
                 + Sums.Sum(last.trace.stakers,
                            StakingGuarantees.NetStakes(cfg.staking, first.ledger, Views(cfg, first, calls), p, era))
  {
    var first := FirstBlock(cfg, bank, given, vs);
    FirstBlockOk(cfg, bank, given, vs);
    RunIsViews(cfg, first, calls);
    StakingGuarantees.RecordIsStaked(cfg.staking, bank, given, 1, Views(cfg, first, calls), p, era);
  }

  /** On the chain every record is determined by what was bonded and staked until its era was over. */
  lemma RecordIsCalls(cfg: ChainConfig, bank: Bank, given: nat, vs: V.Validators, calls: seq<ChainCall>,
                      p: ProviderId, era: nat)
    requires cfg.Separate() && given <= bank.Free(cfg.staking.pot)
    requires vs.candidates == [] && vs.lastActive == map[]
    ensures var first := FirstBlock(cfg, bank, given, vs);
            var last := Run(cfg, first, calls).ledger;
            var views := Views(cfg, first, calls);
            (p, era) in last.records ==>
              && last.records[(p, era)].bond == Bonds.NetBonded(cfg.staking, first.ledger, views, p, era)
              && last.records[(p, era)].total
                 == Bonds.NetBonded(cfg.staking, first.ledger, views, p, era)
                    + Sums.Sum(last.trace.stakers,
                               StakingGuarantees.NetStakes(cfg.staking, first.ledger, views, p, era))
  {
    var first := FirstBlock(cfg, bank, given, vs);
    FirstBlockOk(cfg, bank, given, vs);
    RunIsViews(cfg, first, calls);
    Bonds.RecordIsCalls(cfg.staking, bank, given, 1, Views(cfg, first, calls), p, era);
  }

  /** On the chain what is at stake with an inactive provider stays so until the period is over. */
  lemma HeldForPeriod(cfg: ChainConfig, c: Chain, calls: seq<ChainCall>, p: ProviderId, a: AccountId)
    requires cfg.Separate() && ChainOk(cfg, c) && Refusals.IsInactive(c.ledger, p)
    ensures var last := Run(cfg, c, calls).ledger;
            last.era.current < c.ledger.providers[p].status.since + cfg.staking.unbondingPeriod ==>
              StakingInvariant.AtStake(last.providers, last.records, last.delegations, last.era.current, a, p)
              == StakingInvariant.AtStake(c.ledger.providers, c.ledger.records, c.ledger.delegations,
                                          c.ledger.era.current, a, p)
  {
    RunIsViews(cfg, c, calls);
    Holding.AtStakeForPeriod(cfg.staking, c.ledger, Views(cfg, c, calls), p, a);
  }

  // ---- The clock

  /** No call sets the length of an era. */
  predicate KeepsLength(calls: seq<ChainCall>) {
    forall i :: 0 <= i < |calls| ==> !(calls[i].ToStaking? && calls[i].call.BlocksPerEra?)
  }

  lemma ViewClock(cfg: ChainConfig, c: Chain, call: ChainCall)
    ensures View(cfg, c, call).Initialize? <==> call.NextBlock?
    ensures call.NextBlock? ==>
              View(cfg, c, call) == StakingRuns.Initialize(c.now + 1) && Step(cfg, c, call).now == c.now + 1
    ensures !call.NextBlock? ==> Step(cfg, c, call).now == c.now
    ensures View(cfg, c, call).BlocksPerEra? ==> call.ToStaking? && call.call.BlocksPerEra?
  {
  }

  lemma {:induction false} ViewsClock(cfg: ChainConfig, c: Chain, calls: seq<ChainCall>)
    requires KeepsLength(calls)
    ensures EraClock.Consecutive(Views(cfg, c, calls), c.now) && EraClock.KeepsLength(Views(cfg, c, calls))
    ensures Run(cfg, c, calls).now == c.now + EraClock.BlockCount(Views(cfg, c, calls))
    decreases |calls|
  {
    if calls != [] {
      var next := Step(cfg, c, calls[0]);
      var rest := Views(cfg, next, calls[1..]);
      ViewClock(cfg, c, calls[0]);
      ViewsClock(cfg, next, calls[1..]);
      assert Views(cfg, c, calls) == [View(cfg, c, calls[0])] + rest;
      assert Views(cfg, c, calls)[1..] == rest;
    }
  }

  /** On the chain one era goes by for each so many blocks, whatever else happens. */
  lemma ChainClock(cfg: ChainConfig, bank: Bank, given: nat, vs: V.Validators, calls: seq<ChainCall>)
    requires cfg.Separate() && given <= bank.Free(cfg.staking.pot)
    requires vs.candidates == [] && vs.lastActive == map[]
    requires cfg.staking.defaultBlocksPerEra > 0 && KeepsLength(calls)
    ensures var last := Run(cfg, FirstBlock(cfg, bank, given, vs), calls);
            last.ledger.era.current == 1 + (last.now - 1) / cfg.staking.defaultBlocksPerEra
  {
    var first := FirstBlock(cfg, bank, given, vs);
    FirstBlockOk(cfg, bank, given, vs);
    RunIsViews(cfg, first, calls);
    ViewsClock(cfg, first, calls);
    EraClock.ClockFromStart(cfg.staking, bank, given, 1, Views(cfg, first, calls));
  }
}
