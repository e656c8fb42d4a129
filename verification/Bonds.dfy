/** The bonds that records hold are those that their owners' calls put up. */
module Bonds {
  import opened Arithmetic
  import Sums
  import opened Currency
  import opened StakingTypes
  import opened StakingSpec
  import opened StakingInvariant
  import opened StakingRuns
  import EraSteps
  import ProviderSteps
  import StakingGuarantees

  /** The bond of p in an era, as its records have it: none before its first one, and the last one ever after. */
  function BondAsOf(st: Ledger, p: ProviderId, era: nat): nat {
    if p in st.providers then RecordOf(st.records, p, Min(era, st.providers[p].LastEra(st.era.current))).bond else 0
  }

  /** What an accepted call adds to the bond of p, or takes from it. */
  function Bonded(call: Call, p: ProviderId): int {
    match call
    case Register(_, q, bond) => if q == p then bond else 0
    case BondMore(_, q, amount) => if q == p then amount else 0
    case BondLess(_, q, amount) => if q == p then 0 - amount else 0
    case _ => 0
  }

  ghost function BondedBy(cfg: Config, st: Ledger, call: Call, p: ProviderId): int {
    if Possible(cfg, st, call) && Dispatch(cfg, st, call).Ok? then Bonded(call, p) else 0
  }

  /** What a run added, on balance, to the bond of p in an era: all it did until that era was over. */
  ghost function NetBonded(cfg: Config, st: Ledger, calls: seq<Call>, p: ProviderId, era: nat): int
    decreases |calls|
  {
    if calls == [] then 0
    else
      (if st.era.current <= era then BondedBy(cfg, st, calls[0], p) else 0)
      + NetBonded(cfg, Step(cfg, st, calls[0]), calls[1..], p, era)
  }

  // ---- One call

  /** Every era's record of p, up to its last, has the same bond as before but for what the call changed. */
  ghost predicate MovesBond(st: Ledger, next: Ledger, p: ProviderId, moved: int) {
    forall era: nat :: BondAsOf(next, p, era) == BondAsOf(st, p, era) + if st.era.current <= era then moved else 0
  }

  lemma HasRecord(cfg: Config, st: Ledger, p: ProviderId)
    requires RecordsOk(cfg, st.providers, st.records, st.era.current)
    ensures p in st.providers ==>
              1 <= st.providers[p].LastEra(st.era.current) <= st.era.current
              && (p, st.providers[p].LastEra(st.era.current)) in st.records
  {
    if p in st.providers {
      assert ProviderOk(st.providers[p], st.records, p, st.era.current);
    }
  }

  lemma RotationBond(cfg: Config, st: Ledger, block: nat, p: ProviderId)
    requires WellFormed(cfg, st) && st.era.firstBlock <= block
    ensures MovesBond(st, OnInitialize(cfg, st, block), p, 0)
  {
    if st.era.ShouldUpdate(block) {
      EraSteps.RotationShape(cfg, st, block);
      EraSteps.RotatedEntries(cfg, st.providers, st.records, st.era.current);
      HasRecord(cfg, st, p);
      BondCarries(st, OnInitialize(cfg, st, block), p);
    }
  }

  lemma BondCarries(st: Ledger, next: Ledger, p: ProviderId)
    requires next.providers == st.providers && next.era.current == st.era.current + 1
    requires p in st.providers ==> st.providers[p].LastEra(st.era.current) <= st.era.current
    requires forall e: nat :: e <= st.era.current ==>
               RecordOf(next.records, p, e).bond == RecordOf(st.records, p, e).bond
    requires IsActive(st.providers, p) ==>
               RecordOf(next.records, p, st.era.current + 1).bond == RecordOf(st.records, p, st.era.current).bond
    ensures MovesBond(st, next, p, 0)
  {
  }

  lemma RegisterBond(cfg: Config, st: Ledger, account: AccountId, q: ProviderId, bond: nat, p: ProviderId)
    requires WellFormed(cfg, st) && RegisterProvider(cfg, st, account, q, bond).Ok?
    ensures MovesBond(st, RegisterProvider(cfg, st, account, q, bond).value, p, if p == q then bond else 0)
  {
    HasRecord(cfg, st, p);
    forall e: nat ensures (q, e) !in st.records {
      ProviderSteps.NoRecordBefore(cfg, st, q, e);
    }
  }

  lemma BondMoreBond(cfg: Config, st: Ledger, who: AccountId, q: ProviderId, amount: nat, p: ProviderId)
    requires WellFormed(cfg, st) && ProviderBondMore(cfg, st, who, q, amount).Ok?
    ensures MovesBond(st, ProviderBondMore(cfg, st, who, q, amount).value, p, if p == q then amount else 0)
  {
    HasRecord(cfg, st, p);
  }

  lemma BondLessBond(cfg: Config, st: Ledger, who: AccountId, q: ProviderId, amount: nat, p: ProviderId)
    requires WellFormed(cfg, st) && ProviderBondLess(cfg, st, who, q, amount).Ok?
    ensures MovesBond(st, ProviderBondLess(cfg, st, who, q, amount).value, p, if p == q then 0 - amount else 0)
  {
    HasRecord(cfg, st, p);
  }

  /** The same last eras and bonds. */
  ghost predicate SameBonds(st: Ledger, next: Ledger) {
    && next.era.current == st.era.current && next.providers.Keys == st.providers.Keys
    && (forall q :: q in st.providers ==>
          next.providers[q].LastEra(st.era.current) == st.providers[q].LastEra(st.era.current))
    && forall q: ProviderId, e: nat :: RecordOf(next.records, q, e).bond == RecordOf(st.records, q, e).bond
  }

  lemma OtherBonds(cfg: Config, st: Ledger, call: Call)
    requires InOrder(st, call) && Dispatch(cfg, st, call).Ok?
    requires !call.Initialize? && !call.Register? && !call.BondMore? && !call.BondLess?
    ensures SameBonds(st, Dispatch(cfg, st, call).value)
  {
    if call.Unregister? || call.WithdrawBond? {
    } else {
      ProvidersAsBefore(cfg, st, call);
      RecordsAsBefore(cfg, st, call);
    }
  }

  lemma ProvidersAsBefore(cfg: Config, st: Ledger, call: Call)
    requires InOrder(st, call) && Dispatch(cfg, st, call).Ok?
    requires !call.Register? && !call.Unregister? && !call.WithdrawBond?
    ensures Dispatch(cfg, st, call).value.providers == st.providers
  {
  }

  lemma RecordsAsBefore(cfg: Config, st: Ledger, call: Call)
    requires InOrder(st, call) && Dispatch(cfg, st, call).Ok?
    requires !call.Initialize? && !call.Register? && !call.BondMore? && !call.BondLess?
    ensures var next := Dispatch(cfg, st, call).value;
            && next.era.current == st.era.current
            && forall q: ProviderId, e: nat :: RecordOf(next.records, q, e).bond == RecordOf(st.records, q, e).bond
  {
  }

  lemma DispatchBond(cfg: Config, st: Ledger, call: Call, p: ProviderId)
    requires WellFormed(cfg, st) && InOrder(st, call) && Dispatch(cfg, st, call).Ok?
    ensures MovesBond(st, Dispatch(cfg, st, call).value, p, Bonded(call, p))
  {
    match call
    case Initialize(block) => RotationBond(cfg, st, block, p);
    case Register(account, q, bond) => RegisterBond(cfg, st, account, q, bond, p);
    case BondMore(who, q, amount) => BondMoreBond(cfg, st, who, q, amount, p);
    case BondLess(who, q, amount) => BondLessBond(cfg, st, who, q, amount, p);
    case _ =>
      OtherBonds(cfg, st, call);
      SameBondsMove(st, Dispatch(cfg, st, call).value, p);
  }

  lemma SameBondsMove(st: Ledger, next: Ledger, p: ProviderId)
    requires SameBonds(st, next)
    ensures MovesBond(st, next, p, 0)
  {
  }

  lemma StepBond(cfg: Config, st: Ledger, call: Call, p: ProviderId)
    requires WellFormed(cfg, st)
    ensures MovesBond(st, Step(cfg, st, call), p, BondedBy(cfg, st, call, p))
  {
    if Possible(cfg, st, call) && Dispatch(cfg, st, call).Ok? {
      DispatchBond(cfg, st, call, p);
    }
  }

  // ---- Runs

  /** Over any run the bond of every era moves by what the calls until that era put up and took back. */
  lemma {:induction false} RunBond(cfg: Config, st: Ledger, calls: seq<Call>, p: ProviderId, era: nat)
    requires Valid(cfg, st)
    ensures BondAsOf(Run(cfg, st, calls), p, era) == BondAsOf(st, p, era) + NetBonded(cfg, st, calls, p, era)
    decreases |calls|
  {
    if calls != [] {
      StepBond(cfg, st, calls[0], p);
      StepValid(cfg, st, calls[0]);
      RunBond(cfg, Step(cfg, st, calls[0]), calls[1..], p, era);
    }
  }

  /**
    After any run from the first block every record is determined by the calls: its bond is what they
    put up for the provider and did not take back until its era was over, and its total is that and
    what delegators staked and did not unstake.
   */
  lemma RecordIsCalls(cfg: Config, bank: Bank, given: nat, block: nat, calls: seq<Call>, p: ProviderId, era: nat)
    requires given <= bank.Free(cfg.pot)
    ensures var first := Start(cfg, bank, given, block);
            var last := Run(cfg, first, calls);
            (p, era) in last.records ==>
              && last.records[(p, era)].bond == NetBonded(cfg, first, calls, p, era)
              && last.records[(p, era)].total
                 == NetBonded(cfg, first, calls, p, era)
                    + Sums.Sum(last.trace.stakers, StakingGuarantees.NetStakes(cfg, first, calls, p, era))
  {
    var first := Start(cfg, bank, given, block);
    StartValid(cfg, bank, given, block);
    StartShape(cfg, bank, given, block);
    RunValid(cfg, first, calls);
    RunBond(cfg, first, calls, p, era);
    StakingGuarantees.RecordIsStaked(cfg, bank, given, block, calls, p, era);
    BondOfRecord(cfg, Run(cfg, first, calls), p, era);
  }

  lemma BondOfRecord(cfg: Config, st: Ledger, p: ProviderId, era: nat)
    requires RecordsOk(cfg, st.providers, st.records, st.era.current)
    ensures (p, era) in st.records ==> BondAsOf(st, p, era) == st.records[(p, era)].bond
  {
    if (p, era) in st.records {
      assert RecordOk(cfg, st.providers, st.era.current, p, era, st.records[(p, era)]);
    }
  }
}
