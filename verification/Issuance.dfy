/** Staking neither creates nor destroys funds, and its stake is always within the funds there are. */
module Issuance {
  import opened Sums
  import opened Currency
  import opened StakingTypes
  import opened StakingSpec
  import opened StakingInvariant
  import opened StakingRuns
  import opened StakingSafety
  import opened Solvency
  import StakeSteps
  import Unbonding
  import Delegations

  function Holdings(bank: Bank): AccountId -> nat {
    a => bank.Free(a) + bank.Reserved(a)
  }

  /** All funds of all accounts. */
  ghost function TotalIssuance(bank: Bank): nat {
    Sum(bank.free.Keys + bank.reserved.Keys, Holdings(bank))
  }

  /** What a run deposits as rewards. */
  function RewardsOf(calls: seq<Call>): nat {
    if calls == [] then 0 else (if calls[0].Reward? then calls[0].amount else 0) + RewardsOf(calls[1..])
  }

  // ---- Operations on balances

  lemma OneAccount(bank: Bank, next: Bank, who: AccountId)
    requires forall a: AccountId :: a != who ==> next.Free(a) == bank.Free(a) && next.Reserved(a) == bank.Reserved(a)
    ensures TotalIssuance(next) + Holdings(bank)(who) == TotalIssuance(bank) + Holdings(next)(who)
  {
    SumPoint(bank.free.Keys + bank.reserved.Keys, Holdings(bank),
             next.free.Keys + next.reserved.Keys, Holdings(next), who);
  }

  lemma ReserveKeepsIssuance(bank: Bank, who: AccountId, amount: nat)
    requires amount <= bank.Free(who)
    ensures TotalIssuance(bank.Reserve(who, amount)) == TotalIssuance(bank)
  {
    OneAccount(bank, bank.Reserve(who, amount), who);
  }

  lemma UnreserveKeepsIssuance(bank: Bank, who: AccountId, amount: nat)
    ensures TotalIssuance(bank.Unreserve(who, amount)) == TotalIssuance(bank)
  {
    OneAccount(bank, bank.Unreserve(who, amount), who);
  }

  lemma DepositAddsIssuance(bank: Bank, who: AccountId, amount: nat)
    ensures TotalIssuance(bank.Deposit(who, amount)) == TotalIssuance(bank) + amount
  {
    OneAccount(bank, bank.Deposit(who, amount), who);
  }

  lemma TransferKeepsIssuance(bank: Bank, from: AccountId, to: AccountId, amount: nat)
    requires amount <= bank.Free(from)
    ensures TotalIssuance(bank.Withdraw(from, amount).Deposit(to, amount)) == TotalIssuance(bank)
  {
    OneAccount(bank, bank.Withdraw(from, amount), from);
    DepositAddsIssuance(bank.Withdraw(from, amount), to, amount);
  }

  // ---- Calls

  lemma BankUntouched(cfg: Config, st: Ledger, call: Call)
    requires call.Initialize? || call.BlocksPerEra? || call.Unregister? || call.BondLess? || call.Unstake?
    ensures Step(cfg, st, call).bank == st.bank
  {
  }

  /** A call keeps the funds, except that a reward brings new ones. */
  lemma StepIssuance(cfg: Config, st: Ledger, call: Call)
    requires !call.Elsewhere?
    ensures TotalIssuance(Step(cfg, st, call).bank) == TotalIssuance(st.bank) + if call.Reward? then call.amount else 0
  {
    if Possible(cfg, st, call) && Dispatch(cfg, st, call).Ok? {
      match call
      case Reward(amount) => DepositAddsIssuance(st.bank, cfg.pot, amount);
      case Register(account, p, bond) => RegisterIssuance(cfg, st, account, p, bond);
      case BondMore(who, p, amount) => BondMoreIssuance(cfg, st, who, p, amount);
      case Stake(d, p, amount) => DelegateIssuance(cfg, st, d, p, amount);
      case WithdrawBond(p) => WithdrawBondIssuance(cfg, st, p);
      case WithdrawStake(d, p) => WithdrawStakeIssuance(cfg, st, d, p);
      case Withdraw(who) => WithdrawIssuance(cfg, st, who);
      case ProviderClaim(p, era) => ProviderClaimIssuance(cfg, st, p, era);
      case DelegatorClaim(d, p) => DelegatorClaimIssuance(cfg, st, d, p);
      case _ => BankUntouched(cfg, st, call);
    }
  }

  lemma RegisterIssuance(cfg: Config, st: Ledger, account: AccountId, p: ProviderId, bond: nat)
    requires RegisterProvider(cfg, st, account, p, bond).Ok?
    ensures TotalIssuance(RegisterProvider(cfg, st, account, p, bond).value.bank) == TotalIssuance(st.bank)
  {
    ReserveKeepsIssuance(st.bank, account, bond);
  }

  lemma BondMoreIssuance(cfg: Config, st: Ledger, who: AccountId, p: ProviderId, amount: nat)
    requires ProviderBondMore(cfg, st, who, p, amount).Ok?
    ensures TotalIssuance(ProviderBondMore(cfg, st, who, p, amount).value.bank) == TotalIssuance(st.bank)
  {
    ReserveKeepsIssuance(st.bank, who, amount);
  }

  lemma DelegateReserves(cfg: Config, st: Ledger, d: AccountId, p: ProviderId, amount: nat)
    requires Delegate(cfg, st, d, p, amount).Ok?
    ensures amount <= st.bank.Free(d) && Delegate(cfg, st, d, p, amount).value.bank == st.bank.Reserve(d, amount)
  {
  }

  lemma DelegateIssuance(cfg: Config, st: Ledger, d: AccountId, p: ProviderId, amount: nat)
    requires Delegate(cfg, st, d, p, amount).Ok?
    ensures TotalIssuance(Delegate(cfg, st, d, p, amount).value.bank) == TotalIssuance(st.bank)
  {
    DelegateReserves(cfg, st, d, p, amount);
    ReserveKeepsIssuance(st.bank, d, amount);
  }

  lemma WithdrawStakeIssuance(cfg: Config, st: Ledger, d: AccountId, p: ProviderId)
    requires DelegatorWithdrawUnregistered(cfg, st, d, p).Ok?
    ensures TotalIssuance(DelegatorWithdrawUnregistered(cfg, st, d, p).value.bank) == TotalIssuance(st.bank)
  {
    UnreserveKeepsIssuance(st.bank, d, Delegations.Latest(StakesOf(st.delegations, d, p)));
  }

  lemma WithdrawBondIssuance(cfg: Config, st: Ledger, p: ProviderId)
    requires ProviderWithdrawUnregistered(cfg, st, p).Ok?
    ensures TotalIssuance(ProviderWithdrawUnregistered(cfg, st, p).value.bank) == TotalIssuance(st.bank)
  {
    var provider := st.providers[p];
    UnreserveKeepsIssuance(st.bank, provider.owner, RecordOf(st.records, p, provider.status.since).bond);
  }

  lemma WithdrawIssuance(cfg: Config, st: Ledger, who: AccountId)
    requires WithdrawUnbonded(st, who).Ok?
    ensures TotalIssuance(WithdrawUnbonded(st, who).value.bank) == TotalIssuance(st.bank)
  {
    UnreserveKeepsIssuance(st.bank, who,
                           Unbonding.Total(Unbonding.Matured(QueueOf(st.unbonding, who), st.era.current)));
  }

  lemma ProviderClaimIssuance(cfg: Config, st: Ledger, p: ProviderId, era: nat)
    requires ClaimProvider(cfg, st, p, era).Ok?
    ensures TotalIssuance(ClaimProvider(cfg, st, p, era).value.bank) == TotalIssuance(st.bank)
  {
    var reward := ProviderPart(cfg, RecordOf(st.records, p, era), st.eraState[era]);
    TransferKeepsIssuance(st.bank, cfg.pot, st.providers[p].owner, reward);
  }

  lemma DelegatorClaimIssuance(cfg: Config, st: Ledger, d: AccountId, p: ProviderId)
    requires ClaimDelegator(cfg, st, d, p).Ok?
    ensures TotalIssuance(ClaimDelegator(cfg, st, d, p).value.bank) == TotalIssuance(st.bank)
  {
    var c := Delegations.Claimed(StakesOf(st.delegations, d, p));
    var reward := DelegatorReward(cfg, c.amount, RecordOf(st.records, p, c.era), st.eraState[c.era]);
    TransferKeepsIssuance(st.bank, cfg.pot, d, reward);
  }

  // ---- Runs

  /** Over any run of staking's own calls the funds grow by exactly the rewards deposited. */
  lemma {:induction false} RunIssuance(cfg: Config, st: Ledger, calls: seq<Call>)
    requires forall i :: 0 <= i < |calls| ==> !calls[i].Elsewhere?
    ensures TotalIssuance(Run(cfg, st, calls).bank) == TotalIssuance(st.bank) + RewardsOf(calls)
    decreases |calls|
  {
    if calls != [] {
      StepIssuance(cfg, st, calls[0]);
      RunIssuance(cfg, Step(cfg, st, calls[0]), calls[1..]);
    }
  }

  lemma ReservedWithinIssuance(bank: Bank)
    ensures Sum(bank.reserved.Keys, ReservedBy(bank)) <= TotalIssuance(bank)
  {
    var all := bank.free.Keys + bank.reserved.Keys;
    SumSupport(bank.reserved.Keys, all, ReservedBy(bank));
    SumMono(all, ReservedBy(bank), Holdings(bank));
  }

  lemma HoldingWithinIssuance(bank: Bank, a: AccountId)
    ensures Holdings(bank)(a) <= TotalIssuance(bank)
  {
    var all := bank.free.Keys + bank.reserved.Keys;
    if a in all {
      SumMember(all, Holdings(bank), a);
    }
  }

  /** What has accumulated since the last era is in the pot, but for half a unit for every payment made. */
  lemma AccumulatorInPot(cfg: Config, st: Ledger)
    requires WellFormed(cfg, st) && PotOk(cfg, st)
    ensures 2 * st.accumulator <= 2 * st.bank.Free(cfg.pot) + AllPayees(st.trace)
  {
    TotalSolvency(cfg, st.providers, st.records, st.eraState, st.era.current, st.trace);
  }

  lemma HeldWithinIssuance(cfg: Config, st: Ledger, a: AccountId, p: ProviderId)
    requires WellFormed(cfg, st) && Backed(st)
    ensures Delegations.Latest(StakesOf(st.delegations, a, p)) <= TotalIssuance(st.bank)
    ensures Unbonding.Total(QueueOf(st.unbonding, a)) <= TotalIssuance(st.bank)
  {
    assert StakingShare(st, a) <= st.bank.Reserved(a);
    HoldingWithinIssuance(st.bank, a);
    if p in st.providers {
      SumMember(st.providers.Keys, q => AtStake(st.providers, st.records, st.delegations, st.era.current, a, q), p);
    } else {
      StakeSteps.StoredPair(cfg, st, a, p);
    }
  }

  /** All that staking adds up, but for the accumulator, is at most the limit. */
  ghost predicate Within(st: Ledger, limit: nat) {
    && EraOf(st.eraState, st.era.current).staked <= limit
    && (forall a: AccountId, p: ProviderId :: Delegations.Latest(StakesOf(st.delegations, a, p)) <= limit)
    && (forall a: AccountId :: Unbonding.Total(QueueOf(st.unbonding, a)) <= limit)
  }

  lemma WithinIssuance(cfg: Config, st: Ledger)
    requires WellFormed(cfg, st) && Backed(st)
    ensures Within(st, TotalIssuance(st.bank))
  {
    StakeIsReserved(cfg, st);
    ReservedWithinIssuance(st.bank);
    forall a: AccountId, p: ProviderId
      ensures Delegations.Latest(StakesOf(st.delegations, a, p)) <= TotalIssuance(st.bank)
    {
      HeldWithinIssuance(cfg, st, a, p);
    }
    forall a: AccountId ensures Unbonding.Total(QueueOf(st.unbonding, a)) <= TotalIssuance(st.bank) {
      HeldWithinIssuance(cfg, st, a, 0);
    }
  }

  lemma WithinMore(st: Ledger, limit: nat, more: nat)
    requires Within(st, limit) && limit <= more
    ensures Within(st, more)
  {
  }

  /** Within any limit that all funds, and half a unit for every payment made, are within. */
  lemma FundsFit(cfg: Config, st: Ledger, limit: nat)
    requires Valid(cfg, st)
    ensures Within(st, TotalIssuance(st.bank))
    ensures 2 * TotalIssuance(st.bank) + AllPayees(st.trace) <= 2 * limit ==>
              Within(st, limit) && st.accumulator <= limit
  {
    WithinIssuance(cfg, st);
    AccumulatorInPot(cfg, st);
    HoldingWithinIssuance(st.bank, cfg.pot);
    if TotalIssuance(st.bank) <= limit {
      WithinMore(st, TotalIssuance(st.bank), limit);
    }
  }

  /**
    After any run everything that staking adds up is representable while the funds are: the era's
    stake, each stake and each unbonding queue, and the accumulator with half a unit for every
    payment on top.  So no saturating addition ever clips, and no merged chunk overflows.
   */
  lemma NothingClips(cfg: Config, bank: Bank, given: nat, block: nat, calls: seq<Call>)
    requires given <= bank.Free(cfg.pot)
    ensures var last := Run(cfg, Start(cfg, bank, given, block), calls);
            && Within(last, TotalIssuance(last.bank))
            && (2 * TotalIssuance(last.bank) + AllPayees(last.trace) <= 2 * MAX_BALANCE ==>
                  Within(last, MAX_BALANCE) && last.accumulator <= MAX_BALANCE)
  {
    StartValid(cfg, bank, given, block);
    RunValid(cfg, Start(cfg, bank, given, block), calls);
    FundsFit(cfg, Run(cfg, Start(cfg, bank, given, block), calls), MAX_BALANCE);
  }
}
