/**
  Runs of the staking protocol: any interleaving of the calls, by any accounts, over any blocks,
  and of whatever the rest of the chain does to balances: transfers, fees, and reserves of its own.
 */
module StakingRuns {
  import opened Wrappers
  import Sums
  import opened Currency
  import Delegations
  import opened StakingTypes
  import opened StakingSpec
  import opened StakingInvariant
  import opened Solvency
  import StakeSteps
  import EraSteps
  import ProviderSteps
  import ClaimSteps

  datatype Call =
    | Initialize(block: nat)
    | BlocksPerEra(length: nat)
    | Reward(amount: nat)
    | Register(account: AccountId, p: ProviderId, bond: nat)
    | Unregister(p: ProviderId)
    | BondMore(who: AccountId, p: ProviderId, amount: nat)
    | BondLess(who: AccountId, p: ProviderId, amount: nat)
    | WithdrawBond(p: ProviderId)
    | Stake(d: AccountId, p: ProviderId, amount: nat)
    | Unstake(d: AccountId, p: ProviderId, amount: nat)
    | WithdrawStake(d: AccountId, p: ProviderId)
    | Withdraw(who: AccountId)
    | ProviderClaim(p: ProviderId, era: nat)
    | DelegatorClaim(d: AccountId, p: ProviderId)
    | Elsewhere(bank: Bank)

  /** The account whose funds the call may reserve. */
  function Signer(call: Call): Option<AccountId> {
    match call
    case Register(account, _, _) => Some(account)
    case BondMore(who, _, _) => Some(who)
    case BondLess(who, _, _) => Some(who)
    case Stake(d, _, _) => Some(d)
    case Unstake(d, _, _) => Some(d)
    case WithdrawStake(d, _) => Some(d)
    case Withdraw(who) => Some(who)
    case DelegatorClaim(d, _) => Some(d)
    case _ => None
  }

  /** Block numbers grow. */
  predicate InOrder(st: Ledger, call: Call) {
    call.Initialize? ==> st.era.firstBlock <= call.block
  }

  /** The rest of the chain leaves reserved what staking must hold, and does not spend the pot. */
  ghost predicate Respectful(cfg: Config, st: Ledger, bank: Bank) {
    Backed(st.(bank := bank)) && st.bank.Free(cfg.pot) <= bank.Free(cfg.pot)
  }

  /** Calls that can be dispatched; nobody has the key of the pot. */
  ghost predicate Possible(cfg: Config, st: Ledger, call: Call) {
    && InOrder(st, call)
    && Signer(call) != Some(cfg.pot)
    && (call.Elsewhere? ==> Respectful(cfg, st, call.bank))
  }

  function Dispatch(cfg: Config, st: Ledger, call: Call): Outcome
    requires InOrder(st, call)
  {
    match call
    case Initialize(block) => Ok(OnInitialize(cfg, st, block))
    case BlocksPerEra(length) => SetBlocksPerEra(st, length)
    case Reward(amount) => Ok(HandleImbalance(cfg, st, amount))
    case Register(account, p, bond) => RegisterProvider(cfg, st, account, p, bond)
    case Unregister(p) => UnregisterProvider(st, p)
    case BondMore(who, p, amount) => ProviderBondMore(cfg, st, who, p, amount)
    case BondLess(who, p, amount) => ProviderBondLess(cfg, st, who, p, amount)
    case WithdrawBond(p) => ProviderWithdrawUnregistered(cfg, st, p)
    case Stake(d, p, amount) => Delegate(cfg, st, d, p, amount)
    case Unstake(d, p, amount) => DelegatorUnstake(cfg, st, d, p, amount)
    case WithdrawStake(d, p) => DelegatorWithdrawUnregistered(cfg, st, d, p)
    case Withdraw(who) => WithdrawUnbonded(st, who)
    case ProviderClaim(p, era) => ClaimProvider(cfg, st, p, era)
    case DelegatorClaim(d, p) => ClaimDelegator(cfg, st, d, p)
    case Elsewhere(bank) => Ok(st.(bank := bank))
  }

  /** The outcome of a call as the pallet writes it: only the check of a reduced bond differs. */
  function DispatchAsWritten(cfg: Config, st: Ledger, call: Call): Outcome
    requires InOrder(st, call)
  {
    if call.BondLess? then BondLessAsWritten(cfg, st, call.who, call.p, call.amount) else Dispatch(cfg, st, call)
  }

  /** Not a reduction of a bond whose check wraps around and lets it through. */
  predicate Sound(cfg: Config, st: Ledger, call: Call) {
    call.BondLess? ==> ChecksExactly(cfg, RecordOf(st.records, call.p, st.era.current).bond, call.amount)
  }

  /** The ledger after a call; an impossible or failing call changes nothing. */
  ghost function Step(cfg: Config, st: Ledger, call: Call): Ledger {
    if !Possible(cfg, st, call) then st
    else
      match Dispatch(cfg, st, call)
      case Ok(next) => next
      case Err(_) => st
  }

  ghost function Run(cfg: Config, st: Ledger, calls: seq<Call>): Ledger
    decreases |calls|
  {
    if calls == [] then st else Run(cfg, Step(cfg, st, calls[0]), calls[1..])
  }

  /** Only three calls change anything about a provider. */
  lemma ProvidersUntouched(cfg: Config, st: Ledger, call: Call)
    requires !call.Register? && !call.Unregister? && !call.WithdrawBond?
    ensures Step(cfg, st, call).providers == st.providers
  {
  }

  // ---- The first block

  /** Storage before the first block, with what the pot was given already. */
  function Genesis(bank: Bank, given: nat): Ledger {
    Ledger(bank, EraInfo(0, 0, 0), map[], given, map[], map[], map[], map[],
           Trace((d, p, e) => 0, {}, map[], map[], given))
  }

  /** Runs start from the first initialized block, which opens era 1. */
  function Start(cfg: Config, bank: Bank, given: nat, block: nat): Ledger {
    OnInitialize(cfg, Genesis(bank, given), block)
  }

  lemma StartShape(cfg: Config, bank: Bank, given: nat, block: nat)
    ensures var st := Start(cfg, bank, given, block);
            st == Genesis(bank, given).(era := EraInfo(1, block, cfg.defaultBlocksPerEra), accumulator := 0,
                                        eraState := map[1 := EraMetadata(0, 0), 0 := EraMetadata(given, 0)])
  {
    assert Start(cfg, bank, given, block).records == map[];
  }

  lemma EmptyWellFormed(cfg: Config, st: Ledger, given: nat)
    requires st.era.current == 1 && st.eraState == map[1 := EraMetadata(0, 0), 0 := EraMetadata(given, 0)]
    requires st.accumulator == 0 && st.providers == map[] && st.records == map[]
    requires st.delegations == map[] && st.unbonding == map[]
    requires st.trace == Genesis(st.bank, given).trace
    ensures WellFormed(cfg, st)
    ensures forall a: AccountId :: StakingShare(st, a) == 0
  {
    assert ClosedRewards(st.eraState, 1) == Sums.SumUpTo(0, e => RewardsIn(st.eraState, e)) + RewardsIn(st.eraState, 0);
    assert forall e: nat :: EraTotal(st.providers, st.records, e) == 0;
    forall d: AccountId, p: ProviderId ensures DelegationOk(cfg, st.providers, 1, st.trace, [], d, p) {
    }
  }

  lemma StartValid(cfg: Config, bank: Bank, given: nat, block: nat)
    requires given <= bank.Free(cfg.pot)
    ensures Valid(cfg, Start(cfg, bank, given, block))
    ensures forall a: AccountId :: StakingShare(Start(cfg, bank, given, block), a) == 0
  {
    StartShape(cfg, bank, given, block);
    EmptyWellFormed(cfg, Start(cfg, bank, given, block), given);
    assert AllPayments(Start(cfg, bank, given, block).trace) == 0;
  }

  // ---- Every call keeps the invariant

  lemma StepWellFormed(cfg: Config, st: Ledger, call: Call)
    requires WellFormed(cfg, st) && InOrder(st, call) && Dispatch(cfg, st, call).Ok?
    ensures WellFormed(cfg, Dispatch(cfg, st, call).value)
  {
    match call
    case Initialize(block) => EraSteps.OnInitializeWellFormed(cfg, st, block);
    case BlocksPerEra(_) =>
    case Reward(amount) => EraSteps.HandleImbalanceWellFormed(cfg, st, amount);
    case Register(account, p, bond) => ProviderSteps.RegisterWellFormed(cfg, st, account, p, bond);
    case Unregister(p) => ProviderSteps.UnregisterWellFormed(cfg, st, p);
    case Elsewhere(_) =>
    case _ => ParticipantWellFormed(cfg, st, call);
  }

  /** Calls of providers and delegators about their own funds. */
  predicate ByParticipants(call: Call) {
    call.BondMore? || call.BondLess? || call.WithdrawBond? || call.Stake? || call.Unstake? || call.WithdrawStake?
    || call.Withdraw? || call.ProviderClaim? || call.DelegatorClaim?
  }

  lemma ParticipantWellFormed(cfg: Config, st: Ledger, call: Call)
    requires WellFormed(cfg, st) && ByParticipants(call) && Dispatch(cfg, st, call).Ok?
    ensures WellFormed(cfg, Dispatch(cfg, st, call).value)
  {
    match call
    case BondMore(who, p, amount) => StakeSteps.BondMoreWellFormed(cfg, st, who, p, amount);
    case BondLess(who, p, amount) => StakeSteps.BondLessWellFormed(cfg, st, who, p, amount);
    case WithdrawBond(p) => ProviderSteps.WithdrawBondWellFormed(cfg, st, p);
    case Stake(d, p, amount) => StakeSteps.DelegateWellFormed(cfg, st, d, p, amount);
    case Unstake(d, p, amount) => StakeSteps.UnstakeWellFormed(cfg, st, d, p, amount);
    case WithdrawStake(d, p) => ClaimSteps.DelegatorWithdrawWellFormed(cfg, st, d, p);
    case Withdraw(who) => ClaimSteps.WithdrawUnbondedWellFormed(cfg, st, who);
    case ProviderClaim(p, era) => ClaimSteps.ClaimProviderWellFormed(cfg, st, p, era);
    case DelegatorClaim(d, p) => ClaimSteps.ClaimDelegatorWellFormed(cfg, st, d, p);
  }

  lemma ParticipantLockstep(cfg: Config, st: Ledger, call: Call)
    requires WellFormed(cfg, st) && Backed(st) && ByParticipants(call) && Dispatch(cfg, st, call).Ok?
    ensures Lockstep(st, Dispatch(cfg, st, call).value)
  {
    match call
    case BondMore(who, p, amount) => StakeSteps.BondMoreLockstep(cfg, st, who, p, amount);
    case BondLess(who, p, amount) => StakeSteps.BondLessLockstep(cfg, st, who, p, amount);
    case WithdrawBond(p) => ProviderSteps.WithdrawBondLockstep(cfg, st, p);
    case Stake(d, p, amount) => StakeSteps.DelegateLockstep(cfg, st, d, p, amount);
    case Unstake(d, p, amount) => StakeSteps.UnstakeLockstep(cfg, st, d, p, amount);
    case WithdrawStake(d, p) => ClaimSteps.DelegatorWithdrawLockstep(cfg, st, d, p);
    case Withdraw(who) => ClaimSteps.WithdrawUnbondedLockstep(cfg, st, who);
    case ProviderClaim(p, era) => ClaimSteps.ClaimProviderLockstep(cfg, st, p, era);
    case DelegatorClaim(d, p) => ClaimSteps.ClaimDelegatorLockstep(cfg, st, d, p);
  }

  /** Every call moves each account's reserve by exactly as much as staking's share of it. */
  lemma StepLockstep(cfg: Config, st: Ledger, call: Call)
    requires WellFormed(cfg, st) && Backed(st) && InOrder(st, call) && Dispatch(cfg, st, call).Ok?
    requires !call.Elsewhere?
    ensures Lockstep(st, Dispatch(cfg, st, call).value)
  {
    match call
    case Initialize(block) => EraSteps.OnInitializeLockstep(cfg, st, block);
    case BlocksPerEra(_) =>
    case Reward(_) =>
    case Register(account, p, bond) => ProviderSteps.RegisterLockstep(cfg, st, account, p, bond);
    case Unregister(p) => ProviderSteps.UnregisterLockstep(cfg, st, p);
    case _ => ParticipantLockstep(cfg, st, call);
  }

  /** What the pot holds beyond the deposits not yet paid out. */
  ghost function Surplus(cfg: Config, st: Ledger): int {
    st.bank.Free(cfg.pot) + AllPayments(st.trace) - st.trace.deposited
  }

  /** What a call of the rest of the chain gives to the pot. */
  ghost function Gift(cfg: Config, st: Ledger, call: Call): int {
    if call.Elsewhere? && Possible(cfg, st, call) then call.bank.Free(cfg.pot) - st.bank.Free(cfg.pot) else 0
  }

  lemma ProviderClaimPot(cfg: Config, st: Ledger, p: ProviderId, era: nat)
    requires WellFormed(cfg, st) && PotOk(cfg, st) && ClaimProvider(cfg, st, p, era).Ok?
    ensures PotOk(cfg, ClaimProvider(cfg, st, p, era).value)
    ensures Surplus(cfg, ClaimProvider(cfg, st, p, era).value) == Surplus(cfg, st)
  {
    ProviderClaimPayments(cfg, st, p, era);
    ProviderClaimBank(cfg, st, p, era);
  }

  lemma ProviderClaimPayments(cfg: Config, st: Ledger, p: ProviderId, era: nat)
    requires WellFormed(cfg, st) && ClaimProvider(cfg, st, p, era).Ok?
    ensures AllPayments(ClaimProvider(cfg, st, p, era).value.trace)
            == AllPayments(st.trace) + ProviderDue(cfg, st, p, era)
  {
    ClaimSteps.ClaimableProvider(cfg, st, p, era);
    PaymentAdded(st.trace.paidProviders, (p, era), ProviderDue(cfg, st, p, era));
  }

  lemma ProviderClaimBank(cfg: Config, st: Ledger, p: ProviderId, era: nat)
    requires PotOk(cfg, st) && ClaimProvider(cfg, st, p, era).Ok?
    ensures var next := ClaimProvider(cfg, st, p, era).value;
            && next.bank.Free(cfg.pot) + ProviderDue(cfg, st, p, era) == st.bank.Free(cfg.pot)
            && next.providers == st.providers && next.trace.deposited == st.trace.deposited
  {
  }

  lemma DelegatorClaimPot(cfg: Config, st: Ledger, d: AccountId, p: ProviderId)
    requires WellFormed(cfg, st) && PotOk(cfg, st) && d != cfg.pot && ClaimDelegator(cfg, st, d, p).Ok?
    ensures PotOk(cfg, ClaimDelegator(cfg, st, d, p).value)
    ensures Surplus(cfg, ClaimDelegator(cfg, st, d, p).value) == Surplus(cfg, st)
  {
    DelegatorClaimPayments(cfg, st, d, p);
    DelegatorClaimBank(cfg, st, d, p);
  }

  lemma DelegatorClaimPayments(cfg: Config, st: Ledger, d: AccountId, p: ProviderId)
    requires WellFormed(cfg, st) && ClaimDelegator(cfg, st, d, p).Ok?
    ensures AllPayments(ClaimDelegator(cfg, st, d, p).value.trace)
            == AllPayments(st.trace) + DelegatorDue(cfg, st, d, p)
  {
    ClaimSteps.ClaimableDelegator(cfg, st, d, p);
    var c := Delegations.Claimed(StakesOf(st.delegations, d, p));
    PaymentAdded(st.trace.paidDelegators, (d, p, c.era), DelegatorDue(cfg, st, d, p));
  }

  lemma DelegatorClaimBank(cfg: Config, st: Ledger, d: AccountId, p: ProviderId)
    requires d != cfg.pot && ClaimDelegator(cfg, st, d, p).Ok?
    ensures var next := ClaimDelegator(cfg, st, d, p).value;
            && next.bank.Free(cfg.pot) + DelegatorDue(cfg, st, d, p) == st.bank.Free(cfg.pot)
            && next.providers == st.providers && next.trace.deposited == st.trace.deposited
  {
  }

  /** No call but those of the rest of the chain changes what the pot holds beyond the unpaid deposits. */
  lemma StepPot(cfg: Config, st: Ledger, call: Call)
    requires WellFormed(cfg, st) && PotOk(cfg, st) && Possible(cfg, st, call) && Dispatch(cfg, st, call).Ok?
    ensures PotOk(cfg, Dispatch(cfg, st, call).value)
    ensures Surplus(cfg, Dispatch(cfg, st, call).value) == Surplus(cfg, st) + Gift(cfg, st, call)
  {
    if call.ProviderClaim? {
      ProviderClaimPot(cfg, st, call.p, call.era);
    } else if call.DelegatorClaim? {
      DelegatorClaimPot(cfg, st, call.d, call.p);
    } else {
      PotUntouched(cfg, st, call);
    }
  }

  lemma PotUntouched(cfg: Config, st: Ledger, call: Call)
    requires PotOk(cfg, st) && Possible(cfg, st, call) && Dispatch(cfg, st, call).Ok?
    requires !call.ProviderClaim? && !call.DelegatorClaim?
    ensures PotOk(cfg, Dispatch(cfg, st, call).value)
    ensures Surplus(cfg, Dispatch(cfg, st, call).value) == Surplus(cfg, st) + Gift(cfg, st, call)
  {
    PaymentsUntouched(cfg, st, call);
    PotUnspent(cfg, st, call);
    OwnersNotPot(cfg, st, call);
  }

  lemma OwnersNotPot(cfg: Config, st: Ledger, call: Call)
    requires PotOk(cfg, st) && Possible(cfg, st, call) && Dispatch(cfg, st, call).Ok?
    ensures forall p :: p in Dispatch(cfg, st, call).value.providers ==>
              Dispatch(cfg, st, call).value.providers[p].owner != cfg.pot
  {
    if !call.Register? && !call.Unregister? && !call.WithdrawBond? {
      ProvidersUntouched(cfg, st, call);
    }
  }

  lemma PaymentsUntouched(cfg: Config, st: Ledger, call: Call)
    requires InOrder(st, call) && Dispatch(cfg, st, call).Ok?
    requires !call.ProviderClaim? && !call.DelegatorClaim?
    ensures var next := Dispatch(cfg, st, call).value;
            next.trace.paidProviders == st.trace.paidProviders && next.trace.paidDelegators == st.trace.paidDelegators
  {
    if ByParticipants(call) {
      ParticipantPayments(cfg, st, call);
    }
  }

  lemma ParticipantPayments(cfg: Config, st: Ledger, call: Call)
    requires ByParticipants(call) && Dispatch(cfg, st, call).Ok?
    requires !call.ProviderClaim? && !call.DelegatorClaim?
    ensures var next := Dispatch(cfg, st, call).value;
            next.trace.paidProviders == st.trace.paidProviders && next.trace.paidDelegators == st.trace.paidDelegators
  {
  }

  lemma PotUnspent(cfg: Config, st: Ledger, call: Call)
    requires PotOk(cfg, st) && Possible(cfg, st, call) && Dispatch(cfg, st, call).Ok?
    requires !call.ProviderClaim? && !call.DelegatorClaim?
    ensures var next := Dispatch(cfg, st, call).value;
            next.bank.Free(cfg.pot) + st.trace.deposited
            == st.bank.Free(cfg.pot) + next.trace.deposited + Gift(cfg, st, call)
  {
    if ByParticipants(call) {
      ParticipantPot(cfg, st, call);
    }
  }

  lemma ParticipantPot(cfg: Config, st: Ledger, call: Call)
    requires PotOk(cfg, st) && ByParticipants(call) && Signer(call) != Some(cfg.pot) && Dispatch(cfg, st, call).Ok?
    requires !call.ProviderClaim? && !call.DelegatorClaim?
    ensures var next := Dispatch(cfg, st, call).value;
            next.bank.Free(cfg.pot) == st.bank.Free(cfg.pot) && next.trace.deposited == st.trace.deposited
  {
  }

  lemma StepBacked(cfg: Config, st: Ledger, call: Call)
    requires WellFormed(cfg, st) && Backed(st) && Possible(cfg, st, call) && Dispatch(cfg, st, call).Ok?
    ensures Backed(Dispatch(cfg, st, call).value)
    ensures !call.Elsewhere? ==> Lockstep(st, Dispatch(cfg, st, call).value)
  {
    if !call.Elsewhere? {
      StepLockstep(cfg, st, call);
      LockstepKeepsBacked(st, Dispatch(cfg, st, call).value);
    }
  }

  lemma DispatchValid(cfg: Config, st: Ledger, call: Call)
    requires Valid(cfg, st) && Possible(cfg, st, call) && Dispatch(cfg, st, call).Ok?
    ensures Valid(cfg, Dispatch(cfg, st, call).value)
    ensures !call.Elsewhere? ==> Lockstep(st, Dispatch(cfg, st, call).value)
  {
    StepWellFormed(cfg, st, call);
    StepPot(cfg, st, call);
    StepBacked(cfg, st, call);
  }

  lemma StepValid(cfg: Config, st: Ledger, call: Call)
    requires Valid(cfg, st)
    ensures Valid(cfg, Step(cfg, st, call))
    ensures !call.Elsewhere? ==> Lockstep(st, Step(cfg, st, call))
  {
    if Possible(cfg, st, call) && Dispatch(cfg, st, call).Ok? {
      DispatchValid(cfg, st, call);
    }
  }

  /** Any run keeps the invariant; in particular no account's reserve ever falls short of its share. */
  lemma {:induction false} RunValid(cfg: Config, st: Ledger, calls: seq<Call>)
    requires Valid(cfg, st)
    ensures Valid(cfg, Run(cfg, st, calls))
    decreases |calls|
  {
    if calls != [] {
      StepValid(cfg, st, calls[0]);
      RunValid(cfg, Step(cfg, st, calls[0]), calls[1..]);
    }
  }

  // ---- The pot

  /** What the rest of the chain gave to the pot over a run. */
  ghost function Gifts(cfg: Config, st: Ledger, calls: seq<Call>): int
    decreases |calls|
  {
    if calls == [] then 0 else Gift(cfg, st, calls[0]) + Gifts(cfg, Step(cfg, st, calls[0]), calls[1..])
  }

  lemma StepSurplus(cfg: Config, st: Ledger, call: Call)
    requires WellFormed(cfg, st) && PotOk(cfg, st)
    ensures Surplus(cfg, Step(cfg, st, call)) == Surplus(cfg, st) + Gift(cfg, st, call)
  {
    if Possible(cfg, st, call) && Dispatch(cfg, st, call).Ok? {
      StepPot(cfg, st, call);
    }
  }

  /** Over any run the pot holds exactly the deposits not yet paid out, what it held beyond them before, and gifts. */
  lemma {:induction false} RunPot(cfg: Config, st: Ledger, calls: seq<Call>)
    requires Valid(cfg, st)
    ensures Surplus(cfg, Run(cfg, st, calls)) == Surplus(cfg, st) + Gifts(cfg, st, calls)
    decreases |calls|
  {
    if calls != [] {
      StepSurplus(cfg, st, calls[0]);
      StepValid(cfg, st, calls[0]);
      RunPot(cfg, Step(cfg, st, calls[0]), calls[1..]);
    }
  }

  // ---- Reserves

  /** What a call of the rest of the chain adds to, or takes from, the reserve of account a. */
  ghost function ReservedElsewhere(cfg: Config, st: Ledger, call: Call, a: AccountId): int {
    if call.Elsewhere? && Possible(cfg, st, call) then call.bank.Reserved(a) - st.bank.Reserved(a) else 0
  }

  /** What the rest of the chain reserved on balance over a run. */
  ghost function Others(cfg: Config, st: Ledger, calls: seq<Call>, a: AccountId): int
    decreases |calls|
  {
    if calls == [] then 0
    else ReservedElsewhere(cfg, st, calls[0], a) + Others(cfg, Step(cfg, st, calls[0]), calls[1..], a)
  }

  lemma StepReserves(cfg: Config, st: Ledger, call: Call, a: AccountId)
    requires Valid(cfg, st)
    ensures var next := Step(cfg, st, call);
            next.bank.Reserved(a) - StakingShare(next, a)
            == st.bank.Reserved(a) - StakingShare(st, a) + ReservedElsewhere(cfg, st, call, a)
  {
    var next := Step(cfg, st, call);
    if !call.Elsewhere? {
      StepValid(cfg, st, call);
      assert next.bank.Reserved(a) + StakingShare(st, a) == st.bank.Reserved(a) + StakingShare(next, a);
    }
  }

  /** Over any run the reserves move exactly with staking's shares and what others reserve. */
  lemma {:induction false} RunReserves(cfg: Config, st: Ledger, calls: seq<Call>, a: AccountId)
    requires Valid(cfg, st)
    ensures var last := Run(cfg, st, calls);
            last.bank.Reserved(a) - StakingShare(last, a)
            == st.bank.Reserved(a) - StakingShare(st, a) + Others(cfg, st, calls, a)
    decreases |calls|
  {
    if calls != [] {
      StepValid(cfg, st, calls[0]);
      StepReserves(cfg, st, calls[0], a);
      RunReserves(cfg, Step(cfg, st, calls[0]), calls[1..], a);
    }
  }

  /**
    Conservation of stake: after any run from the first block every account holds reserved what it
    held reserved before and what others reserved since, plus its bonds, its stakes and its
    unlocking chunks.
   */
  lemma StakeConservation(cfg: Config, bank: Bank, given: nat, block: nat, calls: seq<Call>, a: AccountId)
    requires given <= bank.Free(cfg.pot)
    ensures var first := Start(cfg, bank, given, block);
            var last := Run(cfg, first, calls);
            && last.bank.Reserved(a) == bank.Reserved(a) + StakingShare(last, a) + Others(cfg, first, calls, a)
            && StakingShare(last, a) <= last.bank.Reserved(a)
  {
    var first := Start(cfg, bank, given, block);
    StartValid(cfg, bank, given, block);
    RunValid(cfg, first, calls);
    RunReserves(cfg, first, calls, a);
  }
}
