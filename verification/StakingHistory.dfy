/** What a run can never undo: the past is frozen, and payments are made once. */
module StakingHistory {
  import opened Currency
  import opened Delegations
  import opened Unbonding
  import opened StakingTypes
  import opened StakingSpec
  import opened StakingInvariant
  import opened StakingRuns
  import ClaimSteps
  import EraSteps

  // ---- The past is frozen

  predicate SameRecord(r: ProviderEraMetadata, r': ProviderEraMetadata) {
    r'.bond == r.bond && r'.total == r.total && r'.delegatorCount == r.delegatorCount
  }

  /** next agrees with st on every era closed in st, and remembers every payment. */
  ghost predicate Extends(st: Ledger, next: Ledger) {
    var current := st.era.current;
    && current <= next.era.current
    && (forall e: nat :: e < current ==> EraOf(next.eraState, e) == EraOf(st.eraState, e))
    && (forall p: ProviderId, e: nat :: e < current && (p, e) in st.records ==>
          (p, e) in next.records && SameRecord(st.records[(p, e)], next.records[(p, e)]))
    && (forall d: AccountId, p: ProviderId, e: nat :: e < current ==>
          next.trace.history(d, p, e) == st.trace.history(d, p, e))
    && (forall k :: k in st.trace.paidProviders ==>
          k in next.trace.paidProviders && next.trace.paidProviders[k] == st.trace.paidProviders[k])
    && (forall k :: k in st.trace.paidDelegators ==>
          k in next.trace.paidDelegators && next.trace.paidDelegators[k] == st.trace.paidDelegators[k])
  }

  lemma StepExtends(cfg: Config, st: Ledger, call: Call)
    requires WellFormed(cfg, st)
    ensures Extends(st, Step(cfg, st, call))
  {
    if Possible(cfg, st, call) && Dispatch(cfg, st, call).Ok? {
      if call.Initialize? {
        RotationExtends(cfg, st, call.block);
      } else if call.ProviderClaim? {
        ProviderClaimExtends(cfg, st, call.p, call.era);
      } else if call.DelegatorClaim? {
        DelegatorClaimExtends(cfg, st, call.d, call.p);
      } else {
        CurrentOnly(cfg, st, call);
      }
    }
  }

  /** next differs from st in balances, stored histories, flags of records, and more payments. */
  ghost predicate PaysMore(st: Ledger, next: Ledger) {
    && next.era == st.era && next.eraState == st.eraState && next.trace.history == st.trace.history
    && (forall k :: k in st.records ==> k in next.records && SameRecord(st.records[k], next.records[k]))
    && (forall k :: k in st.trace.paidProviders ==>
          k in next.trace.paidProviders && next.trace.paidProviders[k] == st.trace.paidProviders[k])
    && (forall k :: k in st.trace.paidDelegators ==>
          k in next.trace.paidDelegators && next.trace.paidDelegators[k] == st.trace.paidDelegators[k])
  }

  lemma PaysMoreExtends(st: Ledger, next: Ledger)
    requires PaysMore(st, next)
    ensures Extends(st, next)
  {
  }

  lemma ProviderClaimExtends(cfg: Config, st: Ledger, p: ProviderId, era: nat)
    requires WellFormed(cfg, st) && ClaimProvider(cfg, st, p, era).Ok?
    ensures Extends(st, ClaimProvider(cfg, st, p, era).value)
  {
    ClaimSteps.ClaimableProvider(cfg, st, p, era);
    PaysMoreExtends(st, ClaimProvider(cfg, st, p, era).value);
  }

  lemma DelegatorClaimExtends(cfg: Config, st: Ledger, d: AccountId, p: ProviderId)
    requires WellFormed(cfg, st) && ClaimDelegator(cfg, st, d, p).Ok?
    ensures Extends(st, ClaimDelegator(cfg, st, d, p).value)
  {
    ClaimSteps.ClaimableDelegator(cfg, st, d, p);
    PaysMoreExtends(st, ClaimDelegator(cfg, st, d, p).value);
  }

  lemma RotationExtends(cfg: Config, st: Ledger, block: nat)
    requires WellFormed(cfg, st) && st.era.firstBlock <= block
    ensures Extends(st, OnInitialize(cfg, st, block))
  {
    if st.era.ShouldUpdate(block) {
      EraSteps.RotationShape(cfg, st, block);
      RotatedExtends(cfg, st, OnInitialize(cfg, st, block));
    }
  }

  lemma RotatedExtends(cfg: Config, st: Ledger, next: Ledger)
    requires RecordsOk(cfg, st.providers, st.records, st.era.current)
    requires next.era.current == st.era.current + 1 && next.trace == st.trace
    requires next.eraState == ClosedEras(st.eraState, st.accumulator, st.era.current)
    requires next.records == RotatedRecords(st.providers, st.records, st.era.current)
    ensures Extends(st, next)
  {
    EraSteps.RotatedEntries(cfg, st.providers, st.records, st.era.current);
  }

  /** All other calls write entries of the current era only, and none of the payments. */
  ghost predicate WritesCurrentOnly(st: Ledger, next: Ledger) {
    && next.era.current == st.era.current
    && (forall e: nat :: e < st.era.current ==> EraOf(next.eraState, e) == EraOf(st.eraState, e))
    && (forall p: ProviderId, e: nat :: e < st.era.current && (p, e) in st.records ==>
          (p, e) in next.records && next.records[(p, e)] == st.records[(p, e)])
    && (forall d: AccountId, p: ProviderId, e: nat :: e < st.era.current ==>
          next.trace.history(d, p, e) == st.trace.history(d, p, e))
    && next.trace.paidProviders == st.trace.paidProviders
    && next.trace.paidDelegators == st.trace.paidDelegators
  }

  lemma CurrentOnly(cfg: Config, st: Ledger, call: Call)
    requires InOrder(st, call) && Dispatch(cfg, st, call).Ok?
    requires !call.Initialize? && !call.ProviderClaim? && !call.DelegatorClaim?
    ensures Extends(st, Dispatch(cfg, st, call).value)
  {
    if call.Stake? {
      StakeWritesCurrent(cfg, st, call.d, call.p, call.amount);
    } else if call.Unstake? {
      UnstakeWritesCurrent(cfg, st, call.d, call.p, call.amount);
    } else if call.Register? || call.Unregister? || call.BondMore? || call.BondLess? {
      BondWritesCurrent(cfg, st, call);
    } else {
      WritesNothing(cfg, st, call);
    }
  }

  lemma WritesNothing(cfg: Config, st: Ledger, call: Call)
    requires InOrder(st, call) && Dispatch(cfg, st, call).Ok?
    requires call.BlocksPerEra? || call.Reward? || call.WithdrawBond? || call.WithdrawStake? || call.Withdraw?
             || call.Elsewhere?
    ensures WritesCurrentOnly(st, Dispatch(cfg, st, call).value)
  {
  }

  lemma BondWritesCurrent(cfg: Config, st: Ledger, call: Call)
    requires InOrder(st, call) && Dispatch(cfg, st, call).Ok?
    requires call.Register? || call.Unregister? || call.BondMore? || call.BondLess?
    ensures WritesCurrentOnly(st, Dispatch(cfg, st, call).value)
  {
  }

  lemma StakeWritesCurrent(cfg: Config, st: Ledger, d: AccountId, p: ProviderId, amount: nat)
    requires Delegate(cfg, st, d, p, amount).Ok?
    ensures WritesCurrentOnly(st, Delegate(cfg, st, d, p, amount).value)
  {
  }

  lemma UnstakeWritesCurrent(cfg: Config, st: Ledger, d: AccountId, p: ProviderId, amount: nat)
    requires DelegatorUnstake(cfg, st, d, p, amount).Ok?
    ensures WritesCurrentOnly(st, DelegatorUnstake(cfg, st, d, p, amount).value)
  {
  }

  lemma ExtendsTransitive(st: Ledger, mid: Ledger, last: Ledger)
    requires Extends(st, mid) && Extends(mid, last)
    ensures Extends(st, last)
  {
  }

  /** Over any run, closed eras keep their stake, rewards, records and stake histories for ever. */
  lemma {:induction false} RunExtends(cfg: Config, st: Ledger, calls: seq<Call>)
    requires Valid(cfg, st)
    ensures Extends(st, Run(cfg, st, calls))
    decreases |calls|
  {
    if calls != [] {
      var mid := Step(cfg, st, calls[0]);
      StepExtends(cfg, st, calls[0]);
      StepValid(cfg, st, calls[0]);
      RunExtends(cfg, mid, calls[1..]);
      ExtendsTransitive(st, mid, Run(cfg, st, calls));
    }
  }

  // ---- Paid once

  lemma PaymentsLast(cfg: Config, st: Ledger, calls: seq<Call>)
    requires Valid(cfg, st)
    ensures WellFormed(cfg, Run(cfg, st, calls))
    ensures forall k :: k in st.trace.paidProviders ==> k in Run(cfg, st, calls).trace.paidProviders
    ensures forall k :: k in st.trace.paidDelegators ==> k in Run(cfg, st, calls).trace.paidDelegators
  {
    RunExtends(cfg, st, calls);
    RunValid(cfg, st, calls);
  }

  lemma ProviderClaimStep(cfg: Config, st: Ledger, p: ProviderId, era: nat)
    requires ClaimProvider(cfg, st, p, era).Ok?
    ensures Step(cfg, st, ProviderClaim(p, era)) == ClaimProvider(cfg, st, p, era).value
  {
  }

  lemma DelegatorClaimStep(cfg: Config, st: Ledger, d: AccountId, p: ProviderId)
    requires d != cfg.pot && ClaimDelegator(cfg, st, d, p).Ok?
    ensures Step(cfg, st, DelegatorClaim(d, p)) == ClaimDelegator(cfg, st, d, p).value
    ensures var next := ClaimDelegator(cfg, st, d, p).value;
            (d, p, Claimed(StakesOf(st.delegations, d, p)).era) in next.trace.paidDelegators
  {
  }

  /** A provider that was paid for an era is refused whenever it claims that era again. */
  lemma ProviderPaidOnce(cfg: Config, st: Ledger, p: ProviderId, era: nat, calls: seq<Call>)
    requires Valid(cfg, st) && ClaimProvider(cfg, st, p, era).Ok?
    ensures ClaimProvider(cfg, Run(cfg, ClaimProvider(cfg, st, p, era).value, calls), p, era).Err?
  {
    ProviderClaimStep(cfg, st, p, era);
    StepValid(cfg, st, ProviderClaim(p, era));
    RefusedEverAfter(cfg, ClaimProvider(cfg, st, p, era).value, p, era, calls);
  }

  lemma RefusedEverAfter(cfg: Config, st: Ledger, p: ProviderId, era: nat, calls: seq<Call>)
    requires Valid(cfg, st) && (p, era) in st.trace.paidProviders
    ensures ClaimProvider(cfg, Run(cfg, st, calls), p, era).Err?
  {
    PaymentsLast(cfg, st, calls);
    PaidProviderRefused(cfg, Run(cfg, st, calls), p, era);
  }

  lemma PaidProviderRefused(cfg: Config, st: Ledger, p: ProviderId, era: nat)
    requires WellFormed(cfg, st) && (p, era) in st.trace.paidProviders
    ensures ClaimProvider(cfg, st, p, era).Err?
  {
    if ClaimProvider(cfg, st, p, era).Ok? {
      ClaimSteps.ClaimableProvider(cfg, st, p, era);
    }
  }

  /** A delegator that was paid for an era is never again paid for it, whatever it stakes later. */
  lemma DelegatorPaidOnce(cfg: Config, st: Ledger, d: AccountId, p: ProviderId, calls: seq<Call>)
    requires Valid(cfg, st) && d != cfg.pot && ClaimDelegator(cfg, st, d, p).Ok?
    ensures var last := Run(cfg, ClaimDelegator(cfg, st, d, p).value, calls);
            ClaimDelegator(cfg, last, d, p).Ok? ==>
              Claimed(StakesOf(last.delegations, d, p)).era != Claimed(StakesOf(st.delegations, d, p)).era
  {
    var next := ClaimDelegator(cfg, st, d, p).value;
    var era := Claimed(StakesOf(st.delegations, d, p)).era;
    DelegatorClaimStep(cfg, st, d, p);
    StepValid(cfg, st, DelegatorClaim(d, p));
    PaymentsLast(cfg, next, calls);
    PaidDelegatorMovesOn(cfg, Run(cfg, next, calls), d, p, era);
  }

  lemma PaidDelegatorMovesOn(cfg: Config, st: Ledger, d: AccountId, p: ProviderId, era: nat)
    requires WellFormed(cfg, st) && (d, p, era) in st.trace.paidDelegators
    ensures ClaimDelegator(cfg, st, d, p).Ok? ==> Claimed(StakesOf(st.delegations, d, p)).era != era
  {
    if ClaimDelegator(cfg, st, d, p).Ok? {
      ClaimSteps.ClaimableDelegator(cfg, st, d, p);
    }
  }

  // ---- Unbonding

  /** What a call unbonds for account a; it unlocks a fixed period after the current era. */
  ghost function UnbondedBy(cfg: Config, st: Ledger, call: Call, a: AccountId): nat {
    if !Possible(cfg, st, call) || Dispatch(cfg, st, call).Err? then 0
    else
      match call
      case BondLess(who, _, amount) => if who == a then amount else 0
      case Unstake(d, p, amount) =>
        var held := Latest(StakesOf(st.delegations, d, p));
        if d != a then 0 else if held < amount + cfg.minDelegatorStake then held else amount
      case _ => 0
  }

  /** All that a run unbonds for a with the given unlock era. */
  ghost function Scheduled(cfg: Config, st: Ledger, calls: seq<Call>, a: AccountId, unlock: nat): nat
    decreases |calls|
  {
    if calls == [] then 0
    else
      (if st.era.current + cfg.unbondingPeriod == unlock then UnbondedBy(cfg, st, calls[0], a) else 0)
      + Scheduled(cfg, Step(cfg, st, calls[0]), calls[1..], a, unlock)
  }

  /** What a call pays out to a of the amount with the given unlock era: all of it, but not before that era. */
  ghost function PaidOutBy(cfg: Config, st: Ledger, call: Call, a: AccountId, unlock: nat): nat {
    if Possible(cfg, st, call) && call == Withdraw(a) && Dispatch(cfg, st, call).Ok? && unlock <= st.era.current
    then PendingAt(QueueOf(st.unbonding, a), unlock)
    else 0
  }

  ghost function PaidOut(cfg: Config, st: Ledger, calls: seq<Call>, a: AccountId, unlock: nat): nat
    decreases |calls|
  {
    if calls == [] then 0
    else PaidOutBy(cfg, st, calls[0], a, unlock) + PaidOut(cfg, Step(cfg, st, calls[0]), calls[1..], a, unlock)
  }

  lemma QueueGrows(cfg: Config, st: Ledger, unbonding: Queues, who: AccountId, amount: nat, a: AccountId, unlock: nat)
    requires QueuesOk(cfg, st.unbonding)
    requires var u := st.era.current + cfg.unbondingPeriod;
             unbonding == PutQueue(st.unbonding, who, Added(QueueOf(st.unbonding, who), UnlockingChunk(amount, u)))
    ensures PendingAt(QueueOf(unbonding, a), unlock)
            == PendingAt(QueueOf(st.unbonding, a), unlock)
               + if a == who && st.era.current + cfg.unbondingPeriod == unlock then amount else 0
  {
    assert Ascending(QueueOf(st.unbonding, who));
    AddedPending(QueueOf(st.unbonding, who), UnlockingChunk(amount, st.era.current + cfg.unbondingPeriod), unlock);
  }

  lemma UnstakePending(cfg: Config, st: Ledger, d: AccountId, p: ProviderId, amount: nat, a: AccountId, unlock: nat)
    requires QueuesOk(cfg, st.unbonding) && DelegatorUnstake(cfg, st, d, p, amount).Ok?
    ensures var held := Latest(StakesOf(st.delegations, d, p));
            PendingAt(QueueOf(DelegatorUnstake(cfg, st, d, p, amount).value.unbonding, a), unlock)
            == PendingAt(QueueOf(st.unbonding, a), unlock)
               + if a == d && st.era.current + cfg.unbondingPeriod == unlock
                 then (if held < amount + cfg.minDelegatorStake then held else amount) else 0
  {
    var taken := UnstakeAmount(cfg, Latest(StakesOf(st.delegations, d, p)), amount);
    QueueGrows(cfg, st, DelegatorUnstake(cfg, st, d, p, amount).value.unbonding, d, taken, a, unlock);
  }

  lemma BondLessPending(cfg: Config, st: Ledger, who: AccountId, p: ProviderId, amount: nat, a: AccountId, unlock: nat)
    requires QueuesOk(cfg, st.unbonding) && ProviderBondLess(cfg, st, who, p, amount).Ok?
    ensures PendingAt(QueueOf(ProviderBondLess(cfg, st, who, p, amount).value.unbonding, a), unlock)
            == PendingAt(QueueOf(st.unbonding, a), unlock)
               + if a == who && st.era.current + cfg.unbondingPeriod == unlock then amount else 0
  {
    QueueGrows(cfg, st, ProviderBondLess(cfg, st, who, p, amount).value.unbonding, who, amount, a, unlock);
  }

  lemma WithdrawPending(cfg: Config, st: Ledger, who: AccountId, a: AccountId, unlock: nat)
    requires QueuesOk(cfg, st.unbonding) && WithdrawUnbonded(st, who).Ok?
    ensures PendingAt(QueueOf(WithdrawUnbonded(st, who).value.unbonding, a), unlock)
            == if a == who && unlock <= st.era.current then 0 else PendingAt(QueueOf(st.unbonding, a), unlock)
  {
    var queue := QueueOf(st.unbonding, who);
    var era := st.era.current;
    assert Ascending(queue);
    assert QueueOf(PutQueue(st.unbonding, who, Locked(queue, era)), a)
           == if a == who then Locked(queue, era) else QueueOf(st.unbonding, a);
    PartitionPending(queue, era, unlock);
  }

  lemma QueuesUntouched(cfg: Config, st: Ledger, call: Call)
    requires !call.BondLess? && !call.Unstake? && !call.Withdraw?
    ensures Step(cfg, st, call).unbonding == st.unbonding
  {
  }

  lemma StepPending(cfg: Config, st: Ledger, call: Call, a: AccountId, unlock: nat)
    requires QueuesOk(cfg, st.unbonding)
    ensures PendingAt(QueueOf(Step(cfg, st, call).unbonding, a), unlock) + PaidOutBy(cfg, st, call, a, unlock)
            == PendingAt(QueueOf(st.unbonding, a), unlock)
               + if st.era.current + cfg.unbondingPeriod == unlock then UnbondedBy(cfg, st, call, a) else 0
  {
    if call.BondLess? && Possible(cfg, st, call) && Dispatch(cfg, st, call).Ok? {
      BondLessPending(cfg, st, call.who, call.p, call.amount, a, unlock);
    } else if call.Unstake? && Possible(cfg, st, call) && Dispatch(cfg, st, call).Ok? {
      UnstakePending(cfg, st, call.d, call.p, call.amount, a, unlock);
    } else if call.Withdraw? && Possible(cfg, st, call) && Dispatch(cfg, st, call).Ok? {
      WithdrawPending(cfg, st, call.who, a, unlock);
    } else if !call.BondLess? && !call.Unstake? && !call.Withdraw? {
      QueuesUntouched(cfg, st, call);
    }
  }

  /**
    Over any run, what was unbonded for an unlock era is either still pending or was paid out, and
    it is paid out only by withdrawals from that era on.
   */
  lemma {:induction false} UnbondingConservation(cfg: Config, st: Ledger, calls: seq<Call>, a: AccountId, unlock: nat)
    requires Valid(cfg, st)
    ensures PendingAt(QueueOf(Run(cfg, st, calls).unbonding, a), unlock) + PaidOut(cfg, st, calls, a, unlock)
            == PendingAt(QueueOf(st.unbonding, a), unlock) + Scheduled(cfg, st, calls, a, unlock)
    decreases |calls|
  {
    if calls != [] {
      StepPending(cfg, st, calls[0], a, unlock);
      StepValid(cfg, st, calls[0]);
      UnbondingConservation(cfg, Step(cfg, st, calls[0]), calls[1..], a, unlock);
    }
  }

  predicate SomethingMatured(queue: Chunks, era: nat) {
    exists u :: 0 <= u <= era && PendingAt(queue, u) > 0
  }

  lemma MaturedIff(queue: Chunks, era: nat)
    requires Ascending(queue)
    ensures Total(Matured(queue, era)) > 0 <==> SomethingMatured(queue, era)
  {
    PartitionRefines(queue, era);
    if SomethingMatured(queue, era) {
      var u :| 0 <= u <= era && PendingAt(queue, u) > 0;
      PartitionPending(queue, era, u);
      PendingWithinTotal(Matured(queue, era), u);
    }
    if Total(Matured(queue, era)) > 0 {
      var u := queue[0].unlockEra;
      assert 0 <= u <= era && PendingAt(queue, u) > 0;
    }
  }

  /**
    A withdrawal succeeds exactly if something has reached its unlock era, and then pays all of it
    in full and touches nothing that has not.
   */
  lemma WithdrawalPaysAll(cfg: Config, st: Ledger, who: AccountId)
    requires WellFormed(cfg, st) && Backed(st)
    ensures WithdrawUnbonded(st, who).Ok? <==> SomethingMatured(QueueOf(st.unbonding, who), st.era.current)
    ensures WithdrawUnbonded(st, who).Ok? ==>
              var next := WithdrawUnbonded(st, who).value;
              && (forall u: nat :: PendingAt(QueueOf(next.unbonding, who), u)
                                   == if u <= st.era.current then 0 else PendingAt(QueueOf(st.unbonding, who), u))
              && next.bank.Free(who) + Total(QueueOf(next.unbonding, who))
                 == st.bank.Free(who) + Total(QueueOf(st.unbonding, who))
  {
    var queue := QueueOf(st.unbonding, who);
    assert Ascending(queue);
    MaturedIff(queue, st.era.current);
    if WithdrawUnbonded(st, who).Ok? {
      PartitionRefines(queue, st.era.current);
      forall u: nat ensures PendingAt(QueueOf(WithdrawUnbonded(st, who).value.unbonding, who), u)
                            == if u <= st.era.current then 0 else PendingAt(queue, u)
      {
        WithdrawPending(cfg, st, who, who, u);
      }
      ClaimSteps.WithdrawUnbondedLockstep(cfg, st, who);
      assert QueueOf(WithdrawUnbonded(st, who).value.unbonding, who) == Locked(queue, st.era.current);
    }
  }
}
