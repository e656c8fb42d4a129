/**
  A run that strands a stake: a delegator unstakes in full in two consecutive eras, claims, and
  stakes again before its provider unregisters.
 */
module StrandedRun {
  import Currency
  import opened Delegations
  import Unbonding
  import opened StakingTypes
  import opened StakingSpec
  import opened StakingRuns
  import opened RunSteps
  import opened Settlement
  import StakingGuarantees
  import Wrappers

  const CONFIG: Config := Constants(1, 0, 10, 10, 5, 10, 1, 10, 99)
  const BANK: Currency.Bank := Currency.Bank(map[2 := 10, 3 := 100], map[])

  /** Account 3 stakes 5 with provider 7 in era 1 and unstakes it in era 2. */
  function InAndOut(): seq<Call> {
    [Register(2, 7, 10), Stake(3, 7, 5), Initialize(2), Unstake(3, 7, 5)]
  }

  /** It does both again in era 3, and claims the reward of era 1. */
  function AgainAndClaim(): seq<Call> {
    [Initialize(3), Stake(3, 7, 5), Unstake(3, 7, 5), DelegatorClaim(3, 7)]
  }

  /** It stakes once more in era 4, and the provider unregisters. */
  function OnceMore(): seq<Call> {
    [Initialize(4), Stake(3, 7, 5), Unregister(7)]
  }

  /** What the calls of the run look at: provider 7 is active, account 3 has history s, and there are no rewards. */
  ghost predicate Reached(st: Ledger, era: nat, s: Stakes, free: nat, locked: nat) {
    && st.era == EraInfo(era, era, 1)
    && IsActive(st.providers, 7)
    && (7, era) in st.records
    && st.records[(7, era)] == ProviderEraMetadata(10, 10 + Latest(s), if Latest(s) > 0 then 1 else 0, false)
    && StakesOf(st.delegations, 3, 7) == s
    && st.bank.Free(3) >= free
    && |QueueOf(st.unbonding, 3)| <= locked
    && st.accumulator == 0
    && (forall e: nat :: e <= era ==> e in st.eraState && st.eraState[e].rewards == 0)
  }

  lemma Rotation(st: Ledger, era: nat, s: Stakes, free: nat, locked: nat)
    requires Reached(st, era, s, free, locked) && 1 <= era
    ensures Reached(Step(CONFIG, st, Initialize(era + 1)), era + 1, s, free, locked)
  {
    assert Rotates(st.providers, st.records, era, 7);
  }

  lemma StakeFive(st: Ledger, era: nat, s: Stakes, free: nat, locked: nat)
    requires Reached(st, era, s, free, locked) && free >= 5
    requires Latest(s) == 0 && |s| <= 3 && (s != [] ==> s[|s| - 1].era < era)
    ensures Reached(Step(CONFIG, st, Stake(3, 7, 5)), era, s + [EraStake(5, era)], free - 5, locked)
  {
    assert Staked(s, era, 5).value == s + [EraStake(5, era)];
    FiveStaked(st, era, s, free, locked);
  }

  /** Nothing stands in the way of the stake. */
  lemma FiveStaked(st: Ledger, era: nat, s: Stakes, free: nat, locked: nat)
    requires Reached(st, era, s, free, locked) && free >= 5 && Latest(s) == 0 && |s| <= 3
    requires Staked(s, era, 5).Ok? && Staked(s, era, 5).value == s + [EraStake(5, era)]
    ensures Step(CONFIG, st, Stake(3, 7, 5)) == Delegate(CONFIG, st, 3, 7, 5).value
    ensures Delegate(CONFIG, st, 3, 7, 5).Ok?
  {
  }

  lemma UnstakeFive(st: Ledger, era: nat, s: Stakes, t: Stakes, free: nat, locked: nat)
    requires Reached(st, era, s, free, locked) && locked <= 5
    requires Latest(s) == 5 && s[0].amount > 0 && s[|s| - 1].era <= era
    requires t == PutLast(s, era, 0) && t[0].amount > 0 && |t| <= 5
    ensures Reached(Step(CONFIG, st, Unstake(3, 7, 5)), era, t, free, locked + 1)
  {
    Unbonding.AddedLength(QueueOf(st.unbonding, 3), Unbonding.UnlockingChunk(5, era + 1));
    assert Unstaked(s, era, 5) == Wrappers.Ok(t);
  }

  lemma ClaimNothing(st: Ledger, era: nat, s: Stakes, free: nat, locked: nat)
    requires Reached(st, era, s, free, locked)
    requires s != [] && s[0].amount > 0 && s[0].era < era && Latest(Claimed(s).rest) == Latest(s)
    ensures Reached(Step(CONFIG, st, DelegatorClaim(3, 7)), era, Claimed(s).rest, free, locked)
  {
    var c := Claimed(s);
    assert DelegatorReward(CONFIG, c.amount, RecordOf(st.records, 7, c.era), st.eraState[c.era]) == 0;
  }

  lemma Started()
    ensures var st := Start(CONFIG, BANK, 0, 1);
            && st.bank == BANK && st.era == EraInfo(1, 1, 1) && st.accumulator == 0
            && st.eraState == map[1 := EraMetadata(0, 0), 0 := EraMetadata(0, 0)]
            && st.providers == map[] && st.records == map[] && st.delegations == map[] && st.unbonding == map[]
  {
  }

  lemma RegisterSeven(st: Ledger)
    requires st.bank == BANK && st.era == EraInfo(1, 1, 1) && st.accumulator == 0
    requires st.eraState == map[1 := EraMetadata(0, 0), 0 := EraMetadata(0, 0)]
    requires st.providers == map[] && st.records == map[] && st.delegations == map[] && st.unbonding == map[]
    ensures Reached(Step(CONFIG, st, Register(2, 7, 10)), 1, [], 100, 0)
  {
  }

  lemma Registered()
    ensures Reached(Step(CONFIG, Start(CONFIG, BANK, 0, 1), Register(2, 7, 10)), 1, [], 100, 0)
  {
    Started();
    RegisterSeven(Start(CONFIG, BANK, 0, 1));
  }

  lemma AfterInAndOut()
    ensures Reached(Run(CONFIG, Start(CONFIG, BANK, 0, 1), InAndOut()), 2, [EraStake(5, 1), EraStake(0, 2)], 90, 1)
  {
    var s0 := Start(CONFIG, BANK, 0, 1);
    Registered();
    OutInNextEra(Step(CONFIG, s0, Register(2, 7, 10)));
    RunFour(CONFIG, s0, Register(2, 7, 10), Stake(3, 7, 5), Initialize(2), Unstake(3, 7, 5));
  }

  lemma OutInNextEra(st: Ledger)
    requires Reached(st, 1, [], 100, 0)
    ensures Reached(Step(CONFIG, Step(CONFIG, Step(CONFIG, st, Stake(3, 7, 5)), Initialize(2)), Unstake(3, 7, 5)),
                    2, [EraStake(5, 1), EraStake(0, 2)], 90, 1)
  {
    var h := [EraStake(5, 1)];
    assert [] + h == h;
    StakeFive(st, 1, [], 100, 0);
    Rotation(Step(CONFIG, st, Stake(3, 7, 5)), 1, h, 95, 0);
    UnstakeFive(Step(CONFIG, Step(CONFIG, st, Stake(3, 7, 5)), Initialize(2)), 2, h, h + [EraStake(0, 2)], 95, 0);
  }

  lemma AfterAgainAndClaim(st: Ledger)
    requires Reached(st, 2, [EraStake(5, 1), EraStake(0, 2)], 90, 1)
    ensures Reached(Run(CONFIG, st, AgainAndClaim()), 3, [EraStake(0, 3)], 85, 2)
  {
    Rotation(st, 2, [EraStake(5, 1), EraStake(0, 2)], 90, 1);
    InAndOutAtOnce(Step(CONFIG, st, Initialize(3)));
    RunFour(CONFIG, st, Initialize(3), Stake(3, 7, 5), Unstake(3, 7, 5), DelegatorClaim(3, 7));
  }

  lemma InAndOutAtOnce(st: Ledger)
    requires Reached(st, 3, [EraStake(5, 1), EraStake(0, 2)], 90, 1)
    ensures Reached(Step(CONFIG, Step(CONFIG, Step(CONFIG, st, Stake(3, 7, 5)), Unstake(3, 7, 5)),
                         DelegatorClaim(3, 7)),
                    3, [EraStake(0, 3)], 85, 2)
  {
    var h := [EraStake(5, 1), EraStake(0, 2)];
    var out := [EraStake(5, 1), EraStake(0, 2), EraStake(0, 3)];
    StakeFive(st, 3, h, 90, 1);
    UnstakeFive(Step(CONFIG, st, Stake(3, 7, 5)), 3, h + [EraStake(5, 3)], out, 85, 1);
    assert Claimed(out) == ClaimResult([EraStake(0, 3)], 1, 5);
    ClaimNothing(Step(CONFIG, Step(CONFIG, st, Stake(3, 7, 5)), Unstake(3, 7, 5)), 3, out, 85, 2);
  }

  lemma AfterOnceMore(st: Ledger)
    requires Reached(st, 3, [EraStake(0, 3)], 85, 2)
    ensures var last := Run(CONFIG, st, OnceMore());
            Stranded(last, 3, 7) && Latest(StakesOf(last.delegations, 3, 7)) == 5
  {
    Rotation(st, 3, [EraStake(0, 3)], 85, 2);
    var s1 := Step(CONFIG, st, Initialize(4));
    StakeFive(s1, 4, [EraStake(0, 3)], 85, 2);
    var s2 := Step(CONFIG, s1, Stake(3, 7, 5));
    assert [EraStake(0, 3)] + [EraStake(5, 4)] == [EraStake(0, 3), EraStake(5, 4)];
    UnregisterSeven(s2);
    RunThree(CONFIG, st, Initialize(4), Stake(3, 7, 5), Unregister(7));
  }

  lemma UnregisterSeven(st: Ledger)
    requires Reached(st, 4, [EraStake(0, 3), EraStake(5, 4)], 80, 2)
    ensures var last := Step(CONFIG, st, Unregister(7));
            Stranded(last, 3, 7) && Latest(StakesOf(last.delegations, 3, 7)) == 5
  {
  }

  /** The run, from the first block on: its stake of 5 is stranded. */
  lemma StrandedIsReachable()
    ensures var calls := InAndOut() + AgainAndClaim() + OnceMore();
            var last := Run(CONFIG, Start(CONFIG, BANK, 0, 1), calls);
            Stranded(last, 3, 7) && Latest(StakesOf(last.delegations, 3, 7)) == 5
  {
    var s0 := Start(CONFIG, BANK, 0, 1);
    AfterInAndOut();
    RunAppend(CONFIG, s0, InAndOut(), AgainAndClaim());
    var s1 := Run(CONFIG, s0, InAndOut());
    AfterAgainAndClaim(s1);
    RunAppend(CONFIG, s0, InAndOut() + AgainAndClaim(), OnceMore());
    AfterOnceMore(Run(CONFIG, s1, AgainAndClaim()));
  }

  /** So there is a run after which no further calls whatsoever bring the stake back: it stays reserved. */
  lemma StrandedForGood(calls: seq<Call>)
    ensures var run := InAndOut() + AgainAndClaim() + OnceMore();
            var last := Run(CONFIG, Start(CONFIG, BANK, 0, 1), run + calls);
            && Latest(StakesOf(last.delegations, 3, 7)) == 5 && last.bank.Reserved(3) >= 5
            && ClaimDelegator(CONFIG, last, 3, 7).Err?
            && DelegatorWithdrawUnregistered(CONFIG, last, 3, 7).Err?
  {
    var run := InAndOut() + AgainAndClaim() + OnceMore();
    var s0 := Start(CONFIG, BANK, 0, 1);
    StrandedIsReachable();
    RunAppend(CONFIG, s0, run, calls);
    StrandedForever(CONFIG, Run(CONFIG, s0, run), calls, 3, 7);
    StakingGuarantees.StoredStaysReserved(CONFIG, BANK, 0, 1, run + calls, 3, 7);
  }
}
