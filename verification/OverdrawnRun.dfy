/**
  A run in which the rewards of one era add up to more than was deposited for it: each of three
  equal stakes is paid one unit of the two that are there for all of them.
 */
module OverdrawnRun {
  import opened Wrappers
  import opened Currency
  import opened Delegations
  import opened StakingTypes
  import opened StakingSpec
  import opened StakingRuns
  import opened RunSteps

  /** Providers keep four fifths of the rewards. */
  const CONFIG: Config := Constants(1, 800_000_000, 10, 10, 5, 10, 1, 10, 99)

  const BANK: Bank := Bank(map[2 := 10, 3 := 5, 4 := 5, 5 := 5], map[])

  const RECORD := ProviderEraMetadata(10, 25, 3, false)

  const ERA := EraMetadata(10, 25)

  /** Accounts 3, 4 and 5 stake 5 each with provider 7. */
  function Staking(): seq<Call> {
    [Register(2, 7, 10), Stake(3, 7, 5), Stake(4, 7, 5), Stake(5, 7, 5)]
  }

  /** A reward of 10 is deposited, the era closes, and the provider claims. */
  function Closing(): seq<Call> {
    [Reward(10), Initialize(2), ProviderClaim(7, 1)]
  }

  /** Two of the three claim. */
  function Claiming(): seq<Call> {
    [DelegatorClaim(3, 7), DelegatorClaim(4, 7)]
  }

  /** The first n of the three have staked. */
  ghost predicate Open(st: Ledger, n: nat) {
    && st.era == EraInfo(1, 1, 1) && IsActive(st.providers, 7) && st.providers[7].owner == 2
    && (7, 1) in st.records && st.records[(7, 1)] == ProviderEraMetadata(10, 10 + 5 * n, n, false)
    && 1 in st.eraState && st.eraState[1] == EraMetadata(0, 10 + 5 * n)
    && st.accumulator == 0 && st.bank.Free(99) == 0
    && forall d: AccountId :: 3 <= d < 6 ==>
         && StakesOf(st.delegations, d, 7) == (if d < 3 + n then [EraStake(5, 1)] else [])
         && (3 + n <= d ==> st.bank.Free(d) >= 5)
  }

  /** The era is closed, the provider and the first n of the three were paid, and the pot holds the rest. */
  ghost predicate Closed(st: Ledger, n: nat, rest: nat) {
    && st.era.current == 2 && IsActive(st.providers, 7) && st.providers[7].owner == 2
    && (7, 1) in st.records && st.records[(7, 1)].total == 25 && st.records[(7, 1)].bond == 10
    && 1 in st.eraState && st.eraState[1] == ERA && st.bank.Free(99) == rest
    && forall d: AccountId :: 3 <= d < 6 ==>
         StakesOf(st.delegations, d, 7) == [EraStake(5, if d < 3 + n then 2 else 1)]
  }

  /** Eight of ten go to the provider, and one to each of the three, so eleven in all. */
  lemma Dues(rec: ProviderEraMetadata)
    requires rec.total == 25 && rec.bond == 10
    ensures ProviderPart(CONFIG, rec, ERA) == 8 && DelegatorReward(CONFIG, 5, rec, ERA) == 1
  {
  }

  lemma Registered(st: Ledger)
    requires st.era == EraInfo(1, 1, 1) && st.bank == BANK && st.accumulator == 0
    requires st.eraState == map[1 := EraMetadata(0, 0), 0 := EraMetadata(0, 0)]
    requires st.providers == map[] && st.records == map[] && st.delegations == map[]
    ensures Open(Step(CONFIG, st, Register(2, 7, 10)), 0)
  {
  }

  lemma StakeAccepted(st: Ledger, n: nat)
    requires Open(st, n) && n < 3
    ensures var next := Step(CONFIG, st, Stake(3 + n, 7, 5));
            && next.era == st.era && next.providers == st.providers && next.accumulator == st.accumulator
            && next.bank == st.bank.Reserve(3 + n, 5)
            && next.delegations == st.delegations[(3 + n, 7) := [EraStake(5, 1)]]
            && next.records == st.records[(7, 1) := ProviderEraMetadata(10, 15 + 5 * n, n + 1, false)]
            && next.eraState == AddStaked(st.eraState, 1, 5)
  {
    assert Staked([], 1, 5) == Ok([EraStake(5, 1)]);
  }

  lemma StakeNext(st: Ledger, n: nat)
    requires Open(st, n) && n < 3
    ensures Open(Step(CONFIG, st, Stake(3 + n, 7, 5)), n + 1)
  {
    StakeAccepted(st, n);
    Staying(st, Step(CONFIG, st, Stake(3 + n, 7, 5)), n);
  }

  lemma Staying(st: Ledger, next: Ledger, n: nat)
    requires Open(st, n) && n < 3
    requires next.delegations == st.delegations[(3 + n, 7) := [EraStake(5, 1)]]
    requires next.bank == st.bank.Reserve(3 + n, 5)
    ensures next.bank.Free(99) == 0
    ensures forall d: AccountId :: 3 <= d < 6 ==>
              && StakesOf(next.delegations, d, 7) == (if d < 4 + n then [EraStake(5, 1)] else [])
              && (4 + n <= d ==> next.bank.Free(d) >= 5)
  {
    forall d: AccountId | 3 <= d < 6
      ensures StakesOf(next.delegations, d, 7) == if d < 4 + n then [EraStake(5, 1)] else []
      ensures 4 + n <= d ==> next.bank.Free(d) >= 5
    {
      assert StakesOf(st.delegations, d, 7) == if d < 3 + n then [EraStake(5, 1)] else [];
    }
  }

  lemma ThreeStake(st: Ledger)
    requires Open(st, 0)
    ensures Open(Step(CONFIG, Step(CONFIG, Step(CONFIG, st, Stake(3, 7, 5)), Stake(4, 7, 5)), Stake(5, 7, 5)), 3)
  {
    StakeNext(st, 0);
    StakeNext(Step(CONFIG, st, Stake(3, 7, 5)), 1);
    StakeNext(Step(CONFIG, Step(CONFIG, st, Stake(3, 7, 5)), Stake(4, 7, 5)), 2);
  }

  lemma AfterStaking()
    ensures Open(Run(CONFIG, Start(CONFIG, BANK, 0, 1), Staking()), 3)
  {
    var s0 := Start(CONFIG, BANK, 0, 1);
    StartShape(CONFIG, BANK, 0, 1);
    Registered(s0);
    ThreeStake(Step(CONFIG, s0, Register(2, 7, 10)));
    RunFour(CONFIG, s0, Register(2, 7, 10), Stake(3, 7, 5), Stake(4, 7, 5), Stake(5, 7, 5));
  }

  lemma EraCloses(st: Ledger)
    requires Open(st, 3)
    ensures var next := Step(CONFIG, Step(CONFIG, st, Reward(10)), Initialize(2));
            Closed(next, 0, 10) && next.records[(7, 1)] == RECORD
  {
    assert Rotates(st.providers, st.records, 1, 7);
  }

  lemma ProviderPaid(st: Ledger)
    requires Closed(st, 0, 10) && st.records[(7, 1)] == RECORD
    ensures Closed(Step(CONFIG, st, ProviderClaim(7, 1)), 0, 2)
  {
    Dues(RECORD);
  }

  lemma AfterClosing(st: Ledger)
    requires Open(st, 3)
    ensures Closed(Run(CONFIG, st, Closing()), 0, 2)
  {
    EraCloses(st);
    ProviderPaid(Step(CONFIG, Step(CONFIG, st, Reward(10)), Initialize(2)));
    RunThree(CONFIG, st, Reward(10), Initialize(2), ProviderClaim(7, 1));
  }

  lemma ClaimAccepted(st: Ledger, n: nat, rest: nat)
    requires Closed(st, n, rest) && n < 3 && rest > 0
    ensures ClaimDelegator(CONFIG, st, 3 + n, 7).Ok?
    ensures var next := ClaimDelegator(CONFIG, st, 3 + n, 7).value;
            && Step(CONFIG, st, DelegatorClaim(3 + n, 7)) == next
            && next.delegations == st.delegations[(3 + n, 7) := [EraStake(5, 2)]]
            && next.bank.Free(99) == rest - 1
  {
    Dues(st.records[(7, 1)]);
    assert StakesOf(st.delegations, 3 + n, 7) == [EraStake(5, 1)];
    assert Claimed([EraStake(5, 1)]) == ClaimResult([EraStake(5, 2)], 1, 5);
  }

  lemma ClaimNext(st: Ledger, n: nat, rest: nat)
    requires Closed(st, n, rest) && n < 3 && rest > 0
    ensures Closed(Step(CONFIG, st, DelegatorClaim(3 + n, 7)), n + 1, rest - 1)
  {
    var next := Step(CONFIG, st, DelegatorClaim(3 + n, 7));
    ClaimAccepted(st, n, rest);
    forall d: AccountId | 3 <= d < 6
      ensures StakesOf(next.delegations, d, 7) == [EraStake(5, if d < 4 + n then 2 else 1)]
    {
      assert StakesOf(st.delegations, d, 7) == [EraStake(5, if d < 3 + n then 2 else 1)];
    }
  }

  lemma AfterClaiming(st: Ledger)
    requires Closed(st, 0, 2)
    ensures Closed(Run(CONFIG, st, Claiming()), 2, 0)
  {
    ClaimNext(st, 0, 2);
    ClaimNext(Step(CONFIG, st, DelegatorClaim(3, 7)), 1, 1);
    RunTwo(CONFIG, st, DelegatorClaim(3, 7), DelegatorClaim(4, 7));
  }

  lemma NothingLeft(st: Ledger)
    requires Closed(st, 2, 0)
    ensures ClaimDelegator(CONFIG, st, 5, 7) == Err(InsufficientBalance)
  {
    Dues(st.records[(7, 1)]);
    assert StakesOf(st.delegations, 5, 7) == [EraStake(5, 1)];
    assert Claimed([EraStake(5, 1)]) == ClaimResult([EraStake(5, 2)], 1, 5);
  }

  /** The run, from the first block on: the pot is empty when the third delegator claims the unit it is due. */
  lemma OverdrawnIsReachable()
    ensures var last := Run(CONFIG, Start(CONFIG, BANK, 0, 1), Staking() + Closing() + Claiming());
            && last.bank.Free(CONFIG.pot) == 0
            && ClaimDelegator(CONFIG, last, 5, 7) == Err(InsufficientBalance)
  {
    var s0 := Start(CONFIG, BANK, 0, 1);
    var s1 := Run(CONFIG, s0, Staking());
    AfterStaking();
    AfterClosing(s1);
    AfterClaiming(Run(CONFIG, s1, Closing()));
    RunAppend(CONFIG, s0, Staking(), Closing());
    RunAppend(CONFIG, s0, Staking() + Closing(), Claiming());
    NothingLeft(Run(CONFIG, Run(CONFIG, s1, Closing()), Claiming()));
  }
}
