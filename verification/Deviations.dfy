/**
  Where the pallets do something else than their comments say, or their names suggest: when exactly
  the two agree, and an input on which they do not.
 */
module Deviations {
  import Arithmetic
  import opened Wrappers
  import opened Currency
  import opened Delegations
  import opened StakingTypes
  import opened StakingSpec
  import opened StakingInvariant
  import opened StakingRuns
  import RunSteps
  import opened StakingSafety
  import StakingGuarantees
  import StakeSteps
  import V = ValidatorSpec
  import Kick = ValidatorProofs
  import Books = ValidatorLedger

  // ---- The cap on delegators is checked before the count goes up

  /** A new delegator is refused for lack of room exactly when the count exceeds the cap already. */
  lemma CapCheckedLate(cfg: Config, st: Ledger, d: AccountId, p: ProviderId, amount: nat)
    requires WellFormed(cfg, st) && IsActive(st.providers, p) && amount > 0
    ensures Delegate(cfg, st, d, p, amount) == Err(MaxNumberOfStakersExceeded) <==>
              d !in Delegators(st, p) && |Delegators(st, p)| > cfg.maxDelegatorsPerProvider
  {
    DelegatorCount(cfg, st, p);
    StakeAccepted(cfg, st, d, p, amount);
    assert Latest(StakesOf(st.delegations, d, p)) > 0 <==> d in Delegators(st, p) by {
      if Latest(StakesOf(st.delegations, d, p)) > 0 {
        assert (d, p) in st.delegations;
      }
    }
  }

  /** After an accepted delegation the cap is exceeded exactly if it already was, or was just met and d is new. */
  lemma CapAfterDelegate(cfg: Config, st: Ledger, d: AccountId, p: ProviderId, amount: nat)
    requires WellFormed(cfg, st) && Delegate(cfg, st, d, p, amount).Ok?
    ensures var before := Delegators(st, p);
            var after := Delegators(Delegate(cfg, st, d, p, amount).value, p);
            && after == before + {d}
            && (|after| > cfg.maxDelegatorsPerProvider <==>
                  || |before| > cfg.maxDelegatorsPerProvider
                  || (d !in before && |before| == cfg.maxDelegatorsPerProvider))
  {
    DelegateShape(cfg, st, d, p, amount);
    OneMoreDelegator(st, Delegate(cfg, st, d, p, amount).value, d, p);
    OneMore(Delegators(st, p), d);
  }

  lemma OneMore(s: set<AccountId>, x: AccountId)
    ensures |s + {x}| == |s| + if x in s then 0 else 1
  {
    if x in s {
      assert s + {x} == s;
    }
  }

  lemma OneMoreDelegator(st: Ledger, next: Ledger, d: AccountId, p: ProviderId)
    requires (d, p) in next.delegations && Latest(next.delegations[(d, p)]) > 0
    requires forall k :: k != (d, p) ==> (k in next.delegations <==> k in st.delegations)
                                         && (k in st.delegations ==> next.delegations[k] == st.delegations[k])
    ensures Delegators(next, p) == Delegators(st, p) + {d}
  {
    forall x: AccountId ensures x in Delegators(next, p) <==> x in Delegators(st, p) + {d} {
      assert x in Delegators(next, p) <==> (x, p) in next.delegations && Latest(next.delegations[(x, p)]) > 0;
      assert x in Delegators(st, p) <==> (x, p) in st.delegations && Latest(st.delegations[(x, p)]) > 0;
    }
  }

  lemma DelegateShape(cfg: Config, st: Ledger, d: AccountId, p: ProviderId, amount: nat)
    requires Delegate(cfg, st, d, p, amount).Ok?
    ensures var next := Delegate(cfg, st, d, p, amount).value;
            && (d, p) in next.delegations && Latest(next.delegations[(d, p)]) > 0
            && forall k :: k != (d, p) ==> (k in next.delegations <==> k in st.delegations)
                                           && (k in st.delegations ==> next.delegations[k] == st.delegations[k])
  {
  }

  const NO_ROOM: Config := Constants(1, 0, 10, 0, 5, 10, 1, 10, 99)

  const FUNDED: Bank := Bank(map[2 := 10, 3 := 100], map[])

  lemma NoRoomRegistered()
    ensures var st := Step(NO_ROOM, Start(NO_ROOM, FUNDED, 0, 1), Register(2, 7, 10));
            && st.era.current == 1 && IsActive(st.providers, 7)
            && st.records == map[(7, 1) := ProviderEraMetadata(10, 10, 0, false)]
            && st.delegations == map[] && st.bank.Free(3) == 100
            && st.providers[7].owner == 2 && st.unbonding == map[]
  {
  }

  lemma NoRoomStaked(st: Ledger)
    requires st.era.current == 1 && IsActive(st.providers, 7)
    requires st.records == map[(7, 1) := ProviderEraMetadata(10, 10, 0, false)]
    requires st.delegations == map[] && st.bank.Free(3) == 100
    ensures var next := Step(NO_ROOM, st, Stake(3, 7, 5));
            Delegators(next, 7) == {3} && next.era.current == 1 && next.trace.history(3, 7, 1) == 5
  {
    assert Staked([], 1, 5) == Ok([EraStake(5, 1)]);
    assert Step(NO_ROOM, st, Stake(3, 7, 5)).delegations == map[(3, 7) := [EraStake(5, 1)]];
  }

  /** A provider registers, and a delegator stakes with it in the same era. */
  lemma NoRoomRun()
    ensures var last := Run(NO_ROOM, Start(NO_ROOM, FUNDED, 0, 1), [Register(2, 7, 10), Stake(3, 7, 5)]);
            Delegators(last, 7) == {3} && last.era.current == 1 && last.trace.history(3, 7, 1) == 5
  {
    var s0 := Start(NO_ROOM, FUNDED, 0, 1);
    NoRoomRegistered();
    NoRoomStaked(Step(NO_ROOM, s0, Register(2, 7, 10)));
    RunSteps.RunTwo(NO_ROOM, s0, Register(2, 7, 10), Stake(3, 7, 5));
  }

  /** With room for no delegator at all, the first one is admitted. */
  lemma CapIsExceeded()
    ensures var last := Run(NO_ROOM, Start(NO_ROOM, FUNDED, 0, 1), [Register(2, 7, 10), Stake(3, 7, 5)]);
            NO_ROOM.maxDelegatorsPerProvider == 0 && |Delegators(last, 7)| == 1
  {
    NoRoomRun();
  }

  // ---- A delegation counts at once

  /** An accepted delegation counts in full in the current era, so never from the next era only. */
  lemma DelegationCountsNow(cfg: Config, st: Ledger, d: AccountId, p: ProviderId, amount: nat)
    requires WellFormed(cfg, st) && Delegate(cfg, st, d, p, amount).Ok?
    ensures var next := Delegate(cfg, st, d, p, amount).value;
            var era := st.era.current;
            && amount > 0
            && next.trace.history(d, p, era) == st.trace.history(d, p, era) + amount
            && RecordOf(next.records, p, era).total == RecordOf(st.records, p, era).total + amount
            && EraOf(next.eraState, era).staked == EraOf(st.eraState, era).staked + amount
  {
    StakingGuarantees.StakeNet(cfg, st, d, p, amount, d, p, st.era.current);
  }

  /** Staking in the era of the registration is staking in that era. */
  lemma StakedAtOnce()
    ensures var last := Run(NO_ROOM, Start(NO_ROOM, FUNDED, 0, 1), [Register(2, 7, 10), Stake(3, 7, 5)]);
            last.era.current == 1 && last.trace.history(3, 7, 1) == 5
  {
    NoRoomRun();
  }

  // ---- A new era length applies at once

  /** The era that the next block is in after the length was set. */
  function EraAfterChange(cfg: Config, st: Ledger, length: nat, block: nat): nat
    requires st.era.firstBlock <= block
  {
    match SetBlocksPerEra(st, length)
    case Ok(next) => OnInitialize(cfg, next, block).era.current
    case Err(_) => OnInitialize(cfg, st, block).era.current
  }

  /**
    The running era ends by the new length, and not by the old one as announced: the two agree
    exactly on blocks that are before both ends or after both.
   */
  lemma LengthAppliesAtOnce(cfg: Config, st: Ledger, length: nat, block: nat)
    requires st.era.firstBlock <= block && st.era.current > 0
    ensures var elapsed := block - st.era.firstBlock;
            && EraAfterChange(cfg, st, length, block) == st.era.current + (if elapsed >= length then 1 else 0)
            && (EraAfterChange(cfg, st, length, block) == OnInitialize(cfg, st, block).era.current <==>
                  elapsed < Arithmetic.Min(length, st.era.length) || (elapsed >= length && elapsed >= st.era.length))
  {
    EraAtBlock(cfg, st, block);
    if SetBlocksPerEra(st, length).Ok? {
      EraAtBlock(cfg, st.(era := st.era.(length := length)), block);
    }
  }

  lemma EraAtBlock(cfg: Config, st: Ledger, block: nat)
    requires st.era.firstBlock <= block && st.era.current > 0
    ensures OnInitialize(cfg, st, block).era.current
            == st.era.current + if block - st.era.firstBlock >= st.era.length then 1 else 0
  {
  }

  /** An era of ten blocks, cut to three: it ends at the fourth. */
  lemma EraCutShort(cfg: Config, st: Ledger)
    requires st.era == EraInfo(1, 1, 10)
    ensures EraAfterChange(cfg, st, 3, 4) == 2 && OnInitialize(cfg, st, 4).era.current == 1
  {
  }

  // ---- Candidates may be invulnerable as well

  predicate NoDuplicates(s: seq<AccountId>) {
    forall i, j :: 0 <= i < j < |s| ==> s[i] != s[j]
  }

  /** The candidates that a session at block now keeps. */
  function Kept(cfg: V.ValidatorConfig, w: V.World, now: nat): V.Candidates {
    Kick.Survivors(cfg, w.vs, now, w.vs.candidates, Kick.Budget(cfg, |w.vs.candidates|))
  }

  /** A session returns each validator once exactly if the invulnerables are distinct and none is a kept candidate. */
  lemma SessionListDistinct(cfg: V.ValidatorConfig, w: V.World, now: nat)
    requires Kick.Distinct(w.vs.candidates)
    ensures NoDuplicates(V.NewSession(cfg, w, now).1) <==>
              && NoDuplicates(w.vs.invulnerables)
              && forall c :: c in Kept(cfg, w, now) ==> c.who !in w.vs.invulnerables
  {
    var kept := Kept(cfg, w, now);
    Kick.SessionKick(cfg, w, now);
    Books.SurvivorsDistinct(cfg, w.vs, now, w.vs.candidates, Kick.Budget(cfg, |w.vs.candidates|));
    assert NoDuplicates(Kick.Names(kept));
    DisjointNames(w.vs.invulnerables, kept);
    ConcatDistinct(w.vs.invulnerables, Kick.Names(kept));
  }

  lemma DisjointNames(s: seq<AccountId>, cs: V.Candidates)
    ensures (forall c :: c in cs ==> c.who !in s) <==> (forall x :: x in Kick.Names(cs) ==> x !in s)
  {
    var names := Kick.Names(cs);
    if forall x :: x in names ==> x !in s {
      forall c | c in cs ensures c.who !in s {
        var i :| 0 <= i < |cs| && cs[i] == c;
        assert names[i] in names;
      }
    }
    if forall c :: c in cs ==> c.who !in s {
      forall x | x in names ensures x !in s {
        var i :| 0 <= i < |names| && names[i] == x;
        assert cs[i] in cs;
      }
    }
  }

  lemma ConcatDistinct(a: seq<AccountId>, b: seq<AccountId>)
    ensures NoDuplicates(a + b) <==> NoDuplicates(a) && NoDuplicates(b) && forall x :: x in b ==> x !in a
  {
    var s := a + b;
    var disjoint := forall i, j :: 0 <= i < |a| && 0 <= j < |b| ==> a[i] != b[j];
    if x :| x in b && x in a {
      var i, j :| 0 <= i < |a| && 0 <= j < |b| && a[i] == x && b[j] == x;
      assert !disjoint;
    } else {
      assert forall i, j :: 0 <= i < |a| && 0 <= j < |b| ==> a[i] in a && b[j] in b;
      assert disjoint;
    }
    if NoDuplicates(s) {
      forall i, j | 0 <= i < |a| && 0 <= j < |b| ensures a[i] != b[j] {
        assert s[i] == a[i] && s[|a| + j] == b[j];
      }
      forall i, j | 0 <= i < j < |b| ensures b[i] != b[j] {
        assert s[|a| + i] == b[i] && s[|a| + j] == b[j];
      }
      forall i, j | 0 <= i < j < |a| ensures a[i] != a[j] {
        assert s[i] == a[i] && s[j] == a[j];
      }
    }
  }

  const ONE_SEAT: V.ValidatorConfig := V.ValidatorConfig(1, 10, 0, 50, 0)

  const NO_VALIDATORS: V.World :=
    V.World(V.Validators([], [], map[], 1, 0, None, map[]), Bank(map[], map[]))

  /** Account 1 becomes a candidate and then an invulnerable: the next session returns it twice. */
  lemma ReturnedTwice()
    ensures var keys: V.Keys := map[1 := true];
            var joined := Books.Dispatch(ONE_SEAT, NO_VALIDATORS, 5, Books.Join(1, keys));
            && joined.Ok?
            && var named := Books.Dispatch(ONE_SEAT, joined.value, 5, Books.Invulnerables([1], keys));
               named.Ok? && V.NewSession(ONE_SEAT, named.value, 6).1 == [1, 1]
  {
    var keys: V.Keys := map[1 := true];
    var joined := Books.Dispatch(ONE_SEAT, NO_VALIDATORS, 5, Books.Join(1, keys)).value;
    assert joined.vs.candidates == [V.CandidateInfo(1, 0)];
    assert V.FirstFault(keys, [1]) == V.FirstFault(keys, []);
    var named := Books.Dispatch(ONE_SEAT, joined, 5, Books.Invulnerables([1], keys)).value;
    var cs := named.vs.candidates;
    assert V.KickFirst(ONE_SEAT, named, 6, cs, 0) == V.Kicked(named, []);
    assert V.KickFirst(ONE_SEAT, named, 6, cs, 1) == V.Kicked(named, [1]);
  }

  // ---- The sum in the check of a bond may wrap around

  /** The check on the wrapped sum is the one on the exact sum but for what wraps around within the bond. */
  lemma BondCheckIff(cfg: Config, bond: nat, amount: nat)
    requires bond <= MAX_BALANCE && amount <= MAX_BALANCE && cfg.minProviderStake <= MAX_BALANCE
    ensures (bond >= WrappedSum(amount, cfg.minProviderStake) <==> bond >= amount + cfg.minProviderStake) <==>
              ChecksExactly(cfg, bond, amount)
  {
    WrapsDown(amount, cfg.minProviderStake);
  }

  /**
    The call as the pallet writes it reduces a bond as intended, and keeps the invariant, exactly if
    the sum in its check does not wrap around to within the bond.
   */
  lemma BondLessIff(cfg: Config, st: Ledger, who: AccountId, p: ProviderId, amount: nat)
    requires WellFormed(cfg, st) && amount <= MAX_BALANCE && cfg.minProviderStake <= MAX_BALANCE
    requires RecordOf(st.records, p, st.era.current).bond <= MAX_BALANCE
    requires BondLessAsWritten(cfg, st, who, p, amount).Ok?
    ensures var exact := ChecksExactly(cfg, RecordOf(st.records, p, st.era.current).bond, amount);
            var written := BondLessAsWritten(cfg, st, who, p, amount);
            && (written == ProviderBondLess(cfg, st, who, p, amount) <==> exact)
            && (WellFormed(cfg, written.value) <==> exact)
  {
    var bond := RecordOf(st.records, p, st.era.current).bond;
    BondCheckIff(cfg, bond, amount);
    if ChecksExactly(cfg, bond, amount) {
      ExactWhenSound(cfg, st, who, p, amount);
      StakeSteps.BondLessWellFormed(cfg, st, who, p, amount);
    } else {
      TooLittleBond(cfg, st, who, p, amount);
    }
  }

  lemma TooLittleBond(cfg: Config, st: Ledger, who: AccountId, p: ProviderId, amount: nat)
    requires amount <= MAX_BALANCE && cfg.minProviderStake <= MAX_BALANCE
    requires RecordOf(st.records, p, st.era.current).bond <= MAX_BALANCE
    requires BondLessAsWritten(cfg, st, who, p, amount).Ok?
    requires !ChecksExactly(cfg, RecordOf(st.records, p, st.era.current).bond, amount)
    ensures !WellFormed(cfg, BondLessAsWritten(cfg, st, who, p, amount).value)
  {
    var next := BondLessAsWritten(cfg, st, who, p, amount).value;
    WrapsDown(amount, cfg.minProviderStake);
    BondAtLeast(cfg, next.providers, next.records, next.era.current, p, st.era.current);
  }

  lemma BondAtLeast(cfg: Config, providers: Providers, records: Records, current: nat, p: ProviderId, e: nat)
    ensures RecordsOk(cfg, providers, records, current) && (p, e) in records ==>
              records[(p, e)].bond >= cfg.minProviderStake
  {
    if RecordsOk(cfg, providers, records, current) && (p, e) in records {
      assert RecordOk(cfg, providers, current, p, e, records[(p, e)]);
    }
  }

  /** With a minimum of ten, a bond of ten passes the check for the largest amount. */
  lemma BondCheckWraps()
    ensures 10 >= WrappedSum(MAX_BALANCE, 10) && !(10 >= MAX_BALANCE + 10)
  {
    WrapsDown(MAX_BALANCE, 10);
  }

  /**
    A provider that has just registered with the minimum may so reduce its bond by the largest
    amount, and is left with none.
   */
  lemma BondIsLost()
    ensures var st := Step(NO_ROOM, Start(NO_ROOM, FUNDED, 0, 1), Register(2, 7, 10));
            var written := BondLessAsWritten(NO_ROOM, st, 2, 7, MAX_BALANCE);
            && written.Ok? && RecordOf(written.value.records, 7, 1).bond == 0
            && ProviderBondLess(NO_ROOM, st, 2, 7, MAX_BALANCE) == Err(InsufficientBond)
  {
    NoRoomRegistered();
    WrapsDown(MAX_BALANCE, 10);
  }
}
