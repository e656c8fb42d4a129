/** The deposits of candidates, and what every call of the validator set keeps. */
module ValidatorLedger {
  import Arithmetic
  import opened Wrappers
  import opened Currency
  import Perbill
  import opened ValidatorSpec
  import opened ValidatorProofs

  /** The deposits recorded for account a. */
  function DepositHeld(cs: Candidates, a: AccountId): nat {
    if cs == [] then 0 else (if cs[0].who == a then cs[0].deposit else 0) + DepositHeld(cs[1..], a)
  }

  lemma {:induction false} DepositConcat(x: Candidates, y: Candidates, a: AccountId)
    ensures DepositHeld(x + y, a) == DepositHeld(x, a) + DepositHeld(y, a)
  {
    if x == [] {
      assert x + y == y;
    } else {
      assert (x + y)[1..] == x[1..] + y;
      DepositConcat(x[1..], y, a);
    }
  }

  lemma DepositRemoved(cs: Candidates, i: nat, a: AccountId)
    requires i < |cs|
    ensures DepositHeld(RemoveAt(cs, i), a) + (if cs[i].who == a then cs[i].deposit else 0) == DepositHeld(cs, a)
  {
    assert cs == cs[..i] + ([cs[i]] + cs[i + 1..]);
    DepositConcat(cs[..i], [cs[i]] + cs[i + 1..], a);
    DepositConcat([cs[i]], cs[i + 1..], a);
    DepositConcat(cs[..i], cs[i + 1..], a);
  }

  /** Every recorded deposit is reserved. */
  ghost predicate DepositsBacked(w: World) {
    forall a: AccountId :: DepositHeld(w.vs.candidates, a) <= w.bank.Reserved(a)
  }

  /** Between two worlds every account's reserve moved by exactly as much as its recorded deposits. */
  ghost predicate InStep(w: World, next: World) {
    forall a: AccountId ::
      next.bank.Reserved(a) + DepositHeld(w.vs.candidates, a) == w.bank.Reserved(a) + DepositHeld(next.vs.candidates, a)
  }

  /** The block stored for an activity: a registration counts as a block one threshold ahead. */
  function StoredBlock(cfg: ValidatorConfig, a: Activity): nat {
    match a
    case Joined(block) => block + cfg.kickThreshold
    case Authored(block) => block
  }

  /** Candidates are distinct, and the block stored for each is that of its last activity. */
  ghost predicate ValidatorsOk(cfg: ValidatorConfig, vs: Validators, now: nat) {
    && Distinct(vs.candidates)
    && (forall a :: a in vs.lastActive ==> vs.lastActive[a].block <= now)
    && (forall c :: c in vs.candidates ==>
          c.who in vs.lastActive && LastBlock(vs, c.who) == StoredBlock(cfg, vs.lastActive[c.who]))
  }

  lemma InStepKeepsBacked(w: World, next: World)
    requires DepositsBacked(w) && InStep(w, next)
    ensures DepositsBacked(next)
  {
    forall a: AccountId ensures DepositHeld(next.vs.candidates, a) <= next.bank.Reserved(a) {
      assert DepositHeld(w.vs.candidates, a) <= w.bank.Reserved(a);
    }
  }

  // ---- Joining and leaving

  lemma RegisterInStep(cfg: ValidatorConfig, w: World, now: nat, who: AccountId, keys: Keys)
    requires RegisterAsCandidate(cfg, w, now, who, keys).Ok?
    ensures InStep(w, RegisterAsCandidate(cfg, w, now, who, keys).value)
  {
    forall a: AccountId
      ensures DepositHeld(w.vs.candidates + [CandidateInfo(who, w.vs.candidacyBond)], a)
              == DepositHeld(w.vs.candidates, a) + if a == who then w.vs.candidacyBond else 0
    {
      DepositConcat(w.vs.candidates, [CandidateInfo(who, w.vs.candidacyBond)], a);
    }
  }

  lemma RegisterOk(cfg: ValidatorConfig, w: World, now: nat, who: AccountId, keys: Keys)
    requires ValidatorsOk(cfg, w.vs, now) && RegisterAsCandidate(cfg, w, now, who, keys).Ok?
    ensures ValidatorsOk(cfg, RegisterAsCandidate(cfg, w, now, who, keys).value.vs, now)
  {
    var next := RegisterAsCandidate(cfg, w, now, who, keys).value.vs;
    forall i | 0 <= i < |w.vs.candidates| ensures w.vs.candidates[i].who != who {
    }
    forall c | c in next.candidates
      ensures c.who in next.lastActive && LastBlock(next, c.who) == StoredBlock(cfg, next.lastActive[c.who])
    {
      assert c in w.vs.candidates || c == CandidateInfo(who, w.vs.candidacyBond);
    }
  }

  /** A departure releases exactly the recorded deposit, and a slash splits it without remainder. */
  lemma RemoveReleasesDeposit(cfg: ValidatorConfig, w: World, who: AccountId, slash: bool)
    requires DepositsBacked(w) && TryRemoveCandidate(cfg, w, who, slash).Ok?
    ensures var deposit := w.vs.candidates[Position(w.vs.candidates, who)].deposit;
            var taken := if slash then Perbill.Of(cfg.slashRatio, deposit) else 0;
            var next := TryRemoveCandidate(cfg, w, who, slash).value;
            && taken <= deposit <= w.bank.Reserved(who)
            && next.bank.Reserved(who) == w.bank.Reserved(who) - deposit
            && (forall a: AccountId :: next.bank.Free(a)
                 == w.bank.Free(a) + (if a == who then deposit - taken else 0)
                    + if slash && w.vs.slashDestination == Some(a) then taken else 0)
            && (forall a: AccountId :: a != who ==> next.bank.Reserved(a) == w.bank.Reserved(a))
  {
    var i := Position(w.vs.candidates, who);
    DepositRemoved(w.vs.candidates, i, who);
    assert DepositHeld(w.vs.candidates, who) <= w.bank.Reserved(who);
  }

  lemma RemoveInStep(cfg: ValidatorConfig, w: World, who: AccountId, slash: bool)
    requires DepositsBacked(w) && TryRemoveCandidate(cfg, w, who, slash).Ok?
    ensures InStep(w, TryRemoveCandidate(cfg, w, who, slash).value)
  {
    var next := TryRemoveCandidate(cfg, w, who, slash).value;
    RemoveReleasesDeposit(cfg, w, who, slash);
    forall a: AccountId
      ensures next.bank.Reserved(a) + DepositHeld(w.vs.candidates, a)
              == w.bank.Reserved(a) + DepositHeld(next.vs.candidates, a)
    {
      DepositRemoved(w.vs.candidates, Position(w.vs.candidates, who), a);
    }
  }

  /** Removing the entry of one of several distinct candidates keeps the others, and only them. */
  lemma OthersRemain(cs: Candidates, i: nat)
    requires Distinct(cs) && i < |cs|
    ensures Distinct(RemoveAt(cs, i))
    ensures forall c :: c in RemoveAt(cs, i) ==> c in cs && c.who != cs[i].who
  {
    var rest := RemoveAt(cs, i);
    assert forall j :: 0 <= j < |rest| ==> rest[j] == if j < i then cs[j] else cs[j + 1];
    forall c | c in rest ensures c in cs && c.who != cs[i].who {
      var j :| 0 <= j < |rest| && rest[j] == c;
      assert c == if j < i then cs[j] else cs[j + 1];
    }
  }

  lemma RemoveOk(cfg: ValidatorConfig, w: World, now: nat, who: AccountId, slash: bool)
    requires ValidatorsOk(cfg, w.vs, now) && TryRemoveCandidate(cfg, w, who, slash).Ok?
    ensures ValidatorsOk(cfg, TryRemoveCandidate(cfg, w, who, slash).value.vs, now)
  {
    OthersRemain(w.vs.candidates, Position(w.vs.candidates, who));
  }

  // ---- Sessions

  lemma SurvivorsDistinct(cfg: ValidatorConfig, vs: Validators, now: nat, cs: Candidates, budget: nat)
    requires Distinct(cs)
    ensures Distinct(Survivors(cfg, vs, now, cs, budget))
  {
    if cs != [] {
      var stale := Stale(cfg, vs, now, cs[0].who) && budget > 0;
      var rest := if stale then budget - 1 else budget;
      SurvivorsDistinct(cfg, vs, now, cs[1..], rest);
      SurvivorsWithin(cfg, vs, now, cs[1..], rest);
      if !stale {
        var kept := Survivors(cfg, vs, now, cs[1..], rest);
        forall i | 0 <= i < |kept| ensures kept[i].who != cs[0].who {
          assert kept[i] in cs[1..];
        }
      }
    }
  }

  lemma SessionOk(cfg: ValidatorConfig, w: World, now: nat)
    requires ValidatorsOk(cfg, w.vs, now)
    ensures ValidatorsOk(cfg, NewSession(cfg, w, now).0.vs, now)
  {
    SessionKick(cfg, w, now);
    SurvivorsDistinct(cfg, w.vs, now, w.vs.candidates, Budget(cfg, |w.vs.candidates|));
    SurvivorsWithin(cfg, w.vs, now, w.vs.candidates, Budget(cfg, |w.vs.candidates|));
  }

  lemma {:induction false} KickFirstInStep(cfg: ValidatorConfig, w: World, now: nat, snapshot: Candidates, n: nat)
    requires DepositsBacked(w) && n <= |snapshot|
    ensures InStep(w, KickFirst(cfg, w, now, snapshot, n).world)
    ensures DepositsBacked(KickFirst(cfg, w, now, snapshot, n).world)
  {
    if n > 0 {
      KickFirstInStep(cfg, w, now, snapshot, n - 1);
      var k := KickFirst(cfg, w, now, snapshot, n - 1);
      KickOneInStep(cfg, k, now, snapshot[n - 1].who);
      var next := KickFirst(cfg, w, now, snapshot, n).world;
      InStepTransitive(w, k.world, next);
      InStepKeepsBacked(w, next);
    }
  }

  lemma KickOneInStep(cfg: ValidatorConfig, k: Kicked, now: nat, who: AccountId)
    requires DepositsBacked(k.world)
    ensures InStep(k.world, KickOne(cfg, k, now, who).world)
  {
    if TryRemoveCandidate(cfg, k.world, who, true).Ok? {
      RemoveInStep(cfg, k.world, who, true);
    }
  }

  lemma InStepTransitive(w: World, mid: World, last: World)
    requires InStep(w, mid) && InStep(mid, last)
    ensures InStep(w, last)
  {
    forall a: AccountId
      ensures last.bank.Reserved(a) + DepositHeld(w.vs.candidates, a)
              == w.bank.Reserved(a) + DepositHeld(last.vs.candidates, a)
    {
      assert mid.bank.Reserved(a) + DepositHeld(w.vs.candidates, a)
             == w.bank.Reserved(a) + DepositHeld(mid.vs.candidates, a);
      assert last.bank.Reserved(a) + DepositHeld(mid.vs.candidates, a)
             == mid.bank.Reserved(a) + DepositHeld(last.vs.candidates, a);
    }
  }

  /** The block from which an idle candidate may be removed: two thresholds after it joined, one after it authored. */
  function Due(cfg: ValidatorConfig, a: Activity): nat {
    match a
    case Joined(block) => block + 2 * cfg.kickThreshold
    case Authored(block) => block + cfg.kickThreshold
  }

  predicate Overdue(cfg: ValidatorConfig, vs: Validators, now: nat, who: AccountId) {
    who in vs.lastActive && Due(cfg, vs.lastActive[who]) <= now
  }

  function AllOverdue(cfg: ValidatorConfig, vs: Validators, now: nat, cs: Candidates): set<AccountId> {
    set c | c in cs && Overdue(cfg, vs, now, c.who) :: c.who
  }

  lemma StaleIsOverdue(cfg: ValidatorConfig, vs: Validators, now: nat, c: CandidateInfo)
    requires ValidatorsOk(cfg, vs, now) && c in vs.candidates
    ensures Stale(cfg, vs, now, c.who) <==> Overdue(cfg, vs, now, c.who)
  {
  }

  lemma OneMoreOverdue(cfg: ValidatorConfig, vs: Validators, now: nat, c: CandidateInfo, cs: Candidates)
    requires forall i :: 0 <= i < |cs| ==> cs[i].who != c.who
    ensures |AllOverdue(cfg, vs, now, [c] + cs)|
            == |AllOverdue(cfg, vs, now, cs)| + if Overdue(cfg, vs, now, c.who) then 1 else 0
  {
    var rest := AllOverdue(cfg, vs, now, cs);
    assert c.who !in rest;
    assert AllOverdue(cfg, vs, now, [c] + cs) == if Overdue(cfg, vs, now, c.who) then rest + {c.who} else rest by {
      assert forall x :: x in [c] + cs <==> x == c || x in cs;
    }
  }

  lemma {:induction false} StaleCountIs(cfg: ValidatorConfig, vs: Validators, now: nat, cs: Candidates)
    requires Distinct(cs) && forall c :: c in cs ==> (Stale(cfg, vs, now, c.who) <==> Overdue(cfg, vs, now, c.who))
    ensures StaleCount(cfg, vs, now, cs) == |AllOverdue(cfg, vs, now, cs)|
  {
    if cs != [] {
      assert cs == [cs[0]] + cs[1..];
      StaleCountIs(cfg, vs, now, cs[1..]);
      OneMoreOverdue(cfg, vs, now, cs[0], cs[1..]);
    }
  }

  /**
    A session keeps a candidate unless it is overdue and, if those overdue before it go, more than
    the minimum remain with it.
   */
  lemma SessionKeeps(cfg: ValidatorConfig, w: World, now: nat, i: nat)
    requires ValidatorsOk(cfg, w.vs, now) && i < |w.vs.candidates|
    ensures var cs := w.vs.candidates;
            cs[i] in NewSession(cfg, w, now).0.vs.candidates <==>
              !Overdue(cfg, w.vs, now, cs[i].who)
              || |cs| - |AllOverdue(cfg, w.vs, now, cs[..i])| <= cfg.minCandidates
  {
    var cs := w.vs.candidates;
    SessionKick(cfg, w, now);
    SurvivorsExactly(cfg, w.vs, now, cs, Budget(cfg, |cs|), i);
    forall c | c in cs ensures Stale(cfg, w.vs, now, c.who) <==> Overdue(cfg, w.vs, now, c.who) {
      StaleIsOverdue(cfg, w.vs, now, c);
    }
    StaleCountIs(cfg, w.vs, now, cs[..i]);
  }

  /** Nobody is removed within two thresholds of registering, or one of authoring. */
  lemma SessionPatience(cfg: ValidatorConfig, w: World, now: nat, c: CandidateInfo)
    requires ValidatorsOk(cfg, w.vs, now) && c in w.vs.candidates
    requires c !in NewSession(cfg, w, now).0.vs.candidates
    ensures Due(cfg, w.vs.lastActive[c.who]) <= now
  {
    var i :| 0 <= i < |w.vs.candidates| && w.vs.candidates[i] == c;
    SessionKeeps(cfg, w, now, i);
  }

  // ---- Any call

  datatype ValidatorCall =
    | Invulnerables(accounts: seq<AccountId>, keys: Keys)
    | Desired(max: nat)
    | Bond(bond: nat)
    | Join(who: AccountId, keys: Keys)
    | Leave(who: AccountId)
    | Author(author: AccountId, transferred: bool)
    | Session

  function Dispatch(cfg: ValidatorConfig, w: World, now: nat, call: ValidatorCall): Result<World, ValidatorError> {
    match call
    case Invulnerables(accounts, keys) => SetInvulnerables(w, accounts, keys)
    case Desired(max) => Ok(SetDesiredCandidates(w, max))
    case Bond(bond) => Ok(SetCandidacyBond(w, bond))
    case Join(who, keys) => RegisterAsCandidate(cfg, w, now, who, keys)
    case Leave(who) => LeaveIntent(cfg, w, who)
    case Author(author, transferred) => Ok(NoteAuthor(cfg, w, now, author, transferred))
    case Session => Ok(NewSession(cfg, w, now).0)
  }

  /** Every call keeps candidates distinct and their activity recorded. */
  lemma DispatchOk(cfg: ValidatorConfig, w: World, now: nat, call: ValidatorCall)
    requires ValidatorsOk(cfg, w.vs, now) && Dispatch(cfg, w, now, call).Ok?
    ensures ValidatorsOk(cfg, Dispatch(cfg, w, now, call).value.vs, now)
  {
    match call
    case Join(who, keys) => RegisterOk(cfg, w, now, who, keys);
    case Leave(who) => RemoveOk(cfg, w, now, who, false);
    case Session => SessionOk(cfg, w, now);
    case _ =>
  }

  /** Every call moves each account's reserve by exactly as much as its recorded deposits. */
  lemma DispatchInStep(cfg: ValidatorConfig, w: World, now: nat, call: ValidatorCall)
    requires DepositsBacked(w) && Dispatch(cfg, w, now, call).Ok?
    ensures InStep(w, Dispatch(cfg, w, now, call).value)
  {
    match call
    case Join(who, keys) => RegisterInStep(cfg, w, now, who, keys);
    case Leave(who) => RemoveInStep(cfg, w, who, false);
    case Session => KickFirstInStep(cfg, w, now, w.vs.candidates, |w.vs.candidates|);
    case _ =>
  }

  /** No call takes the number of candidates below the minimum once it is reached. */
  lemma DispatchFloor(cfg: ValidatorConfig, w: World, now: nat, call: ValidatorCall)
    requires Distinct(w.vs.candidates) && Dispatch(cfg, w, now, call).Ok?
    ensures |Dispatch(cfg, w, now, call).value.vs.candidates| >= Arithmetic.Min(|w.vs.candidates|, cfg.minCandidates)
  {
    if call.Session? {
      var cs := w.vs.candidates;
      SessionKick(cfg, w, now);
      SurvivorsCount(cfg, w.vs, now, cs, Budget(cfg, |cs|));
    }
  }
}
