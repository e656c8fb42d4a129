/** Why calls of the validator set are refused, and all that accepted ones change. */
module ValidatorLaws {
  import Arithmetic
  import opened Wrappers
  import opened Currency
  import Perbill
  import opened ValidatorSpec
  import opened ValidatorProofs
  import opened ValidatorLedger

  // ---- Reasons

  predicate Among(cs: Candidates, who: AccountId) {
    exists c :: c in cs && c.who == who
  }

  /** The account has no validator id, or no session keys for it. */
  predicate Unfit(keys: Keys, who: AccountId, e: ValidatorError) {
    match e
    case NoAssociatedValidatorId => who !in keys
    case ValidatorNotRegistered => who in keys && !keys[who]
    case _ => false
  }

  predicate Fit(keys: Keys, who: AccountId) {
    who in keys && keys[who]
  }

  /** The first of the accounts that is not fit is so for this reason. */
  predicate FirstUnfit(keys: Keys, accounts: seq<AccountId>, e: ValidatorError) {
    exists i :: 0 <= i < |accounts| && Unfit(keys, accounts[i], e) && forall j :: 0 <= j < i ==> Fit(keys, accounts[j])
  }

  predicate AgainstJoin(w: World, who: AccountId, keys: Keys, e: ValidatorError) {
    match e
    case TooManyCandidates => |w.vs.candidates| >= w.vs.desiredCandidates
    case AlreadyInvulnerable => who in w.vs.invulnerables
    case AlreadyCandidate => Among(w.vs.candidates, who)
    case NoFunds => w.vs.candidacyBond > w.bank.Free(who)
    case _ => Unfit(keys, who, e)
  }

  predicate AgainstLeave(cfg: ValidatorConfig, w: World, who: AccountId, e: ValidatorError) {
    match e
    case TooFewCandidates => |w.vs.candidates| <= cfg.minCandidates
    case NotCandidate => !Among(w.vs.candidates, who)
    case _ => false
  }

  /** There is a reason against the call for which it may return the error. */
  predicate Against(cfg: ValidatorConfig, w: World, call: ValidatorCall, e: ValidatorError) {
    match call
    case Invulnerables(accounts, keys) => FirstUnfit(keys, accounts, e)
    case Join(who, keys) => AgainstJoin(w, who, keys, e)
    case Leave(who) => AgainstLeave(cfg, w, who, e)
    case _ => false
  }

  lemma AmongIs(cs: Candidates, who: AccountId)
    ensures Among(cs, who) <==> Position(cs, who) < |cs|
  {
    if Position(cs, who) < |cs| {
      assert cs[Position(cs, who)] in cs;
    }
  }

  lemma FirstUnfitStep(keys: Keys, accounts: seq<AccountId>, e: ValidatorError)
    requires accounts != []
    ensures FirstUnfit(keys, accounts, e) <==>
              if Fit(keys, accounts[0]) then FirstUnfit(keys, accounts[1..], e) else Unfit(keys, accounts[0], e)
  {
    var rest := accounts[1..];
    if FirstUnfit(keys, accounts, e) {
      var i :| 0 <= i < |accounts| && Unfit(keys, accounts[i], e) && forall j :: 0 <= j < i ==> Fit(keys, accounts[j]);
      if i > 0 {
        assert Unfit(keys, rest[i - 1], e) && forall j :: 0 <= j < i - 1 ==> Fit(keys, rest[j]);
      }
    }
    if Fit(keys, accounts[0]) && FirstUnfit(keys, rest, e) {
      var i :| 0 <= i < |rest| && Unfit(keys, rest[i], e) && forall j :: 0 <= j < i ==> Fit(keys, rest[j]);
      assert Unfit(keys, accounts[i + 1], e);
      assert forall j :: 0 <= j < i + 1 ==> Fit(keys, accounts[j]) by {
        assert forall j :: 0 < j < i + 1 ==> accounts[j] == rest[j - 1];
      }
    }
  }

  lemma {:induction false} FirstFaultIs(keys: Keys, accounts: seq<AccountId>, e: ValidatorError)
    ensures FirstUnfit(keys, accounts, e) <==> FirstFault(keys, accounts) == Some(e)
  {
    if accounts != [] {
      FirstUnfitStep(keys, accounts, e);
      FirstFaultIs(keys, accounts[1..], e);
    }
  }

  lemma Reasons(cfg: ValidatorConfig, w: World, now: nat, call: ValidatorCall, e: ValidatorError)
    ensures Dispatch(cfg, w, now, call).Ok? ==> !Against(cfg, w, call, e)
    ensures Dispatch(cfg, w, now, call) == Err(e) ==> Against(cfg, w, call, e)
  {
    match call
    case Invulnerables(accounts, keys) => FirstFaultIs(keys, accounts, e);
    case Join(who, _) => AmongIs(w.vs.candidates, who);
    case Leave(who) => AmongIs(w.vs.candidates, who);
    case _ =>
  }

  /** A call goes through exactly if there is no reason against it; the error it returns otherwise is true. */
  lemma AnswersAreReasons(cfg: ValidatorConfig, w: World, now: nat, call: ValidatorCall)
    ensures Dispatch(cfg, w, now, call).Ok? <==> forall e: ValidatorError :: !Against(cfg, w, call, e)
    ensures Dispatch(cfg, w, now, call).Err? ==> Against(cfg, w, call, Dispatch(cfg, w, now, call).error)
  {
    forall e: ValidatorError { Reasons(cfg, w, now, call, e); }
  }

  // ---- Lists and settings

  /** The list without the entries of who. */
  function Without(cs: Candidates, who: AccountId): Candidates {
    if cs == [] then [] else (if cs[0].who == who then [] else [cs[0]]) + Without(cs[1..], who)
  }

  lemma {:induction false} WithoutAbsent(cs: Candidates, who: AccountId)
    requires forall i :: 0 <= i < |cs| ==> cs[i].who != who
    ensures Without(cs, who) == cs
  {
    if cs != [] {
      WithoutAbsent(cs[1..], who);
    }
  }

  lemma {:induction false} RemoveIsWithout(cs: Candidates, who: AccountId)
    requires Distinct(cs) && Position(cs, who) < |cs|
    ensures RemoveAt(cs, Position(cs, who)) == Without(cs, who)
  {
    if cs[0].who == who {
      WithoutAbsent(cs[1..], who);
    } else {
      RemoveIsWithout(cs[1..], who);
      var i := Position(cs[1..], who);
      assert RemoveAt(cs, i + 1) == [cs[0]] + RemoveAt(cs[1..], i);
    }
  }

  /** The list of candidates after a call other than a session. */
  function Listed(vs: Validators, call: ValidatorCall): Candidates {
    match call
    case Join(who, _) => vs.candidates + [CandidateInfo(who, vs.candidacyBond)]
    case Leave(who) => Without(vs.candidates, who)
    case _ => vs.candidates
  }

  /** The last activity of accounts after a call. */
  function Acted(vs: Validators, now: nat, call: ValidatorCall): map<AccountId, Activity> {
    match call
    case Join(who, _) => vs.lastActive[who := Joined(now)]
    case Author(author, _) => vs.lastActive[author := Authored(now)]
    case _ => vs.lastActive
  }

  /**
    A candidate joins at the end, with the candidacy bond of that time as its deposit; who leaves is
    taken out; and settings are as last set.
   */
  lemma ListAfter(cfg: ValidatorConfig, w: World, now: nat, call: ValidatorCall)
    requires Distinct(w.vs.candidates) && Dispatch(cfg, w, now, call).Ok?
    ensures var next := Dispatch(cfg, w, now, call).value.vs;
            && (!call.Session? ==> next.candidates == Listed(w.vs, call))
            && next.lastActive == Acted(w.vs, now, call)
            && next.invulnerables == (if call.Invulnerables? then call.accounts else w.vs.invulnerables)
            && next.desiredCandidates == (if call.Desired? then call.max else w.vs.desiredCandidates)
            && next.candidacyBond == (if call.Bond? then call.bond else w.vs.candidacyBond)
            && next.slashDestination == w.vs.slashDestination
  {
    if call.Leave? {
      RemoveIsWithout(w.vs.candidates, call.who);
    } else if call.Session? {
      SessionKick(cfg, w, now);
    }
  }

  // ---- Stored blocks

  /** While a session visits the candidates, the one to be visited next is still listed as it was. */
  lemma NextIsListed(cfg: ValidatorConfig, vs: Validators, now: nat, n: nat, k: Kicked)
    requires Distinct(vs.candidates) && n < |vs.candidates| && KickedSoFar(cfg, vs, now, n, k)
    ensures var cs := k.world.vs.candidates;
            var i := Position(cs, vs.candidates[n].who);
            i < |cs| && cs[i] == vs.candidates[n]
  {
    var c := vs.candidates[n];
    var kept := Survivors(cfg, vs, now, vs.candidates[..n], Budget(cfg, |vs.candidates|));
    SurvivorsWithin(cfg, vs, now, vs.candidates[..n], Budget(cfg, |vs.candidates|));
    forall i | 0 <= i < |kept| ensures kept[i].who != c.who {
      assert kept[i] in vs.candidates[..n];
    }
    assert vs.candidates[n..] == [c] + vs.candidates[n + 1..];
    PositionAfter(kept, c, vs.candidates[n + 1..]);
  }

  /** Whether one visit removes the next candidate: exactly if it is not among all that survive the session. */
  lemma RemovedIff(cfg: ValidatorConfig, vs: Validators, now: nat, n: nat, k: Kicked)
    requires Distinct(vs.candidates) && n < |vs.candidates| && KickedSoFar(cfg, vs, now, n, k)
    ensures var c := vs.candidates[n];
            c in Survivors(cfg, vs, now, vs.candidates, Budget(cfg, |vs.candidates|)) <==>
              !Stale(cfg, k.world.vs, now, c.who) || |k.world.vs.candidates| <= cfg.minCandidates
  {
    var cs := vs.candidates;
    assert cs[n] in cs[n..];
    SurvivorsExactly(cfg, vs, now, cs, Budget(cfg, |cs|), n);
    SurvivorsCount(cfg, vs, now, cs[..n], Budget(cfg, |cs|));
  }

  /** The candidates of the list that are not kept. */
  function Gone(cs: Candidates, kept: Candidates): set<AccountId> {
    set c | c in cs && c !in kept :: c.who
  }

  lemma VisitForgets(cfg: ValidatorConfig, k: Kicked, now: nat, who: AccountId)
    requires Position(k.world.vs.candidates, who) < |k.world.vs.candidates|
    ensures KickOne(cfg, k, now, who).world.vs.lastAuthoredBlock
            == if !Stale(cfg, k.world.vs, now, who) || |k.world.vs.candidates| <= cfg.minCandidates
               then k.world.vs.lastAuthoredBlock
               else k.world.vs.lastAuthoredBlock - {who}
  {
  }

  lemma KickOneForgets(cfg: ValidatorConfig, vs: Validators, now: nat, n: nat, k: Kicked)
    requires Distinct(vs.candidates) && n < |vs.candidates| && KickedSoFar(cfg, vs, now, n, k)
    ensures var c := vs.candidates[n];
            KickOne(cfg, k, now, c.who).world.vs.lastAuthoredBlock
            == if c in Survivors(cfg, vs, now, vs.candidates, Budget(cfg, |vs.candidates|))
               then k.world.vs.lastAuthoredBlock
               else k.world.vs.lastAuthoredBlock - {c.who}
  {
    RemovedIff(cfg, vs, now, n, k);
    NextIsListed(cfg, vs, now, n, k);
    VisitForgets(cfg, k, now, vs.candidates[n].who);
  }

  lemma {:induction false} KickForgets(cfg: ValidatorConfig, w: World, now: nat, n: nat)
    requires Distinct(w.vs.candidates) && n <= |w.vs.candidates|
    ensures var cs := w.vs.candidates;
            KickFirst(cfg, w, now, cs, n).world.vs.lastAuthoredBlock
            == w.vs.lastAuthoredBlock - Gone(cs[..n], Survivors(cfg, w.vs, now, cs, Budget(cfg, |cs|)))
  {
    var cs := w.vs.candidates;
    if n == 0 {
      assert Gone(cs[..0], Survivors(cfg, w.vs, now, cs, Budget(cfg, |cs|))) == {};
    } else {
      KickForgets(cfg, w, now, n - 1);
      KickFirstSoFar(cfg, w, now, n - 1);
      KickOneForgets(cfg, w.vs, now, n - 1, KickFirst(cfg, w, now, cs, n - 1));
      GoneNext(w.vs.lastAuthoredBlock, cs, n - 1, Survivors(cfg, w.vs, now, cs, Budget(cfg, |cs|)));
    }
  }

  lemma GoneNext(blocks: map<AccountId, nat>, cs: Candidates, n: nat, kept: Candidates)
    requires n < |cs|
    ensures blocks - Gone(cs[..n + 1], kept)
            == if cs[n] in kept then blocks - Gone(cs[..n], kept) else (blocks - Gone(cs[..n], kept)) - {cs[n].who}
  {
    assert cs[..n + 1] == cs[..n] + [cs[n]];
    assert Gone(cs[..n + 1], kept) == Gone(cs[..n], kept) + if cs[n] in kept then {} else {cs[n].who} by {
      assert forall x :: x in cs[..n + 1] <==> x in cs[..n] || x == cs[n];
    }
  }

  lemma SessionForgets(cfg: ValidatorConfig, w: World, now: nat)
    requires Distinct(w.vs.candidates)
    ensures var next := NewSession(cfg, w, now).0.vs;
            next.lastAuthoredBlock == w.vs.lastAuthoredBlock - Gone(w.vs.candidates, next.candidates)
  {
    var cs := w.vs.candidates;
    KickForgets(cfg, w, now, |cs|);
    SessionKick(cfg, w, now);
    assert cs[..|cs|] == cs;
  }

  /** The blocks stored after a call. */
  function StoredBlocks(cfg: ValidatorConfig, w: World, next: World, now: nat, call: ValidatorCall)
    : map<AccountId, nat>
  {
    var blocks := w.vs.lastAuthoredBlock;
    match call
    case Join(who, _) => blocks[who := StoredBlock(cfg, Joined(now))]
    case Author(author, _) => blocks[author := StoredBlock(cfg, Authored(now))]
    case Leave(who) => blocks - {who}
    case Session => blocks - Gone(w.vs.candidates, next.vs.candidates)
    case _ => blocks
  }

  /** A block is stored for who joins or authors, and that of who leaves or is removed is forgotten. */
  lemma BlocksAfter(cfg: ValidatorConfig, w: World, now: nat, call: ValidatorCall)
    requires Distinct(w.vs.candidates) && Dispatch(cfg, w, now, call).Ok?
    ensures var next := Dispatch(cfg, w, now, call).value;
            next.vs.lastAuthoredBlock == StoredBlocks(cfg, w, next, now, call)
  {
    if call.Session? {
      SessionForgets(cfg, w, now);
    }
  }

  // ---- Free balances

  /** What the removal of c gives to account a: the unslashed part of its deposit, and to the destination the rest. */
  function Given(cfg: ValidatorConfig, destination: Option<AccountId>, c: CandidateInfo, a: AccountId): nat {
    var slashed := Perbill.Of(cfg.slashRatio, c.deposit);
    (if c.who == a then c.deposit - slashed else 0) + if destination == Some(a) then slashed else 0
  }

  /** What the removals of all who are not kept give to account a. */
  function AllGiven(cfg: ValidatorConfig, destination: Option<AccountId>, cs: Candidates, kept: Candidates,
                    a: AccountId): nat
  {
    if cs == [] then 0
    else
      var last := cs[|cs| - 1];
      AllGiven(cfg, destination, cs[..|cs| - 1], kept, a)
      + if last in kept then 0 else Given(cfg, destination, last, a)
  }

  lemma KickOneGives(cfg: ValidatorConfig, vs: Validators, now: nat, n: nat, k: Kicked, a: AccountId)
    requires Distinct(vs.candidates) && n < |vs.candidates| && KickedSoFar(cfg, vs, now, n, k)
    requires DepositsBacked(k.world)
    ensures var c := vs.candidates[n];
            KickOne(cfg, k, now, c.who).world.bank.Free(a)
            == k.world.bank.Free(a)
               + if c in Survivors(cfg, vs, now, vs.candidates, Budget(cfg, |vs.candidates|)) then 0
                 else Given(cfg, vs.slashDestination, c, a)
  {
    RemovedIff(cfg, vs, now, n, k);
    NextIsListed(cfg, vs, now, n, k);
    RemoveReleasesDeposit(cfg, k.world, vs.candidates[n].who, true);
  }

  lemma NextGives(cfg: ValidatorConfig, w: World, now: nat, n: nat, a: AccountId)
    requires Distinct(w.vs.candidates) && DepositsBacked(w) && n < |w.vs.candidates|
    ensures var cs := w.vs.candidates;
            KickFirst(cfg, w, now, cs, n + 1).world.bank.Free(a)
            == KickFirst(cfg, w, now, cs, n).world.bank.Free(a)
               + if cs[n] in Survivors(cfg, w.vs, now, cs, Budget(cfg, |cs|)) then 0
                 else Given(cfg, w.vs.slashDestination, cs[n], a)
  {
    KickFirstSoFar(cfg, w, now, n);
    KickFirstInStep(cfg, w, now, w.vs.candidates, n);
    KickOneGives(cfg, w.vs, now, n, KickFirst(cfg, w, now, w.vs.candidates, n), a);
  }

  lemma {:induction false} KickGives(cfg: ValidatorConfig, w: World, now: nat, n: nat, a: AccountId)
    requires Distinct(w.vs.candidates) && DepositsBacked(w) && n <= |w.vs.candidates|
    ensures var kept := Survivors(cfg, w.vs, now, w.vs.candidates, Budget(cfg, |w.vs.candidates|));
            KickFirst(cfg, w, now, w.vs.candidates, n).world.bank.Free(a)
            == w.bank.Free(a) + AllGiven(cfg, w.vs.slashDestination, w.vs.candidates[..n], kept, a)
  {
    if n > 0 {
      var cs := w.vs.candidates;
      KickGives(cfg, w, now, n - 1, a);
      NextGives(cfg, w, now, n - 1, a);
      assert cs[..n][..n - 1] == cs[..n - 1];
    }
  }

  /** What the author of a block gets: all of the pot above the minimum balance. */
  function Collected(cfg: ValidatorConfig, w: World): nat {
    w.bank.Free(cfg.pot) - Arithmetic.Min(w.bank.Free(cfg.pot), cfg.minimumBalance)
  }

  /** What a call adds to, or takes from, the free balance of account a. */
  function Gets(cfg: ValidatorConfig, w: World, next: World, call: ValidatorCall, a: AccountId): int {
    match call
    case Join(who, _) => if a == who then 0 - w.vs.candidacyBond else 0
    case Leave(who) => if a == who then DepositHeld(w.vs.candidates, who) else 0
    case Author(author, transferred) =>
      if !transferred then 0
      else (if a == author then Collected(cfg, w) else 0) - if a == cfg.pot then Collected(cfg, w) else 0
    case Session => AllGiven(cfg, w.vs.slashDestination, w.vs.candidates, next.vs.candidates, a)
    case _ => 0
  }

  lemma {:induction false} DepositOf(cs: Candidates, i: nat)
    requires Distinct(cs) && i < |cs|
    ensures DepositHeld(cs, cs[i].who) == cs[i].deposit
  {
    if i == 0 {
      NoDeposit(cs[1..], cs[0].who);
    } else {
      DepositOf(cs[1..], i - 1);
    }
  }

  lemma {:induction false} NoDeposit(cs: Candidates, a: AccountId)
    requires forall i :: 0 <= i < |cs| ==> cs[i].who != a
    ensures DepositHeld(cs, a) == 0
  {
    if cs != [] {
      NoDeposit(cs[1..], a);
    }
  }

  /**
    All that a call does to free balances: who joins pays the candidacy bond, who leaves has its whole
    deposit back, who authors gets the pot down to the minimum balance, and who is removed by a
    session has its deposit back less the slash, which goes to the destination if there is one.
   */
  lemma FreeAfter(cfg: ValidatorConfig, w: World, now: nat, call: ValidatorCall, a: AccountId)
    requires Distinct(w.vs.candidates) && DepositsBacked(w) && Dispatch(cfg, w, now, call).Ok?
    ensures var next := Dispatch(cfg, w, now, call).value;
            next.bank.Free(a) == w.bank.Free(a) + Gets(cfg, w, next, call, a)
  {
    match call
    case Leave(who) =>
      DepositOf(w.vs.candidates, Position(w.vs.candidates, who));
      RemoveReleasesDeposit(cfg, w, who, false);
    case Session =>
      var cs := w.vs.candidates;
      KickGives(cfg, w, now, |cs|, a);
      SessionKick(cfg, w, now);
      assert cs[..|cs|] == cs;
    case _ =>
  }
}
