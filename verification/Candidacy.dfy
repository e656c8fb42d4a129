/** Candidates over runs of the chain: how long they stay, and what their deposits are. */
module Candidacy {
  import opened Wrappers
  import opened Currency
  import opened OnChain = Chain
  import opened ValidatorSpec
  import opened ValidatorLedger
  import ValidatorProofs
  import ValidatorLaws

  /** The call of the validator set that goes through, if the call is one. */
  function AcceptedCall(cfg: ChainConfig, c: Chain, call: ChainCall): Option<ValidatorCall> {
    if call.ToValidators? && !(call.validatorCall.Join? && call.validatorCall.who == cfg.staking.pot)
       && ValidatorLedger.Dispatch(cfg.validators, OnChain.World(c), c.now, call.validatorCall).Ok?
    then Some(call.validatorCall)
    else None
  }

  // ---- Activity and deposits, from the calls alone

  function ActivityOf(vs: Validators, who: AccountId): Option<Activity> {
    if who in vs.lastActive then Some(vs.lastActive[who]) else None
  }

  /** What who last did, a registration that went through or a block, in a run that follows what it did before. */
  ghost function LastActivity(cfg: ChainConfig, c: Chain, calls: seq<ChainCall>, who: AccountId,
                              before: Option<Activity>): Option<Activity>
    decreases |calls|
  {
    if calls == [] then before
    else
      var now := match AcceptedCall(cfg, c, calls[0])
                 case Some(Join(x, _)) => if x == who then Some(Joined(c.now)) else before
                 case Some(Author(x, _)) => if x == who then Some(Authored(c.now)) else before
                 case _ => before;
      LastActivity(cfg, Step(cfg, c, calls[0]), calls[1..], who, now)
  }

  /** The candidacy bond in force when who last registered in a run, or an amount known before. */
  ghost function BondOfJoin(cfg: ChainConfig, c: Chain, calls: seq<ChainCall>, who: AccountId, before: Option<nat>)
    : Option<nat>
    decreases |calls|
  {
    if calls == [] then before
    else
      var now := match AcceptedCall(cfg, c, calls[0])
                 case Some(Join(x, _)) => if x == who then Some(c.vs.candidacyBond) else before
                 case _ => before;
      BondOfJoin(cfg, Step(cfg, c, calls[0]), calls[1..], who, now)
  }

  lemma StepValidators(cfg: ChainConfig, c: Chain, call: ChainCall)
    ensures Step(cfg, c, call).vs
            == match AcceptedCall(cfg, c, call)
               case Some(inner) => ValidatorLedger.Dispatch(cfg.validators, OnChain.World(c), c.now, inner).value.vs
               case None => c.vs
  {
  }

  lemma {:induction false} ActivityIsCalls(cfg: ChainConfig, c: Chain, calls: seq<ChainCall>, who: AccountId)
    requires cfg.Separate() && ChainOk(cfg, c)
    ensures ActivityOf(Run(cfg, c, calls).vs, who) == LastActivity(cfg, c, calls, who, ActivityOf(c.vs, who))
    decreases |calls|
  {
    if calls != [] {
      StepActivity(cfg, c, calls[0], who);
      StepOk(cfg, c, calls[0]);
      ActivityIsCalls(cfg, Step(cfg, c, calls[0]), calls[1..], who);
    }
  }

  lemma StepActivity(cfg: ChainConfig, c: Chain, call: ChainCall, who: AccountId)
    requires ValidatorsOk(cfg.validators, c.vs, c.now)
    ensures ActivityOf(Step(cfg, c, call).vs, who)
            == match AcceptedCall(cfg, c, call)
               case Some(Join(x, _)) => if x == who then Some(Joined(c.now)) else ActivityOf(c.vs, who)
               case Some(Author(x, _)) => if x == who then Some(Authored(c.now)) else ActivityOf(c.vs, who)
               case _ => ActivityOf(c.vs, who)
  {
    StepValidators(cfg, c, call);
    if AcceptedCall(cfg, c, call).Some? {
      ValidatorLaws.ListAfter(cfg.validators, OnChain.World(c), c.now, call.validatorCall);
    }
  }

  /** Every entry of who has the given deposit. */
  predicate DepositIs(vs: Validators, who: AccountId, deposit: Option<nat>) {
    forall x :: x in vs.candidates && x.who == who ==> deposit == Some(x.deposit)
  }

  lemma WithoutWithin(cs: Candidates, who: AccountId)
    ensures forall c :: c in ValidatorLaws.Without(cs, who) ==> c in cs
  {
  }

  lemma StepDeposit(cfg: ChainConfig, c: Chain, call: ChainCall, who: AccountId, before: Option<nat>)
    requires ValidatorsOk(cfg.validators, c.vs, c.now) && DepositIs(c.vs, who, before)
    ensures DepositIs(Step(cfg, c, call).vs, who,
                      match AcceptedCall(cfg, c, call)
                      case Some(Join(x, _)) => if x == who then Some(c.vs.candidacyBond) else before
                      case _ => before)
  {
    StepValidators(cfg, c, call);
    if AcceptedCall(cfg, c, call).Some? {
      var inner := call.validatorCall;
      ValidatorLaws.ListAfter(cfg.validators, OnChain.World(c), c.now, inner);
      match inner
      case Join(x, _) => ValidatorLaws.AmongIs(c.vs.candidates, x);
      case Leave(x) => WithoutWithin(c.vs.candidates, x);
      case Session =>
        var cs := c.vs.candidates;
        ValidatorProofs.SessionKick(cfg.validators, OnChain.World(c), c.now);
        ValidatorProofs.SurvivorsWithin(cfg.validators, c.vs, c.now, cs, ValidatorProofs.Budget(cfg.validators, |cs|));
      case _ =>
    }
  }

  lemma {:induction false} DepositsFrom(cfg: ChainConfig, c: Chain, calls: seq<ChainCall>, who: AccountId,
                                        before: Option<nat>)
    requires cfg.Separate() && ChainOk(cfg, c) && DepositIs(c.vs, who, before)
    ensures DepositIs(Run(cfg, c, calls).vs, who, BondOfJoin(cfg, c, calls, who, before))
    decreases |calls|
  {
    if calls != [] {
      var now := match AcceptedCall(cfg, c, calls[0])
                 case Some(Join(x, _)) => if x == who then Some(c.vs.candidacyBond) else before
                 case _ => before;
      StepDeposit(cfg, c, calls[0], who, before);
      StepOk(cfg, c, calls[0]);
      DepositsFrom(cfg, Step(cfg, c, calls[0]), calls[1..], who, now);
    }
  }

  /**
    After any run from the first block every candidate has registered, what it last did is what the
    calls say, and its deposit is the candidacy bond that was in force when it last registered.
   */
  lemma CandidateIsCalls(cfg: ChainConfig, bank: Bank, given: nat, vs: Validators, calls: seq<ChainCall>,
                         candidate: CandidateInfo)
    requires cfg.Separate() && given <= bank.Free(cfg.staking.pot)
    requires vs.candidates == [] && vs.lastActive == map[]
    requires candidate in Run(cfg, FirstBlock(cfg, bank, given, vs), calls).vs.candidates
    ensures var first := FirstBlock(cfg, bank, given, vs);
            var last := Run(cfg, first, calls);
            && BondOfJoin(cfg, first, calls, candidate.who, None) == Some(candidate.deposit)
            && candidate.who in last.vs.lastActive
            && LastActivity(cfg, first, calls, candidate.who, None) == Some(last.vs.lastActive[candidate.who])
  {
    var first := FirstBlock(cfg, bank, given, vs);
    FirstBlockOk(cfg, bank, given, vs);
    RunOk(cfg, first, calls);
    ActivityIsCalls(cfg, first, calls, candidate.who);
    DepositsFrom(cfg, first, calls, candidate.who, None);
  }

  // ---- Grace

  /** Neither does who ask to leave, nor does it author a block. */
  predicate Stays(call: ChainCall, who: AccountId) {
    call.ToValidators? ==> call.validatorCall != Leave(who)
                           && !(call.validatorCall.Author? && call.validatorCall.author == who)
  }

  predicate Joins(call: ChainCall, who: AccountId) {
    call.ToValidators? && call.validatorCall.Join? && call.validatorCall.who == who
  }

  ghost predicate StaysOver(calls: seq<ChainCall>, who: AccountId) {
    forall i :: 0 <= i < |calls| ==> Stays(calls[i], who)
  }

  /** who makes no call to the validator set at all. */
  ghost predicate SilentOver(calls: seq<ChainCall>, who: AccountId) {
    forall i :: 0 <= i < |calls| ==> Stays(calls[i], who) && !Joins(calls[i], who)
  }

  ghost predicate DueAt(cfg: ChainConfig, c: Chain, who: AccountId, due: nat) {
    who in c.vs.lastActive && Due(cfg.validators, c.vs.lastActive[who]) == due
  }

  lemma NowGrows(cfg: ChainConfig, c: Chain, call: ChainCall)
    ensures c.now <= Step(cfg, c, call).now
  {
  }

  lemma {:induction false} RunNowGrows(cfg: ChainConfig, c: Chain, calls: seq<ChainCall>)
    ensures c.now <= Run(cfg, c, calls).now
    decreases |calls|
  {
    if calls != [] {
      NowGrows(cfg, c, calls[0]);
      RunNowGrows(cfg, Step(cfg, c, calls[0]), calls[1..]);
    }
  }

  lemma {:induction false} WithoutKeeps(cs: Candidates, x: AccountId, c: CandidateInfo)
    requires c in cs && c.who != x
    ensures c in ValidatorLaws.Without(cs, x)
  {
    if cs[0] != c {
      WithoutKeeps(cs[1..], x, c);
    }
  }

  /** No call but its own takes a candidate out before it is due. */
  lemma StepStays(cfg: ChainConfig, c: Chain, call: ChainCall, who: AccountId, due: nat)
    requires ValidatorsOk(cfg.validators, c.vs, c.now) && Stays(call, who) && c.now < due
    requires ValidatorLaws.Among(c.vs.candidates, who) && DueAt(cfg, c, who, due)
    ensures ValidatorLaws.Among(Step(cfg, c, call).vs.candidates, who) && DueAt(cfg, Step(cfg, c, call), who, due)
  {
    StepValidators(cfg, c, call);
    if AcceptedCall(cfg, c, call).Some? {
      var x :| x in c.vs.candidates && x.who == who;
      AcceptedStays(cfg, c, call.validatorCall, x);
      ValidatorLaws.ListAfter(cfg.validators, OnChain.World(c), c.now, call.validatorCall);
    }
  }

  lemma AcceptedStays(cfg: ChainConfig, c: Chain, call: ValidatorCall, x: CandidateInfo)
    requires ValidatorsOk(cfg.validators, c.vs, c.now) && x in c.vs.candidates
    requires ValidatorLedger.Dispatch(cfg.validators, OnChain.World(c), c.now, call).Ok?
    requires call != Leave(x.who) && c.now < Due(cfg.validators, c.vs.lastActive[x.who])
    ensures x in ValidatorLedger.Dispatch(cfg.validators, OnChain.World(c), c.now, call).value.vs.candidates
    ensures call.Join? ==> call.who != x.who
  {
    ValidatorLaws.ListAfter(cfg.validators, OnChain.World(c), c.now, call);
    match call
    case Join(who, keys) =>
      ValidatorLaws.Reasons(cfg.validators, OnChain.World(c), c.now, call, AlreadyCandidate);
    case Leave(who) => WithoutKeeps(c.vs.candidates, who, x);
    case Session =>
      if x !in NewSession(cfg.validators, OnChain.World(c), c.now).0.vs.candidates {
        SessionPatience(cfg.validators, OnChain.World(c), c.now, x);
      }
    case _ =>
  }

  lemma {:induction false} StaysUntilDue(cfg: ChainConfig, c: Chain, calls: seq<ChainCall>, who: AccountId, due: nat)
    requires cfg.Separate() && ChainOk(cfg, c) && StaysOver(calls, who)
    requires ValidatorLaws.Among(c.vs.candidates, who) && DueAt(cfg, c, who, due)
    ensures var last := Run(cfg, c, calls);
            last.now < due ==> ValidatorLaws.Among(last.vs.candidates, who) && DueAt(cfg, last, who, due)
    decreases |calls|
  {
    if calls != [] && Run(cfg, c, calls).now < due {
      RunNowGrows(cfg, c, calls);
      StepStays(cfg, c, calls[0], who, due);
      StepOk(cfg, c, calls[0]);
      StaysUntilDue(cfg, Step(cfg, c, calls[0]), calls[1..], who, due);
    }
  }

  lemma {:induction false} SilentKeepsDue(cfg: ChainConfig, c: Chain, calls: seq<ChainCall>, who: AccountId, due: nat)
    requires cfg.Separate() && ChainOk(cfg, c) && SilentOver(calls, who) && DueAt(cfg, c, who, due)
    ensures DueAt(cfg, Run(cfg, c, calls), who, due)
    decreases |calls|
  {
    if calls != [] {
      StepActivity(cfg, c, calls[0], who);
      StepOk(cfg, c, calls[0]);
      SilentKeepsDue(cfg, Step(cfg, c, calls[0]), calls[1..], who, due);
    }
  }

  /** A session in the given block keeps the candidate exactly before the due block, or when too few would remain. */
  ghost predicate KeptBySession(cfg: ChainConfig, c: Chain, who: AccountId, due: nat) {
    var cs := c.vs.candidates;
    var next := NewSession(cfg.validators, OnChain.World(c), c.now).0.vs.candidates;
    forall i :: 0 <= i < |cs| && cs[i].who == who ==>
      (cs[i] in next <==> c.now < due
                          || |cs| - |AllOverdue(cfg.validators, c.vs, c.now, cs[..i])| <= cfg.validators.minCandidates)
  }

  lemma DueDecides(cfg: ChainConfig, c: Chain, who: AccountId, due: nat)
    requires ValidatorsOk(cfg.validators, c.vs, c.now) && DueAt(cfg, c, who, due)
    ensures KeptBySession(cfg, c, who, due)
  {
    forall i | 0 <= i < |c.vs.candidates| && c.vs.candidates[i].who == who {
      SessionKeeps(cfg.validators, OnChain.World(c), c.now, i);
    }
  }

  lemma GraceFrom(cfg: ChainConfig, c: Chain, calls: seq<ChainCall>, who: AccountId, due: nat)
    requires cfg.Separate() && ChainOk(cfg, c) && StaysOver(calls, who)
    requires ValidatorLaws.Among(c.vs.candidates, who) && DueAt(cfg, c, who, due)
    ensures var last := Run(cfg, c, calls);
            && (last.now < due ==> ValidatorLaws.Among(last.vs.candidates, who))
            && (SilentOver(calls, who) ==> KeptBySession(cfg, last, who, due))
  {
    StaysUntilDue(cfg, c, calls, who, due);
    RunOk(cfg, c, calls);
    if SilentOver(calls, who) {
      SilentKeepsDue(cfg, c, calls, who, due);
      DueDecides(cfg, Run(cfg, c, calls), who, due);
    }
  }

  /**
    A candidate accepted in a block, and neither authoring nor leaving since, is a candidate for two
    kick thresholds, through every session; a session from then on removes it exactly if more than the
    minimum remain when those overdue before it are gone.
   */
  lemma GraceOfJoin(cfg: ChainConfig, c: Chain, who: AccountId, keys: Keys, calls: seq<ChainCall>)
    requires cfg.Separate() && ChainOk(cfg, c) && who != cfg.staking.pot && StaysOver(calls, who)
    requires RegisterAsCandidate(cfg.validators, OnChain.World(c), c.now, who, keys).Ok?
    ensures var last := Run(cfg, Step(cfg, c, ToValidators(Join(who, keys))), calls);
            var due := c.now + 2 * cfg.validators.kickThreshold;
            && (last.now < due ==> ValidatorLaws.Among(last.vs.candidates, who))
            && (SilentOver(calls, who) ==> KeptBySession(cfg, last, who, due))
  {
    StepOk(cfg, c, ToValidators(Join(who, keys)));
    JoinedDue(cfg, c, who, keys);
    GraceFrom(cfg, Step(cfg, c, ToValidators(Join(who, keys))), calls, who,
              c.now + 2 * cfg.validators.kickThreshold);
  }

  lemma JoinedDue(cfg: ChainConfig, c: Chain, who: AccountId, keys: Keys)
    requires ValidatorsOk(cfg.validators, c.vs, c.now) && who != cfg.staking.pot
    requires RegisterAsCandidate(cfg.validators, OnChain.World(c), c.now, who, keys).Ok?
    ensures var next := Step(cfg, c, ToValidators(Join(who, keys)));
            && ValidatorLaws.Among(next.vs.candidates, who)
            && DueAt(cfg, next, who, c.now + 2 * cfg.validators.kickThreshold)
  {
    var call := Join(who, keys);
    StepValidators(cfg, c, ToValidators(call));
    ValidatorLaws.ListAfter(cfg.validators, OnChain.World(c), c.now, call);
    var entry := CandidateInfo(who, c.vs.candidacyBond);
    assert entry in c.vs.candidates + [entry];
  }

  /**
    The same for one threshold after a candidate authored a block, also when that is less than what
    was left of the two thresholds it had from its registration.
   */
  lemma GraceOfAuthor(cfg: ChainConfig, c: Chain, who: AccountId, transferred: bool, calls: seq<ChainCall>)
    requires cfg.Separate() && ChainOk(cfg, c) && StaysOver(calls, who)
    requires ValidatorLaws.Among(c.vs.candidates, who)
    ensures var last := Run(cfg, Step(cfg, c, ToValidators(Author(who, transferred))), calls);
            var due := c.now + cfg.validators.kickThreshold;
            && (last.now < due ==> ValidatorLaws.Among(last.vs.candidates, who))
            && (SilentOver(calls, who) ==> KeptBySession(cfg, last, who, due))
  {
    StepOk(cfg, c, ToValidators(Author(who, transferred)));
    AuthoredDue(cfg, c, who, transferred);
    GraceFrom(cfg, Step(cfg, c, ToValidators(Author(who, transferred))), calls, who,
              c.now + cfg.validators.kickThreshold);
  }

  lemma AuthoredDue(cfg: ChainConfig, c: Chain, who: AccountId, transferred: bool)
    requires ValidatorsOk(cfg.validators, c.vs, c.now)
    ensures var next := Step(cfg, c, ToValidators(Author(who, transferred)));
            && next.vs.candidates == c.vs.candidates
            && DueAt(cfg, next, who, c.now + cfg.validators.kickThreshold)
  {
    StepValidators(cfg, c, ToValidators(Author(who, transferred)));
    ValidatorLaws.ListAfter(cfg.validators, OnChain.World(c), c.now, Author(who, transferred));
  }
}
