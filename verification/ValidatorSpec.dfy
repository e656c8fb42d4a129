/**
  The validator set pallet as a transition system: candidates, their deposits and their activity.
 */
module ValidatorSpec {
  import Arithmetic
  import opened Wrappers
  import opened Currency
  import Perbill

  datatype CandidateInfo = CandidateInfo(who: AccountId, deposit: nat)

  type Candidates = seq<CandidateInfo>

  datatype ValidatorError =
    | TooManyCandidates | TooFewCandidates | AlreadyCandidate | NotCandidate
    | AlreadyInvulnerable | NoAssociatedValidatorId | ValidatorNotRegistered | NoFunds

  /** The accounts that have a validator id, and whether session keys are registered for it. */
  type Keys = map<AccountId, bool>

  /** The constants of the pallet's configuration; pot is its reward account. */
  datatype ValidatorConfig = ValidatorConfig(
    minCandidates: nat,
    kickThreshold: nat,
    slashRatio: Perbill.Perbill,
    pot: AccountId,
    minimumBalance: nat)

  /** What an account last did, and in which block. */
  datatype Activity = Joined(block: nat) | Authored(block: nat)

  /** The storage items, and the last activity of each account, which the storage does not keep. */
  datatype Validators = Validators(
    invulnerables: seq<AccountId>,
    candidates: Candidates,
    lastAuthoredBlock: map<AccountId, nat>,
    desiredCandidates: nat,
    candidacyBond: nat,
    slashDestination: Option<AccountId>,
    lastActive: map<AccountId, Activity>)

  datatype World = World(vs: Validators, bank: Bank)

  function LastBlock(vs: Validators, who: AccountId): nat {
    if who in vs.lastAuthoredBlock then vs.lastAuthoredBlock[who] else 0
  }

  /** No block authored, nor registration, within the kick threshold. */
  predicate Stale(cfg: ValidatorConfig, vs: Validators, now: nat, who: AccountId) {
    Arithmetic.SaturatingSub(now, LastBlock(vs, who)) >= cfg.kickThreshold
  }

  /** The position of the first entry of who, or the length. */
  function Position(cs: Candidates, who: AccountId): (i: nat)
    ensures i <= |cs|
    ensures i < |cs| ==> cs[i].who == who
    ensures forall j :: 0 <= j < i ==> cs[j].who != who
  {
    if cs == [] || cs[0].who == who then 0 else 1 + Position(cs[1..], who)
  }

  predicate IsCandidate(cs: Candidates, who: AccountId) {
    Position(cs, who) < |cs|
  }

  function RemoveAt(cs: Candidates, i: nat): Candidates
    requires i < |cs|
  {
    cs[..i] + cs[i + 1..]
  }

  // ---- Calls

  /** Why an account may not validate, if so. */
  function KeyFault(keys: Keys, who: AccountId): Option<ValidatorError> {
    if who !in keys then Some(NoAssociatedValidatorId)
    else if !keys[who] then Some(ValidatorNotRegistered)
    else None
  }

  function FirstFault(keys: Keys, accounts: seq<AccountId>): Option<ValidatorError> {
    if accounts == [] then None
    else if KeyFault(keys, accounts[0]).Some? then KeyFault(keys, accounts[0])
    else FirstFault(keys, accounts[1..])
  }

  function SetInvulnerables(w: World, accounts: seq<AccountId>, keys: Keys): Result<World, ValidatorError> {
    match FirstFault(keys, accounts)
    case Some(fault) => Err(fault)
    case None => Ok(w.(vs := w.vs.(invulnerables := accounts)))
  }

  function SetDesiredCandidates(w: World, max: nat): World {
    w.(vs := w.vs.(desiredCandidates := max))
  }

  function SetCandidacyBond(w: World, bond: nat): World {
    w.(vs := w.vs.(candidacyBond := bond))
  }

  function RegisterAsCandidate(cfg: ValidatorConfig, w: World, now: nat, who: AccountId, keys: Keys)
    : Result<World, ValidatorError>
  {
    if |w.vs.candidates| >= w.vs.desiredCandidates then Err(TooManyCandidates)
    else if who in w.vs.invulnerables then Err(AlreadyInvulnerable)
    else if KeyFault(keys, who).Some? then Err(KeyFault(keys, who).value)
    else if IsCandidate(w.vs.candidates, who) then Err(AlreadyCandidate)
    else if w.vs.candidacyBond > w.bank.Free(who) then Err(NoFunds)
    else Ok(World(w.vs.(candidates := w.vs.candidates + [CandidateInfo(who, w.vs.candidacyBond)],
                        lastAuthoredBlock := w.vs.lastAuthoredBlock[who := now + cfg.kickThreshold],
                        lastActive := w.vs.lastActive[who := Joined(now)]),
                  w.bank.Reserve(who, w.vs.candidacyBond)))
  }

  /** What a slash leaves of the balances: part of the deposit is taken, the rest released. */
  function SlashDeposit(cfg: ValidatorConfig, w: World, who: AccountId, deposit: nat): Bank {
    var slash := Perbill.Of(cfg.slashRatio, deposit);
    var taken := w.bank.Movable(who, slash);
    var rest := w.bank.SlashReserved(who, slash).Unreserve(who, deposit - slash);
    match w.vs.slashDestination
    case Some(dest) => rest.Deposit(dest, taken)
    case None => rest
  }

  function TryRemoveCandidate(cfg: ValidatorConfig, w: World, who: AccountId, slash: bool)
    : Result<World, ValidatorError>
  {
    var i := Position(w.vs.candidates, who);
    if i == |w.vs.candidates| then Err(NotCandidate)
    else
      var deposit := w.vs.candidates[i].deposit;
      Ok(World(w.vs.(candidates := RemoveAt(w.vs.candidates, i), lastAuthoredBlock := w.vs.lastAuthoredBlock - {who}),
               if slash then SlashDeposit(cfg, w, who, deposit) else w.bank.Unreserve(who, deposit)))
  }

  function LeaveIntent(cfg: ValidatorConfig, w: World, who: AccountId): Result<World, ValidatorError> {
    if |w.vs.candidates| <= cfg.minCandidates then Err(TooFewCandidates)
    else TryRemoveCandidate(cfg, w, who, false)
  }

  /** The author collects the pot, unless the transfer fails, which is ignored; it is active in any case. */
  function NoteAuthor(cfg: ValidatorConfig, w: World, now: nat, author: AccountId, transferred: bool): World {
    var reward := Arithmetic.SaturatingSub(w.bank.Free(cfg.pot), cfg.minimumBalance);
    World(w.vs.(lastAuthoredBlock := w.vs.lastAuthoredBlock[author := now],
                lastActive := w.vs.lastActive[author := Authored(now)]),
          if transferred then w.bank.Withdraw(cfg.pot, reward).Deposit(author, reward) else w.bank)
  }

  // ---- Sessions

  datatype Kicked = Kicked(world: World, survivors: seq<AccountId>)

  /** One candidate of the snapshot is kept, or removed and slashed; the counts are those of the stored list. */
  function KickOne(cfg: ValidatorConfig, k: Kicked, now: nat, who: AccountId): Kicked {
    var w := k.world;
    if !Stale(cfg, w.vs, now, who) || |w.vs.candidates| <= cfg.minCandidates then k.(survivors := k.survivors + [who])
    else
      match TryRemoveCandidate(cfg, w, who, true)
      case Ok(next) => k.(world := next)
      case Err(_) => k
  }

  /** The first n candidates of the snapshot have been visited. */
  function KickFirst(cfg: ValidatorConfig, w: World, now: nat, snapshot: Candidates, n: nat): Kicked
    requires n <= |snapshot|
  {
    if n == 0 then Kicked(w, []) else KickOne(cfg, KickFirst(cfg, w, now, snapshot, n - 1), now, snapshot[n - 1].who)
  }

  function NewSession(cfg: ValidatorConfig, w: World, now: nat): (World, seq<AccountId>) {
    var k := KickFirst(cfg, w, now, w.vs.candidates, |w.vs.candidates|);
    (k.world, k.world.vs.invulnerables + k.survivors)
  }
}
