/**
  The three pallets on one chain: they share the balances, the block number and the providers.
  Runs interleave their calls, and those of the rest of the chain, in any order.
 */
module Chain {
  import opened Wrappers
  import opened Currency
  import opened StakingTypes
  import opened StakingInvariant
  import StakingRuns
  import V = ValidatorSpec
  import Books = ValidatorLedger
  import Kick = ValidatorProofs
  import Dapi = DapiSpec
  import Arithmetic

  /** Each pallet has its own keyless account, so the two pots differ. */
  datatype ChainConfig = ChainConfig(staking: Config, validators: V.ValidatorConfig) {
    predicate Separate() {
      staking.pot != validators.pot
    }
  }

  datatype Chain = Chain(ledger: Ledger, vs: V.Validators, directory: Dapi.Directory, now: nat)

  datatype ChainCall =
    | NextBlock
    | ToStaking(call: StakingRuns.Call)
    | ToValidators(validatorCall: Books.ValidatorCall)
    | ToDapi(dapiCall: Dapi.DapiCall)

  /** What the staking pallet and the validator set hold reserved for account a. */
  ghost function Held(c: Chain, a: AccountId): nat {
    StakingShare(c.ledger, a) + Books.DepositHeld(c.vs.candidates, a)
  }

  /**
    The staking calls that accounts and other pallets may make themselves.  The rest of the chain
    leaves reserved what staking and the validator set hold, and does not spend staking's pot.
   */
  ghost predicate Public(c: Chain, call: StakingRuns.Call) {
    && !call.Initialize? && !call.Register? && !call.Unregister?
    && (call.Elsewhere? ==> forall a: AccountId :: Held(c, a) <= call.bank.Reserved(a))
  }

  function World(c: Chain): V.World {
    V.World(c.vs, c.ledger.bank)
  }

  /** The chain after a call; a failing call, or one signed by the pot, changes nothing. */
  ghost function Step(cfg: ChainConfig, c: Chain, call: ChainCall): Chain {
    match call
    case NextBlock => BlockStep(cfg, c)
    case ToStaking(call) => StakingStep(cfg, c, call)
    case ToValidators(call) => ValidatorStep(cfg, c, call)
    case ToDapi(call) => DapiStep(cfg, c, call)
  }

  ghost function BlockStep(cfg: ChainConfig, c: Chain): Chain {
    c.(ledger := StakingRuns.Step(cfg.staking, c.ledger, StakingRuns.Initialize(c.now + 1)), now := c.now + 1)
  }

  ghost function StakingStep(cfg: ChainConfig, c: Chain, call: StakingRuns.Call): Chain {
    if Public(c, call) then c.(ledger := StakingRuns.Step(cfg.staking, c.ledger, call)) else c
  }

  function ValidatorStep(cfg: ChainConfig, c: Chain, call: Books.ValidatorCall): Chain {
    if call.Join? && call.who == cfg.staking.pot then c
    else
      match Books.Dispatch(cfg.validators, World(c), c.now, call)
      case Ok(next) => c.(vs := next.vs, ledger := c.ledger.(bank := next.bank))
      case Err(_) => c
  }

  function DapiStep(cfg: ChainConfig, c: Chain, call: Dapi.DapiCall): Chain {
    if call.Activate? && call.owner == cfg.staking.pot then c
    else
      match Dapi.Dispatch(cfg.staking, Dapi.Site(c.directory, c.ledger), call)
      case Ok(next) => c.(directory := next.directory, ledger := next.ledger)
      case Err(_) => c
  }

  ghost function Run(cfg: ChainConfig, c: Chain, calls: seq<ChainCall>): Chain
    decreases |calls|
  {
    if calls == [] then c else Run(cfg, Step(cfg, c, calls[0]), calls[1..])
  }

  /** Whatever staking and the validator set hold of an account is reserved on it, next to each other. */
  ghost predicate Covered(c: Chain) {
    forall a: AccountId :: Held(c, a) <= c.ledger.bank.Reserved(a)
  }

  ghost predicate ChainOk(cfg: ChainConfig, c: Chain) {
    && Valid(cfg.staking, c.ledger)
    && c.ledger.era.firstBlock <= c.now
    && Books.ValidatorsOk(cfg.validators, c.vs, c.now)
    && Covered(c)
    && Dapi.Coupled(c.directory, c.ledger.providers)
  }

  // ---- Reserves

  /** What a call of the rest of the chain adds to, or takes from, the reserve of account a. */
  ghost function ReservedElsewhere(cfg: ChainConfig, c: Chain, call: ChainCall, a: AccountId): int {
    if call.ToStaking? && Public(c, call.call)
    then StakingRuns.ReservedElsewhere(cfg.staking, c.ledger, call.call, a)
    else 0
  }

  /** From one chain to the next, every account's reserve moved with what the pallets hold, and by the given amounts. */
  ghost predicate Moved(c: Chain, next: Chain, others: AccountId -> int) {
    forall a: AccountId :: next.ledger.bank.Reserved(a) - Held(next, a)
      == c.ledger.bank.Reserved(a) - Held(c, a) + others(a)
  }

  function Nothing(): AccountId -> int {
    a => 0
  }

  ghost function ByOthers(cfg: ChainConfig, c: Chain, call: ChainCall): AccountId -> int {
    (a: AccountId) => ReservedElsewhere(cfg, c, call, a)
  }

  lemma MovedCovers(c: Chain, next: Chain)
    requires Covered(c) && Moved(c, next, Nothing())
    ensures Covered(next)
  {
    forall a: AccountId ensures Held(next, a) <= next.ledger.bank.Reserved(a) {
      assert next.ledger.bank.Reserved(a) - Held(next, a) == c.ledger.bank.Reserved(a) - Held(c, a) + Nothing()(a);
    }
  }

  lemma LockstepMoves(c: Chain, next: Chain)
    requires Lockstep(c.ledger, next.ledger) && next.vs == c.vs
    ensures Moved(c, next, Nothing())
  {
    forall a: AccountId
      ensures next.ledger.bank.Reserved(a) - Held(next, a) == c.ledger.bank.Reserved(a) - Held(c, a) + Nothing()(a)
    {
      assert next.ledger.bank.Reserved(a) + StakingShare(c.ledger, a)
             == c.ledger.bank.Reserved(a) + StakingShare(next.ledger, a);
    }
  }

  // ---- Staking calls

  /** Only registration and unregistration change who is a provider, its owner or its status. */
  lemma StakingKeepsStanding(cfg: Config, st: Ledger, call: StakingRuns.Call, p: ProviderId)
    requires !call.Register? && !call.Unregister?
    ensures p in StakingRuns.Step(cfg, st, call).providers <==> p in st.providers
    ensures p in st.providers ==>
              && StakingRuns.Step(cfg, st, call).providers[p].status == st.providers[p].status
              && StakingRuns.Step(cfg, st, call).providers[p].owner == st.providers[p].owner
  {
    if !call.WithdrawBond? {
      StakingRuns.ProvidersUntouched(cfg, st, call);
    }
  }

  lemma StakingKeepsCoupling(cfg: Config, st: Ledger, call: StakingRuns.Call, directory: Dapi.Directory)
    requires !call.Register? && !call.Unregister? && Dapi.Coupled(directory, st.providers)
    ensures Dapi.Coupled(directory, StakingRuns.Step(cfg, st, call).providers)
  {
    forall p: ProviderId ensures Dapi.CoupledAt(directory, StakingRuns.Step(cfg, st, call).providers, p) {
      assert Dapi.CoupledAt(directory, st.providers, p);
      StakingKeepsStanding(cfg, st, call, p);
    }
  }

  lemma FirstBlockStays(cfg: Config, st: Ledger, call: StakingRuns.Call, now: nat)
    requires st.era.firstBlock <= now && (call.Initialize? ==> call.block <= now)
    ensures StakingRuns.Step(cfg, st, call).era.firstBlock <= now
  {
  }

  lemma StakingStepOk(cfg: ChainConfig, c: Chain, call: StakingRuns.Call, now: nat)
    requires ChainOk(cfg, c) && !call.Register? && !call.Unregister? && !call.Elsewhere?
    requires c.now <= now && (call.Initialize? ==> call.block <= now)
    ensures var next := c.(ledger := StakingRuns.Step(cfg.staking, c.ledger, call), now := now);
            ChainOk(cfg, next) && Moved(c, next, Nothing())
  {
    var next := c.(ledger := StakingRuns.Step(cfg.staking, c.ledger, call), now := now);
    StakingRuns.StepValid(cfg.staking, c.ledger, call);
    LockstepMoves(c, next);
    MovedCovers(c, next);
    StakingKeepsCoupling(cfg.staking, c.ledger, call, c.directory);
    FirstBlockStays(cfg.staking, c.ledger, call, now);
  }

  lemma ElsewhereIs(cfg: ChainConfig, c: Chain, bank: Bank)
    ensures var call := StakingRuns.Elsewhere(bank);
            StakingStep(cfg, c, call)
            == if Public(c, call) && StakingRuns.Respectful(cfg.staking, c.ledger, bank)
               then c.(ledger := c.ledger.(bank := bank)) else c
  {
  }

  lemma RespectfulValid(cfg: Config, st: Ledger, bank: Bank)
    requires Valid(cfg, st) && StakingRuns.Respectful(cfg, st, bank)
    ensures Valid(cfg, st.(bank := bank))
  {
    BanklessWellFormed(cfg, st, bank);
  }

  lemma ElsewhereOk(cfg: ChainConfig, c: Chain, bank: Bank)
    requires ChainOk(cfg, c)
    ensures var call := StakingRuns.Elsewhere(bank);
            && ChainOk(cfg, StakingStep(cfg, c, call))
            && Moved(c, StakingStep(cfg, c, call), ByOthers(cfg, c, ToStaking(call)))
  {
    var call := StakingRuns.Elsewhere(bank);
    ElsewhereIs(cfg, c, bank);
    BanklessWellFormed(cfg.staking, c.ledger, bank);
    if Public(c, call) && StakingRuns.Respectful(cfg.staking, c.ledger, bank) {
      RespectfulValid(cfg.staking, c.ledger, bank);
      assert ChainOk(cfg, c.(ledger := c.ledger.(bank := bank)));
    }
  }

  // ---- Validator calls

  /** No validator call takes free funds from the staking pot. */
  lemma PotKept(cfg: ChainConfig, w: V.World, now: nat, call: Books.ValidatorCall)
    requires cfg.Separate() && Books.Dispatch(cfg.validators, w, now, call).Ok?
    requires call.Join? ==> call.who != cfg.staking.pot
    ensures Books.Dispatch(cfg.validators, w, now, call).value.bank.Free(cfg.staking.pot)
            >= w.bank.Free(cfg.staking.pot)
  {
    if call.Leave? {
      RemovalGivesOnly(cfg.validators, w, call.who, false, cfg.staking.pot);
    } else if call.Session? {
      KickGivesOnly(cfg.validators, w, now, w.vs.candidates, |w.vs.candidates|, cfg.staking.pot);
    }
  }

  lemma RemovalGivesOnly(cfg: V.ValidatorConfig, w: V.World, who: AccountId, slash: bool, a: AccountId)
    requires V.TryRemoveCandidate(cfg, w, who, slash).Ok?
    ensures V.TryRemoveCandidate(cfg, w, who, slash).value.bank.Free(a) >= w.bank.Free(a)
  {
  }

  lemma KickOneGivesOnly(cfg: V.ValidatorConfig, k: V.Kicked, now: nat, who: AccountId, a: AccountId)
    ensures V.KickOne(cfg, k, now, who).world.bank.Free(a) >= k.world.bank.Free(a)
  {
    if V.TryRemoveCandidate(cfg, k.world, who, true).Ok? {
      RemovalGivesOnly(cfg, k.world, who, true, a);
    }
  }

  lemma {:induction false} KickGivesOnly(cfg: V.ValidatorConfig, w: V.World, now: nat, snapshot: V.Candidates, n: nat,
                                         a: AccountId)
    requires n <= |snapshot|
    ensures V.KickFirst(cfg, w, now, snapshot, n).world.bank.Free(a) >= w.bank.Free(a)
  {
    if n > 0 {
      KickGivesOnly(cfg, w, now, snapshot, n - 1, a);
      KickOneGivesOnly(cfg, V.KickFirst(cfg, w, now, snapshot, n - 1), now, snapshot[n - 1].who, a);
    }
  }

  lemma BanklessWellFormed(cfg: Config, st: Ledger, bank: Bank)
    requires WellFormed(cfg, st)
    ensures WellFormed(cfg, st.(bank := bank))
    ensures forall a: AccountId :: StakingShare(st.(bank := bank), a) == StakingShare(st, a)
  {
  }

  /** Seen from staking, a validator call is one of the rest of the chain. */
  lemma ValidatorIsElsewhere(cfg: ChainConfig, c: Chain, call: Books.ValidatorCall)
    requires cfg.Separate() && ChainOk(cfg, c)
    ensures var next := ValidatorStep(cfg, c, call);
            && Moved(c, next, Nothing()) && Covered(next)
            && StakingRuns.Respectful(cfg.staking, c.ledger, next.ledger.bank)
  {
    var w := World(c);
    var outcome := Books.Dispatch(cfg.validators, w, c.now, call);
    if outcome.Ok? && !(call.Join? && call.who == cfg.staking.pot) {
      var next := ValidatorStep(cfg, c, call);
      assert Books.DepositsBacked(w) by {
        forall a: AccountId ensures Books.DepositHeld(w.vs.candidates, a) <= w.bank.Reserved(a) {
          assert Held(c, a) <= c.ledger.bank.Reserved(a);
        }
      }
      Books.DispatchInStep(cfg.validators, w, c.now, call);
      PotKept(cfg, w, c.now, call);
      BanklessWellFormed(cfg.staking, c.ledger, outcome.value.bank);
      InStepMoves(c, outcome.value);
      MovedCovers(c, next);
      CoveredIsBacked(next);
    }
  }

  lemma CoveredIsBacked(c: Chain)
    requires Covered(c)
    ensures Backed(c.ledger)
  {
    forall a: AccountId ensures StakingShare(c.ledger, a) <= c.ledger.bank.Reserved(a) {
      assert Held(c, a) <= c.ledger.bank.Reserved(a);
    }
  }

  lemma InStepMoves(c: Chain, next: V.World)
    requires Books.InStep(World(c), next)
    requires forall a: AccountId :: StakingShare(c.ledger.(bank := next.bank), a) == StakingShare(c.ledger, a)
    ensures Moved(c, c.(vs := next.vs, ledger := c.ledger.(bank := next.bank)), Nothing())
  {
    var last := c.(vs := next.vs, ledger := c.ledger.(bank := next.bank));
    forall a: AccountId
      ensures next.bank.Reserved(a) - Held(last, a) == c.ledger.bank.Reserved(a) - Held(c, a) + Nothing()(a)
    {
      assert next.bank.Reserved(a) + Books.DepositHeld(c.vs.candidates, a)
             == c.ledger.bank.Reserved(a) + Books.DepositHeld(next.vs.candidates, a);
    }
  }

  lemma ValidatorStepOk(cfg: ChainConfig, c: Chain, call: Books.ValidatorCall)
    requires cfg.Separate() && ChainOk(cfg, c)
    ensures ChainOk(cfg, ValidatorStep(cfg, c, call)) && Moved(c, ValidatorStep(cfg, c, call), Nothing())
  {
    var next := ValidatorStep(cfg, c, call);
    ValidatorIsElsewhere(cfg, c, call);
    RespectfulValid(cfg.staking, c.ledger, next.ledger.bank);
    if Books.Dispatch(cfg.validators, World(c), c.now, call).Ok? {
      Books.DispatchOk(cfg.validators, World(c), c.now, call);
    }
  }

  // ---- Provider calls

  /** The staking call a provider call makes, if any. */
  function StakingCall(call: Dapi.DapiCall): Option<StakingRuns.Call> {
    match call
    case Enlist(_, _, _, _, _, _, _, _) => None
    case Activate(owner, p, deposit) => Some(StakingRuns.Register(owner, p, deposit))
    case Retire(_, p) => Some(StakingRuns.Unregister(p))
    case Report(_, _, p, _) => Some(StakingRuns.Unregister(p))
  }

  lemma DapiIsStaking(cfg: Config, s: Dapi.Site, call: Dapi.DapiCall)
    requires Dapi.Dispatch(cfg, s, call).Ok? && !(call.Activate? && call.owner == cfg.pot)
    ensures Dapi.Dispatch(cfg, s, call).value.ledger
            == match StakingCall(call)
               case None => s.ledger
               case Some(inner) => StakingRuns.Step(cfg, s.ledger, inner)
  {
  }

  lemma DapiStepOk(cfg: ChainConfig, c: Chain, call: Dapi.DapiCall)
    requires ChainOk(cfg, c)
    ensures ChainOk(cfg, DapiStep(cfg, c, call)) && Moved(c, DapiStep(cfg, c, call), Nothing())
  {
    var s := Dapi.Site(c.directory, c.ledger);
    var outcome := Dapi.Dispatch(cfg.staking, s, call);
    if outcome.Ok? && !(call.Activate? && call.owner == cfg.staking.pot) {
      Dapi.DispatchCoupled(cfg.staking, s, call);
      DapiIsStaking(cfg.staking, s, call);
      if StakingCall(call).Some? {
        var inner := StakingCall(call).value;
        StakingRuns.StepValid(cfg.staking, c.ledger, inner);
        FirstBlockStays(cfg.staking, c.ledger, inner, c.now);
        LockstepMoves(c, DapiStep(cfg, c, call));
        MovedCovers(c, DapiStep(cfg, c, call));
      }
    }
  }

  // ---- Runs

  lemma BlockIs(cfg: ChainConfig, c: Chain)
    ensures BlockStep(cfg, c)
            == c.(ledger := StakingRuns.Step(cfg.staking, c.ledger, StakingRuns.Initialize(c.now + 1)),
                  now := c.now + 1)
  {
  }

  lemma BlockOk(cfg: ChainConfig, c: Chain)
    requires ChainOk(cfg, c)
    ensures ChainOk(cfg, BlockStep(cfg, c)) && Moved(c, BlockStep(cfg, c), Nothing())
  {
    BlockIs(cfg, c);
    StakingStepOk(cfg, c, StakingRuns.Initialize(c.now + 1), c.now + 1);
  }

  lemma PublicStepOk(cfg: ChainConfig, c: Chain, call: StakingRuns.Call)
    requires ChainOk(cfg, c)
    ensures ChainOk(cfg, StakingStep(cfg, c, call))
    ensures Moved(c, StakingStep(cfg, c, call), ByOthers(cfg, c, ToStaking(call)))
  {
    if call.Elsewhere? {
      ElsewhereOk(cfg, c, call.bank);
    } else if Public(c, call) {
      StakingStepOk(cfg, c, call, c.now);
      NothingByOthers(cfg, c, ToStaking(call));
    } else {
      NothingByOthers(cfg, c, ToStaking(call));
    }
  }

  lemma NothingByOthers(cfg: ChainConfig, c: Chain, call: ChainCall)
    requires call.ToStaking? ==> !call.call.Elsewhere? || !Public(c, call.call)
    ensures forall a: AccountId :: ByOthers(cfg, c, call)(a) == 0
  {
  }

  /** Every call keeps the chain in order, and moves each reserve with what the pallets hold, or as others say. */
  lemma StepOk(cfg: ChainConfig, c: Chain, call: ChainCall)
    requires cfg.Separate() && ChainOk(cfg, c)
    ensures ChainOk(cfg, Step(cfg, c, call)) && Moved(c, Step(cfg, c, call), ByOthers(cfg, c, call))
  {
    if call.NextBlock? {
      BlockOk(cfg, c);
      NothingByOthers(cfg, c, call);
    } else if call.ToStaking? {
      PublicStepOk(cfg, c, call.call);
    } else if call.ToValidators? {
      ValidatorStepOk(cfg, c, call.validatorCall);
      NothingByOthers(cfg, c, call);
    } else {
      DapiStepOk(cfg, c, call.dapiCall);
      NothingByOthers(cfg, c, call);
    }
  }

  lemma {:induction false} RunOk(cfg: ChainConfig, c: Chain, calls: seq<ChainCall>)
    requires cfg.Separate() && ChainOk(cfg, c)
    ensures ChainOk(cfg, Run(cfg, c, calls))
    decreases |calls|
  {
    if calls != [] {
      StepOk(cfg, c, calls[0]);
      RunOk(cfg, Step(cfg, c, calls[0]), calls[1..]);
    }
  }

  /** What the rest of the chain reserved on balance over a run. */
  ghost function Others(cfg: ChainConfig, c: Chain, calls: seq<ChainCall>, a: AccountId): int
    decreases |calls|
  {
    if calls == [] then 0
    else ReservedElsewhere(cfg, c, calls[0], a) + Others(cfg, Step(cfg, c, calls[0]), calls[1..], a)
  }

  lemma {:induction false} RunReserves(cfg: ChainConfig, c: Chain, calls: seq<ChainCall>, a: AccountId)
    requires cfg.Separate() && ChainOk(cfg, c)
    ensures var last := Run(cfg, c, calls);
            last.ledger.bank.Reserved(a) - Held(last, a)
            == c.ledger.bank.Reserved(a) - Held(c, a) + Others(cfg, c, calls, a)
    decreases |calls|
  {
    if calls != [] {
      var next := Step(cfg, c, calls[0]);
      StepOk(cfg, c, calls[0]);
      assert next.ledger.bank.Reserved(a) - Held(next, a)
             == c.ledger.bank.Reserved(a) - Held(c, a) + ByOthers(cfg, c, calls[0])(a);
      RunReserves(cfg, next, calls[1..], a);
    }
  }

  /** The first block: no providers and no candidates, and balances in which others may have reserves. */
  function FirstBlock(cfg: ChainConfig, bank: Bank, given: nat, vs: V.Validators): Chain {
    Chain(StakingRuns.Start(cfg.staking, bank, given, 1), vs, map[], 1)
  }

  lemma FirstBlockOk(cfg: ChainConfig, bank: Bank, given: nat, vs: V.Validators)
    requires given <= bank.Free(cfg.staking.pot) && vs.candidates == [] && vs.lastActive == map[]
    ensures ChainOk(cfg, FirstBlock(cfg, bank, given, vs))
    ensures forall a: AccountId :: Held(FirstBlock(cfg, bank, given, vs), a) == 0
    ensures FirstBlock(cfg, bank, given, vs).ledger.bank == bank
  {
    var c := FirstBlock(cfg, bank, given, vs);
    StakingRuns.StartValid(cfg.staking, bank, given, 1);
    assert c.ledger.bank == bank;
    assert forall p: ProviderId :: Dapi.CoupledAt(c.directory, c.ledger.providers, p);
  }

  /**
    On one chain, over any interleaving of the calls of all pallets: every account's reserve is
    exactly its staking share, its candidate deposit and what others reserved, and the two life
    cycles of every provider agree.
   */
  lemma SharedLedger(cfg: ChainConfig, bank: Bank, given: nat, vs: V.Validators, calls: seq<ChainCall>)
    requires cfg.Separate() && given <= bank.Free(cfg.staking.pot)
    requires vs.candidates == [] && vs.lastActive == map[]
    ensures var first := FirstBlock(cfg, bank, given, vs);
            var last := Run(cfg, first, calls);
            && (forall a: AccountId ::
                  && last.ledger.bank.Reserved(a)
                     == bank.Reserved(a) + Held(last, a) + Others(cfg, first, calls, a)
                  && Held(last, a) <= last.ledger.bank.Reserved(a))
            && Dapi.Coupled(last.directory, last.ledger.providers)
            && Kick.Distinct(last.vs.candidates)
            && Valid(cfg.staking, last.ledger)
  {
    var first := FirstBlock(cfg, bank, given, vs);
    FirstBlockOk(cfg, bank, given, vs);
    RunOk(cfg, first, calls);
    ReservesFrom(cfg, first, calls);
  }

  lemma ReservesFrom(cfg: ChainConfig, first: Chain, calls: seq<ChainCall>)
    requires cfg.Separate() && ChainOk(cfg, first)
    requires forall a: AccountId :: Held(first, a) == 0
    ensures var last := Run(cfg, first, calls);
            forall a: AccountId ::
              last.ledger.bank.Reserved(a)
                == first.ledger.bank.Reserved(a) + Held(last, a) + Others(cfg, first, calls, a)
  {
    forall a: AccountId
      ensures Run(cfg, first, calls).ledger.bank.Reserved(a)
              == first.ledger.bank.Reserved(a) + Held(Run(cfg, first, calls), a) + Others(cfg, first, calls, a)
    {
      RunReserves(cfg, first, calls, a);
    }
  }

  lemma StepFloor(cfg: ChainConfig, c: Chain, call: ChainCall)
    requires Kick.Distinct(c.vs.candidates)
    ensures |Step(cfg, c, call).vs.candidates| >= Arithmetic.Min(|c.vs.candidates|, cfg.validators.minCandidates)
  {
    if call.ToValidators? && Books.Dispatch(cfg.validators, World(c), c.now, call.validatorCall).Ok? {
      Books.DispatchFloor(cfg.validators, World(c), c.now, call.validatorCall);
    }
  }

  /** Once there are as many candidates as the minimum, there are never fewer. */
  lemma {:induction false} CandidateFloor(cfg: ChainConfig, c: Chain, calls: seq<ChainCall>)
    requires cfg.Separate() && ChainOk(cfg, c)
    ensures |Run(cfg, c, calls).vs.candidates| >= Arithmetic.Min(|c.vs.candidates|, cfg.validators.minCandidates)
    decreases |calls|
  {
    if calls != [] {
      StepFloor(cfg, c, calls[0]);
      StepOk(cfg, c, calls[0]);
      CandidateFloor(cfg, Step(cfg, c, calls[0]), calls[1..]);
    }
  }

  lemma SessionVictim(cfg: ChainConfig, c: Chain, victim: V.CandidateInfo)
    requires ChainOk(cfg, c) && victim in c.vs.candidates
    requires victim !in ValidatorStep(cfg, c, Books.Session).vs.candidates
    ensures victim.who in c.vs.lastActive && Books.Due(cfg.validators, c.vs.lastActive[victim.who]) <= c.now
  {
    Books.SessionPatience(cfg.validators, World(c), c.now, victim);
  }

  /** Whenever a session starts, whoever it kicks has not registered within two thresholds, nor authored within one. */
  lemma KickPatience(cfg: ChainConfig, c: Chain, calls: seq<ChainCall>, victim: V.CandidateInfo)
    requires cfg.Separate() && ChainOk(cfg, c)
    requires var mid := Run(cfg, c, calls);
             && victim in mid.vs.candidates
             && victim !in Step(cfg, mid, ToValidators(Books.Session)).vs.candidates
    ensures var mid := Run(cfg, c, calls);
            && victim.who in mid.vs.lastActive
            && Books.Due(cfg.validators, mid.vs.lastActive[victim.who]) <= mid.now
  {
    RunOk(cfg, c, calls);
    SessionVictim(cfg, Run(cfg, c, calls), victim);
  }
}
