/**
  The validator set pallet with its storage items as fields.  The session kick walks a snapshot of
  the candidates while removing entries from the stored list.
 */
module ValidatorPallet {
  import Arithmetic
  import opened Wrappers
  import opened Currency
  import Perbill
  import opened ValidatorSpec
  import Proofs = ValidatorProofs
  import Books = ValidatorLedger

  class ValidatorSet {
    const cfg: ValidatorConfig
    const currency: Balances
    const slashDestination: Option<AccountId>
    var invulnerables: seq<AccountId>
    var candidates: Candidates
    var lastAuthoredBlock: map<AccountId, nat>
    var desiredCandidates: nat
    var candidacyBond: nat
    ghost var lastActive: map<AccountId, Activity>

    ghost function State(): World
      reads this, currency
    {
      World(Validators(invulnerables, candidates, lastAuthoredBlock, desiredCandidates, candidacyBond,
                       slashDestination, lastActive), currency.Snapshot())
    }

    ghost predicate Committed(before: World, outcome: Result<World, ValidatorError>, r: Result<(), ValidatorError>)
      reads this, currency
    {
      match outcome
      case Ok(next) => r == Ok(()) && State() == next
      case Err(e) => r == Err(e) && State() == before
    }

    /** Genesis: no candidates. */
    constructor (cfg: ValidatorConfig, currency: Balances, slashDestination: Option<AccountId>,
                 invulnerables: seq<AccountId>, candidacyBond: nat, desiredCandidates: nat)
      ensures this.cfg == cfg && this.currency == currency
      ensures State() == World(Validators(invulnerables, [], map[], desiredCandidates, candidacyBond,
                                          slashDestination, map[]),
                               currency.Snapshot())
    {
      this.cfg, this.currency, this.slashDestination := cfg, currency, slashDestination;
      this.invulnerables, this.candidacyBond, this.desiredCandidates := invulnerables, candidacyBond, desiredCandidates;
      candidates, lastAuthoredBlock, lastActive := [], map[], map[];
    }

    method SetInvulnerables(accounts: seq<AccountId>, keys: Keys) returns (r: Result<(), ValidatorError>)
      modifies this`invulnerables
      ensures Committed(old(State()), ValidatorSpec.SetInvulnerables(old(State()), accounts, keys), r)
    {
      for i := 0 to |accounts|
        invariant FirstFault(keys, accounts) == FirstFault(keys, accounts[i..])
      {
        assert accounts[i..][1..] == accounts[i + 1..];
        var fault := KeyFault(keys, accounts[i]);
        if fault.Some? {
          return Err(fault.value);
        }
      }
      invulnerables := accounts;
      r := Ok(());
    }

    method SetDesiredCandidates(max: nat)
      modifies this`desiredCandidates
      ensures State() == ValidatorSpec.SetDesiredCandidates(old(State()), max)
    {
      desiredCandidates := max;
    }

    method SetCandidacyBond(bond: nat)
      modifies this`candidacyBond
      ensures State() == ValidatorSpec.SetCandidacyBond(old(State()), bond)
    {
      candidacyBond := bond;
    }

    method RegisterAsCandidate(now: nat, who: AccountId, keys: Keys) returns (r: Result<(), ValidatorError>)
      modifies this, currency
      ensures Committed(old(State()), ValidatorSpec.RegisterAsCandidate(cfg, old(State()), now, who, keys), r)
    {
      if |candidates| >= desiredCandidates {
        return Err(TooManyCandidates);
      }
      if who in invulnerables {
        return Err(AlreadyInvulnerable);
      }
      var fault := KeyFault(keys, who);
      if fault.Some? {
        return Err(fault.value);
      }
      if IsCandidate(candidates, who) {
        return Err(AlreadyCandidate);
      }
      var deposit := candidacyBond;
      var reserved := currency.Reserve(who, deposit);
      if !reserved {
        return Err(NoFunds);
      }
      candidates := candidates + [CandidateInfo(who, deposit)];
      lastAuthoredBlock := lastAuthoredBlock[who := now + cfg.kickThreshold];
      lastActive := lastActive[who := Joined(now)];
      r := Ok(());
    }

    method LeaveIntent(who: AccountId) returns (r: Result<(), ValidatorError>)
      modifies this, currency
      ensures Committed(old(State()), ValidatorSpec.LeaveIntent(cfg, old(State()), who), r)
    {
      if |candidates| <= cfg.minCandidates {
        return Err(TooFewCandidates);
      }
      r := TryRemoveCandidate(who, false);
    }

    /** Part of the deposit goes to the slash destination, if there is one; the rest is released. */
    method SlashDeposit(who: AccountId, deposit: nat)
      modifies currency
      ensures currency.Snapshot() == ValidatorSpec.SlashDeposit(cfg, old(State()), who, deposit)
    {
      var slashAmount := Perbill.Of(cfg.slashRatio, deposit);
      var remain := deposit - slashAmount;
      var imbalance := currency.SlashReserved(who, slashAmount);
      currency.Unreserve(who, remain);
      if slashDestination.Some? {
        currency.Deposit(slashDestination.value, imbalance);
      }
    }

    method TryRemoveCandidate(who: AccountId, slash: bool) returns (r: Result<(), ValidatorError>)
      modifies this, currency
      ensures Committed(old(State()), ValidatorSpec.TryRemoveCandidate(cfg, old(State()), who, slash), r)
    {
      var index := Position(candidates, who);
      if index == |candidates| {
        return Err(NotCandidate);
      }
      var deposit := candidates[index].deposit;
      if slash {
        SlashDeposit(who, deposit);
      } else {
        currency.Unreserve(who, deposit);
      }
      candidates := RemoveAt(candidates, index);
      lastAuthoredBlock := lastAuthoredBlock - {who};
      r := Ok(());
    }

    /** Walks the snapshot; the stored list and its length change as it goes. */
    method KickStaleCandidates(now: nat, snapshot: Candidates) returns (survivors: seq<AccountId>)
      requires snapshot == candidates
      modifies this, currency
      ensures Kicked(State(), survivors) == KickFirst(cfg, old(State()), now, snapshot, |snapshot|)
    {
      survivors := [];
      for i := 0 to |snapshot|
        invariant Kicked(State(), survivors) == KickFirst(cfg, old(State()), now, snapshot, i)
      {
        var c := snapshot[i];
        var lastBlock := if c.who in lastAuthoredBlock then lastAuthoredBlock[c.who] else 0;
        if Arithmetic.SaturatingSub(now, lastBlock) < cfg.kickThreshold || |candidates| <= cfg.minCandidates {
          survivors := survivors + [c.who];
        } else {
          var _ := TryRemoveCandidate(c.who, true);
        }
      }
    }

    /** The next validators: the invulnerables, then the candidates that were not kicked, as stored. */
    method NewSession(now: nat) returns (validators: seq<AccountId>)
      requires Proofs.Distinct(candidates)
      modifies this, currency
      ensures (State(), validators) == ValidatorSpec.NewSession(cfg, old(State()), now)
      ensures validators == invulnerables + Proofs.Names(candidates)
      ensures invulnerables == old(invulnerables)
    {
      Proofs.SessionKick(cfg, State(), now);
      var active := KickStaleCandidates(now, candidates);
      validators := invulnerables + active;
    }

    /** The author of a block collects the pot, if the transfer succeeds, and is seen to be active. */
    method NoteAuthor(now: nat, author: AccountId, transferred: bool)
      modifies this, currency
      ensures State() == ValidatorSpec.NoteAuthor(cfg, old(State()), now, author, transferred)
    {
      var reward := Arithmetic.SaturatingSub(currency.Snapshot().Free(cfg.pot), cfg.minimumBalance);
      if transferred {
        var paid := currency.Withdraw(cfg.pot, reward);
        assert paid;
        currency.Deposit(author, reward);
      }
      lastAuthoredBlock := lastAuthoredBlock[author := now];
      lastActive := lastActive[author := Authored(now)];
    }

    /** Whatever call is dispatched, candidates stay distinct and deposits stay reserved. */
    method Apply(now: nat, call: Books.ValidatorCall) returns (r: Result<(), ValidatorError>)
      requires Books.ValidatorsOk(cfg, State().vs, now) && Books.DepositsBacked(State())
      modifies this, currency
      ensures Committed(old(State()), Books.Dispatch(cfg, old(State()), now, call), r)
      ensures Books.ValidatorsOk(cfg, State().vs, now) && Books.DepositsBacked(State())
    {
      ghost var before := State();
      if Books.Dispatch(cfg, before, now, call).Ok? {
        Books.DispatchOk(cfg, before, now, call);
        Books.DispatchInStep(cfg, before, now, call);
        Books.InStepKeepsBacked(before, Books.Dispatch(cfg, before, now, call).value);
      }
      r := Ok(());
      match call
      case Invulnerables(accounts, keys) => r := SetInvulnerables(accounts, keys);
      case Desired(max) => SetDesiredCandidates(max);
      case Bond(bond) => SetCandidacyBond(bond);
      case Join(who, keys) => r := RegisterAsCandidate(now, who, keys);
      case Leave(who) => r := LeaveIntent(who);
      case Author(author, transferred) => NoteAuthor(now, author, transferred);
      case Session => var _ := NewSession(now);
    }
  }
}
