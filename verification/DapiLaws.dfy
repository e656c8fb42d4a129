/** Who may move a provider through its life cycle, and that it only moves forward. */
module DapiLaws {
  import opened Wrappers
  import opened Currency
  import opened DapiSpec
  import StakingTypes
  import opened OnChain = Chain

  // ---- Reasons

  predicate Lacks(s: Site, p: ProviderId, status: ProviderStatus) {
    p in s.directory && s.directory[p].status != status
  }

  predicate OwnedByOther(s: Site, p: ProviderId, who: AccountId) {
    p in s.directory && s.directory[p].owner != who
  }

  predicate AgainstActivate(cfg: StakingTypes.Config, s: Site, owner: AccountId, p: ProviderId, deposit: nat,
                            e: Error) {
    match e
    case ProviderDNE => p !in s.directory
    case NotOwner => OwnedByOther(s, p, owner)
    case InvalidProviderStatus => Lacks(s, p, Registered)
    case StakingFailed(InsufficientBond) => deposit < cfg.minProviderStake
    case StakingFailed(InsufficientBalance) => deposit > s.ledger.bank.Free(owner)
    case _ => false
  }

  /** There is a reason against the call for which it may return the error. */
  predicate Against(cfg: StakingTypes.Config, s: Site, call: DapiCall, e: Error) {
    match call
    case Enlist(regulators, chainIds, max, regulator, p, _, _, chainId) =>
      (match e
       case PermissionDenied => regulator !in regulators
       case AlreadyExist => p in s.directory
       case InvalidChainId => |chainId| > max || chainId !in chainIds
       case _ => false)
    case Activate(owner, p, deposit) => AgainstActivate(cfg, s, owner, p, deposit, e)
    case Retire(account, p) =>
      (match e
       case ProviderDNE => p !in s.directory
       case NotOwner => OwnedByOther(s, p, account)
       case InvalidProviderStatus => Lacks(s, p, Active)
       case _ => false)
    case Report(regulators, regulator, p, _) =>
      (match e
       case PermissionDenied => regulator !in regulators
       case ProviderDNE => p !in s.directory
       case InvalidProviderStatus => Lacks(s, p, Active)
       case _ => false)
  }

  lemma Reasons(cfg: StakingTypes.Config, s: Site, call: DapiCall, e: Error)
    requires Coupled(s.directory, s.ledger.providers)
    ensures Dispatch(cfg, s, call).Ok? ==> !Against(cfg, s, call, e)
    ensures Dispatch(cfg, s, call) == Err(e) ==> Against(cfg, s, call, e)
  {
    assert CoupledAt(s.directory, s.ledger.providers, call.p);
  }

  /** A call goes through exactly if there is no reason against it; the error it returns otherwise is true. */
  lemma AnswersAreReasons(cfg: StakingTypes.Config, s: Site, call: DapiCall)
    requires Coupled(s.directory, s.ledger.providers)
    ensures Dispatch(cfg, s, call).Ok? <==> forall e: Error :: !Against(cfg, s, call, e)
    ensures Dispatch(cfg, s, call).Err? ==> Against(cfg, s, call, Dispatch(cfg, s, call).error)
  {
    forall e: Error { Reasons(cfg, s, call, e); }
  }

  // ---- Life cycles

  /** The call is about p: a regulator enlists or reports it, or its owner activates or retires it. */
  predicate MovesEntry(call: DapiCall, p: ProviderId, before: Option<Provider>, after: Provider) {
    && call.p == p
    && match call
       case Enlist(regulators, _, _, regulator, _, kind, owner, chainId) =>
         regulator in regulators && before.None? && after == Provider(kind, owner, chainId, Registered)
       case Activate(owner, _, _) =>
         before.Some? && before.value == after.(status := Registered) && after.status == Active && after.owner == owner
       case Retire(account, _) =>
         before.Some? && before.value == after.(status := Active) && after.status == InActive(UnRegistered)
         && after.owner == account
       case Report(regulators, regulator, _, reason) =>
         before.Some? && before.value == after.(status := Active) && after.status == InActive(reason)
         && regulator in regulators
  }

  function EntryOf(directory: Directory, p: ProviderId): Option<Provider> {
    if p in directory then Some(directory[p]) else None
  }

  /** An accepted call moves the entry it is about one step on, by whom it must, and no other entry. */
  lemma EntryMoves(cfg: StakingTypes.Config, s: Site, call: DapiCall, p: ProviderId)
    requires Dispatch(cfg, s, call).Ok?
    ensures var next := Dispatch(cfg, s, call).value.directory;
            if p == call.p then p in next && MovesEntry(call, p, EntryOf(s.directory, p), next[p])
            else EntryOf(next, p) == EntryOf(s.directory, p)
  {
  }

  function Rank(status: ProviderStatus): nat {
    match status
    case Registered => 0
    case Active => 1
    case InActive(_) => 2
  }

  /** The same provider, as far on in its life cycle or further; once inactive it stays so for the same reason. */
  predicate NoEarlier(before: Provider, after: Provider) {
    && after.(status := before.status) == before
    && Rank(before.status) <= Rank(after.status)
    && (before.status.InActive? ==> after == before)
  }

  lemma StepForward(cfg: ChainConfig, c: Chain, call: ChainCall, p: ProviderId)
    ensures p in c.directory ==>
              p in Step(cfg, c, call).directory && NoEarlier(c.directory[p], Step(cfg, c, call).directory[p])
  {
    if call.ToDapi? && Dispatch(cfg.staking, Site(c.directory, c.ledger), call.dapiCall).Ok? {
      EntryMoves(cfg.staking, Site(c.directory, c.ledger), call.dapiCall, p);
    }
  }

  /** Over any run of the chain a provider keeps its type, owner and chain, and its status only moves forward. */
  lemma {:induction false} LifeCycleForward(cfg: ChainConfig, c: Chain, calls: seq<ChainCall>, p: ProviderId)
    requires p in c.directory
    ensures p in Run(cfg, c, calls).directory && NoEarlier(c.directory[p], Run(cfg, c, calls).directory[p])
    decreases |calls|
  {
    if calls != [] {
      StepForward(cfg, c, calls[0], p);
      LifeCycleForward(cfg, Step(cfg, c, calls[0]), calls[1..], p);
    }
  }
}
