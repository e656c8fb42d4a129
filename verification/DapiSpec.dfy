/**
  The life cycle of providers in the dAPI pallet, which drives their registration with staking.
  Regulators and known chain ids are inputs of the calls that consult them.
 */
module DapiSpec {
  import opened Wrappers
  import opened Currency
  import StakingTypes
  import Staking = StakingSpec

  type ChainId = string

  datatype ProviderType = Gateway | Node

  datatype ProviderDeactivateReason =
    | BadPerformance(requests: nat, successRate: nat, averageLatency: nat)
    | OutOfSync
    | UnRegistered

  datatype ProviderStatus = Registered | Active | InActive(reason: ProviderDeactivateReason)

  datatype Provider = Provider(providerType: ProviderType, owner: AccountId, chainId: ChainId, status: ProviderStatus)

  datatype Error =
    | AlreadyExist | ProviderDNE | NotOwner | PermissionDenied | InvalidProviderStatus | InvalidChainId
    | StakingFailed(error: StakingTypes.Error)

  type ProviderId = StakingTypes.ProviderId

  type Directory = map<ProviderId, Provider>

  datatype Site = Site(directory: Directory, ledger: StakingTypes.Ledger)

  type SiteOutcome = Result<Site, Error>

  function RegisterProvider(s: Site, regulators: set<AccountId>, chainIds: set<ChainId>, maxChainIdLength: nat,
                            regulator: AccountId, p: ProviderId, kind: ProviderType, owner: AccountId, chainId: ChainId)
    : SiteOutcome
  {
    if regulator !in regulators then Err(PermissionDenied)
    else if p in s.directory then Err(AlreadyExist)
    else if |chainId| > maxChainIdLength then Err(InvalidChainId)
    else if chainId !in chainIds then Err(InvalidChainId)
    else Ok(s.(directory := s.directory[p := Provider(kind, owner, chainId, Registered)]))
  }

  function DepositProvider(cfg: StakingTypes.Config, s: Site, owner: AccountId, p: ProviderId, deposit: nat)
    : SiteOutcome
  {
    if p !in s.directory then Err(ProviderDNE)
    else if s.directory[p].owner != owner then Err(NotOwner)
    else if s.directory[p].status != Registered then Err(InvalidProviderStatus)
    else
      match Staking.RegisterProvider(cfg, s.ledger, owner, p, deposit)
      case Err(e) => Err(StakingFailed(e))
      case Ok(next) => Ok(Site(s.directory[p := s.directory[p].(status := Active)], next))
  }

  /** Takes p out of service for the given reason, in staking and here. */
  function Deactivate(s: Site, p: ProviderId, reason: ProviderDeactivateReason): SiteOutcome {
    if p !in s.directory then Err(ProviderDNE)
    else if s.directory[p].status != Active then Err(InvalidProviderStatus)
    else
      match Staking.UnregisterProvider(s.ledger, p)
      case Err(e) => Err(StakingFailed(e))
      case Ok(next) => Ok(Site(s.directory[p := s.directory[p].(status := InActive(reason))], next))
  }

  function UnregisterProvider(s: Site, account: AccountId, p: ProviderId): SiteOutcome {
    if p !in s.directory then Err(ProviderDNE)
    else if s.directory[p].owner != account then Err(NotOwner)
    else Deactivate(s, p, UnRegistered)
  }

  function ReportProviderOffence(s: Site, regulators: set<AccountId>, regulator: AccountId, p: ProviderId,
                                 reason: ProviderDeactivateReason): SiteOutcome {
    if regulator !in regulators then Err(PermissionDenied)
    else Deactivate(s, p, reason)
  }

  datatype DapiCall =
    | Enlist(regulators: set<AccountId>, chainIds: set<ChainId>, maxChainIdLength: nat,
             regulator: AccountId, p: ProviderId, kind: ProviderType, owner: AccountId, chainId: ChainId)
    | Activate(owner: AccountId, p: ProviderId, deposit: nat)
    | Retire(account: AccountId, p: ProviderId)
    | Report(regulators: set<AccountId>, regulator: AccountId, p: ProviderId, reason: ProviderDeactivateReason)

  function Dispatch(cfg: StakingTypes.Config, s: Site, call: DapiCall): SiteOutcome {
    match call
    case Enlist(regulators, chainIds, max, regulator, p, kind, owner, chainId) =>
      RegisterProvider(s, regulators, chainIds, max, regulator, p, kind, owner, chainId)
    case Activate(owner, p, deposit) => DepositProvider(cfg, s, owner, p, deposit)
    case Retire(account, p) => UnregisterProvider(s, account, p)
    case Report(regulators, regulator, p, reason) => ReportProviderOffence(s, regulators, regulator, p, reason)
  }

  // ---- The coupling of the two life cycles

  /** p stands with staking as its own status says: unknown, active or inactive, under the same owner. */
  predicate CoupledAt(directory: Directory, providers: StakingTypes.Providers, p: ProviderId) {
    if p !in directory then p !in providers
    else
      match directory[p].status
      case Registered => p !in providers
      case Active => p in providers && providers[p].status.Active? && providers[p].owner == directory[p].owner
      case InActive(_) => p in providers && providers[p].status.Inactive? && providers[p].owner == directory[p].owner
  }

  ghost predicate Coupled(directory: Directory, providers: StakingTypes.Providers) {
    forall p: ProviderId :: CoupledAt(directory, providers, p)
  }

  /** The calls keep the two life cycles coupled. */
  lemma DispatchCoupled(cfg: StakingTypes.Config, s: Site, call: DapiCall)
    requires Coupled(s.directory, s.ledger.providers) && Dispatch(cfg, s, call).Ok?
    ensures var next := Dispatch(cfg, s, call).value; Coupled(next.directory, next.ledger.providers)
  {
    var next := Dispatch(cfg, s, call).value;
    forall p: ProviderId ensures CoupledAt(next.directory, next.ledger.providers, p) {
      assert CoupledAt(s.directory, s.ledger.providers, p);
    }
  }

  /**
    Staking never refuses a registration because the provider exists, and never refuses to
    unregister one: whatever fails there is the bond.
   */
  lemma NoStakingSurprise(cfg: StakingTypes.Config, s: Site, call: DapiCall)
    requires Coupled(s.directory, s.ledger.providers)
    requires Dispatch(cfg, s, call).Err? && Dispatch(cfg, s, call).error.StakingFailed?
    ensures call.Activate?
    ensures Dispatch(cfg, s, call).error.error == StakingTypes.InsufficientBond
            || Dispatch(cfg, s, call).error.error == StakingTypes.InsufficientBalance
  {
    assert CoupledAt(s.directory, s.ledger.providers, call.p);
  }
}
