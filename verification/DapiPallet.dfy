/** The provider life cycle of the dAPI pallet, calling the staking pallet as the chain does. */
module DapiPallet {
  import opened Wrappers
  import opened Currency
  import opened DapiSpec
  import opened StakingPallet

  class Dapi {
    const staking: DapiStaking
    const maxChainIdLength: nat
    var providers: Directory
    var regulators: set<AccountId>
    var chainIds: set<ChainId>

    ghost function State(): Site
      reads this, staking, staking.currency
    {
      Site(providers, staking.State())
    }

    ghost predicate Committed(before: Site, outcome: SiteOutcome, r: Result<(), Error>)
      reads this, staking, staking.currency
    {
      match outcome
      case Ok(next) => r == Ok(()) && State() == next
      case Err(e) => r == Err(e) && State() == before
    }

    constructor (staking: DapiStaking, maxChainIdLength: nat, regulators: set<AccountId>, chainIds: set<ChainId>)
      ensures this.staking == staking && this.maxChainIdLength == maxChainIdLength
      ensures providers == map[] && this.regulators == regulators && this.chainIds == chainIds
    {
      this.staking, this.maxChainIdLength := staking, maxChainIdLength;
      this.regulators, this.chainIds := regulators, chainIds;
      providers := map[];
    }

    method RegisterProvider(regulator: AccountId, p: ProviderId, kind: ProviderType, owner: AccountId, chainId: ChainId)
      returns (r: Result<(), Error>)
      modifies this`providers
      ensures Committed(old(State()),
                        DapiSpec.RegisterProvider(old(State()), regulators, chainIds, maxChainIdLength, regulator, p,
                                                  kind, owner, chainId), r)
    {
      if regulator !in regulators {
        return Err(PermissionDenied);
      }
      if p in providers {
        return Err(AlreadyExist);
      }
      if |chainId| > maxChainIdLength || chainId !in chainIds {
        return Err(InvalidChainId);
      }
      providers := providers[p := Provider(kind, owner, chainId, Registered)];
      r := Ok(());
    }

    method DepositProvider(owner: AccountId, p: ProviderId, deposit: nat) returns (r: Result<(), Error>)
      modifies this`providers, staking, staking.currency
      ensures Committed(old(State()), DapiSpec.DepositProvider(staking.cfg, old(State()), owner, p, deposit), r)
    {
      if p !in providers {
        return Err(ProviderDNE);
      }
      var provider := providers[p];
      if provider.owner != owner {
        return Err(NotOwner);
      }
      if provider.status != Registered {
        return Err(InvalidProviderStatus);
      }
      var registered := staking.RegisterProvider(owner, p, deposit);
      if registered.Err? {
        return Err(StakingFailed(registered.error));
      }
      providers := providers[p := provider.(status := Active)];
      r := Ok(());
    }

    method Deactivate(p: ProviderId, reason: ProviderDeactivateReason) returns (r: Result<(), Error>)
      modifies this`providers, staking
      ensures Committed(old(State()), DapiSpec.Deactivate(old(State()), p, reason), r)
    {
      if p !in providers {
        return Err(ProviderDNE);
      }
      var provider := providers[p];
      if provider.status != Active {
        return Err(InvalidProviderStatus);
      }
      var unregistered := staking.UnregisterProvider(p);
      if unregistered.Err? {
        return Err(StakingFailed(unregistered.error));
      }
      providers := providers[p := provider.(status := InActive(reason))];
      r := Ok(());
    }

    method UnregisterProvider(account: AccountId, p: ProviderId) returns (r: Result<(), Error>)
      modifies this`providers, staking
      ensures Committed(old(State()), DapiSpec.UnregisterProvider(old(State()), account, p), r)
    {
      if p !in providers {
        return Err(ProviderDNE);
      }
      if providers[p].owner != account {
        return Err(NotOwner);
      }
      r := Deactivate(p, UnRegistered);
    }

    method ReportProviderOffence(regulator: AccountId, p: ProviderId, reason: ProviderDeactivateReason)
      returns (r: Result<(), Error>)
      modifies this`providers, staking
      ensures Committed(old(State()), DapiSpec.ReportProviderOffence(old(State()), regulators, regulator, p, reason), r)
    {
      if regulator !in regulators {
        return Err(PermissionDenied);
      }
      r := Deactivate(p, reason);
    }
  }
}
