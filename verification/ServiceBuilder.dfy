/** Assembling the service: at most one provider of each kind, and a handler for each and for the core. */
module ServiceBuilder {
  import opened Types
  import opened Requests

  /** The ids that a configuration can name: the core provider is not configured. */
  type ConfiguredId = id: ProviderId | id != Core witness MbedCrypto

  /** A configured provider and what its builder gives: the provider, nothing when it is skipped, or an error. */
  datatype ProviderConfig<P> = ProviderConfig(id: ConfiguredId, manager: string, created: Result<Option<P>, ()>)

  /** The providers that the configurations give, in order. */
  function Created<P>(configs: seq<ProviderConfig<P>>): (r: seq<(ConfiguredId, P)>) {
    if configs == [] then []
    else
      var c := configs[|configs| - 1];
      Created(configs[..|configs| - 1])
      + (if c.created.Ok? && c.created.value.Some? then [(c.id, c.created.value.value)] else [])
  }

  /** The configuration is usable after those before it. */
  predicate Usable<P>(configs: seq<ProviderConfig<P>>, n: nat, managers: set<string>)
    requires n < |configs|
  {
    && configs[n].created.Ok? && configs[n].manager in managers
    && forall m | 0 <= m < n && configs[m].id == configs[n].id :: configs[m].created == Ok(None)
  }

  lemma {:induction false} CreatedFrom<P>(configs: seq<ProviderConfig<P>>, id: ConfiguredId)
    ensures (exists p | p in Created(configs) :: p.0 == id) <==>
            (exists m | 0 <= m < |configs| ::
               configs[m].id == id && configs[m].created.Ok? && configs[m].created.value.Some?)
  {
    if configs == [] {
    } else {
      var n := |configs| - 1;
      CreatedFrom(configs[..n], id);
      var c := configs[n];
      if c.id == id && c.created.Ok? && c.created.value.Some? {
        assert (c.id, c.created.value.value) in Created(configs);
      }
      assert forall p | p in Created(configs[..n]) :: p in Created(configs);
      assert forall m | 0 <= m < n :: configs[..n][m] == configs[m];
    }
  }

  /** A configuration is refused exactly when its id is taken, its manager is unknown or its builder fails. */
  lemma UsableIff<P>(configs: seq<ProviderConfig<P>>, n: nat, managers: set<string>)
    requires n < |configs| && forall m | 0 <= m < n :: Usable(configs, m, managers)
    ensures Usable(configs, n, managers) <==>
            && configs[n].created.Ok? && configs[n].manager in managers
            && !(exists p | p in Created(configs[..n]) :: p.0 == configs[n].id)
  {
    CreatedFrom(configs[..n], configs[n].id);
    assert forall m | 0 <= m < n :: configs[..n][m] == configs[m] && Usable(configs, m, managers);
  }

  predicate DistinctIds<P>(list: seq<(ConfiguredId, P)>) { forall i, j | 0 <= i < j < |list| :: list[i].0 != list[j].0 }

  method BuildProviders<P(==)>(configs: seq<ProviderConfig<P>>, managers: set<string>)
    returns (r: Result<seq<(ConfiguredId, P)>, ()>)
    ensures r.Ok? <==> forall n | 0 <= n < |configs| :: Usable(configs, n, managers)
    ensures r.Ok? ==> r.value == Created(configs) && DistinctIds(r.value)
  {
    var list := [];
    assert configs[..0] == [];
    for n := 0 to |configs|
      invariant list == Created(configs[..n]) && DistinctIds(list)
      invariant forall m | 0 <= m < n :: Usable(configs, m, managers)
    {
      var c := configs[n];
      assert configs[..n + 1][..n] == configs[..n];
      UsableIff(configs, n, managers);
      if exists p | p in list :: p.0 == c.id { return Err(()); }
      if c.manager !in managers || c.created.Err? { return Err(()); }
      if c.created.value.None? { continue; }
      list := list + [(c.id, c.created.value.value)];
    }
    assert configs[..|configs|] == configs;
    return Ok(list);
  }

  function ManagerNames(configs: seq<(string, bool)>): (r: set<string>) { set c | c in configs :: c.0 }

  /** The key info managers by name, unless one of them cannot be made. */
  method BuildManagers(configs: seq<(string, bool)>) returns (r: Result<set<string>, ()>)
    ensures r.Ok? <==> forall c | c in configs :: c.1
    ensures r.Ok? ==> forall name :: name in r.value <==> exists c | c in configs :: c.0 == name
  {
    var names := {};
    for n := 0 to |configs|
      invariant forall c | c in configs[..n] :: c.1
      invariant forall name :: name in names <==> exists c | c in configs[..n] :: c.0 == name
    {
      assert configs[..n + 1] == configs[..n] + [configs[n]];
      if !configs[n].1 { return Err(()); }
      names := names + {configs[n].0};
    }
    assert configs[..|configs|] == configs;
    return Ok(names);
  }

  /** The build of the core provider fails exactly when a provider cannot describe itself. */
  method BuildCore<P>(providers: seq<(ConfiguredId, P)>, describable: set<ProviderId>) returns (ok: bool)
    ensures ok <==> forall p | p in providers :: p.0 in describable
  {
    for n := 0 to |providers|
      invariant forall p | p in providers[..n] :: p.0 in describable
    {
      assert providers[..n + 1] == providers[..n] + [providers[n]];
      if providers[n].0 !in describable { return false; }
    }
    assert providers[..|providers|] == providers;
    return true;
  }

  /** A handler for each provider under its own id, and one for the core provider. */
  method BuildBackendHandlers<P>(providers: seq<(ConfiguredId, P)>, authenticators: seq<bool>,
                                 describable: set<ProviderId>, core: P)
    returns (r: Result<map<ProviderId, BackEndHandler<P>>, ()>)
    requires DistinctIds(providers)
    ensures r.Ok? <==> (forall a | a in authenticators :: a) && forall p | p in providers :: p.0 in describable
    ensures r.Ok? ==> Built(r.value) && r.value.Keys == {Core} + (set p | p in providers :: p.0)
    ensures r.Ok? ==> r.value[Core].provider == core && forall p | p in providers :: r.value[p.0].provider == p.1
    ensures r.Ok? ==> forall id | id in r.value ::
                        r.value[id].contentType == Protobuf && r.value[id].acceptType == Protobuf
  {
    for n := 0 to |authenticators|
      invariant forall a | a in authenticators[..n] :: a
    {
      assert authenticators[..n + 1] == authenticators[..n] + [authenticators[n]];
      if !authenticators[n] {
        assert authenticators[n] in authenticators;
        return Err(());
      }
    }
    assert authenticators[..|authenticators|] == authenticators;
    var handlers := map[];
    for n := 0 to |providers|
      invariant handlers.Keys == set p | p in providers[..n] :: p.0
      invariant forall p | p in providers[..n] :: handlers[p.0] == BackEndHandler(p.1, p.0, Protobuf, Protobuf)
    {
      var (id, provider) := providers[n];
      assert providers[..n + 1] == providers[..n] + [providers[n]];
      assert forall p | p in providers[..n] :: p.0 != id;
      handlers := handlers[id := BackEndHandler(provider, id, Protobuf, Protobuf)];
    }
    assert providers[..|providers|] == providers;
    var ok := BuildCore(providers, describable);
    if !ok { return Err(()); }
    return Ok(handlers[Core := BackEndHandler(core, Core, Protobuf, Protobuf)]);
  }

  /**
   `build_service`: an authenticator that cannot be made is an error, and one that is made tells whether it
   can describe itself; so do the providers.
   */
  method BuildService<P(==)>(managers: seq<(string, bool)>, configs: seq<ProviderConfig<P>>,
                             authenticators: Result<seq<bool>, ()>, describable: set<ProviderId>, core: P)
    returns (r: Result<map<ProviderId, BackEndHandler<P>>, ()>)
    ensures r.Ok? <==>
            && (forall c | c in managers :: c.1)
            && (forall n | 0 <= n < |configs| :: Usable(configs, n, ManagerNames(managers)))
            && Created(configs) != []
            && authenticators.Ok? && (forall a | a in authenticators.value :: a)
            && (forall p | p in Created(configs) :: p.0 in describable)
    ensures r.Ok? ==> DistinctIds(Created(configs)) && Built(r.value) && r.value[Core].provider == core
    ensures r.Ok? ==> r.value.Keys == {Core} + (set p | p in Created(configs) :: p.0)
    ensures r.Ok? ==> forall p | p in Created(configs) :: r.value[p.0].provider == p.1
  {
    var names := BuildManagers(managers);
    if names.Err? { return Err(()); }
    assert names.value == ManagerNames(managers);
    var providers := BuildProviders(configs, names.value);
    if providers.Err? { return Err(()); }
    if providers.value == [] { return Err(()); }
    if authenticators.Err? { return Err(()); }
    r := BuildBackendHandlers(providers.value, authenticators.value, describable, core);
  }
}
