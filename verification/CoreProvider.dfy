/** The core provider: listing and deletion across the registered providers. */
module CoreProvider {
  import opened Types
  import opened FileNames
  import opened OnDiskManager
  import opened KeyInfoManager
  import Names

  /** An application owns a mapping in a provider. */
  ghost predicate OwnsKey(client: KeyInfoManagerClient, app: Name)
    reads client.manager
  {
    exists t :: t in client.manager.keyStore && t.provider == client.providerId && t.app == app
  }

  /** How a provider reads ids; the TPM provider removes a mapping without reading its id. */
  datatype Reader = Reader(decode: (ProviderId, seq<Byte>) -> Option<nat>)
  {
    predicate CanRead(provider: ProviderId, info: Option<KeyInfo>) {
      provider.Tpm? || (info.Some? && decode(provider, info.value.id).Some?)
    }
  }

  /** The key store calls of a destroy of the triple succeed. */
  predicate Removable(s: Store, t: KeyTriple, reader: Reader, failing: set<KeyTriple>) {
    reader.CanRead(t.provider, Lookup(s, t)) && CanDelete(s.disk, t, t in failing)
  }

  /** One store has lost mappings of some triples, with their files, and nothing else. */
  ghost predicate Shrunk(before: Store, after: Store, gone: set<KeyTriple>) {
    && after.mem == before.mem - gone
    && after.disk.dirs == before.disk.dirs
    && after.disk.files.Keys <= before.disk.files.Keys
    && (forall t: KeyTriple | t !in gone :: FileAt(after.disk, PathOf(t)) == FileAt(before.disk, PathOf(t)))
  }

  lemma RemovalShrinks(s: Store, t: KeyTriple, fails: bool)
    requires Remove(s, t, fails).1.Ok?
    ensures Shrunk(s, Remove(s, t, fails).0, {t})
  {
    var s' := Remove(s, t, fails).0;
    forall u: KeyTriple | u != t ensures FileAt(s'.disk, PathOf(u)) == FileAt(s.disk, PathOf(u)) {
      if PathOf(u) == PathOf(t) {
        PathOfInjective(u, t);
      }
    }
  }

  lemma ShrunkTwice(a: Store, b: Store, c: Store, gone: set<KeyTriple>, more: set<KeyTriple>)
    requires Shrunk(a, b, gone) && Shrunk(b, c, more)
    ensures Shrunk(a, c, gone + more)
  {
    assert c.mem == a.mem - (gone + more);
  }

  lemma StillRemovable(a: Store, b: Store, gone: set<KeyTriple>, t: KeyTriple, reader: Reader, failing: set<KeyTriple>)
    requires Shrunk(a, b, gone) && t !in gone
    ensures Removable(b, t, reader, failing) <==> Removable(a, t, reader, failing)
  {
    assert PathOf(t) in b.disk.files <==> PathOf(t) in a.disk.files by {
      assert FileAt(b.disk, PathOf(t)) == FileAt(a.disk, PathOf(t));
    }
  }

  /** `psa_destroy_key` of any provider: read the id, remove the mapping, and only then ask the backend. */
  method DestroyKey(client: KeyInfoManagerClient, t: KeyTriple, reader: Reader, failing: set<KeyTriple>,
                    backendFails: bool)
    returns (r: Result<(), ResponseStatus>)
    requires t.provider == client.providerId
    modifies client.manager
    ensures Shrunk(old(client.manager.State()), client.manager.State(),
                   if Removable(old(client.manager.State()), t, reader, failing) then {t} else {})
    ensures r.Ok? <==> Removable(old(client.manager.State()), t, reader, failing)
                       && t in old(client.manager.keyStore) && !backendFails
  {
    if !client.providerId.Tpm? {
      var id := client.KeyIdOf(t, id => reader.decode(client.providerId, id));
      if id.Err? { return Err(id.error); }
    }
    if Remove(client.manager.State(), t, t in failing).1.Ok? {
      RemovalShrinks(client.manager.State(), t, t in failing);
    }
    var removed := client.Remove(t, t in failing);
    if removed.Err? { return removed; }
    return if backendFails then Err(PsaErrorGenericError) else Ok(());
  }

  /** Which calls of the providers fail during a deletion. */
  datatype Faults = Faults(listing: set<ProviderId>, removing: set<KeyTriple>, backend: set<KeyTriple>)

  /** The mapping of an application in a provider that a deletion takes away. */
  predicate Doomed(s: Store, provider: ProviderId, app: Name, t: KeyTriple, reader: Reader, faults: Faults) {
    && t in s.mem && t.app == app && t.provider == provider
    && provider !in faults.listing && Removable(s, t, reader, faults.removing)
  }

  function AllDoomed(s: Store, provider: ProviderId, app: Name, reader: Reader, faults: Faults): (r: set<KeyTriple>) {
    set t | t in s.mem && Doomed(s, provider, app, t, reader, faults)
  }

  /** Those among listed keys. */
  function DoomedAmong(s: Store, provider: ProviderId, app: Name, keys: seq<ListedKey>, reader: Reader, faults: Faults)
    : (r: set<KeyTriple>)
  {
    set k | k in keys && Doomed(s, provider, app, KeyTriple(app, provider, k.name), reader, faults) ::
      KeyTriple(app, provider, k.name)
  }

  lemma DoomedGrows(s: Store, provider: ProviderId, app: Name, keys: seq<ListedKey>, n: nat, reader: Reader,
                    faults: Faults)
    requires n < |keys|
    ensures var t := KeyTriple(app, provider, keys[n].name);
            DoomedAmong(s, provider, app, keys[..n + 1], reader, faults) ==
            DoomedAmong(s, provider, app, keys[..n], reader, faults)
            + (if Doomed(s, provider, app, t, reader, faults) then {t} else {})
  {
    assert keys[..n + 1] == keys[..n] + [keys[n]];
  }

  lemma ListedAreAll(s: Store, provider: ProviderId, app: Name, keys: seq<ListedKey>, reader: Reader, faults: Faults)
    requires provider !in faults.listing ==> forall k :: k in keys <==> k in Listing(s.mem, app, provider)
    ensures DoomedAmong(s, provider, app, keys, reader, faults) == AllDoomed(s, provider, app, reader, faults)
  {
    forall t | t in AllDoomed(s, provider, app, reader, faults)
      ensures t in DoomedAmong(s, provider, app, keys, reader, faults)
    {
      assert ListedKey(provider, t.key, s.mem[t].attributes) in keys;
    }
  }

  /** Every listed key has its mapping, and no two keys have one name. */
  ghost predicate Lists(s: Store, provider: ProviderId, app: Name, keys: seq<ListedKey>) {
    && (forall i, j | 0 <= i < j < |keys| :: keys[i].name != keys[j].name)
    && (forall i | 0 <= i < |keys| :: KeyTriple(app, provider, keys[i].name) in s.mem)
  }

  /** Destroying the next listed key takes away its mapping exactly when it is doomed. */
  lemma NextIsDoomed(s: Store, mid: Store, after: Store, provider: ProviderId, app: Name, keys: seq<ListedKey>,
                     n: nat, reader: Reader, faults: Faults)
    requires n < |keys| && Lists(s, provider, app, keys) && provider !in faults.listing
    requires Shrunk(s, mid, DoomedAmong(s, provider, app, keys[..n], reader, faults))
    requires var t := KeyTriple(app, provider, keys[n].name);
             Shrunk(mid, after, if Removable(mid, t, reader, faults.removing) then {t} else {})
    ensures Shrunk(s, after, DoomedAmong(s, provider, app, keys[..n + 1], reader, faults))
  {
    var t, gone := KeyTriple(app, provider, keys[n].name), DoomedAmong(s, provider, app, keys[..n], reader, faults);
    assert t !in gone by {
      assert forall k | k in keys[..n] :: k.name != keys[n].name;
    }
    StillRemovable(s, mid, gone, t, reader, faults.removing);
    DoomedGrows(s, provider, app, keys, n, reader, faults);
    ShrunkTwice(s, mid, after, gone, if Removable(mid, t, reader, faults.removing) then {t} else {});
  }

  /** The deletion in one provider: list the keys, then destroy each, whatever fails. */
  method DeleteFrom(client: KeyInfoManagerClient, app: Name, reader: Reader, faults: Faults)
    modifies client.manager
    ensures var s := old(client.manager.State());
            Shrunk(s, client.manager.State(), AllDoomed(s, client.providerId, app, reader, faults))
  {
    ghost var s := client.manager.State();
    var keys := [];
    if client.providerId !in faults.listing {
      keys := client.ListKeysOf(app);
    }
    ListedAreAll(s, client.providerId, app, keys, reader, faults);
    assert Lists(s, client.providerId, app, keys);
    assert keys[..0] == [] && keys[..|keys|] == keys;
    for n := 0 to |keys|
      invariant Shrunk(s, client.manager.State(), DoomedAmong(s, client.providerId, app, keys[..n], reader, faults))
    {
      var t := KeyTriple(app, client.providerId, keys[n].name);
      ghost var mid := client.manager.State();
      var _ := DestroyKey(client, t, reader, faults.removing, t in faults.backend);
      NextIsDoomed(s, mid, client.manager.State(), client.providerId, app, keys, n, reader, faults);
    }
  }

  // ----- Across providers, which may share a key info manager -----

  /** What the deletion takes from a manager through its first providers. */
  function TakenBy(provList: seq<KeyInfoManagerClient>, n: nat, manager: OnDiskKeyInfoManager, s: Store, app: Name,
                   reader: Reader, faults: Faults)
    : (r: set<KeyTriple>)
    requires n <= |provList|
  {
    set t | t in s.mem && exists i | 0 <= i < n ::
      provList[i].manager == manager && Doomed(s, provList[i].providerId, app, t, reader, faults)
  }

  lemma TakenGrows(provList: seq<KeyInfoManagerClient>, n: nat, manager: OnDiskKeyInfoManager, s: Store, app: Name,
                   reader: Reader, faults: Faults)
    requires n < |provList|
    ensures TakenBy(provList, n + 1, manager, s, app, reader, faults) ==
            TakenBy(provList, n, manager, s, app, reader, faults)
            + if provList[n].manager == manager then AllDoomed(s, provList[n].providerId, app, reader, faults) else {}
  {
  }

  /** What earlier providers have taken makes no difference to the next one. */
  lemma SameDoom(a: Store, b: Store, gone: set<KeyTriple>, provider: ProviderId, app: Name, reader: Reader,
                 faults: Faults)
    requires Shrunk(a, b, gone) && forall t | t in gone :: t.provider != provider
    ensures AllDoomed(b, provider, app, reader, faults) == AllDoomed(a, provider, app, reader, faults)
  {
    forall t: KeyTriple | t.provider == provider
      ensures Doomed(b, provider, app, t, reader, faults) <==> Doomed(a, provider, app, t, reader, faults)
    {
      StillRemovable(a, b, gone, t, reader, faults.removing);
    }
  }

  lemma TakeMore(provList: seq<KeyInfoManagerClient>, n: nat, manager: OnDiskKeyInfoManager, before: Store,
                 mid: Store, after: Store, app: Name, reader: Reader, faults: Faults)
    requires n < |provList| && forall i | 0 <= i < n :: provList[i].providerId != provList[n].providerId
    requires Shrunk(before, mid, TakenBy(provList, n, manager, before, app, reader, faults))
    requires if provList[n].manager == manager
             then Shrunk(mid, after, AllDoomed(mid, provList[n].providerId, app, reader, faults))
             else after == mid
    ensures Shrunk(before, after, TakenBy(provList, n + 1, manager, before, app, reader, faults))
  {
    var taken := TakenBy(provList, n, manager, before, app, reader, faults);
    TakenGrows(provList, n, manager, before, app, reader, faults);
    if provList[n].manager == manager {
      SameDoom(before, mid, taken, provList[n].providerId, app, reader, faults);
      ShrunkTwice(before, mid, after, taken, AllDoomed(mid, provList[n].providerId, app, reader, faults));
    } else {
      assert taken + {} == taken;
    }
  }

  /** A mapping of the application in a registered provider of the manager. */
  predicate IsClientKey(provList: seq<KeyInfoManagerClient>, manager: OnDiskKeyInfoManager,
                        m: map<KeyTriple, KeyInfo>, app: Name, t: KeyTriple) {
    t in m && t.app == app && exists i | 0 <= i < |provList| ::
      provList[i].manager == manager && provList[i].providerId == t.provider
  }

  /**
   After the deletion no registered provider holds a mapping of the client if and only if every listing and
   every key store call for one of its mappings succeeded; what the backends answered makes no difference,
   and the mappings of every other client are as before.
   */
  lemma DeletionIsComplete(provList: seq<KeyInfoManagerClient>, manager: OnDiskKeyInfoManager, before: Store,
                           after: Store, app: Name, reader: Reader, faults: Faults)
    requires Shrunk(before, after, TakenBy(provList, |provList|, manager, before, app, reader, faults))
    ensures (forall t :: !IsClientKey(provList, manager, after.mem, app, t)) <==>
            (forall t | IsClientKey(provList, manager, before.mem, app, t) ::
               t.provider !in faults.listing && Removable(before, t, reader, faults.removing))
    ensures forall t | t in before.mem && t.app != app :: t in after.mem && after.mem[t] == before.mem[t]
    ensures forall t | t in after.mem :: t in before.mem && after.mem[t] == before.mem[t]
  {
    var taken := TakenBy(provList, |provList|, manager, before, app, reader, faults);
    forall t | IsClientKey(provList, manager, before.mem, app, t)
      ensures t in taken <==> t.provider !in faults.listing && Removable(before, t, reader, faults.removing)
    {
    }
    forall t ensures IsClientKey(provList, manager, after.mem, app, t) <==>
      IsClientKey(provList, manager, before.mem, app, t) && t !in taken {
    }
  }

  class CoreProvider {
    const provList: seq<KeyInfoManagerClient>

    /** One provider of each kind. */
    ghost predicate Valid() {
      forall i, j | 0 <= i < j < |provList| :: provList[i].providerId != provList[j].providerId
    }

    constructor (provList: seq<KeyInfoManagerClient>)
      ensures this.provList == provList
    {
      this.provList := provList;
    }

    ghost function Managers(): (r: set<OnDiskKeyInfoManager>) {
      set i | 0 <= i < |provList| :: provList[i].manager
    }

    /** The keys of an application, each mapping once; a provider that fails contributes nothing. */
    method ListKeys(app: Name, failing: set<ProviderId>) returns (keys: seq<ListedKey>)
      requires Valid()
      ensures forall k :: k in keys <==>
                exists i | 0 <= i < |provList| ::
                  provList[i].providerId !in failing
                    && k in Listing(provList[i].manager.keyStore, app, provList[i].providerId)
      ensures forall i, j | 0 <= i < j < |keys| :: (keys[i].provider, keys[i].name) != (keys[j].provider, keys[j].name)
    {
      keys := [];
      for n := 0 to |provList|
        invariant forall k :: k in keys <==>
          exists i | 0 <= i < n ::
            provList[i].providerId !in failing
              && k in Listing(provList[i].manager.keyStore, app, provList[i].providerId)
        invariant forall i, j | 0 <= i < j < |keys| ::
            (keys[i].provider, keys[i].name) != (keys[j].provider, keys[j].name)
      {
        if provList[n].providerId in failing { continue; }
        var result := provList[n].ListKeysOf(app);
        assert forall k | k in keys :: k.provider != provList[n].providerId;
        assert forall k | k in result :: k.provider == provList[n].providerId;
        keys := keys + result;
      }
    }

    /** The applications that own a key somewhere, in strict order; a provider that fails contributes nothing. */
    method ListClients(failing: set<ProviderId>) returns (clients: seq<Name>)
      ensures Names.IsStrictlySorted(clients)
      ensures forall app :: app in clients <==>
          exists i | 0 <= i < |provList| :: provList[i].providerId !in failing && OwnsKey(provList[i], app)
    {
      clients := [];
      for n := 0 to |provList|
        invariant forall app :: app in clients <==>
            exists i | 0 <= i < n :: provList[i].providerId !in failing && OwnsKey(provList[i], app)
      {
        if provList[n].providerId in failing { continue; }
        var result := provList[n].ListClients();
        assert forall app :: app in result <==> OwnsKey(provList[n], app);
        clients := clients + result;
      }
      Names.SortedIsSorted(clients);
      Names.DedupedIsStrictlySorted(Names.Sorted(clients));
      Names.SameElements(clients, Names.Sorted(clients));
      clients := Names.Deduped(Names.Sorted(clients));
    }

    /** What is left in the managers once the first providers are done with. */
    ghost predicate DoneFor(before: map<OnDiskKeyInfoManager, Store>, n: nat, app: Name, reader: Reader, faults: Faults)
      reads Managers()
      requires n <= |provList|
    {
      && before.Keys == Managers()
      && forall m | m in Managers() ::
           Shrunk(before[m], m.State(), TakenBy(provList, n, m, before[m], app, reader, faults))
    }

    method DeleteNext(n: nat, app: Name, reader: Reader, faults: Faults, ghost before: map<OnDiskKeyInfoManager, Store>)
      requires Valid() && n < |provList| && DoneFor(before, n, app, reader, faults)
      modifies provList[n].manager
      ensures DoneFor(before, n + 1, app, reader, faults)
    {
      ghost var mid := map m | m in Managers() :: m.State();
      DeleteFrom(provList[n], app, reader, faults);
      forall m | m in Managers()
        ensures Shrunk(before[m], m.State(), TakenBy(provList, n + 1, m, before[m], app, reader, faults))
      {
        TakeMore(provList, n, m, before[m], mid[m], m.State(), app, reader, faults);
      }
    }

    /** Deletes all keys of a client; every store loses exactly the mappings whose key store calls succeed. */
    method DeleteClient(app: Name, reader: Reader, faults: Faults)
      requires Valid()
      modifies Managers()
      ensures forall m | m in Managers() ::
                Shrunk(old(m.State()), m.State(), TakenBy(provList, |provList|, m, old(m.State()), app, reader, faults))
    {
      ghost var before := map m | m in Managers() :: m.State();
      for n := 0 to |provList|
        invariant DoneFor(before, n, app, reader, faults)
      {
        DeleteNext(n, app, reader, faults, before);
      }
    }
  }
}
