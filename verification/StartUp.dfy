/**
 Start-up reconciliation: what `Provider::new` of the Mbed Crypto, Trusted Service and PKCS 11 providers
 keeps of the reloaded key store, and how it sets up the source of new ids.
 */
module StartUp {
  import opened Types
  import opened FileNames
  import opened OnDiskManager
  import opened KeyInfoManager
  import IdAllocator
  import Lifecycle

  /** What the backend says about an id. */
  datatype Probe = Present | Absent | Failing

  /** How a provider reads an id out of a mapping, and the answers of its backend. */
  datatype Backend = Backend(decode: seq<Byte> -> Option<nat>, probe: nat -> Probe)
  {
    /** The mapping has a readable id and the backend has its key. */
    predicate Backs(info: KeyInfo) { decode(info.id).Some? && probe(decode(info.id).value).Present? }

    /** The ids of the backed mappings of a provider. */
    function Ids(m: map<KeyTriple, KeyInfo>, provider: ProviderId): (r: map<KeyTriple, nat>) {
      map t | t in m && t.provider == provider && Backs(m[t]) :: decode(m[t].id).value
    }

    /** The store without the mappings of a provider that nothing backs. */
    function Reconciled(m: map<KeyTriple, KeyInfo>, provider: ProviderId): (r: map<KeyTriple, KeyInfo>) {
      map t | t in m && (t.provider != provider || Backs(m[t])) :: m[t]
    }

    /** The backend fails to answer for the mapping. */
    predicate Fails(info: KeyInfo) { decode(info.id).Some? && probe(decode(info.id).value).Failing? }
  }

  /** One disk has lost files of some triples and nothing else. */
  ghost predicate Lost(before: FileTree, after: FileTree, triples: iset<KeyTriple>) {
    && after.dirs == before.dirs
    && (forall p | p in after.files :: p in before.files && after.files[p] == before.files[p])
    && (forall p | p in before.files && p !in after.files :: exists t | t in triples :: p == PathOf(t))
  }

  /** The mappings that start-up sets out to remove. */
  ghost predicate Unbacked(backend: Backend, m: map<KeyTriple, KeyInfo>, provider: ProviderId, t: KeyTriple) {
    t in m && t.provider == provider && !backend.Backs(m[t])
  }

  /** Start-up stops when the backend does not answer, or when an unbacked mapping cannot be removed. */
  ghost predicate StopsIff(backend: Backend, s: Store, provider: ProviderId, failing: set<KeyTriple>, stopped: bool) {
    stopped <==>
    || (exists t :: t in s.mem && t.provider == provider && backend.Fails(s.mem[t]))
    || (exists t :: Unbacked(backend, s.mem, provider, t) && !CanDelete(s.disk, t, t in failing))
  }

  /** No file but those of unbacked mappings is touched, and a completed start-up leaves none of those. */
  ghost predicate Cleaned(backend: Backend, s: Store, disk: FileTree, provider: ProviderId, done: bool) {
    && Lost(s.disk, disk, iset t | Unbacked(backend, s.mem, provider, t))
    && (done ==> forall t | Unbacked(backend, s.mem, provider, t) :: PathOf(t) !in disk.files)
  }

  ghost function Among(triples: seq<KeyTriple>): (r: iset<KeyTriple>) { iset t | t in triples }

  lemma StillThere(before: FileTree, after: FileTree, triples: seq<KeyTriple>, t: KeyTriple)
    requires Lost(before, after, Among(triples)) && t !in triples
    ensures Exists(after, PathOf(t)) <==> Exists(before, PathOf(t))
  {
    if PathOf(t) in before.files && PathOf(t) !in after.files {
      var u :| u in triples && PathOf(t) == PathOf(u);
      PathOfInjective(t, u);
    }
  }

  lemma DeleteLoses(before: FileTree, mid: FileTree, triples: seq<KeyTriple>, t: KeyTriple, fails: bool)
    requires Lost(before, mid, Among(triples))
    ensures Lost(before, Delete(mid, PathOf(t), fails).0, Among(triples + [t]))
  {
    assert forall u | u in Among(triples) :: u in Among(triples + [t]);
    assert t in Among(triples + [t]);
  }

  /** The first n triples have been removed, and nothing else. */
  ghost predicate Progress(before: Store, s: Store, triples: seq<KeyTriple>, n: nat, failing: set<KeyTriple>)
    requires n <= |triples|
  {
    && s.mem == before.mem - Set(triples[..n])
    && (forall t | t in triples[..n] :: PathOf(t) !in s.disk.files && CanDelete(before.disk, t, t in failing))
    && Lost(before.disk, s.disk, Among(triples[..n]))
  }

  lemma RemovalSucceedsIff(before: Store, s: Store, triples: seq<KeyTriple>, n: nat, failing: set<KeyTriple>)
    requires n < |triples| && triples[n] !in triples[..n] && Progress(before, s, triples, n, failing)
    ensures var t := triples[n];
            CanDelete(s.disk, t, t in failing) <==> CanDelete(before.disk, t, t in failing)
  {
    StillThere(before.disk, s.disk, triples[..n], triples[n]);
  }

  lemma RemovalProgresses(before: Store, s: Store, triples: seq<KeyTriple>, n: nat, failing: set<KeyTriple>)
    requires n < |triples| && triples[n] !in triples[..n] && Progress(before, s, triples, n, failing)
    requires CanDelete(s.disk, triples[n], triples[n] in failing)
    ensures Progress(before, Remove(s, triples[n], triples[n] in failing).0, triples, n + 1, failing)
  {
    var t, s' := triples[n], Remove(s, triples[n], triples[n] in failing).0;
    RemovalSucceedsIff(before, s, triples, n, failing);
    DeleteLoses(before.disk, s.disk, triples[..n], t, t in failing);
    assert triples[..n + 1] == triples[..n] + [t];
    assert Set(triples[..n + 1]) == Set(triples[..n]) + {t};
    forall u | u in triples[..n + 1]
      ensures PathOf(u) !in s'.disk.files && CanDelete(before.disk, u, u in failing)
    {
      if u != t {
        assert u in triples[..n];
      }
    }
  }

  lemma LostSome(before: FileTree, after: FileTree, triples: seq<KeyTriple>, n: nat)
    requires n <= |triples| && Lost(before, after, Among(triples[..n]))
    ensures Lost(before, after, Among(triples))
  {
    assert forall t | t in Among(triples[..n]) :: t in Among(triples);
  }

  /** The removal loop: every triple in turn, until a call fails. */
  method RemoveAll(client: KeyInfoManagerClient, triples: seq<KeyTriple>, failing: set<KeyTriple>) returns (ok: bool)
    requires forall t | t in triples :: t in client.manager.keyStore
    requires forall i, j | 0 <= i < j < |triples| :: triples[i] != triples[j]
    modifies client.manager
    ensures ok ==> client.manager.keyStore == old(client.manager.keyStore) - Set(triples)
    ensures ok ==> forall t | t in triples :: PathOf(t) !in client.manager.disk.files
    ensures ok <==> forall t | t in triples :: CanDelete(old(client.manager.disk), t, t in failing)
    ensures exists n | 0 <= n <= |triples| ::
              client.manager.keyStore == old(client.manager.keyStore) - Set(triples[..n])
    ensures Lost(old(client.manager.disk), client.manager.disk, Among(triples))
  {
    ghost var before := client.manager.State();
    assert Set(triples[..0]) == {};
    for n := 0 to |triples|
      invariant Progress(before, client.manager.State(), triples, n, failing)
    {
      var t := triples[n];
      assert t !in triples[..n] && t in client.manager.keyStore;
      RemovalSucceedsIff(before, client.manager.State(), triples, n, failing);
      if CanDelete(client.manager.disk, t, t in failing) {
        RemovalProgresses(before, client.manager.State(), triples, n, failing);
      }
      var r := client.Remove(t, t in failing);
      if r.Err? {
        LostSome(before.disk, client.manager.disk, triples, n);
        return false;
      }
    }
    assert triples[..|triples|] == triples;
    return true;
  }

  function Set(triples: seq<KeyTriple>): (r: set<KeyTriple>) { set t | t in triples }

  lemma MaximumGrows(ids: map<KeyTriple, nat>, id: nat, t: KeyTriple, id': nat)
    requires Lifecycle.IsTop(ids, id) && t !in ids
    ensures Lifecycle.IsTop(ids[t := id'], if id' > id then id' else id)
  {
    var ids' := ids[t := id'];
    if id' > id {
      assert ids'[t] == id';
    } else if id != IdAllocator.PSA_KEY_ID_USER_MIN {
      var u :| u in ids && ids[u] == id;
      assert ids'[u] == id;
    }
  }

  /** The ids of the backed mappings among some triples. */
  function IdsOf(backend: Backend, m: map<KeyTriple, KeyInfo>, triples: seq<KeyTriple>): (r: map<KeyTriple, nat>) {
    map t | t in triples && t in m && backend.Backs(m[t]) :: backend.decode(m[t].id).value
  }

  lemma IdsGrow(backend: Backend, m: map<KeyTriple, KeyInfo>, triples: seq<KeyTriple>, n: nat)
    requires n < |triples| && triples[n] in m
    ensures var t, ids := triples[n], IdsOf(backend, m, triples[..n]);
            IdsOf(backend, m, triples[..n + 1]) ==
              if backend.Backs(m[t]) then ids[t := backend.decode(m[t].id).value] else ids
  {
    assert triples[..n + 1] == triples[..n] + [triples[n]];
  }

  /** The triples of a provider, once each. */
  ghost predicate Lists(triples: seq<KeyTriple>, m: map<KeyTriple, KeyInfo>, provider: ProviderId) {
    && (forall i, j | 0 <= i < j < |triples| :: triples[i] != triples[j])
    && (forall t :: t in triples <==> t in m && t.provider == provider)
  }

  /** The first n triples have been sorted into those that stay and those to be removed. */
  ghost predicate Sorted(backend: Backend, m: map<KeyTriple, KeyInfo>, triples: seq<KeyTriple>,
                         toRemove: seq<KeyTriple>)
    requires forall t | t in triples :: t in m
  {
    && (forall i, j | 0 <= i < j < |toRemove| :: toRemove[i] != toRemove[j])
    && (forall t :: t in toRemove <==> t in triples && !backend.Backs(m[t]))
    && (forall t | t in triples :: !backend.Fails(m[t]))
  }

  lemma SortOneMore(backend: Backend, m: map<KeyTriple, KeyInfo>, provider: ProviderId, triples: seq<KeyTriple>,
                    n: nat, toRemove: seq<KeyTriple>)
    requires Lists(triples, m, provider) && n < |triples| && Sorted(backend, m, triples[..n], toRemove)
    requires !backend.Fails(m[triples[n]])
    ensures Sorted(backend, m, triples[..n + 1],
        if backend.Backs(m[triples[n]]) then toRemove else toRemove + [triples[n]])
  {
    assert triples[..n + 1] == triples[..n] + [triples[n]];
    assert triples[n] !in triples[..n];
  }

  /** Removing some or all of the mappings that nothing backs. */
  lemma RemovalReconciles(backend: Backend, m: map<KeyTriple, KeyInfo>, provider: ProviderId, triples: seq<KeyTriple>,
                          toRemove: seq<KeyTriple>)
    requires Lists(triples, m, provider) && Sorted(backend, m, triples, toRemove)
    ensures m - Set(toRemove) == backend.Reconciled(m, provider)
    ensures backend.Ids(m - Set(toRemove), provider) == IdsOf(backend, m, triples)
    ensures forall n | 0 <= n <= |toRemove| ::
        backend.Reconciled(m - Set(toRemove[..n]), provider) == backend.Reconciled(m, provider)
  {
  }

  lemma StopsEarly(backend: Backend, s: Store, provider: ProviderId, failing: set<KeyTriple>, t: KeyTriple)
    requires t in s.mem && t.provider == provider && backend.Fails(s.mem[t])
    ensures StopsIff(backend, s, provider, failing, true) && Cleaned(backend, s, s.disk, provider, false)
  {
  }

  /** How start-up ends, once the mappings have been sorted and the removal loop has run. */
  lemma RemovalConcludes(backend: Backend, s: Store, provider: ProviderId, triples: seq<KeyTriple>,
                         toRemove: seq<KeyTriple>,
                         failing: set<KeyTriple>, disk: FileTree, ok: bool)
    requires Lists(triples, s.mem, provider) && Sorted(backend, s.mem, triples, toRemove)
    requires ok <==> forall t | t in toRemove :: CanDelete(s.disk, t, t in failing)
    requires ok ==> forall t | t in toRemove :: PathOf(t) !in disk.files
    requires Lost(s.disk, disk, Among(toRemove))
    ensures StopsIff(backend, s, provider, failing, !ok) && Cleaned(backend, s, disk, provider, ok)
  {
    assert forall t :: t in toRemove <==> Unbacked(backend, s.mem, provider, t);
  }

  /** The loop over the mappings: the greatest id of those that stay, and those that are to be removed. */
  method SortPsaMappings(client: KeyInfoManagerClient, backend: Backend)
    returns (r: Option<(nat, seq<KeyTriple>)>, triples: seq<KeyTriple>)
    ensures Lists(triples, client.manager.keyStore, client.providerId)
    ensures r.Some? ==> Sorted(backend, client.manager.keyStore, triples, r.value.1)
    ensures r.Some? ==> Lifecycle.IsTop(IdsOf(backend, client.manager.keyStore, triples), r.value.0)
    ensures r.None? ==> exists t | t in triples :: backend.Fails(client.manager.keyStore[t])
  {
    ghost var m := client.manager.keyStore;
    var maxKeyId, toRemove := IdAllocator.PSA_KEY_ID_USER_MIN, [];
    triples := client.manager.GetAll(client.providerId);
    for n := 0 to |triples|
      invariant Sorted(backend, m, triples[..n], toRemove)
      invariant Lifecycle.IsTop(IdsOf(backend, m, triples[..n]), maxKeyId)
    {
      var t := triples[n];
      var id := client.KeyIdOf(t, backend.decode);
      IdsGrow(backend, m, triples, n);
      if id.Err? {
        SortOneMore(backend, m, client.providerId, triples, n, toRemove);
        toRemove := toRemove + [t];
        continue;
      }
      match backend.probe(id.value) {
        case Present =>
          SortOneMore(backend, m, client.providerId, triples, n, toRemove);
          MaximumGrows(IdsOf(backend, m, triples[..n]), maxKeyId, t, id.value);
          if id.value > maxKeyId { maxKeyId := id.value; }
        case Absent =>
          SortOneMore(backend, m, client.providerId, triples, n, toRemove);
          toRemove := toRemove + [t];
        case Failing =>
          return None, triples;
      }
    }
    assert triples[..|triples|] == triples;
    return Some((maxKeyId, toRemove)), triples;
  }

  /** `Provider::new` of Mbed Crypto, and of the Trusted Service with a backend that has every key. */
  method StartPsaProvider(client: KeyInfoManagerClient, backend: Backend, failing: set<KeyTriple>)
    returns (r: Option<nat>)
    modifies client.manager
    ensures r.Some? ==> client.manager.keyStore == backend.Reconciled(old(client.manager.keyStore), client.providerId)
    ensures r.Some? ==> Lifecycle.IsTop(backend.Ids(client.manager.keyStore, client.providerId), r.value)
    ensures backend.Reconciled(client.manager.keyStore, client.providerId) ==
            backend.Reconciled(old(client.manager.keyStore), client.providerId)
    ensures StopsIff(backend, old(client.manager.State()), client.providerId, failing, r.None?)
    ensures Cleaned(backend, old(client.manager.State()), client.manager.disk, client.providerId, r.Some?)
  {
    ghost var before := client.manager.State();
    var sorted, triples := SortPsaMappings(client, backend);
    if sorted.None? {
      ghost var t :| t in triples && backend.Fails(before.mem[t]);
      StopsEarly(backend, before, client.providerId, failing, t);
      return None;
    }
    var (maxKeyId, toRemove) := sorted.value;
    RemovalReconciles(backend, before.mem, client.providerId, triples, toRemove);
    var ok := RemoveAll(client, toRemove, failing);
    RemovalConcludes(backend, before, client.providerId, triples, toRemove, failing, client.manager.disk, ok);
    if !ok { return None; }
    return Some(maxKeyId);
  }

  function UsedIds(backend: Backend, m: map<KeyTriple, KeyInfo>, triples: seq<KeyTriple>): (r: set<nat>) {
    IdsOf(backend, m, triples).Values
  }

  lemma UsedIdsGrow(backend: Backend, m: map<KeyTriple, KeyInfo>, triples: seq<KeyTriple>, n: nat)
    requires n < |triples| && triples[n] in m && triples[n] !in triples[..n]
    ensures var t, ids := triples[n], UsedIds(backend, m, triples[..n]);
            UsedIds(backend, m, triples[..n + 1]) ==
            if backend.Backs(m[t]) then ids + {backend.decode(m[t].id).value} else ids
  {
    var t := triples[n];
    IdsGrow(backend, m, triples, n);
    if backend.Backs(m[t]) {
      ValuesGrow(IdsOf(backend, m, triples[..n]), t, backend.decode(m[t].id).value);
    }
  }

  lemma NothingCleaned(backend: Backend, s: Store, provider: ProviderId)
    ensures Cleaned(backend, s, s.disk, provider, false)
  {
  }

  /** The loop over the mappings: the ids of those that stay, and those that are to be removed. */
  method SortPkcs11Mappings(client: KeyInfoManagerClient, backend: Backend)
    returns (r: Option<(set<nat>, seq<KeyTriple>)>, triples: seq<KeyTriple>)
    ensures Lists(triples, client.manager.keyStore, client.providerId)
    ensures r.Some? ==> Sorted(backend, client.manager.keyStore, triples, r.value.1)
    ensures r.Some? ==> r.value.0 == UsedIds(backend, client.manager.keyStore, triples)
    ensures r.None? ==> exists t | t in triples :: backend.Fails(client.manager.keyStore[t])
  {
    ghost var m := client.manager.keyStore;
    var localIds, toRemove := {}, [];
    triples := client.manager.GetAll(client.providerId);
    assert UsedIds(backend, m, []) == {};
    for n := 0 to |triples|
      invariant Sorted(backend, m, triples[..n], toRemove)
      invariant localIds == UsedIds(backend, m, triples[..n])
    {
      var t := triples[n];
      var id := client.KeyIdOf(t, backend.decode);
      UsedIdsGrow(backend, m, triples, n);
      if id == Err(PsaErrorDoesNotExist) { continue; }
      if id.Err? {
        SortOneMore(backend, m, client.providerId, triples, n, toRemove);
        toRemove := toRemove + [t];
        continue;
      }
      match backend.probe(id.value) {
        case Present =>
          SortOneMore(backend, m, client.providerId, triples, n, toRemove);
          localIds := localIds + {id.value};
        case Absent =>
          SortOneMore(backend, m, client.providerId, triples, n, toRemove);
          toRemove := toRemove + [t];
        case Failing =>
          return None, triples;
      }
    }
    assert triples[..|triples|] == triples;
    return Some((localIds, toRemove)), triples;
  }

  /** `Provider::new` of PKCS 11: the ids in use are collected instead of their maximum. */
  method StartPkcs11Provider(client: KeyInfoManagerClient, backend: Backend, failing: set<KeyTriple>, session: bool)
    returns (r: Option<set<nat>>)
    modifies client.manager
    ensures r.Some? ==> client.manager.keyStore == backend.Reconciled(old(client.manager.keyStore), client.providerId)
    ensures r.Some? ==> r.value == backend.Ids(client.manager.keyStore, client.providerId).Values
    ensures backend.Reconciled(client.manager.keyStore, client.providerId) ==
            backend.Reconciled(old(client.manager.keyStore), client.providerId)
    ensures session ==> StopsIff(backend, old(client.manager.State()), client.providerId, failing, r.None?)
    ensures Cleaned(backend, old(client.manager.State()), client.manager.disk, client.providerId, r.Some?)
    ensures !session ==> r.None? && client.manager.State() == old(client.manager.State())
  {
    ghost var before := client.manager.State();
    if !session {
      NothingCleaned(backend, before, client.providerId);
      return None;
    }
    var sorted, triples := SortPkcs11Mappings(client, backend);
    if sorted.None? {
      ghost var t :| t in triples && backend.Fails(before.mem[t]);
      StopsEarly(backend, before, client.providerId, failing, t);
      return None;
    }
    var (localIds, toRemove) := sorted.value;
    RemovalReconciles(backend, before.mem, client.providerId, triples, toRemove);
    var ok := RemoveAll(client, toRemove, failing);
    RemovalConcludes(backend, before, client.providerId, triples, toRemove, failing, client.manager.disk, ok);
    if !ok { return None; }
    return Some(localIds);
  }

  lemma ValuesGrow(ids: map<KeyTriple, nat>, t: KeyTriple, id: nat)
    requires t !in ids
    ensures ids[t := id].Values == ids.Values + {id}
  {
    var ids' := ids[t := id];
    assert ids'[t] == id;
    forall v | v in ids.Values ensures v in ids'.Values {
      var u :| u in ids && ids[u] == v;
      assert ids'[u] == v;
    }
  }

  /** No id that start-up kept is issued again by any interleaving of n threads. */
  lemma KeptIdsAreNotReissued(ids: map<KeyTriple, nat>, top: nat, n: nat, acts: seq<IdAllocator.CounterAction>,
                              t: KeyTriple)
    requires Lifecycle.IsTop(ids, top) && top <= IdAllocator.PSA_KEY_ID_USER_MAX && IdAllocator.Fits(n)
    requires IdAllocator.Interleaving(top, n, acts) && t in ids
    ensures ids[t] !in IdAllocator.After(top, acts).granted
  {
    IdAllocator.CreateKeyIdIsSafe(top, n, acts);
  }
}
