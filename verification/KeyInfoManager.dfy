/** The key info manager object and the client through which a provider uses it. */
module KeyInfoManager {
  import opened Types
  import opened FileNames
  import opened OnDiskManager
  import PsaAttributes
  import Reload

  lemma Overwritten(files: map<Path, seq<Byte>>, file: Path, first: seq<Byte>, second: seq<Byte>)
    ensures files[file := first][file := second] == files[file := second]
  {
  }

  class OnDiskKeyInfoManager {
    const codec: Codec
    var keyStore: map<KeyTriple, KeyInfo>
    var disk: FileTree

    constructor (codec: Codec, keyStore: map<KeyTriple, KeyInfo>, disk: FileTree)
      ensures this.codec == codec && this.keyStore == keyStore && this.disk == disk
    {
      this.codec, this.keyStore, this.disk := codec, keyStore, disk;
    }

    /** The manager of a mappings directory, or an error when a mapping cannot be read. */
    static method New(codec: Codec, disk: FileTree, faulty: set<Path>)
      returns (r: Result<OnDiskKeyInfoManager, IoError>)
      ensures r.Ok? <==> Reload.Loadable(codec, disk, faulty)
      ensures r.Ok? ==> fresh(r.value) && r.value.codec == codec && r.value.disk == disk
      ensures r.Ok? ==> Reload.Holds(codec, disk, r.value.keyStore, iset f | Reload.Reached(disk, f))
    {
      var loaded := Reload.LoadMappings(codec, disk, faulty);
      if loaded.Err? { return Err(IoError); }
      var manager := new OnDiskKeyInfoManager(codec, loaded.value, disk);
      return Ok(manager);
    }

    ghost function State(): (s: Store)
      reads this
    {
      Store(keyStore, disk)
    }

    method SaveMapping(t: KeyTriple, info: KeyInfo, fault: SaveFault) returns (r: Result<(), IoError>)
      modifies this`disk
      ensures (disk, r.Ok?) == Save(old(disk), DirOf(t), PathOf(t), codec.write(info), fault)
    {
      var dir, file := DirOf(t), PathOf(t);
      if fault.MkdirFails? {
        disk := MakeDirs(disk, dir, fault.made);
        return Err(IoError);
      }
      if Blocked(disk, dir) { return Err(IoError); }
      disk := MakeDirs(disk, dir, |dir|);
      ghost var made := disk;
      if Exists(disk, file) {
        if file in disk.dirs || fault.RemoveFails? { return Err(IoError); }
        disk := disk.(files := disk.files - {file});
      }
      assert disk == made.(files := made.files - {file});
      if fault.CreateFails? { return Err(IoError); }
      disk := disk.(files := disk.files[file := []]);
      var bytes := codec.write(info);
      Overwritten(made.files - {file}, file, [], if fault.WriteFails? then Prefix(bytes, fault.written) else bytes);
      if fault.WriteFails? {
        disk := disk.(files := disk.files[file := Prefix(bytes, fault.written)]);
        return Err(IoError);
      }
      disk := disk.(files := disk.files[file := bytes]);
      return Ok(());
    }

    method DeleteMapping(t: KeyTriple, fails: bool) returns (r: Result<(), IoError>)
      modifies this`disk
      ensures (disk, r.Ok?) == Delete(old(disk), PathOf(t), fails)
      ensures r.Ok? <==> CanDelete(old(disk), t, fails)
      ensures disk == if r.Ok? then old(disk).(files := old(disk).files - {PathOf(t)}) else old(disk)
    {
      var file := PathOf(t);
      if !Exists(disk, file) { return Ok(()); }
      if fails || file in disk.dirs { return Err(IoError); }
      disk := disk.(files := disk.files - {file});
      return Ok(());
    }

    method Get(t: KeyTriple) returns (r: Option<KeyInfo>)
      ensures r == Lookup(State(), t)
    {
      r := if t in keyStore then Some(keyStore[t]) else None;
    }

    /** The triples of a provider, once each, in any order. */
    method GetAll(provider: ProviderId) returns (r: seq<KeyTriple>)
      ensures forall i, j | 0 <= i < j < |r| :: r[i] != r[j]
      ensures forall t :: t in r <==> t in keyStore && t.provider == provider
    {
      r := [];
      var todo := keyStore.Keys;
      while todo != {}
        invariant todo <= keyStore.Keys
        invariant forall i, j | 0 <= i < j < |r| :: r[i] != r[j]
        invariant forall t :: t in r <==> t in keyStore && t.provider == provider && t !in todo
      {
        var t :| t in todo;
        todo := todo - {t};
        if t.provider == provider {
          r := r + [t];
        }
      }
    }

    method InsertMapping(t: KeyTriple, info: KeyInfo, fault: SaveFault) returns (r: Result<Option<KeyInfo>, IoError>)
      modifies this
      ensures (State(), r) == Insert(codec, old(State()), t, info, fault)
    {
      var saved := SaveMapping(t, info, fault);
      if saved.Err? { return Err(IoError); }
      r := Ok(if t in keyStore then Some(keyStore[t]) else None);
      keyStore := keyStore[t := info];
    }

    method RemoveMapping(t: KeyTriple, fails: bool) returns (r: Result<Option<KeyInfo>, IoError>)
      modifies this
      ensures (State(), r) == Remove(old(State()), t, fails)
      ensures r.Ok? <==> CanDelete(old(disk), t, fails)
      ensures r == if r.Ok? then Ok(old(Lookup(State(), t))) else Err(IoError)
      ensures keyStore == if r.Ok? then old(keyStore) - {t} else old(keyStore)
    {
      RemoveIsExact(State(), t, fails);
      var deleted := DeleteMapping(t, fails);
      if deleted.Err? { return Err(IoError); }
      r := Ok(if t in keyStore then Some(keyStore[t]) else None);
      keyStore := keyStore - {t};
    }

    method MappingExists(t: KeyTriple) returns (r: bool)
      ensures r <==> Lookup(State(), t).Some?
    {
      r := t in keyStore;
    }
  }

  /** What a key listing reports of a key. */
  datatype ListedKey = ListedKey(provider: ProviderId, name: Name, attributes: PsaAttributes.Attributes)

  /** The calls of one application through the client of one provider. */
  datatype Call =
    | GetKeyId(key: Name)
    | GetKeyAttributes(key: Name)
    | InsertKeyInfo(key: Name, info: KeyInfo, fault: SaveFault)
    | RemoveKeyInfo(key: Name, fails: bool)
    | DoesNotExist(key: Name)
    | ListKeys

  datatype Answer =
    | Id(id: Result<seq<Byte>, ResponseStatus>)
    | KeyAttributes(attributes: Result<PsaAttributes.Attributes, ResponseStatus>)
    | Done(done: Result<(), ResponseStatus>)
    | Keys(keys: set<ListedKey>)

  /** Inserting reports an existing mapping as an error although it has overwritten it. */
  function InsertStatus(r: Result<Option<KeyInfo>, IoError>): (a: Result<(), ResponseStatus>) {
    match r
    case Ok(None) => Ok(())
    case Ok(Some(_)) => Err(PsaErrorAlreadyExists)
    case Err(_) => Err(KeyInfoManagerError)
  }

  function RemoveStatus(r: Result<Option<KeyInfo>, IoError>): (a: Result<(), ResponseStatus>) {
    match r
    case Ok(Some(_)) => Ok(())
    case Ok(None) => Err(PsaErrorDoesNotExist)
    case Err(_) => Err(KeyInfoManagerError)
  }

  function Listing(m: map<KeyTriple, KeyInfo>, app: Name, provider: ProviderId): (r: set<ListedKey>) {
    set t | t in m.Keys && t.app == app && t.provider == provider :: ListedKey(provider, t.key, m[t].attributes)
  }

  class KeyInfoManagerClient {
    const providerId: ProviderId
    const manager: OnDiskKeyInfoManager

    constructor (providerId: ProviderId, manager: OnDiskKeyInfoManager)
      ensures this.providerId == providerId && this.manager == manager
    {
      this.providerId, this.manager := providerId, manager;
    }

    method KeyIdOf<T>(t: KeyTriple, decode: seq<Byte> -> Option<T>) returns (r: Result<T, ResponseStatus>)
      ensures match Lookup(manager.State(), t)
              case None => r == Err(PsaErrorDoesNotExist)
              case Some(info) => r == if decode(info.id).Some? then Ok(decode(info.id).value) else Err(InvalidEncoding)
    {
      var info := manager.Get(t);
      if info.None? { return Err(PsaErrorDoesNotExist); }
      match decode(info.value.id) {
        case None => return Err(InvalidEncoding);
        case Some(id) => return Ok(id);
      }
    }

    method KeyAttributesOf(t: KeyTriple) returns (r: Result<PsaAttributes.Attributes, ResponseStatus>)
      ensures r == match Lookup(manager.State(), t)
                   case None => Err(PsaErrorDoesNotExist)
                   case Some(info) => Ok(info.attributes)
    {
      var info := manager.Get(t);
      if info.None? { return Err(PsaErrorDoesNotExist); }
      return Ok(info.value.attributes);
    }

    method DoesNotExist(t: KeyTriple) returns (r: Result<(), ResponseStatus>)
      ensures r == if Lookup(manager.State(), t).Some? then Err(PsaErrorAlreadyExists) else Ok(())
    {
      var exists' := manager.MappingExists(t);
      return if exists' then Err(PsaErrorAlreadyExists) else Ok(());
    }

    method Insert(t: KeyTriple, info: KeyInfo, fault: SaveFault) returns (r: Result<(), ResponseStatus>)
      modifies manager
      ensures manager.State() == OnDiskManager.Insert(manager.codec, old(manager.State()), t, info, fault).0
      ensures r == InsertStatus(OnDiskManager.Insert(manager.codec, old(manager.State()), t, info, fault).1)
      ensures r.Ok? <==> t !in old(manager.keyStore) && manager.keyStore == old(manager.keyStore)[t := info]
      ensures r == Err(PsaErrorAlreadyExists) <==> t in old(manager.keyStore) && r != Err(KeyInfoManagerError)
      ensures r == Err(KeyInfoManagerError) <==>
              OnDiskManager.Insert(manager.codec, old(manager.State()), t, info, fault).1.Err?
      ensures manager.keyStore ==
              if r == Err(KeyInfoManagerError) then old(manager.keyStore) else old(manager.keyStore)[t := info]
    {
      var old' := manager.InsertMapping(t, info, fault);
      match old' {
        case Ok(None) => return Ok(());
        case Ok(Some(_)) => return Err(PsaErrorAlreadyExists);
        case Err(_) => return Err(KeyInfoManagerError);
      }
    }

    method Remove(t: KeyTriple, fails: bool) returns (r: Result<(), ResponseStatus>)
      modifies manager
      ensures manager.State() == OnDiskManager.Remove(old(manager.State()), t, fails).0
      ensures r == RemoveStatus(OnDiskManager.Remove(old(manager.State()), t, fails).1)
      ensures r.Ok? <==> t in old(manager.keyStore) && CanDelete(old(manager.disk), t, fails)
      ensures r == Err(PsaErrorDoesNotExist) <==> t !in old(manager.keyStore) && CanDelete(old(manager.disk), t, fails)
      ensures r == Err(KeyInfoManagerError) <==> !CanDelete(old(manager.disk), t, fails)
      ensures manager.keyStore ==
              if CanDelete(old(manager.disk), t, fails) then old(manager.keyStore) - {t} else old(manager.keyStore)
    {
      var old' := manager.RemoveMapping(t, fails);
      match old' {
        case Ok(Some(_)) => return Ok(());
        case Ok(None) => return Err(PsaErrorDoesNotExist);
        case Err(_) => return Err(KeyInfoManagerError);
      }
    }

    /** The keys of an application in this provider, each mapping exactly once. */
    method ListKeysOf(app: Name) returns (r: seq<ListedKey>)
      ensures forall i, j | 0 <= i < j < |r| :: r[i].name != r[j].name
      ensures forall k :: k in r <==> k in Listing(manager.keyStore, app, providerId)
    {
      r := [];
      var triples := manager.GetAll(providerId);
      for n := 0 to |triples|
        invariant forall i, j | 0 <= i < j < |r| :: r[i].name != r[j].name
        invariant forall k :: k in r <==>
          exists t :: t in triples[..n] && t.app == app && t in manager.keyStore &&
                      k == ListedKey(providerId, t.key, manager.keyStore[t].attributes)
      {
        var t := triples[n];
        if t.app != app { continue; }
        var info := manager.Get(t);
        if info.None? { continue; }
        assert forall k | k in r :: k.name != t.key by {
          forall k | k in r ensures k.name != t.key {
            var t' :| t' in triples[..n] && t'.app == app && t' in manager.keyStore
                      && k == ListedKey(providerId, t'.key, manager.keyStore[t'].attributes);
            assert t' in triples && t' != t;
          }
        }
        r := r + [ListedKey(t.provider, t.key, info.value.attributes)];
      }
    }

    /** The applications that own a mapping in this provider, once each. */
    method ListClients() returns (r: seq<Name>)
      ensures forall i, j | 0 <= i < j < |r| :: r[i] != r[j]
      ensures forall app :: app in r <==> exists t :: t in manager.keyStore && t.provider == providerId && t.app == app
    {
      r := [];
      var triples := manager.GetAll(providerId);
      for n := 0 to |triples|
        invariant forall i, j | 0 <= i < j < |r| :: r[i] != r[j]
        invariant forall app :: app in r <==> exists t :: t in triples[..n] && t.app == app
      {
        if triples[n].app !in r {
          r := r + [triples[n].app];
        }
      }
    }
  }
}
