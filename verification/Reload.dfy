/** Start-up of the key info manager: the map is rebuilt from the mapping files. */
module Reload {
  import opened Types
  import opened FileNames
  import opened OnDiskManager

  function Subdirs(d: FileTree, p: Path): (r: set<Path>) {
    set q | q in d.dirs && |q| == |p| + 1 && p <= q
  }

  function Subfiles(d: FileTree, p: Path): (r: set<Path>) {
    set f | f in d.files.Keys && |f| == |p| + 1 && p <= f
  }

  /** A file that lies below two listed directories. */
  predicate Reached(d: FileTree, f: Path) {
    f in d.files && |f| == 3 && f[..1] in d.dirs && f[..2] in d.dirs
  }

  function Entry(c: Codec, d: FileTree, f: Path): (r: Option<(KeyTriple, KeyInfo)>)
    requires f in d.files && |f| == 3
  {
    match (c.read(d.files[f]), TripleOf(f))
    case (Some(info), Some(t)) => Some((t, info))
    case _ => None
  }

  /** Every directory can be listed, every file can be read and every file stands for a mapping. */
  ghost predicate Loadable(c: Codec, d: FileTree, faulty: set<Path>) {
    && [] !in faulty
    && (forall p | p in d.dirs && |p| == 1 :: p !in faulty)
    && (forall p | p in d.dirs && |p| == 2 && p[..1] in d.dirs :: p !in faulty)
    && (forall f | Reached(d, f) :: f !in faulty && Entry(c, d, f).Some?)
  }

  /** The map holds an entry for each file of a set, and nothing else. */
  ghost predicate Holds(c: Codec, d: FileTree, m: map<KeyTriple, KeyInfo>, done: iset<Path>) {
    && (forall f | f in done && Reached(d, f) :: Entry(c, d, f).Some? && Entry(c, d, f).value.0 in m)
    && (forall t | t in m :: Gives(c, d, done, t, m[t]))
  }

  /** The mapping in a file: its contents are read, then its name. */
  method LoadFile(c: Codec, d: FileTree, f: Path, faulty: set<Path>) returns (r: Result<(KeyTriple, KeyInfo), IoError>)
    requires f in d.files && |f| == 3
    ensures r.Ok? <==> f !in faulty && Entry(c, d, f).Some?
    ensures r.Ok? ==> Some(r.value) == Entry(c, d, f)
  {
    if f in faulty { return Err(IoError); }
    var info := c.read(d.files[f]);
    if info.None? { return Err(IoError); }
    var t := TripleOf(f);
    if t.None? { return Err(IoError); }
    return Ok((t.value, info.value));
  }

  /** Some file of a set gives the entry. */
  ghost predicate Gives(c: Codec, d: FileTree, done: iset<Path>, t: KeyTriple, info: KeyInfo) {
    exists f :: f in done && Reached(d, f) && Entry(c, d, f) == Some((t, info))
  }

  lemma GivesStill(c: Codec, d: FileTree, done: iset<Path>, more: iset<Path>, t: KeyTriple, info: KeyInfo)
    requires Gives(c, d, done, t, info)
    ensures Gives(c, d, done + more, t, info)
  {
    var f :| f in done && Reached(d, f) && Entry(c, d, f) == Some((t, info));
    assert f in done + more;
  }

  /** One more file and its entry. */
  lemma HoldsOneMore(c: Codec, d: FileTree, m: map<KeyTriple, KeyInfo>, done: iset<Path>, f: Path, t: KeyTriple,
                     info: KeyInfo)
    requires Holds(c, d, m, done) && Reached(d, f) && Entry(c, d, f) == Some((t, info))
    ensures Holds(c, d, m[t := info], done + iset{f})
  {
    var m' := m[t := info];
    assert f in done + iset{f};
    assert Gives(c, d, done + iset{f}, t, info);
    forall u | u in m' ensures Gives(c, d, done + iset{f}, u, m'[u]) {
      if u != t {
        GivesStill(c, d, done, iset{f}, u, m[u]);
      }
    }
  }

  /** The file can be read and stands for a mapping. */
  predicate Loads(c: Codec, d: FileTree, f: Path, faulty: set<Path>) {
    f !in faulty && f in d.files && |f| == 3 && Entry(c, d, f).Some?
  }

  method LoadKey(c: Codec, d: FileTree, f: Path, faulty: set<Path>, m: map<KeyTriple, KeyInfo>, ghost done: iset<Path>)
    returns (r: Result<map<KeyTriple, KeyInfo>, IoError>)
    requires Reached(d, f) && Holds(c, d, m, done)
    ensures r.Ok? <==> Loads(c, d, f, faulty)
    ensures r.Ok? ==> Holds(c, d, r.value, done + iset{f})
  {
    var entry := LoadFile(c, d, f, faulty);
    if entry.Err? { return Err(IoError); }
    HoldsOneMore(c, d, m, done, f, entry.value.0, entry.value.1);
    return Ok(m[entry.value.0 := entry.value.1]);
  }

  /** The files of a provider directory, less some of them. */
  ghost function FilesIn(d: FileTree, provider: Path, keys: set<Path>): (r: iset<Path>) {
    iset f | f in Subfiles(d, provider) && f !in keys
  }

  lemma OneFileMore(d: FileTree, provider: Path, keys: set<Path>, f: Path, done: iset<Path>)
    requires keys <= Subfiles(d, provider) && f in keys
    ensures done + FilesIn(d, provider, keys) + iset{f} == done + FilesIn(d, provider, keys - {f})
  {
  }

  /** The files of one provider directory, in whatever order they come. */
  method LoadKeys(c: Codec, d: FileTree, provider: Path, faulty: set<Path>, m0: map<KeyTriple, KeyInfo>,
                  ghost done: iset<Path>)
    returns (r: Result<map<KeyTriple, KeyInfo>, IoError>)
    requires |provider| == 2 && provider in d.dirs && provider[..1] in d.dirs && Holds(c, d, m0, done)
    ensures r.Ok? <==> forall f | f in Subfiles(d, provider) :: Loads(c, d, f, faulty)
    ensures r.Ok? ==> Holds(c, d, r.value, done + FilesIn(d, provider, {}))
  {
    var m, keys := m0, Subfiles(d, provider);
    assert FilesIn(d, provider, keys) == iset{};
    assert done + iset{} == done;
    while keys != {}
      invariant keys <= Subfiles(d, provider) && Holds(c, d, m, done + FilesIn(d, provider, keys))
      invariant forall f | f in Subfiles(d, provider) && f !in keys :: Loads(c, d, f, faulty)
    {
      var f :| f in keys;
      assert f[..2] == provider && f[..1] == provider[..1];
      var loaded := LoadKey(c, d, f, faulty, m, done + FilesIn(d, provider, keys));
      if loaded.Err? { return Err(IoError); }
      m := loaded.value;
      OneFileMore(d, provider, keys, f, done);
      keys := keys - {f};
    }
    return Ok(m);
  }

  /** The directory can be listed and each of its files loads. */
  ghost predicate DirLoads(c: Codec, d: FileTree, provider: Path, faulty: set<Path>) {
    provider !in faulty && forall f | f in Subfiles(d, provider) :: Loads(c, d, f, faulty)
  }

  /** The files below an application directory, less those below some of its provider directories. */
  ghost function FilesBelow(d: FileTree, app: Path, providers: set<Path>): (r: iset<Path>) {
    iset f | Reached(d, f) && f[..1] == app && f[..2] !in providers
  }

  lemma OneDirMore(d: FileTree, app: Path, providers: set<Path>, provider: Path, done: iset<Path>)
    requires |app| == 1 && app in d.dirs && providers <= Subdirs(d, app) && provider in providers
    ensures done + FilesBelow(d, app, providers) + FilesIn(d, provider, {}) ==
            done + FilesBelow(d, app, providers - {provider})
  {
    assert provider[..1] == app;
    forall f ensures Reached(d, f) && f[..2] == provider <==> f in Subfiles(d, provider) {
      if f in Subfiles(d, provider) {
        assert f[..2] == provider && f[..1] == provider[..1];
      }
    }
  }

  /** The provider directories of one application directory. */
  method LoadProviders(c: Codec, d: FileTree, app: Path, faulty: set<Path>, m0: map<KeyTriple, KeyInfo>,
                       ghost done: iset<Path>)
    returns (r: Result<map<KeyTriple, KeyInfo>, IoError>)
    requires |app| == 1 && app in d.dirs && Holds(c, d, m0, done)
    ensures r.Ok? <==> forall p | p in Subdirs(d, app) :: DirLoads(c, d, p, faulty)
    ensures r.Ok? ==> Holds(c, d, r.value, done + FilesBelow(d, app, {}))
  {
    var m, providers := m0, Subdirs(d, app);
    assert FilesBelow(d, app, providers) == iset{};
    assert done + iset{} == done;
    while providers != {}
      invariant providers <= Subdirs(d, app) && Holds(c, d, m, done + FilesBelow(d, app, providers))
      invariant forall p | p in Subdirs(d, app) && p !in providers :: DirLoads(c, d, p, faulty)
    {
      var provider :| provider in providers;
      assert provider[..1] == app;
      if provider in faulty {
        assert !DirLoads(c, d, provider, faulty);
        return Err(IoError);
      }
      var loaded := LoadKeys(c, d, provider, faulty, m, done + FilesBelow(d, app, providers));
      if loaded.Err? {
        assert !DirLoads(c, d, provider, faulty);
        return Err(IoError);
      }
      m := loaded.value;
      OneDirMore(d, app, providers, provider, done);
      providers := providers - {provider};
    }
    return Ok(m);
  }

  /** The application directory can be listed and everything below it loads. */
  ghost predicate AppLoads(c: Codec, d: FileTree, app: Path, faulty: set<Path>) {
    app !in faulty && forall p | p in Subdirs(d, app) :: DirLoads(c, d, p, faulty)
  }

  lemma LoadableByDirs(c: Codec, d: FileTree, faulty: set<Path>)
    ensures Loadable(c, d, faulty) <==> [] !in faulty && forall app | app in Subdirs(d, []) :: AppLoads(c, d, app, faulty)
  {
    if Loadable(c, d, faulty) {
      forall app, p, f | app in Subdirs(d, []) && p in Subdirs(d, app) && f in Subfiles(d, p)
        ensures Loads(c, d, f, faulty)
      {
        assert p[..1] == app && f[..2] == p && f[..1] == p[..1] && Reached(d, f);
      }
      forall app, p | app in Subdirs(d, []) && p in Subdirs(d, app) ensures p !in faulty {
        assert p[..1] == app;
      }
    }
    if [] !in faulty && forall app | app in Subdirs(d, []) :: AppLoads(c, d, app, faulty) {
      assert forall p | p in d.dirs && |p| == 1 :: p in Subdirs(d, []);
      forall p | p in d.dirs && |p| == 2 && p[..1] in d.dirs ensures DirLoads(c, d, p, faulty) {
        assert AppLoads(c, d, p[..1], faulty) && p in Subdirs(d, p[..1]);
      }
      forall f | Reached(d, f) ensures Loads(c, d, f, faulty) {
        assert f[..2][..1] == f[..1] && DirLoads(c, d, f[..2], faulty) && f in Subfiles(d, f[..2]);
      }
    }
  }

  /** `new`: lists three levels in whatever order the directories come. */
  method LoadMappings(c: Codec, d: FileTree, faulty: set<Path>) returns (r: Result<map<KeyTriple, KeyInfo>, IoError>)
    ensures r.Ok? <==> Loadable(c, d, faulty)
    ensures r.Ok? ==> Holds(c, d, r.value, iset f | Reached(d, f))
  {
    LoadableByDirs(c, d, faulty);
    if [] in faulty { return Err(IoError); }
    var m, apps := map[], Subdirs(d, []);
    ghost var done: iset<Path> := iset{};
    while apps != {}
      invariant apps <= Subdirs(d, []) && Holds(c, d, m, done)
      invariant done == iset f | Reached(d, f) && f[..1] !in apps
      invariant forall app | app in Subdirs(d, []) && app !in apps :: AppLoads(c, d, app, faulty)
    {
      var app :| app in apps;
      if app in faulty {
        assert !AppLoads(c, d, app, faulty);
        return Err(IoError);
      }
      var loaded := LoadProviders(c, d, app, faulty, m, done);
      if loaded.Err? {
        assert !AppLoads(c, d, app, faulty);
        return Err(IoError);
      }
      m := loaded.value;
      apps := apps - {app};
      done := done + FilesBelow(d, app, {});
    }
    return Ok(m);
  }

  /** An empty key name is refused: its path is a directory, which can be neither removed nor created. */
  lemma EmptyKeyIsRefused(c: Codec, s: Store, t: KeyTriple, info: KeyInfo, fault: SaveFault)
    requires t.key == []
    ensures Insert(c, s, t, info, fault).1.Err?
  {
    EmptyKeyIsDirectory(t);
    PathDepth(t);
    var d1 := MakeDirs(s.disk, DirOf(t), |DirOf(t)|);
    assert PathOf(t) in d1.dirs;
  }

  lemma {:induction false} RunIsSaved(c: Codec, es: seq<Event>)
    ensures Saved(Run(c, es).disk)
    ensures forall t | t in Run(c, es).mem :: t.key != []
  {
    if es == [] {
    } else {
      var before, e := es[..|es| - 1], es[|es| - 1];
      var s := Run(c, before);
      RunIsSaved(c, before);
      StepTouches(c, s, e);
      TouchKeepsSaved(s.disk, Run(c, es).disk, e.t);
      if e.InsertEvent? && e.t.key == [] {
        EmptyKeyIsRefused(c, s, e.t, e.info, e.fault);
      }
    }
  }

  /** In every run, exactly when a call succeeds. */
  lemma CallSucceedsIff(c: Codec, es: seq<Event>, e: Event)
    ensures var d := Run(c, es).disk;
            Step(c, Run(c, es), e).1.Ok? <==>
            match e
            case InsertEvent(t, _, fault) =>
              t.key != [] && (fault.NoFault? || (fault.RemoveFails? && PathOf(t) !in d.files))
            case RemoveEvent(t, fails) =>
              if t.key == [] then DirOf(t) !in d.dirs else PathOf(t) in d.files ==> !fails
  {
    RunIsSaved(c, es);
    match e
    case InsertEvent(t, info, fault) => InsertSucceedsIff(c, Run(c, es), t, info, fault);
    case RemoveEvent(t, fails) => RemoveSucceedsIff(Run(c, es), t, fails);
  }

  /** In a saved tree, the files that are read are the files of the triples with two non-empty names. */
  lemma ReachedInSaved(d: FileTree, f: Path) returns (t: KeyTriple)
    requires Saved(d) && Reached(d, f)
    ensures f == PathOf(t) && t.app != [] && t.key != [] && TripleOf(f) == Some(t)
  {
    t :| t.key != [] && f == PathOf(t);
    PathDepth(t);
    TripleOfInvertsPathOf(t);
  }

  lemma DirsReach(d: FileTree, t: KeyTriple)
    requires HasDirs(d, DirOf(t)) && PathOf(t) in d.files && t.app != [] && t.key != []
    ensures Reached(d, PathOf(t))
  {
    PathDepth(t);
    var f := PathOf(t);
    assert f[..1] <= DirOf(t) && f[..2] <= DirOf(t);
  }

  lemma SavedIsReached(d: FileTree, t: KeyTriple)
    requires Saved(d) && PathOf(t) in d.files && t.app != [] && t.key != []
    ensures Reached(d, PathOf(t))
  {
    DirsReach(d, t);
  }

  /** The mappings that survive a restart: those whose application name is not empty. */
  function Reloaded(m: map<KeyTriple, KeyInfo>): (r: map<KeyTriple, KeyInfo>) {
    map t | t in m && t.app != [] :: m[t]
  }

  /** A file that is read back holds the mapping that memory holds. */
  lemma ReadBackIsMapped(c: Codec, es: seq<Event>, f: Path)
    requires c.RoundTrips() && Suspects(c, es) == {} && Reached(Run(c, es).disk, f)
    ensures var s := Run(c, es); exists t :: t in s.mem && t.app != [] && Entry(c, s.disk, f) == Some((t, s.mem[t]))
  {
    RunIsSaved(c, es);
    var t := ReachedInSaved(Run(c, es).disk, f);
    MemoryAndDiskAgree(c, es, t);
    assert t in Run(c, es).mem;
  }

  /** A mapping that memory holds is read back from its file. */
  lemma MappedIsReadBack(c: Codec, es: seq<Event>, t: KeyTriple)
    requires c.RoundTrips() && Suspects(c, es) == {} && t in Run(c, es).mem && t.app != []
    ensures Reached(Run(c, es).disk, PathOf(t))
    ensures Entry(c, Run(c, es).disk, PathOf(t)) == Some((t, Run(c, es).mem[t]))
  {
    RunIsSaved(c, es);
    MemoryAndDiskAgree(c, es, t);
    SavedIsReached(Run(c, es).disk, t);
    TripleOfInvertsPathOf(t);
  }

  /** A run that leaves no suspect triple can be loaded. */
  lemma SavedRunIsLoadable(c: Codec, es: seq<Event>)
    requires c.RoundTrips() && Suspects(c, es) == {}
    ensures Loadable(c, Run(c, es).disk, {})
  {
    forall f | Reached(Run(c, es).disk, f) ensures Entry(c, Run(c, es).disk, f).Some? {
      ReadBackIsMapped(c, es, f);
    }
  }

  /**
   Reading back inverts saving: after any run that leaves no suspect triple, whatever map the loader
   builds from the disk is the map in memory, without the mappings of the empty application name.
   */
  lemma ReloadInvertsSaving(c: Codec, es: seq<Event>, m: map<KeyTriple, KeyInfo>)
    requires c.RoundTrips() && Suspects(c, es) == {}
    requires Holds(c, Run(c, es).disk, m, iset f | Reached(Run(c, es).disk, f))
    ensures m == Reloaded(Run(c, es).mem)
  {
    var mem, d := Run(c, es).mem, Run(c, es).disk;
    forall t | t in m ensures t in mem && t.app != [] && m[t] == mem[t] {
      var f :| Reached(d, f) && Entry(c, d, f) == Some((t, m[t]));
      ReadBackIsMapped(c, es, f);
    }
    forall t | t in mem && t.app != [] ensures t in m {
      MappedIsReadBack(c, es, t);
    }
  }

  /** Exactly when nothing is lost by a restart: no mapping has the empty application name. */
  lemma ReloadIsExact(m: map<KeyTriple, KeyInfo>)
    ensures Reloaded(m) == m <==> forall t | t in m :: t.app != []
  {
    if Reloaded(m) == m {
      assert forall t | t in m :: t in Reloaded(m);
    }
  }

  lemma HeldFile(c: Codec, d: FileTree, m: map<KeyTriple, KeyInfo>, t: KeyTriple) returns (f: Path)
    requires Holds(c, d, m, iset f | Reached(d, f)) && t in m
    ensures Reached(d, f) && TripleOf(f) == Some(t) && c.read(d.files[f]) == Some(m[t])
  {
    f :| Reached(d, f) && Entry(c, d, f) == Some((t, m[t]));
  }

  /** An entry of the reloaded map is what the file of its triple reads as. */
  lemma HeldIsRead(c: Codec, d: FileTree, m: map<KeyTriple, KeyInfo>, t: KeyTriple)
    requires Saved(d) && Holds(c, d, m, iset f | Reached(d, f)) && t in m
    ensures t.app != [] && PathOf(t) in d.files && c.read(d.files[PathOf(t)]) == Some(m[t])
  {
    var f := HeldFile(c, d, m, t);
    var u := ReachedInSaved(d, f);
  }

  lemma FileIsHeld(c: Codec, d: FileTree, m: map<KeyTriple, KeyInfo>, t: KeyTriple, f: Path)
    requires Holds(c, d, m, iset f | Reached(d, f)) && Reached(d, f) && TripleOf(f) == Some(t)
    ensures t in m
  {
  }

  /** The file of a triple with no empty name is in the reloaded map. */
  lemma SavedIsHeld(c: Codec, d: FileTree, m: map<KeyTriple, KeyInfo>, t: KeyTriple)
    requires Saved(d) && Holds(c, d, m, iset f | Reached(d, f)) && PathOf(t) in d.files && t.app != [] && t.key != []
    ensures t in m
  {
    SavedIsReached(d, t);
    TripleOfInvertsPathOf(t);
    FileIsHeld(c, d, m, t, PathOf(t));
  }

  /** A mapping of the empty application name is stored and then lost: the reload does not find it. */
  lemma EmptyApplicationIsLost(c: Codec, t: KeyTriple, info: KeyInfo, m: map<KeyTriple, KeyInfo>)
    requires c.RoundTrips() && t.app == [] && t.key != []
    requires var d := Run(c, [InsertEvent(t, info, NoFault)]).disk; Holds(c, d, m, iset f | Reached(d, f))
    ensures t in Run(c, [InsertEvent(t, info, NoFault)]).mem && t !in m
  {
    var e := InsertEvent(t, info, NoFault);
    RunExtends(c, [], e);
    assert [] + [e] == [e] && [e][..0] == [];
    FirstInsert(c, t, info);
    assert Suspects(c, [e]) == {};
    ReloadInvertsSaving(c, [e], m);
  }
}
